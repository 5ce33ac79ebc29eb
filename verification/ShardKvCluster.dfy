/** Many groups, their logs, and the messages between them. */
module ShardKvCluster {
  import opened Options
  import opened ShardKvServer

  /** A client and the number of one of its commands. */
  datatype Cmd = Cmd(client: nat, num: nat)

  /** What does not change in a run: the groups, the configuration of every number, and the
      command each client numbers n. Nobody but the owners a configuration names acts on it. */
  datatype Setting = Setting(gids: set<nat>, configs: nat -> seq<nat>, script: Cmd -> Op)

  ghost predicate Sane(e: Setting) {
    && 0 !in e.gids
    && (forall k: nat :: |e.configs(k)| == NSHARDS)
    && e.configs(0) == seq(NSHARDS, _ => 0)
    && (forall s: nat :: s < NSHARDS ==> e.configs(1)[s] in e.gids)
    && (forall cmd: Cmd ::
          e.script(cmd).ClientCmd? && e.script(cmd).clientId == cmd.client && e.script(cmd).cmdNum == cmd.num)
  }

  ghost function Owner(e: Setting, k: nat, s: nat): nat
    requires Sane(e) && s < NSHARDS
  {
    e.configs(k)[s]
  }

  ghost function ConfigAt(e: Setting, k: nat): Config {
    Config(k, e.configs(k))
  }

  ghost function ShardOf(e: Setting, cmd: Cmd): nat
    requires Sane(e)
  {
    Key2Shard(e.script(cmd).key)
  }

  ghost predicate IsWrite(e: Setting, cmd: Cmd)
    requires Sane(e)
  {
    e.script(cmd).opType != Get
  }

  /** The content of a shard after these commands, each executed once, in order. */
  ghost function Replay(e: Setting, cmds: seq<Cmd>): Shard
    requires Sane(e)
  {
    if cmds == [] then map[]
    else
      var op := e.script(cmds[|cmds| - 1]);
      Execute(Replay(e, cmds[..|cmds| - 1]), op.opType, op.key, op.value).0
  }

  datatype Message =
    | MigrateAsk(from: nat, to: nat, cfg: nat, shard: nat)
    | MigrateRep(to: nat, cfg: nat, shard: nat, data: Shard, sess: Sessions)
    | AckAsk(from: nat, to: nat, cfg: nat, shard: nat)
    | AckRep(to: nat, cfg: nat, shard: nat)
    | Answer(client: nat, num: nat, reply: Reply)

  /** groups: every state a group has been in, the last one the newest; a replica that lags, and a
      leader that does not know it was replaced, is in an older one.
      proposed: what was given to a group's log; any of it may be applied, any number of times.
      net: all messages ever sent; none is taken away, so each may be late, lost or repeated.
      nums: the number of a client's current command, 1 at first.
      level and exec are history: the configuration whose owner has come to hold a shard, and the
      writes executed on the shard so far. */
  datatype World = World(
    groups: map<nat, seq<KvState>>, proposed: map<nat, set<Op>>, net: set<Message>, nums: map<nat, nat>,
    level: seq<nat>, exec: seq<seq<Cmd>>)

  ghost predicate ShapeOk(e: Setting, w: World) {
    && w.groups.Keys == e.gids && w.proposed.Keys == e.gids
    && (forall g :: g in e.gids ==> |w.groups[g]| > 0)
    && (forall g, i: nat :: g in e.gids && i < |w.groups[g]| ==> Shaped(w.groups[g][i]))
    && |w.level| == NSHARDS && |w.exec| == NSHARDS
  }

  ghost function Last(e: Setting, w: World, g: nat): KvState
    requires ShapeOk(e, w) && g in e.gids
  {
    w.groups[g][|w.groups[g]| - 1]
  }

  ghost function Cur(e: Setting, w: World, g: nat): nat
    requires ShapeOk(e, w) && g in e.gids
  {
    Last(e, w, g).cur.num
  }

  ghost function Num(w: World, client: nat): nat {
    if client in w.nums then w.nums[client] else 1
  }

  ghost function InitWorld(e: Setting): World {
    World(map g | g in e.gids :: [InitState()], map g | g in e.gids :: {}, {}, map[],
          seq(NSHARDS, _ => 0), seq(NSHARDS, _ => []))
  }

  /** i is the place, among the states of the group, of the state the acting replica is in. */
  datatype Step =
    | Poll(g: nat, i: nat)
    | AskShard(g: nat, i: nat, s: nat)
    | AnswerMigrate(g: nat, i: nat, ask: Message)
    | TakeShard(g: nat, rep: Message)
    | AskAck(g: nat, i: nat, s: nat)
    | AnswerAck(g: nat, i: nat, ask: Message)
    | TakeAck(g: nat, rep: Message)
    | Submit(g: nat, client: nat, num: nat)
    | AnswerSession(g: nat, i: nat, client: nat, num: nat)
    | Finish(client: nat, reply: Reply)
    | ApplyOp(g: nat, op: Op)

  ghost predicate IsState(e: Setting, w: World, g: nat, i: nat)
    requires ShapeOk(e, w)
  {
    g in e.gids && i < |w.groups[g]|
  }

  ghost predicate Enabled(e: Setting, w: World, step: Step)
    requires Sane(e) && ShapeOk(e, w)
  {
    match step
    case Poll(g, i) => IsState(e, w, g, i) && Ready(w.groups[g][i])
    case AskShard(g, i, s) => IsState(e, w, g, i) && s < NSHARDS && w.groups[g][i].owned[s] == WaitGet
    case AnswerMigrate(g, i, ask) =>
      ask in w.net && ask.MigrateAsk? && ask.to == g && IsState(e, w, g, i) && ask.shard < NSHARDS
      && OnMigrateShard(w.groups[g][i], ask.cfg, ask.shard).err == OK
    case TakeShard(g, rep) => rep in w.net && rep.MigrateRep? && rep.to == g && g in e.gids
    case AskAck(g, i, s) => IsState(e, w, g, i) && s < NSHARDS && w.groups[g][i].owned[s] == WaitGive
    case AnswerAck(g, i, ask) =>
      ask in w.net && ask.AckAsk? && ask.to == g && IsState(e, w, g, i) && ask.shard < NSHARDS
      && OnAckReceive(w.groups[g][i], ask.cfg, ask.shard) == AckReply(true, OK)
    case TakeAck(g, rep) => rep in w.net && rep.AckRep? && rep.to == g && g in e.gids
    case Submit(g, client, num) => g in e.gids && 1 <= num <= Num(w, client)
    case AnswerSession(g, i, client, num) =>
      IsState(e, w, g, i) && client in w.groups[g][i].sessions && w.groups[g][i].sessions[client].lastCmdNum == num
    case Finish(client, reply) =>
      Answer(client, Num(w, client), reply) in w.net
      && (reply.err == OK || (reply.err == ErrNoKey && !IsWrite(e, Cmd(client, Num(w, client)))))
    case ApplyOp(g, op) => g in e.gids && op in w.proposed[g] && WellShaped(op)
  }

  predicate WellShaped(op: Op) {
    && (op.UpdateConfig? ==> |op.newConfig.shards| == NSHARDS)
    && (op.GetShard? || op.GiveShard? ==> op.shardNum < NSHARDS)
  }

  ghost function Propose(w: World, g: nat, op: Op): World
    requires g in w.proposed
  {
    w.(proposed := w.proposed[g := w.proposed[g] + {op}])
  }

  ghost function Send(w: World, m: Message): World {
    w.(net := w.net + {m})
  }

  function RunOp(g: nat, st: KvState, op: Op): KvState
    requires Shaped(st) && WellShaped(op)
  {
    match op
    case ClientCmd(_, _, _, _, _) => OnClientCmd(st, op).0
    case UpdateConfig(_, _) => OnUpdateConfig(g, st, op)
    case GetShard(_, _, _, _) => OnGetShard(st, op)
    case GiveShard(_, _) => OnGiveShard(st, op)
    case EmptyOp => st
  }

  /** Applying this command executes a write. */
  predicate Executes(st: KvState, op: Op)
    requires Shaped(st)
  {
    && op.ClientCmd? && op.opType != Get && st.owned[Key2Shard(op.key)] == Exist
    && !(op.clientId in st.sessions && op.cmdNum <= st.sessions[op.clientId].lastCmdNum)
  }

  /** Whoever has a shard in Exist holds it for its own configuration. */
  ghost function NewLevel(w: World, st: KvState): seq<nat>
    requires Shaped(st) && |w.level| == NSHARDS
  {
    seq(NSHARDS, s requires 0 <= s < NSHARDS => if st.owned[s] == Exist then st.cur.num else w.level[s])
  }

  ghost function NewExec(w: World, st: KvState, op: Op): seq<seq<Cmd>>
    requires Shaped(st) && |w.exec| == NSHARDS
  {
    if Executes(st, op) then
      var s := Key2Shard(op.key);
      w.exec[s := w.exec[s] + [Cmd(op.clientId, op.cmdNum)]]
    else w.exec
  }

  ghost function Answers(st: KvState, op: Op): set<Message>
    requires Shaped(st)
  {
    if op.ClientCmd?
      && OnClientCmd(st, op).1.Some? then {Answer(op.clientId, op.cmdNum, OnClientCmd(st, op).1.value)} else {}
  }

  ghost function Applied(e: Setting, w: World, g: nat, op: Op): World
    requires ShapeOk(e, w) && g in e.gids && WellShaped(op)
  {
    var st := Last(e, w, g);
    var st' := RunOp(g, st, op);
    w.(groups := w.groups[g := w.groups[g] + [st']], net := w.net + Answers(st, op),
       level := if Shaped(st') then NewLevel(w, st') else w.level, exec := NewExec(w, st, op))
  }

  ghost function Next(e: Setting, w: World, step: Step): World
    requires Sane(e) && ShapeOk(e, w) && Enabled(e, w, step)
  {
    match step
    case Poll(g, i) =>
      var k := w.groups[g][i].cur.num + 1;
      Propose(w, g, UpdateConfig(ConfigAt(e, k), k))
    case AskShard(g, i, s) =>
      var st := w.groups[g][i];
      if s < |st.pre.shards| then Send(w, MigrateAsk(g, st.pre.shards[s], st.cur.num, s)) else w
    case AnswerMigrate(g, i, ask) =>
      var reply := OnMigrateShard(w.groups[g][i], ask.cfg, ask.shard);
      Send(w, MigrateRep(ask.from, ask.cfg, ask.shard, reply.shardData, reply.sessionData))
    case TakeShard(g, rep) => Propose(w, g, GetShard(rep.cfg, rep.shard, rep.data, rep.sess))
    case AskAck(g, i, s) =>
      var st := w.groups[g][i];
      Send(w, AckAsk(g, st.cur.shards[s], st.cur.num, s))
    case AnswerAck(g, i, ask) => Send(w, AckRep(ask.from, ask.cfg, ask.shard))
    case TakeAck(g, rep) => Propose(w, g, GiveShard(rep.cfg, rep.shard))
    case Submit(g, client, num) => Propose(w, g, e.script(Cmd(client, num)))
    case AnswerSession(g, i, client, num) => Send(w, Answer(client, num, w.groups[g][i].sessions[client].response))
    case Finish(client, reply) => w.(nums := w.nums[client := Num(w, client) + 1])
    case ApplyOp(g, op) => Applied(e, w, g, op)
  }

  ghost predicate Steps(e: Setting, w: World, w': World)
    requires Sane(e)
  {
    ShapeOk(e, w) && exists step: Step :: Enabled(e, w, step) && w' == Next(e, w, step)
  }

  ghost predicate IsRun(e: Setting, run: seq<World>)
    requires Sane(e)
  {
    && |run| > 0 && run[0] == InitWorld(e)
    && (forall k: nat :: k + 1 < |run| ==> Steps(e, run[k], run[k + 1]))
  }
}
