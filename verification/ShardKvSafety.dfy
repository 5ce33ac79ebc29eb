/** What holds in every run of the sharded service. */
module ShardKvSafety {
  import opened Options
  import opened ShardKvServer
  import opened ShardKvCluster
  import opened ShardKvInvariant
  import opened ShardKvProof
  import opened ShardKvApply
  import opened ShardKvKeeps

  lemma StepInv(e: Setting, w: World, step: Step)
    requires Sane(e) && ShapeOk(e, w) && Inv(e, w) && Enabled(e, w, step)
    ensures Inv(e, Next(e, w, step))
  {
    hide Inv, Next, Enabled;
    match step {
      case Poll(_, _) => PollInv(e, w, step);
      case AskShard(_, _, _) => AskShardInv(e, w, step);
      case AnswerMigrate(_, _, _) => AnswerMigrateInv(e, w, step);
      case TakeShard(_, _) => TakeShardInv(e, w, step);
      case AskAck(_, _, _) => AskAckInv(e, w, step);
      case AnswerAck(_, _, _) => AnswerAckInv(e, w, step);
      case TakeAck(_, _) => TakeAckInv(e, w, step);
      case Submit(_, _, _) => SubmitInv(e, w, step);
      case AnswerSession(_, _, _, _) => AnswerSessionInv(e, w, step);
      case Finish(_, _) => FinishInv(e, w, step);
      case ApplyOp(_, _) => ApplyInv(e, w, step);
    }
  }

  lemma {:induction false} RunInv(e: Setting, run: seq<World>, k: nat)
    requires Sane(e) && IsRun(e, run) && k < |run|
    ensures ShapeOk(e, run[k]) && Inv(e, run[k])
  {
    hide Sane, Inv, Next, Enabled;
    if k == 0 {
      InitInv(e);
    } else {
      RunInv(e, run, k - 1);
      assert Steps(e, run[k - 1], run[k - 1 + 1]);
      var step: Step :| Enabled(e, run[k - 1], step) && run[k] == Next(e, run[k - 1], step);
      StepInv(e, run[k - 1], step);
    }
    InvShape(e, run[k]);
  }

  lemma InvShape(e: Setting, w: World)
    requires Sane(e) && Inv(e, w)
    ensures ShapeOk(e, w) && GroupsOk(e, w) && ClientsOk(e, w) && TrafficOk(e, w)
    ensures forall s: nat :: s < NSHARDS ==> LevelOk(e, w, s) && ExecOk(e, w, s)
  {
    hide GroupsOk, ClientsOk, TrafficOk, LevelOk, ExecOk;
  }

  /** One owner: whatever configurations the groups are at, and however late or often the messages
      arrive, at most one group serves a shard. */
  lemma OneOwner(e: Setting, run: seq<World>, k: nat, g: nat, h: nat, s: nat)
    requires Sane(e) && IsRun(e, run) && k < |run| && g in e.gids && h in e.gids && s < NSHARDS
    ensures ShapeOk(e, run[k])
    ensures Last(e, run[k], g).owned[s] == Exist && Last(e, run[k], h).owned[s] == Exist ==> g == h
  {
    hide Sane, Inv, IsRun, GroupsOk, LevelOk, ExecOk;
    RunInv(e, run, k);
    InvShape(e, run[k]);
    if Last(e, run[k], g).owned[s] == Exist && Last(e, run[k], h).owned[s] == Exist {
      OnlyOwner(e, run[k], g, h, s);
    }
  }

  /** The copy that is served is the result of the writes executed so far, each once, and it owns the
      records that turn away every one of them. */
  lemma ServedCopy(e: Setting, run: seq<World>, k: nat, g: nat, s: nat)
    requires Sane(e) && IsRun(e, run) && k < |run| && g in e.gids && s < NSHARDS
    ensures ShapeOk(e, run[k])
    ensures Last(e, run[k], g).owned[s] == Exist ==>
              UpToDate(e, run[k], s, Last(e, run[k], g).kvDB[s], Last(e, run[k], g).sessions)
  {
    hide Sane, Inv, IsRun, GroupsOk, LevelOk, ExecOk, UpToDate;
    RunInv(e, run, k);
    InvShape(e, run[k]);
    if Last(e, run[k], g).owned[s] == Exist { ExistOwner(e, run[k], g, s); }
  }

  /** No shard is lost: once a shard was handed out, some group has an up-to-date copy of it, either
      serving it or keeping it for the next owner. */
  lemma NoShardLost(e: Setting, run: seq<World>, k: nat, s: nat)
    requires Sane(e) && IsRun(e, run) && k < |run| && s < NSHARDS
    ensures ShapeOk(e, run[k])
    ensures run[k].level[s] >= 1 ==>
      var g := Owner(e, run[k].level[s], s);
      && g in e.gids
      && (Last(e, run[k], g).owned[s] == Exist || Last(e, run[k], g).owned[s] == WaitGive)
      && UpToDate(e, run[k], s, Last(e, run[k], g).kvDB[s], Last(e, run[k], g).sessions)
  {
    hide Sane, Inv, IsRun, GroupsOk, ExecOk, UpToDate, Owner;
    RunInv(e, run, k);
    InvShape(e, run[k]);
    var w := run[k];
    if w.level[s] >= 1 {
      var g := Owner(e, w.level[s], s);
      assert LevelOk(e, w, s) && 1 <= w.level[s];
      LastShard(e, w, g, s);
      assert Cur(e, w, g) <= w.level[s] + 1;
    }
  }

  /** The number of times a command appears in a list. */
  function Count(cmds: seq<Cmd>, cmd: Cmd): nat {
    multiset(cmds)[cmd]
  }

  lemma {:induction false} IncreasingOnce(cmds: seq<Cmd>, cmd: Cmd)
    requires Increasing(cmds)
    ensures Count(cmds, cmd) == if cmd in cmds then 1 else 0
  {
    if cmds != [] {
      var front, last := cmds[..|cmds| - 1], cmds[|cmds| - 1];
      assert cmds == front + [last];
      IncreasingOnce(front, cmd);
      assert forall i: nat :: i < |front| ==> front[i] == cmds[i] && cmds[i] != cmds[|cmds| - 1];
    }
  }

  /** Exactly once: a write that was answered, or that its client has moved past, was executed once,
      on the shard of its key, and on no other. */
  lemma ExactlyOnce(e: Setting, run: seq<World>, k: nat, cmd: Cmd, s: nat)
    requires Sane(e) && IsRun(e, run) && k < |run| && s < NSHARDS && IsWrite(e, cmd)
    requires (exists reply :: Answer(cmd.client, cmd.num, reply) in run[k].net)
          || 1 <= cmd.num < Num(run[k], cmd.client)
    ensures ShapeOk(e, run[k])
    ensures Count(run[k].exec[s], cmd) == if s == ShardOf(e, cmd) then 1 else 0
  {
    hide Sane, Inv, IsRun, GroupsOk, LevelOk, TrafficOk;
    RunInv(e, run, k);
    InvShape(e, run[k]);
    var w := run[k];
    assert Done(e, w, cmd) by {
      if reply :| Answer(cmd.client, cmd.num, reply) in w.net {
        InvMessage(e, w, Answer(cmd.client, cmd.num, reply));
      }
    }
    assert ExecOk(e, w, s);
    IncreasingOnce(w.exec[s], cmd);
  }

  /** However many times it is submitted, applied or migrated, no write is executed twice. */
  lemma AtMostOnce(e: Setting, run: seq<World>, k: nat, cmd: Cmd, s: nat)
    requires Sane(e) && IsRun(e, run) && k < |run| && s < NSHARDS
    ensures ShapeOk(e, run[k]) && Count(run[k].exec[s], cmd) <= 1
  {
    hide Sane, Inv, IsRun, GroupsOk, LevelOk, TrafficOk;
    RunInv(e, run, k);
    InvShape(e, run[k]);
    assert ExecOk(e, run[k], s);
    IncreasingOnce(run[k].exec[s], cmd);
  }

  /** A late reply cannot do harm: a copy that would still be taken over is up to date, whenever and
      by whichever replica it was made, even one that had cleared the shard. */
  lemma TakenCopyFresh(e: Setting, run: seq<World>, k: nat, g: nat, op: Op)
    requires Sane(e) && IsRun(e, run) && k < |run| && g in e.gids && op.GetShard?
    requires ShapeOk(e, run[k]) && op in run[k].proposed[g] && op.shardNum < NSHARDS
    ensures OnGetShard(Last(e, run[k], g), op) != Last(e, run[k], g) ==>
              UpToDate(e, run[k], op.shardNum, op.shardData, op.sessionData)
  {
    hide Sane, Inv, IsRun, GroupsOk, LevelOk, ExecOk, OpOk, UpToDate, Newer;
    RunInv(e, run, k);
    InvParts(e, run[k], g, op);
    var st := Last(e, run[k], g);
    if st.cur.num == op.cfgNum && st.owned[op.shardNum] == WaitGet {
      GetLevel(e, run[k], g, op);
    }
  }

  /** A group takes a new configuration only when none of its shards is on the way, and it takes the
      very next one. */
  lemma OneConfigAtATime(e: Setting, run: seq<World>, k: nat, g: nat)
    requires Sane(e) && IsRun(e, run) && k + 1 < |run| && g in e.gids
    ensures ShapeOk(e, run[k]) && ShapeOk(e, run[k + 1])
    ensures Cur(e, run[k], g) != Cur(e, run[k + 1], g) ==>
              Ready(Last(e, run[k], g)) && Cur(e, run[k + 1], g) == Cur(e, run[k], g) + 1
  {
    hide Sane, Inv, GroupsOk, LevelOk, ExecOk, OpOk, Applied, RunOp, Ready;
    RunInv(e, run, k);
    RunInv(e, run, k + 1);
    assert Steps(e, run[k], run[k + 1]);
    var step: Step :| Enabled(e, run[k], step) && run[k + 1] == Next(e, run[k], step);
    if step.ApplyOp? && step.g == g {
      InvParts(e, run[k], g, step.op);
      AppliedParts(e, run[k], g, step.op);
      ReadyToUpdate(e, run[k], g, step.op);
    } else if step.ApplyOp? {
      AppliedParts(e, run[k], step.g, step.op);
    }
  }

  lemma ReadyToUpdate(e: Setting, w: World, g: nat, op: Op)
    requires Sane(e) && ShapeOk(e, w) && g in e.gids && OpOk(e, w, g, op) && WellShaped(op)
    ensures Shaped(RunOp(g, Last(e, w, g), op))
    ensures RunOp(g, Last(e, w, g), op).cur.num != Cur(e, w, g) ==>
              Ready(Last(e, w, g)) && RunOp(g, Last(e, w, g), op).cur.num == Cur(e, w, g) + 1
  {
    hide Ready, Frozen, SessionsReal;
    RunShaped(g, Last(e, w, g), op);
    OpConfig(e, w, g, op);
    ApplyCur(g, Last(e, w, g), op, Cur(e, w, g));
  }

  /** A get that is answered sees the writes executed so far and nothing else. */
  lemma GetSeesAll(e: Setting, run: seq<World>, k: nat, g: nat, op: Op)
    requires Sane(e) && IsRun(e, run) && k < |run| && g in e.gids && op.ClientCmd? && op.opType == Get
    ensures ShapeOk(e, run[k]) && Shaped(Last(e, run[k], g))
    ensures var answer := OnClientCmd(Last(e, run[k], g), op).1;
      answer.Some? ==>
        answer.value == Execute(Replay(e, run[k].exec[Key2Shard(op.key)]), Get, op.key, op.value).1
  {
    hide Sane, Inv, IsRun, GroupsOk, Replay, Covers;
    RunInv(e, run, k);
    InvShape(e, run[k]);
    LastOk(e, run[k], g);
    ServedCopy(e, run, k, g, Key2Shard(op.key));
  }
}
