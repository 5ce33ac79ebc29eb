/** One group of the sharded key-value service, as the state machine its replicas run. */
module ShardKvServer {
  import opened Options

  const NSHARDS: nat := 10

  datatype ShardState = NoExist | Exist | WaitGet | WaitGive

  datatype Config = Config(num: nat, shards: seq<nat>)

  datatype Err = OK | ErrNoKey | ErrNotReady | ErrWrongLeader | NoAnswer

  datatype Reply = Reply(err: Err, value: string)

  datatype OpType = Get | Put | Append

  datatype Session = Session(lastCmdNum: nat, opType: OpType, response: Reply)

  type Shard = map<string, string>

  type Sessions = map<nat, Session>

  datatype Op =
    | ClientCmd(clientId: nat, cmdNum: nat, opType: OpType, key: string, value: string)
    | UpdateConfig(newConfig: Config, cfgNum: nat)
    | GetShard(cfgNum: nat, shardNum: nat, shardData: Shard, sessionData: Sessions)
    | GiveShard(cfgNum: nat, shardNum: nat)
    | EmptyOp

  datatype MigrateReply = MigrateReply(shardData: Shard, sessionData: Sessions, err: Err)

  datatype AckReply = AckReply(receive: bool, err: Err)

  datatype KvState = KvState(
    kvDB: map<nat, Shard>, sessions: Sessions, owned: seq<ShardState>, pre: Config, cur: Config)

  predicate Shaped(st: KvState) {
    && |st.owned| == NSHARDS && (forall s: nat :: s < NSHARDS ==> s in st.kvDB)
    && |st.cur.shards| == NSHARDS
  }

  function Key2Shard(key: string): (s: nat)
    ensures s < NSHARDS
  {
    (if |key| > 0 then key[0] as nat else 0) % NSHARDS
  }

  // ---- What applying a log entry does ----

  /** What a command does to the shard it is on, and the answer. */
  function Execute(shard: Shard, opType: OpType, key: string, value: string): (Shard, Reply) {
    match opType
    case Get => (shard, if key in shard then Reply(OK, shard[key]) else Reply(ErrNoKey, ""))
    case Put => (shard[key := value], Reply(OK, ""))
    case Append =>
      if key in shard then (shard[key := shard[key] + value], Reply(OK, ""))
      else (shard[key := value], Reply(ErrNoKey, ""))
  }

  /** A client's command; no answer when the group does not have the shard. */
  function OnClientCmd(st: KvState, op: Op): (KvState, Option<Reply>)
    requires Shaped(st) && op.ClientCmd?
  {
    var s := Key2Shard(op.key);
    if st.owned[s] != Exist then (st, None)
    else if op.clientId in st.sessions && op.opType != Get && op.cmdNum <= st.sessions[op.clientId].lastCmdNum then
      (st, Some(st.sessions[op.clientId].response))
    else
      var (shard, reply) := Execute(st.kvDB[s], op.opType, op.key, op.value);
      if op.opType == Get then (st, Some(reply))
      else
        (st.(kvDB := st.kvDB[s := shard],
             sessions := st.sessions[op.clientId := Session(op.cmdNum, op.opType, reply)]), Some(reply))
  }

  function NextState(gid: nat, now: ShardState, owner: nat, first: bool): ShardState {
    if now == Exist && owner != gid then WaitGive
    else if now == NoExist && owner == gid then if first then Exist else WaitGet
    else now
  }

  /** The first migration step of a new configuration: no shard moves yet. */
  function Updated(gid: nat, st: KvState, next: Config): KvState
    requires Shaped(st) && |next.shards| == NSHARDS
  {
    st.(owned := seq(NSHARDS, s requires 0 <= s < NSHARDS =>
                       NextState(gid, st.owned[s], next.shards[s], next.num == 1)),
        pre := if st.pre.num != 0 || st.cur.num != 0 then st.cur else st.pre,
        cur := next)
  }

  function OnUpdateConfig(gid: nat, st: KvState, op: Op): KvState
    requires Shaped(st) && op.UpdateConfig? && |op.newConfig.shards| == NSHARDS
  {
    if st.cur.num + 1 == op.cfgNum then Updated(gid, st, op.newConfig) else st
  }

  /** The newer of two records of a client. */
  function Newer(own: Sessions, other: Sessions): Sessions {
    map c | c in own.Keys + other.Keys ::
      if c in other && (c !in own || other[c].lastCmdNum > own[c].lastCmdNum) then other[c] else own[c]
  }

  function OnGetShard(st: KvState, op: Op): KvState
    requires Shaped(st) && op.GetShard? && op.shardNum < NSHARDS
  {
    if st.cur.num == op.cfgNum && st.owned[op.shardNum] == WaitGet then
      st.(kvDB := st.kvDB[op.shardNum := op.shardData], owned := st.owned[op.shardNum := Exist],
          sessions := Newer(st.sessions, op.sessionData))
    else st
  }

  function OnGiveShard(st: KvState, op: Op): KvState
    requires Shaped(st) && op.GiveShard? && op.shardNum < NSHARDS
  {
    if st.cur.num == op.cfgNum && st.owned[op.shardNum] == WaitGive then
      st.(owned := st.owned[op.shardNum := NoExist], kvDB := st.kvDB[op.shardNum := map[]])
    else st
  }

  // ---- What a leader reads from its state ----

  predicate Ready(st: KvState) {
    forall s: nat :: s < |st.owned| ==> st.owned[s] == NoExist || st.owned[s] == Exist
  }

  function OnMigrateShard(st: KvState, configNum: nat, shardNum: nat): MigrateReply
    requires Shaped(st) && shardNum < NSHARDS
  {
    if st.cur.num < configNum then MigrateReply(map[], map[], ErrNotReady)
    else if st.cur.num > configNum then MigrateReply(map[], map[], NoAnswer)
    else MigrateReply(st.kvDB[shardNum], st.sessions, OK)
  }

  function OnAckReceive(st: KvState, configNum: nat, shardNum: nat): AckReply
    requires Shaped(st) && shardNum < NSHARDS
  {
    if st.cur.num < configNum then AckReply(false, ErrNotReady)
    else if st.cur.num > configNum then AckReply(true, OK)
    else AckReply(st.owned[shardNum] == Exist, OK)
  }

  function EmptyShards(n: nat): (m: map<nat, Shard>)
    ensures forall s: nat :: s in m <==> s < n
    ensures forall s :: s in m ==> m[s] == map[]
  {
    if n == 0 then map[] else EmptyShards(n - 1)[n - 1 := map[]]
  }

  function InitState(): KvState {
    KvState(EmptyShards(NSHARDS), map[], seq(NSHARDS, _ => NoExist),
            Config(0, seq(NSHARDS, _ => 0)), Config(0, seq(NSHARDS, _ => 0)))
  }

  lemma InitShaped()
    ensures Shaped(InitState())
  {
  }

  lemma NewerCovers(own: Sessions, other: Sessions, c: nat)
    ensures c in Newer(own, other) <==> c in own || c in other
    ensures c in own ==> Newer(own, other)[c].lastCmdNum >= own[c].lastCmdNum
    ensures c in other ==> Newer(own, other)[c].lastCmdNum >= other[c].lastCmdNum
    ensures c in Newer(own, other) ==>
              (c in own && Newer(own, other)[c] == own[c]) || (c in other && Newer(own, other)[c] == other[c])
  {
  }
}
