/** The state a group reaches by applying an entry, and everything else after it. */
module ShardKvKeeps {
  import opened Options
  import opened ShardKvServer
  import opened ShardKvCluster
  import opened ShardKvInvariant
  import opened ShardKvProof
  import opened ShardKvApply

  /** The new state is sound at one shard. */
  ghost predicate NewOk(e: Setting, w: World, g: nat, st: KvState, s: nat)
    requires Sane(e) && ShapeOk(e, w) && Shaped(st) && g in e.gids && s < NSHARDS
  {
    && ShardOk(e, w, g, st, s) && PassedOk(e, w, g, st.cur.num, s)
    && (st.owned[s] == Exist ==> w.level[s] == st.cur.num && UpToDate(e, w, s, st.kvDB[s], st.sessions))
    && (st.owned[s] == WaitGet ==> w.level[s] < st.cur.num)
  }

  /** What is known before the entry is applied. */
  ghost predicate Before(e: Setting, w: World, w': World, g: nat, st: KvState, s: nat)
    requires Sane(e) && g in e.gids && s < NSHARDS
  {
    && Grows(e, w, w') && st == Last(e, w, g) && Shaped(st)
    && ShardOk(e, w, g, st, s) && PassedOk(e, w, g, st.cur.num, s) && CurrentOk(e, w, g, s) && LevelOk(e, w, s)
  }

  /** Records that only grew cover what they covered. */
  ghost predicate RecordsGrow(sess: Sessions, sess': Sessions) {
    forall c: nat :: c in sess ==> c in sess' && sess[c].lastCmdNum <= sess'[c].lastCmdNum
  }

  lemma CoversMore(sess: Sessions, sess': Sessions, cmds: seq<Cmd>)
    requires Covers(sess, cmds) && RecordsGrow(sess, sess')
    ensures Covers(sess', cmds)
  {
  }

  /** A shard the entry does not touch, though records of clients may have grown. */
  lemma UntouchedShard(e: Setting, w: World, w': World, g: nat, st: KvState, st': KvState, s: nat)
    requires Sane(e) && g in e.gids && s < NSHARDS && Before(e, w, w', g, st, s)
    requires Shaped(st') && st'.owned[s] == st.owned[s] && st'.cur == st.cur && st'.kvDB[s] == st.kvDB[s]
    requires RecordsGrow(st.sessions, st'.sessions)
    requires w'.level[s] == w.level[s] && w'.exec[s] == w.exec[s]
    ensures NewOk(e, w', g, st', s)
  {
    hide Grows, LevelOk, Replay, Covers;
    GrowsShapes(e, w, w');
    GrowsShard(e, w, w', g, st, s);
    CoversNow(e, w', s, st.kvDB[s], st.sessions, st'.sessions);
  }

  lemma CoversNow(e: Setting, w: World, s: nat, data: Shard, sess: Sessions, sess': Sessions)
    requires Sane(e) && ShapeOk(e, w) && s < NSHARDS && RecordsGrow(sess, sess')
    ensures UpToDate(e, w, s, data, sess) ==> UpToDate(e, w, s, data, sess')
  {
    hide Replay, RecordsGrow, Covers;
    if Covers(sess, w.exec[s]) { CoversMore(sess, sess', w.exec[s]); }
  }

  /** The shard a write is executed on. */
  lemma WrittenShard(e: Setting, w: World, w': World, g: nat, st: KvState, op: Op, s: nat)
    requires Sane(e) && g in e.gids && s < NSHARDS && Before(e, w, w', g, st, s)
    requires Executes(st, op) && op == e.script(Cmd(op.clientId, op.cmdNum)) && s == Key2Shard(op.key)
    requires w'.level[s] == w.level[s] && w'.exec[s] == w.exec[s] + [Cmd(op.clientId, op.cmdNum)]
    ensures Shaped(OnClientCmd(st, op).0) && NewOk(e, w', g, OnClientCmd(st, op).0, s)
  {
    hide Grows, LevelOk, Execute, Frozen;
    GrowsShapes(e, w, w');
    GrowsShard(e, w, w', g, st, s);
    var cmds, cmd := w.exec[s], Cmd(op.clientId, op.cmdNum);
    assert (cmds + [cmd])[..|cmds|] == cmds && (cmds + [cmd])[|cmds|] == cmd;
    forall i: nat | i < |cmds| + 1
      ensures var last := OnClientCmd(st, op).0.sessions; var c := (cmds + [cmd])[i];
        c.client in last && c.num <= last[c.client].lastCmdNum
    {
      if i < |cmds| { assert (cmds + [cmd])[i] == cmds[i]; }
    }
  }

  lemma NothingYet(e: Setting, w: World, s: nat)
    requires Sane(e) && ShapeOk(e, w) && s < NSHARDS
    ensures w.exec[s] == [] ==> forall sess: Sessions :: UpToDate(e, w, s, map[], sess)
  {
  }

  /** The group has passed on, or come to hold, what it owned up to here. */
  lemma ConfiguredPassed(e: Setting, w: World, w': World, g: nat, st: KvState, k: nat, s: nat)
    requires Sane(e) && g in e.gids && s < NSHARDS && Before(e, w, w', g, st, s) && ShapeOk(e, w') && ShapeOk(e, w)
    requires k == st.cur.num + 1 && (st.owned[s] == Exist || st.owned[s] == NoExist) && w.level[s] <= w'.level[s]
    ensures PassedOk(e, w', g, k, s)
  {
    hide Grows, UpToDate, Frozen;
  }

  /** A shard when a new configuration is taken. */
  lemma ConfiguredShard(e: Setting, w: World, w': World, g: nat, st: KvState, k: nat, s: nat)
    requires Sane(e) && g in e.gids && s < NSHARDS && Before(e, w, w', g, st, s)
    requires k == st.cur.num + 1 && (st.owned[s] == Exist || st.owned[s] == NoExist)
    requires w'.exec[s] == w.exec[s] && Cur(e, w', g) == k
    requires var st' := Updated(g, st, ConfigAt(e, k));
      w'.level[s] == if st'.owned[s] == Exist then k else w.level[s]
    ensures Shaped(Updated(g, st, ConfigAt(e, k))) && NewOk(e, w', g, Updated(g, st, ConfigAt(e, k)), s)
  {
    hide Grows, Covers, Replay, PassedOk;
    GrowsShapes(e, w, w');
    NothingYet(e, w', s);
    var st' := Updated(g, st, ConfigAt(e, k));
    assert st'.owned[s] == NextState(g, st.owned[s], Owner(e, k, s), k == 1);
    assert w.level[s] >= k ==> Owner(e, k, s) != g;
    assert k == 1 && Owner(e, 1, s) == g ==> w.level[s] == 0;
    ConfiguredPassed(e, w, w', g, st, k, s);
  }

  /** The shard a group takes over. */
  lemma TakenShard(e: Setting, w: World, w': World, g: nat, st: KvState, op: Op)
    requires Sane(e) && g in e.gids && op.GetShard? && op.shardNum < NSHARDS && Before(e, w, w', g, st, op.shardNum)
    requires op.cfgNum == st.cur.num && st.owned[op.shardNum] == WaitGet
    requires UpToDate(e, w, op.shardNum, op.shardData, op.sessionData)
    requires w'.exec[op.shardNum] == w.exec[op.shardNum] && w'.level[op.shardNum] == st.cur.num
    ensures Shaped(OnGetShard(st, op)) && NewOk(e, w', g, OnGetShard(st, op), op.shardNum)
  {
    hide Grows, LevelOk, Replay, Newer, Covers, Frozen;
    GrowsShapes(e, w, w');
    GrowsShard(e, w, w', g, st, op.shardNum);
    NewerGrows(st.sessions, op.sessionData);
    CoversMore(op.sessionData, Newer(st.sessions, op.sessionData), w.exec[op.shardNum]);
  }

  lemma NewerGrows(own: Sessions, other: Sessions)
    ensures RecordsGrow(own, Newer(own, other)) && RecordsGrow(other, Newer(own, other))
  {
    hide Newer;
    forall c: nat ensures c in own ==> c in Newer(own, other) && own[c].lastCmdNum <= Newer(own, other)[c].lastCmdNum
      ensures c in other ==> c in Newer(own, other) && other[c].lastCmdNum <= Newer(own, other)[c].lastCmdNum
    {
      NewerCovers(own, other, c);
    }
  }

  /** The shard a group has given away. */
  lemma GivenShard(e: Setting, w: World, w': World, g: nat, st: KvState, op: Op)
    requires Sane(e) && g in e.gids && op.GiveShard? && op.shardNum < NSHARDS && Before(e, w, w', g, st, op.shardNum)
    requires op.cfgNum == st.cur.num && st.owned[op.shardNum] == WaitGive && w.level[op.shardNum] >= op.cfgNum
    ensures Shaped(OnGiveShard(st, op)) && NewOk(e, w', g, OnGiveShard(st, op), op.shardNum)
  {
    hide Grows, LevelOk, UpToDate;
    GrowsShapes(e, w, w');
    GrowsShard(e, w, w', g, st, op.shardNum);
    assert w.level[op.shardNum] <= w'.level[op.shardNum] by { LevelGrows(e, w, w', op.shardNum); }
  }

  lemma LevelGrows(e: Setting, w: World, w': World, s: nat)
    requires Sane(e) && Grows(e, w, w') && s < NSHARDS
    ensures w.level[s] <= w'.level[s]
  {
  }

  /** The new state is sound at every shard. */
  lemma NewShard(e: Setting, w: World, g: nat, op: Op, s: nat)
    requires Sane(e) && ShapeOk(e, w) && GroupsOk(e, w) && g in e.gids && s < NSHARDS && LevelOk(e, w, s)
    requires OpOk(e, w, g, op) && WellShaped(op) && Grows(e, w, Applied(e, w, g, op))
    ensures var st' := RunOp(g, Last(e, w, g), op);
      Shaped(st') && ShapeOk(e, Applied(e, w, g, op)) && NewOk(e, Applied(e, w, g, op), g, st', s)
  {
    hide Applied, NewLevel, NewExec, Answers, GroupsOk, LevelOk, UpToDate, StateOk, NewOk, CurrentOk, ShardOk,
         PassedOk, Grows, Frozen, SessionsReal, Ready, RecordsGrow, Newer, PastOk;
    var st, w' := Last(e, w, g), Applied(e, w, g, op);
    AppliedParts(e, w, g, op);
    LastOk(e, w, g);
    LastShard(e, w, g, s);
    assert Before(e, w, w', g, st, s);
    Level(w, RunOp(g, st, op), s);
    ApplyExec(w, g, st, op, s);
    SameRecords(st.sessions);
    if op.ClientCmd? {
      ClientShard(e, w, g, op, s);
    } else if op.UpdateConfig? {
      ConfigShard(e, w, g, op, s);
    } else if op.GetShard? {
      GetShardOk(e, w, g, op, s);
    } else if op.GiveShard? {
      GiveShardOk(e, w, g, op, s);
    } else {
      ExistLevel(e, w, g, s);
      UntouchedShard(e, w, w', g, st, st, s);
    }
  }

  lemma LastShard(e: Setting, w: World, g: nat, s: nat)
    requires Sane(e) && ShapeOk(e, w) && GroupsOk(e, w) && g in e.gids && s < NSHARDS
    ensures Shaped(Last(e, w, g)) && CurrentOk(e, w, g, s)
    ensures ShardOk(e, w, g, Last(e, w, g), s) && PassedOk(e, w, g, Cur(e, w, g), s)
  {
    hide GroupsOk, CurrentOk, ShardOk, PassedOk, SessionsReal, PastOk;
    LastOk(e, w, g);
  }

  lemma SameRecords(sess: Sessions)
    ensures RecordsGrow(sess, sess)
  {
  }

  lemma ExistLevel(e: Setting, w: World, g: nat, s: nat)
    requires Sane(e) && ShapeOk(e, w) && GroupsOk(e, w) && g in e.gids && s < NSHARDS
    ensures Last(e, w, g).owned[s] == Exist ==> w.level[s] == Cur(e, w, g)
  {
    hide GroupsOk, UpToDate;
    LastShard(e, w, g, s);
  }

  lemma ClientShard(e: Setting, w: World, g: nat, op: Op, s: nat)
    requires Sane(e) && ShapeOk(e, w) && GroupsOk(e, w) && g in e.gids && s < NSHARDS
    requires op.ClientCmd? && OpOk(e, w, g, op) && Before(e, w, Applied(e, w, g, op), g, Last(e, w, g), s)
    ensures var st' := RunOp(g, Last(e, w, g), op);
      Shaped(st') && ShapeOk(e, Applied(e, w, g, op)) && NewOk(e, Applied(e, w, g, op), g, st', s)
  {
    hide Applied, NewLevel, NewExec, Answers, GroupsOk, UpToDate, NewOk, Before, RecordsGrow, Execute;
    var st, w' := Last(e, w, g), Applied(e, w, g, op);
    AppliedParts(e, w, g, op);
    Level(w, RunOp(g, st, op), s);
    ApplyExec(w, g, st, op, s);
    ExistLevel(e, w, g, s);
    SameRecords(st.sessions);
    if Executes(st, op) {
      WriteRecords(st, op);
      if s == Key2Shard(op.key) {
        WrittenShard(e, w, w', g, st, op, s);
      } else {
        UntouchedShard(e, w, w', g, st, RunOp(g, st, op), s);
      }
    } else {
      UntouchedShard(e, w, w', g, st, st, s);
    }
  }

  lemma WriteRecords(st: KvState, op: Op)
    requires Shaped(st) && Executes(st, op)
    ensures RecordsGrow(st.sessions, OnClientCmd(st, op).0.sessions)
  {
    hide Execute;
  }

  lemma ConfigShard(e: Setting, w: World, g: nat, op: Op, s: nat)
    requires Sane(e) && ShapeOk(e, w) && GroupsOk(e, w) && g in e.gids && s < NSHARDS
    requires op.UpdateConfig? && WellShaped(op) && OpOk(e, w, g, op)
    requires Before(e, w, Applied(e, w, g, op), g, Last(e, w, g), s)
    ensures var st' := RunOp(g, Last(e, w, g), op);
      Shaped(st') && ShapeOk(e, Applied(e, w, g, op)) && NewOk(e, Applied(e, w, g, op), g, st', s)
  {
    hide Applied, NewLevel, NewExec, Answers, GroupsOk, UpToDate, NewOk, Before, RecordsGrow, Updated;
    var st, w' := Last(e, w, g), Applied(e, w, g, op);
    AppliedParts(e, w, g, op);
    Level(w, RunOp(g, st, op), s);
    ApplyExec(w, g, st, op, s);
    ExistLevel(e, w, g, s);
    SameRecords(st.sessions);
    if op.cfgNum == st.cur.num + 1 {
      UpdatedCur(g, st, op.newConfig);
      ConfiguredShard(e, w, w', g, st, op.cfgNum, s);
    } else {
      UntouchedShard(e, w, w', g, st, st, s);
    }
  }

  lemma UpdatedCur(g: nat, st: KvState, cfg: Config)
    requires Shaped(st) && |cfg.shards| == NSHARDS
    ensures Updated(g, st, cfg).cur == cfg && Updated(g, st, cfg).sessions == st.sessions
    ensures st.cur.num != 0 ==> Updated(g, st, cfg).pre == st.cur
  {
  }

  lemma GetShardOk(e: Setting, w: World, g: nat, op: Op, s: nat)
    requires Sane(e) && ShapeOk(e, w) && GroupsOk(e, w) && g in e.gids && s < NSHARDS
    requires op.GetShard? && OpOk(e, w, g, op) && Before(e, w, Applied(e, w, g, op), g, Last(e, w, g), s)
    ensures var st' := RunOp(g, Last(e, w, g), op);
      Shaped(st') && ShapeOk(e, Applied(e, w, g, op)) && NewOk(e, Applied(e, w, g, op), g, st', s)
  {
    hide Applied, NewLevel, NewExec, Answers, GroupsOk, UpToDate, NewOk, Before, RecordsGrow, Newer, Frozen;
    var st, w' := Last(e, w, g), Applied(e, w, g, op);
    AppliedParts(e, w, g, op);
    Level(w, RunOp(g, st, op), s);
    ApplyExec(w, g, st, op, s);
    ExistLevel(e, w, g, s);
    SameRecords(st.sessions);
    NewerGrows(st.sessions, op.sessionData);
    if op.cfgNum == st.cur.num && st.owned[op.shardNum] == WaitGet && s == op.shardNum {
      GetLevel(e, w, g, op);
      TakenShard(e, w, w', g, st, op);
    } else {
      UntouchedShard(e, w, w', g, st, RunOp(g, st, op), s);
    }
  }

  lemma GiveShardOk(e: Setting, w: World, g: nat, op: Op, s: nat)
    requires Sane(e) && ShapeOk(e, w) && GroupsOk(e, w) && g in e.gids && s < NSHARDS
    requires op.GiveShard? && OpOk(e, w, g, op) && Before(e, w, Applied(e, w, g, op), g, Last(e, w, g), s)
    ensures var st' := RunOp(g, Last(e, w, g), op);
      Shaped(st') && ShapeOk(e, Applied(e, w, g, op)) && NewOk(e, Applied(e, w, g, op), g, st', s)
  {
    hide Applied, NewLevel, NewExec, Answers, GroupsOk, UpToDate, NewOk, Before, RecordsGrow, Frozen;
    var st, w' := Last(e, w, g), Applied(e, w, g, op);
    AppliedParts(e, w, g, op);
    Level(w, RunOp(g, st, op), s);
    ApplyExec(w, g, st, op, s);
    ExistLevel(e, w, g, s);
    SameRecords(st.sessions);
    if op.cfgNum == st.cur.num && st.owned[op.shardNum] == WaitGive && s == op.shardNum {
      GivenShard(e, w, w', g, st, op);
    } else {
      UntouchedShard(e, w, w', g, st, RunOp(g, st, op), s);
    }
  }

  // ---- The whole new state ----

  lemma NewSessions(e: Setting, w: World, g: nat, op: Op)
    requires Sane(e) && ShapeOk(e, w) && GroupsOk(e, w) && g in e.gids && OpOk(e, w, g, op) && WellShaped(op)
    requires Grows(e, w, Applied(e, w, g, op))
    ensures ShapeOk(e, Applied(e, w, g, op)) && Shaped(RunOp(g, Last(e, w, g), op))
    ensures SessionsReal(e, Applied(e, w, g, op), RunOp(g, Last(e, w, g), op).sessions)
  {
    hide Applied, NewLevel, NewExec, Answers, GroupsOk, Grows, Frozen, ShardOk, PassedOk, PastOk, CurrentOk, Execute,
         Done, Updated;
    var st, w' := Last(e, w, g), Applied(e, w, g, op);
    AppliedParts(e, w, g, op);
    LastOk(e, w, g);
    GrowsSessions(e, w, w', st.sessions);
    if op.GetShard? {
      GrowsSessions(e, w, w', op.sessionData);
      forall c: nat | c in Newer(st.sessions, op.sessionData)
        ensures Done(e, w', Cmd(c, Newer(st.sessions, op.sessionData)[c].lastCmdNum))
      {
        NewerCovers(st.sessions, op.sessionData, c);
      }
    } else if op.UpdateConfig? {
      UpdatedCur(g, st, op.newConfig);
    } else if op.ClientCmd? && Executes(st, op) {
      WrittenDone(e, w, g, op);
    }
  }

  lemma WrittenDone(e: Setting, w: World, g: nat, op: Op)
    requires Sane(e) && ShapeOk(e, w) && g in e.gids && OpOk(e, w, g, op) && Shaped(Last(e, w, g))
    requires Executes(Last(e, w, g), op) && ShapeOk(e, Applied(e, w, g, op))
    ensures Done(e, Applied(e, w, g, op), Cmd(op.clientId, op.cmdNum))
  {
    hide Applied, NewLevel, Answers, Execute;
    AppliedParts(e, w, g, op);
    var s, cmd := Key2Shard(op.key), Cmd(op.clientId, op.cmdNum);
    var exec := NewExec(w, Last(e, w, g), op)[s];
    assert exec == w.exec[s] + [cmd] && exec[|w.exec[s]|] == cmd;
  }

  lemma NewConfig(e: Setting, w: World, g: nat, op: Op)
    requires Sane(e) && ShapeOk(e, w) && GroupsOk(e, w) && g in e.gids && OpOk(e, w, g, op) && WellShaped(op)
    ensures Shaped(RunOp(g, Last(e, w, g), op))
    ensures var st' := RunOp(g, Last(e, w, g), op);
      st'.cur == ConfigAt(e, st'.cur.num) && (st'.cur.num >= 2 ==> st'.pre == ConfigAt(e, st'.cur.num - 1))
  {
    hide GroupsOk, Frozen, SessionsReal, ShardOk, PassedOk, PastOk, CurrentOk, Execute, Newer, Updated;
    RunShaped(g, Last(e, w, g), op);
    LastOk(e, w, g);
    if op.UpdateConfig? { UpdatedCur(g, Last(e, w, g), op.newConfig); }
  }

  lemma NewState(e: Setting, w: World, g: nat, op: Op)
    requires Sane(e) && ShapeOk(e, w) && GroupsOk(e, w) && g in e.gids && OpOk(e, w, g, op) && WellShaped(op)
    requires Grows(e, w, Applied(e, w, g, op)) && forall s: nat :: s < NSHARDS ==> LevelOk(e, w, s)
    ensures ShapeOk(e, Applied(e, w, g, op)) && Shaped(RunOp(g, Last(e, w, g), op))
    ensures StateOk(e, Applied(e, w, g, op), g, RunOp(g, Last(e, w, g), op))
    ensures forall s: nat :: s < NSHARDS ==> CurrentOk(e, Applied(e, w, g, op), g, s)
  {
    hide Applied, RunOp, NewLevel, NewExec, Answers, GroupsOk, Grows, SessionsReal, ShardOk, PassedOk, UpToDate,
         LevelOk, OpOk;
    AppliedParts(e, w, g, op);
    NewSessions(e, w, g, op);
    NewConfig(e, w, g, op);
    forall s: nat | s < NSHARDS
      ensures ShardOk(e, Applied(e, w, g, op), g, RunOp(g, Last(e, w, g), op), s)
      ensures PassedOk(e, Applied(e, w, g, op), g, RunOp(g, Last(e, w, g), op).cur.num, s)
      ensures CurrentOk(e, Applied(e, w, g, op), g, s)
    {
      NewShard(e, w, g, op, s);
    }
  }

  /** The states of other groups are as sound as before. */
  lemma OtherCurrent(e: Setting, w: World, g: nat, op: Op, h: nat, s: nat)
    requires Sane(e) && ShapeOk(e, w) && GroupsOk(e, w) && g in e.gids && h in e.gids && h != g && s < NSHARDS
    requires OpOk(e, w, g, op) && WellShaped(op) && LevelOk(e, w, s) && ShapeOk(e, Applied(e, w, g, op))
    ensures CurrentOk(e, Applied(e, w, g, op), h, s)
  {
    hide Applied, RunOp, NewLevel, NewExec, Answers, GroupsOk, LevelOk, OpOk, Frozen, PassedOk, Replay, Covers,
         Executes;
    var st, w' := Last(e, w, g), Applied(e, w, g, op);
    AppliedParts(e, w, g, op);
    ApplyLevel(e, w, g, op, s);
    Level(w, RunOp(g, st, op), s);
    ApplyExec(w, g, st, op, s);
    LastShard(e, w, h, s);
    if st.owned[s] == Exist && Last(e, w, h).owned[s] == Exist { OnlyOwner(e, w, g, h, s); }
    if st.owned[s] == Exist { ExistOwner(e, w, g, s); }
  }

  lemma PastKeeps(e: Setting, w: World, g: nat, op: Op)
    requires Sane(e) && ShapeOk(e, w) && GroupsOk(e, w) && g in e.gids
    requires OpOk(e, w, g, op) && WellShaped(op) && ShapeOk(e, Applied(e, w, g, op))
    ensures PastOk(e, Applied(e, w, g, op), g)
    ensures Cur(e, Applied(e, w, g, op), g) == Cur(e, w, g) && Ready(Last(e, w, g)) ==>
          Ready(Last(e, Applied(e, w, g, op), g))
  {
    hide Applied, RunOp, NewLevel, NewExec, Answers, GroupsOk, OpOk, StateOk, CurrentOk;
    var st, w' := Last(e, w, g), Applied(e, w, g, op);
    AppliedParts(e, w, g, op);
    LastOk(e, w, g);
    OpConfig(e, w, g, op);
    ApplyCur(g, st, op, st.cur.num);
    forall i: nat | i < |w'.groups[g]|
      ensures w'.groups[g][i].cur.num <= Cur(e, w', g)
      ensures w'.groups[g][i].cur.num == Cur(e, w', g) ==> KeepsStable(w'.groups[g][i], Last(e, w', g))
    {
      if i < |w.groups[g]| { assert w'.groups[g][i] == w.groups[g][i]; }
    }
  }

  lemma ApplyGroups(e: Setting, w: World, g: nat, op: Op)
    requires Sane(e) && ShapeOk(e, w) && GroupsOk(e, w) && g in e.gids && OpOk(e, w, g, op) && WellShaped(op)
    requires Grows(e, w, Applied(e, w, g, op)) && forall s: nat :: s < NSHARDS ==> LevelOk(e, w, s)
    ensures ShapeOk(e, Applied(e, w, g, op)) && GroupsOk(e, Applied(e, w, g, op))
  {
    hide Applied, RunOp, NewLevel, NewExec, Answers, Grows, LevelOk, OpOk, StateOk, CurrentOk, PastOk;
    var w' := Applied(e, w, g, op);
    AppliedParts(e, w, g, op);
    NewState(e, w, g, op);
    PastKeeps(e, w, g, op);
    forall h, i: nat | h in e.gids && i < |w'.groups[h]| ensures StateOk(e, w', h, w'.groups[h][i]) {
      if h != g || i < |w.groups[g]| {
        assert w'.groups[h][i] == w.groups[h][i];
        GrowsState(e, w, w', h, w.groups[h][i]);
      }
    }
    forall h, s: nat | h in e.gids && s < NSHARDS ensures CurrentOk(e, w', h, s) {
      if h != g { OtherCurrent(e, w, g, op, h, s); }
    }
    forall h | h in e.gids ensures PastOk(e, w', h) {
      if h != g { OtherPast(e, w, w', h); }
    }
  }

  lemma OtherPast(e: Setting, w: World, w': World, h: nat)
    requires Sane(e) && ShapeOk(e, w) && ShapeOk(e, w') && h in e.gids && w'.groups[h] == w.groups[h] && PastOk(e, w, h)
    ensures PastOk(e, w', h)
  {
    hide KeepsStable;
  }

  // ---- History, clients and traffic ----

  lemma ApplyHistory(e: Setting, w: World, g: nat, op: Op, s: nat)
    requires Sane(e) && ShapeOk(e, w) && GroupsOk(e, w) && g in e.gids && s < NSHARDS && OpOk(e, w, g, op)
      && WellShaped(op)
    requires Grows(e, w, Applied(e, w, g, op)) && LevelOk(e, w, s) && ExecOk(e, w, s)
    ensures ShapeOk(e, Applied(e, w, g, op)) && LevelOk(e, Applied(e, w, g, op), s)
      && ExecOk(e, Applied(e, w, g, op), s)
  {
    hide Applied, RunOp, NewLevel, NewExec, Answers, GroupsOk, OpOk, Frozen, FrozenKept, PassedOk, Replay, Covers,
         Executes, Increasing, UpToDate;
    var st, w' := Last(e, w, g), Applied(e, w, g, op);
    AppliedParts(e, w, g, op);
    ApplyLevel(e, w, g, op, s);
    Level(w, RunOp(g, st, op), s);
    ApplyExec(w, g, st, op, s);
    if st.owned[s] == Exist { ExistOwner(e, w, g, s); }
    if w'.exec[s] != w.exec[s] { WriteIncreases(e, w, g, op); }
  }

  /** A write that is executed has a higher number than any of its client on the shard. */
  lemma WriteIncreases(e: Setting, w: World, g: nat, op: Op)
    requires Sane(e) && ShapeOk(e, w) && GroupsOk(e, w) && g in e.gids && OpOk(e, w, g, op)
      && Executes(Last(e, w, g), op)
    requires ExecOk(e, w, Key2Shard(op.key))
    ensures var s, cmd := Key2Shard(op.key), Cmd(op.clientId, op.cmdNum);
      && ShardOf(e, cmd) == s && IsWrite(e, cmd) && cmd.num <= Num(w, cmd.client)
      && Increasing(w.exec[s] + [cmd])
  {
    hide GroupsOk, Replay;
    ExistOwner(e, w, g, Key2Shard(op.key));
  }

  /** Every answer to a write is given after the write was executed. */
  lemma ApplyAnswers(e: Setting, w: World, g: nat, op: Op, m: Message)
    requires Sane(e) && ShapeOk(e, w) && Inv(e, w) && g in e.gids && op in w.proposed[g] && WellShaped(op)
    requires Grows(e, w, Applied(e, w, g, op)) && m in Answers(Last(e, w, g), op)
    ensures ShapeOk(e, Applied(e, w, g, op)) && MessageOk(e, Applied(e, w, g, op), m)
  {
    hide Inv, Applied, NewLevel, NewExec, Grows, GroupsOk, Done, Execute, ExecOk, LevelOk, ClientsOk, OpOk;
    var st, w', cmd := Last(e, w, g), Applied(e, w, g, op), Cmd(op.clientId, op.cmdNum);
    AppliedParts(e, w, g, op);
    InvParts(e, w, g, op);
    OpCmd(e, w, g, op);
    if Executes(st, op) {
      WrittenDone(e, w, g, op);
    } else if IsWrite(e, cmd) {
      RepeatDone(e, w, g, op);
      GrowsDone(e, w, w', cmd);
    }
  }

  lemma OpCmd(e: Setting, w: World, g: nat, op: Op)
    requires Sane(e) && ShapeOk(e, w) && g in e.gids && OpOk(e, w, g, op)
    ensures op.ClientCmd? ==> op == e.script(Cmd(op.clientId, op.cmdNum)) && 1 <= op.cmdNum <= Num(w, op.clientId)
  {
  }

  /** A write that the records turn away was executed before. */
  lemma RepeatDone(e: Setting, w: World, g: nat, op: Op)
    requires Sane(e) && ShapeOk(e, w) && Inv(e, w) && g in e.gids && op.ClientCmd?
    requires op == e.script(Cmd(op.clientId, op.cmdNum)) && 1 <= op.cmdNum <= Num(w, op.clientId)
    requires op.opType != Get && op.clientId in Last(e, w, g).sessions
    requires op.cmdNum <= Last(e, w, g).sessions[op.clientId].lastCmdNum
    ensures Done(e, w, Cmd(op.clientId, op.cmdNum))
  {
    hide GroupsOk, LevelOk, TrafficOk, ShardOk, PassedOk, PastOk, CurrentOk, Increasing;
    LastOk(e, w, g);
    var last := Cmd(op.clientId, Last(e, w, g).sessions[op.clientId].lastCmdNum);
    assert Done(e, w, last) && ExecOk(e, w, ShardOf(e, last));
  }

  lemma ApplyTraffic(e: Setting, w: World, g: nat, op: Op)
    requires Sane(e) && ShapeOk(e, w) && Inv(e, w) && g in e.gids && op in w.proposed[g] && WellShaped(op)
    requires Grows(e, w, Applied(e, w, g, op))
    ensures ShapeOk(e, Applied(e, w, g, op)) && TrafficOk(e, Applied(e, w, g, op))
  {
    hide Inv, Applied, RunOp, NewLevel, NewExec, Answers, Grows, GroupsOk, ExecOk, LevelOk, ClientsOk, OpOk,
         MessageOk, Ready, PastOk;
    var w' := Applied(e, w, g, op);
    AppliedParts(e, w, g, op);
    InvParts(e, w, g, op);
    PastKeeps(e, w, g, op);
    forall h, o | h in e.gids && o in w'.proposed[h] ensures OpOk(e, w', h, o) {
      GrowsOp(e, w, w', h, o);
    }
    forall m | m in w'.net ensures MessageOk(e, w', m) {
      if m in w.net {
        GrowsMessage(e, w, w', m);
      } else {
        ApplyAnswers(e, w, g, op, m);
      }
    }
  }

  lemma ApplyClients(e: Setting, w: World, g: nat, op: Op)
    requires Sane(e) && ShapeOk(e, w) && g in e.gids && ClientsOk(e, w) && WellShaped(op)
    requires Grows(e, w, Applied(e, w, g, op))
    ensures ShapeOk(e, Applied(e, w, g, op)) && ClientsOk(e, Applied(e, w, g, op))
  {
    hide Applied, RunOp, NewLevel, NewExec, Answers, Grows, Done;
    var w' := Applied(e, w, g, op);
    AppliedParts(e, w, g, op);
    forall cmd: Cmd | 1 <= cmd.num < Num(w', cmd.client) && IsWrite(e, cmd) ensures Done(e, w', cmd) {
      GrowsDone(e, w, w', cmd);
    }
  }

  lemma ApplyInv(e: Setting, w: World, step: Step)
    requires Sane(e) && ShapeOk(e, w) && Inv(e, w) && step.ApplyOp? && Enabled(e, w, step)
    ensures Inv(e, Next(e, w, step))
  {
    hide Applied, Grows, GroupsOk, ExecOk, LevelOk, ClientsOk, TrafficOk, OpOk;
    var g, op := step.g, step.op;
    InvParts(e, w, g, op);
    ApplyGrows(e, w, g, op);
    ApplyGroups(e, w, g, op);
    ApplyTraffic(e, w, g, op);
    ApplyClients(e, w, g, op);
    forall s: nat | s < NSHARDS ensures LevelOk(e, Applied(e, w, g, op), s) && ExecOk(e, Applied(e, w, g, op), s) {
      ApplyHistory(e, w, g, op, s);
    }
  }
}
