/** Applying an entry of a group's log keeps the invariant. */
module ShardKvApply {
  import opened Options
  import opened ShardKvServer
  import opened ShardKvCluster
  import opened ShardKvInvariant
  import opened ShardKvProof

  lemma RunShaped(g: nat, st: KvState, op: Op)
    requires Shaped(st) && WellShaped(op)
    ensures Shaped(RunOp(g, st, op))
  {
  }

  lemma AppliedParts(e: Setting, w: World, g: nat, op: Op)
    requires Sane(e) && ShapeOk(e, w) && g in e.gids && WellShaped(op)
    ensures var st, w' := Last(e, w, g), Applied(e, w, g, op);
      && Shaped(st) && Shaped(RunOp(g, st, op)) && ShapeOk(e, w')
      && Last(e, w', g) == RunOp(g, st, op)
      && (forall h :: h in e.gids && h != g ==> w'.groups[h] == w.groups[h] && Last(e, w', h) == Last(e, w, h))
      && w'.groups[g] == w.groups[g] + [RunOp(g, st, op)]
      && w'.level == NewLevel(w, RunOp(g, st, op)) && w'.exec == NewExec(w, st, op)
      && w'.net == w.net + Answers(st, op) && w'.proposed == w.proposed && w'.nums == w.nums
  {
    RunShaped(g, Last(e, w, g), op);
    hide RunOp, NewLevel, NewExec, Answers;
    var w' := Applied(e, w, g, op);
    forall h, i: nat | h in e.gids && i < |w'.groups[h]| ensures Shaped(w'.groups[h][i]) {
      if h == g && i == |w.groups[g]| {
        assert w'.groups[h][i] == RunOp(g, Last(e, w, g), op);
      }
    }
    assert |NewExec(w, Last(e, w, g), op)| == NSHARDS by { ExecLength(w, Last(e, w, g), op); }
    assert |NewLevel(w, RunOp(g, Last(e, w, g), op))| == NSHARDS by { LevelLength(w, RunOp(g, Last(e, w, g), op)); }
  }

  lemma ExecLength(w: World, st: KvState, op: Op)
    requires Shaped(st) && |w.exec| == NSHARDS
    ensures |NewExec(w, st, op)| == NSHARDS
  {
  }

  lemma LevelLength(w: World, st: KvState)
    requires Shaped(st) && |w.level| == NSHARDS
    ensures |NewLevel(w, st)| == NSHARDS
  {
  }

  /** At most one group has the shard in Exist. */
  lemma OnlyOwner(e: Setting, w: World, g: nat, h: nat, s: nat)
    requires Sane(e) && ShapeOk(e, w) && GroupsOk(e, w) && g in e.gids && h in e.gids && s < NSHARDS
    requires Last(e, w, g).owned[s] == Exist && Last(e, w, h).owned[s] == Exist
    ensures g == h
  {
    hide PastOk, UpToDate, PassedOk;
    assert CurrentOk(e, w, g, s) && CurrentOk(e, w, h, s);
    LastOk(e, w, g);
    LastOk(e, w, h);
    assert ShardOk(e, w, g, Last(e, w, g), s) && ShardOk(e, w, h, Last(e, w, h), s);
  }

  lemma LastOk(e: Setting, w: World, g: nat)
    requires Sane(e) && ShapeOk(e, w) && GroupsOk(e, w) && g in e.gids
    ensures Shaped(Last(e, w, g)) && StateOk(e, w, g, Last(e, w, g)) && PastOk(e, w, g)
    ensures forall s: nat :: s < NSHARDS ==> CurrentOk(e, w, g, s)
  {
    hide StateOk, PastOk, CurrentOk;
  }

  /** How the holder of one shard may change in one step: it stays, or it moves to the owner in the
      next configuration while nobody else has the shard. */
  ghost predicate LevelStep(e: Setting, w: World, g: nat, st': KvState, s: nat)
    requires Sane(e) && ShapeOk(e, w) && Shaped(st') && s < NSHARDS
  {
    st'.owned[s] == Exist && st'.cur.num != w.level[s] ==>
      && st'.cur.num == w.level[s] + 1 && Owner(e, st'.cur.num, s) == g
      && (forall h :: h in e.gids && h != g ==> Last(e, w, h).owned[s] != Exist)
  }

  lemma Level(w: World, st': KvState, s: nat)
    requires |w.level| == NSHARDS && Shaped(st') && s < NSHARDS
    ensures NewLevel(w, st')[s] == if st'.owned[s] == Exist then st'.cur.num else w.level[s]
  {
  }

  // ---- The four entries, shard by shard ----

  lemma ConfigLevel(e: Setting, w: World, g: nat, op: Op, s: nat)
    requires Sane(e) && ShapeOk(e, w) && GroupsOk(e, w) && g in e.gids && s < NSHARDS && LevelOk(e, w, s)
    requires op.UpdateConfig? && OpOk(e, w, g, op) && op.cfgNum == Cur(e, w, g) + 1
    ensures |op.newConfig.shards| == NSHARDS
    ensures Shaped(Updated(g, Last(e, w, g), op.newConfig))
    ensures LevelStep(e, w, g, Updated(g, Last(e, w, g), op.newConfig), s)
  {
    hide GroupsOk, PastOk, PassedOk, UpToDate, Frozen;
    var st := Last(e, w, g);
    LastOk(e, w, g);
    assert CurrentOk(e, w, g, s) && ShardOk(e, w, g, st, s);
    assert op.newConfig.shards[s] == Owner(e, op.cfgNum, s);
    assert st.cur.num == 0 && Owner(e, 1, s) == g ==> w.level[s] == 0;
    forall h | h in e.gids && h != g && Last(e, w, h).owned[s] == Exist
      ensures st.owned[s] != Exist && w.level[s] >= 1
    {
      LastOk(e, w, h);
      assert ShardOk(e, w, h, Last(e, w, h), s);
      if st.owned[s] == Exist { OnlyOwner(e, w, g, h, s); }
    }
  }

  lemma GetLevel(e: Setting, w: World, g: nat, op: Op)
    requires Sane(e) && ShapeOk(e, w) && GroupsOk(e, w) && g in e.gids
    requires op.GetShard? && OpOk(e, w, g, op) && op.cfgNum == Cur(e, w, g)
      && Last(e, w, g).owned[op.shardNum] == WaitGet
    ensures w.level[op.shardNum] == op.cfgNum - 1
    ensures forall h :: h in e.gids ==> Last(e, w, h).owned[op.shardNum] != Exist
    ensures UpToDate(e, w, op.shardNum, op.shardData, op.sessionData)
  {
    hide GroupsOk, PastOk, PassedOk, UpToDate, SessionsReal;
    var s := op.shardNum;
    LastOk(e, w, g);
    assert CurrentOk(e, w, g, s);
    forall h | h in e.gids ensures Last(e, w, h).owned[s] != Exist {
      LastOk(e, w, h);
      assert CurrentOk(e, w, h, s) && ShardOk(e, w, h, Last(e, w, h), s);
    }
  }

  /** No entry lets a second group hold a shard. */
  lemma ApplyLevel(e: Setting, w: World, g: nat, op: Op, s: nat)
    requires Sane(e) && ShapeOk(e, w) && GroupsOk(e, w) && g in e.gids && s < NSHARDS && LevelOk(e, w, s)
    requires OpOk(e, w, g, op) && WellShaped(op)
    ensures Shaped(RunOp(g, Last(e, w, g), op)) && LevelStep(e, w, g, RunOp(g, Last(e, w, g), op), s)
  {
    hide GroupsOk, PastOk, PassedOk, UpToDate, SessionsReal, Frozen, LevelOk;
    var st := Last(e, w, g);
    RunShaped(g, st, op);
    LastOk(e, w, g);
    assert CurrentOk(e, w, g, s);
    if op.UpdateConfig? && op.cfgNum == st.cur.num + 1 {
      ConfigLevel(e, w, g, op, s);
    } else if op.GetShard? && op.cfgNum == st.cur.num && st.owned[op.shardNum] == WaitGet {
      GetLevel(e, w, g, op);
    }
  }

  lemma ApplyCur(g: nat, st: KvState, op: Op, cur: nat)
    requires Shaped(st) && WellShaped(op) && cur == st.cur.num
    requires op.UpdateConfig? ==> op.newConfig.num == op.cfgNum
    ensures cur <= RunOp(g, st, op).cur.num <= cur + 1
    ensures RunOp(g, st, op).cur.num == cur ==> RunOp(g, st, op).cur == st.cur && KeepsStable(st, RunOp(g, st, op))
  {
  }

  /** A write is executed only where the shard exists, and is added at the end. */
  lemma ApplyExec(w: World, g: nat, st: KvState, op: Op, s: nat)
    requires Shaped(st) && WellShaped(op) && |w.exec| == NSHARDS && s < NSHARDS
    ensures |NewExec(w, st, op)| == NSHARDS && w.exec[s] <= NewExec(w, st, op)[s]
    ensures NewExec(w, st, op)[s] != w.exec[s] ==>
              && Executes(st, op) && Key2Shard(op.key) == s && st.owned[s] == Exist
              && RunOp(g, st, op).owned == st.owned && RunOp(g, st, op).cur == st.cur
              && NewExec(w, st, op)[s] == w.exec[s] + [Cmd(op.clientId, op.cmdNum)]
    ensures Executes(st, op) ==> NewExec(w, st, op)[Key2Shard(op.key)] != w.exec[Key2Shard(op.key)]
  {
  }

  lemma ApplyGrows(e: Setting, w: World, g: nat, op: Op)
    requires Sane(e) && ShapeOk(e, w) && Inv(e, w) && g in e.gids && op in w.proposed[g] && WellShaped(op)
    ensures Grows(e, w, Applied(e, w, g, op))
  {
    hide Inv, Applied, RunOp, NewLevel, NewExec, Answers, GroupsOk, OpOk, LevelOk, ExecOk;
    var st, w' := Last(e, w, g), Applied(e, w, g, op);
    AppliedParts(e, w, g, op);
    InvParts(e, w, g, op);
    OpConfig(e, w, g, op);
    ApplyCur(g, st, op, st.cur.num);
    forall s: nat | s < NSHARDS
      ensures w.level[s] <= w'.level[s] && w.exec[s] <= w'.exec[s] && FrozenKept(e, w, w', s)
    {
      ApplyGrowsShard(e, w, g, op, s);
    }
  }

  lemma InvParts(e: Setting, w: World, g: nat, op: Op)
    requires Sane(e) && Inv(e, w) && g in e.gids && op in w.proposed[g]
    ensures GroupsOk(e, w) && OpOk(e, w, g, op) && ClientsOk(e, w) && TrafficOk(e, w)
    ensures forall s: nat :: s < NSHARDS ==> LevelOk(e, w, s) && ExecOk(e, w, s)
  {
    hide GroupsOk, OpOk, LevelOk, ExecOk, ClientsOk, MessageOk;
  }

  lemma OpConfig(e: Setting, w: World, g: nat, op: Op)
    requires Sane(e) && ShapeOk(e, w) && g in e.gids && OpOk(e, w, g, op)
    ensures op.UpdateConfig? ==> op.newConfig == ConfigAt(e, op.cfgNum) && op.newConfig.num == op.cfgNum
  {
  }

  lemma ApplyGrowsShard(e: Setting, w: World, g: nat, op: Op, s: nat)
    requires Sane(e) && ShapeOk(e, w) && GroupsOk(e, w) && g in e.gids && s < NSHARDS && LevelOk(e, w, s)
    requires OpOk(e, w, g, op) && WellShaped(op) && ShapeOk(e, Applied(e, w, g, op))
    ensures var w' := Applied(e, w, g, op);
      w.level[s] <= w'.level[s] && w.exec[s] <= w'.exec[s] && FrozenKept(e, w, w', s)
  {
    hide Applied, RunOp, NewLevel, NewExec, Answers, GroupsOk, OpOk, LevelOk, UpToDate, StateOk;
    var st, w' := Last(e, w, g), Applied(e, w, g, op);
    AppliedParts(e, w, g, op);
    ApplyLevel(e, w, g, op, s);
    Level(w, RunOp(g, st, op), s);
    ApplyExec(w, g, st, op, s);
    LastOk(e, w, g);
    assert CurrentOk(e, w, g, s);
    if st.owned[s] == Exist { ExistOwner(e, w, g, s); }
  }

  lemma ExistOwner(e: Setting, w: World, g: nat, s: nat)
    requires Sane(e) && ShapeOk(e, w) && GroupsOk(e, w) && g in e.gids && s < NSHARDS
    requires Last(e, w, g).owned[s] == Exist
    ensures Cur(e, w, g) >= 1 && Owner(e, Cur(e, w, g), s) == g && w.level[s] == Cur(e, w, g)
    ensures UpToDate(e, w, s, Last(e, w, g).kvDB[s], Last(e, w, g).sessions)
  {
    hide GroupsOk, UpToDate, PastOk, PassedOk;
    LastOk(e, w, g);
    assert ShardOk(e, w, g, Last(e, w, g), s) && CurrentOk(e, w, g, s);
  }
}
