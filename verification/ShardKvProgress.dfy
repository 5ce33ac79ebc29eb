/** Migration that gets done: which handshakes are answered, and that the groups can always go on to a later
    configuration, unless a configuration on the way leaves a shard to nobody. */
module ShardKvProgress {
  import opened Options
  import opened ShardKvServer
  import opened ShardKvCluster
  import opened ShardKvInvariant
  import opened ShardKvApply
  import opened ShardKvProof
  import opened ShardKvSafety
  import opened ShardKvLinear
  import opened ShardKvWitness

  // ---- The two handshakes ----

  lemma RunParts(e: Setting, run: seq<World>, k: nat)
    requires Sane(e) && IsRun(e, run) && k < |run|
    ensures ShapeOk(e, run[k]) && Inv(e, run[k]) && GroupsOk(e, run[k])
    ensures forall s: nat :: s < NSHARDS ==> LevelOk(e, run[k], s)
  {
    hide Sane, Inv, IsRun, GroupsOk, LevelOk, ExecOk;
    RunInv(e, run, k);
    InvShape(e, run[k]);
  }

  /** What the owner in a configuration answers when it is asked whether it has come to hold the shard: not
      ready before it is in that configuration, and from then on exactly whether it has. */
  lemma AckExactly(e: Setting, run: seq<World>, k: nat, cfg: nat, s: nat)
    requires Sane(e) && IsRun(e, run) && k < |run| && cfg >= 1 && s < NSHARDS && Owner(e, cfg, s) in e.gids
    ensures ShapeOk(e, run[k])
    ensures var g := Owner(e, cfg, s);
      OnAckReceive(Last(e, run[k], g), cfg, s)
      == if Cur(e, run[k], g) < cfg then AckReply(false, ErrNotReady) else AckReply(run[k].level[s] >= cfg, OK)
  {
    hide Sane, Inv, IsRun, GroupsOk, UpToDate, Frozen, SessionsReal;
    RunParts(e, run, k);
    var g := Owner(e, cfg, s);
    LastOk(e, run[k], g);
    assert ShardOk(e, run[k], g, Last(e, run[k], g), s) && PassedOk(e, run[k], g, Cur(e, run[k], g), s);
    assert CurrentOk(e, run[k], g, s);
  }

  /** A group that waits for a shard is served: the owner before is in the same configuration, or on its way
      there, and then answers with an up-to-date copy. */
  lemma WaitingServed(e: Setting, run: seq<World>, k: nat, g: nat, s: nat)
    requires Sane(e) && IsRun(e, run) && k < |run| && g in e.gids && s < NSHARDS
    requires ShapeOk(e, run[k]) && Last(e, run[k], g).owned[s] == WaitGet
    ensures var c, st := Cur(e, run[k], g), Last(e, run[k], g);
      && c >= 2 && st.pre == ConfigAt(e, c - 1)
      && (Owner(e, c - 1, s) in e.gids ==>
            var p := Last(e, run[k], Owner(e, c - 1, s));
            && p.cur.num <= c
            && OnMigrateShard(p, c, s)
               == (if p.cur.num < c then MigrateReply(map[], map[], ErrNotReady)
                   else MigrateReply(p.kvDB[s], p.sessions, OK))
            && (p.cur.num == c ==> UpToDate(e, run[k], s, p.kvDB[s], p.sessions)))
  {
    hide Sane, Inv, IsRun, GroupsOk, UpToDate, SessionsReal, LevelOk;
    RunParts(e, run, k);
    LastOk(e, run[k], g);
    var c := Cur(e, run[k], g);
    assert ShardOk(e, run[k], g, Last(e, run[k], g), s) && CurrentOk(e, run[k], g, s);
    if Owner(e, c - 1, s) in e.gids {
      var h := Owner(e, c - 1, s);
      LastOk(e, run[k], h);
      assert ShardOk(e, run[k], h, Last(e, run[k], h), s) && PassedOk(e, run[k], h, Cur(e, run[k], h), s);
      assert CurrentOk(e, run[k], h, s);
    }
  }

  /** A shard is taken over, or cleared after the next owner has it, exactly when the group waits for that in
      that configuration; the other shards stay as they are. */
  lemma MovesExactly(st: KvState, get: Op, give: Op)
    requires Shaped(st) && get.GetShard? && get.shardNum < NSHARDS && give.GiveShard? && give.shardNum < NSHARDS
    ensures var s, after := get.shardNum, OnGetShard(st, get);
      && (after == st <==> !(st.cur.num == get.cfgNum && st.owned[s] == WaitGet))
      && (after != st ==>
            && after.owned[s] == Exist && after.kvDB[s] == get.shardData && after.kvDB.Keys == st.kvDB.Keys
            && |after.owned| == |st.owned|
            && (forall x: nat :: x < NSHARDS && x != s ==>
                  after.owned[x] == st.owned[x] && after.kvDB[x] == st.kvDB[x])
            && after == st.(owned := after.owned, kvDB := after.kvDB, sessions := after.sessions))
    ensures var s, after := give.shardNum, OnGiveShard(st, give);
      && (after == st <==> !(st.cur.num == give.cfgNum && st.owned[s] == WaitGive))
      && (after != st ==>
            && after.owned[s] == NoExist && after.kvDB[s] == map[] && after.kvDB.Keys == st.kvDB.Keys
            && |after.owned| == |st.owned|
            && (forall x: nat :: x < NSHARDS && x != s ==>
                  after.owned[x] == st.owned[x] && after.kvDB[x] == st.kvDB[x])
            && after == st.(owned := after.owned, kvDB := after.kvDB))
  {
    hide Newer;
  }

  // ---- One shard taken over, one given up, one new configuration ----

  /** The run goes on, and only this group has changed. */
  ghost predicate GoesOn(e: Setting, run: seq<World>, run': seq<World>, g: nat)
    requires Sane(e)
  {
    && |run| > 0 && |run'| > 0 && IsRun(e, run') && run <= run' && ShapeOk(e, Final(run)) && ShapeOk(e, Final(run'))
    && g in e.gids && (forall h :: h in e.gids && h != g ==> Last(e, Final(run'), h) == Last(e, Final(run), h))
    && Final(run').nums == Final(run).nums
  }

  /** The index of the newest state of a group. */
  ghost function Newest(e: Setting, w: World, g: nat): (i: nat)
    requires ShapeOk(e, w) && g in e.gids
    ensures IsState(e, w, g, i) && w.groups[g][i] == Last(e, w, g)
  {
    |w.groups[g]| - 1
  }

  /** A group takes up something that it was given. */
  lemma Apply(e: Setting, run: seq<World>, w: World, g: nat, op: Op) returns (run': seq<World>)
    requires Sane(e) && |run| > 0 && IsRun(e, run) && ShapeOk(e, Final(run)) && ShapeOk(e, w)
    requires g in e.gids && op in Final(run).proposed[g] && WellShaped(op) && Final(run).groups == w.groups
    ensures |run'| > 0 && IsRun(e, run') && run <= run' && ShapeOk(e, Final(run'))
    ensures Shaped(Last(e, w, g)) && Last(e, Final(run'), g) == RunOp(g, Last(e, w, g), op)
    ensures forall h :: h in e.gids && h != g ==> Last(e, Final(run'), h) == Last(e, w, h)
    ensures Final(run').nums == Final(run).nums && Final(run').net == Final(run).net + Answers(Last(e, w, g), op)
  {
    hide Sane, IsRun, Applied, RunOp, NewLevel, NewExec, Answers, Shaped;
    AppliedParts(e, Final(run), g, op);
    run' := Do(e, run, ApplyOp(g, op));
  }

  lemma Fetch(e: Setting, run: seq<World>, g: nat, s: nat) returns (run': seq<World>)
    requires Sane(e) && |run| > 0 && IsRun(e, run) && ShapeOk(e, Final(run)) && g in e.gids && s < NSHARDS
    requires Last(e, Final(run), g).owned[s] == WaitGet
    requires var c := Cur(e, Final(run), g); c >= 2 ==>
      Owner(e, c - 1, s) in e.gids && Cur(e, Final(run), Owner(e, c - 1, s)) >= c
    ensures GoesOn(e, run, run', g)
    ensures var st, st' := Last(e, Final(run), g), Last(e, Final(run'), g);
      st'.cur == st.cur && st'.owned == st.owned[s := Exist]
  {
    hide Sane, IsRun, Applied, OnMigrateShard, OnGetShard, UpToDate, ShapeOk, Last;
    WaitingServed(e, run, |run| - 1, g, s);
    var w, c := Final(run), Cur(e, Final(run), g);
    var h := Owner(e, c - 1, s);
    ShapedLast(e, w, g);
    ShapedLast(e, w, h);
    ConfigShape(e, c - 1);
    var st, p := Last(e, w, g), Last(e, w, h);
    var ask := MigrateAsk(g, h, c, s);
    var rep := MigrateRep(g, c, s, p.kvDB[s], p.sessions);
    var op := GetShard(c, s, p.kvDB[s], p.sessions);
    var r1 := Do(e, run, AskShard(g, Newest(e, w, g), s));
    var r2 := Do(e, r1, AnswerMigrate(h, Newest(e, w, h), ask));
    var r3 := Do(e, r2, TakeShard(g, rep));
    run' := Apply(e, r3, w, g, op);
    TakenOver(st, op);
  }

  lemma ConfigShape(e: Setting, k: nat)
    requires Sane(e)
    ensures |ConfigAt(e, k).shards| == NSHARDS
  {
  }

  lemma ShapedLast(e: Setting, w: World, g: nat)
    requires ShapeOk(e, w) && g in e.gids
    ensures Shaped(Last(e, w, g))
  {
  }

  lemma TakenOver(st: KvState, op: Op)
    requires Shaped(st) && op.GetShard? && op.shardNum < NSHARDS
    requires st.cur.num == op.cfgNum && st.owned[op.shardNum] == WaitGet
    ensures OnGetShard(st, op).cur == st.cur && OnGetShard(st, op).owned == st.owned[op.shardNum := Exist]
  {
    hide OnGetShard;
    MovesExactly(st, op, GiveShard(0, 0));
  }

  lemma Give(e: Setting, run: seq<World>, g: nat, s: nat) returns (run': seq<World>)
    requires Sane(e) && |run| > 0 && IsRun(e, run) && ShapeOk(e, Final(run)) && g in e.gids && s < NSHARDS
    requires Last(e, Final(run), g).owned[s] == WaitGive
    requires Owner(e, Cur(e, Final(run), g), s) in e.gids
    requires var c := Cur(e, Final(run), g);
      OnAckReceive(Last(e, Final(run), Owner(e, c, s)), c, s) == AckReply(true, OK)
    ensures GoesOn(e, run, run', g)
    ensures var st, st' := Last(e, Final(run), g), Last(e, Final(run'), g);
      st'.cur == st.cur && st'.owned == st.owned[s := NoExist]
  {
    hide Sane, IsRun, Applied, OnAckReceive, OnGiveShard, ShapeOk, Last;
    var w, c := Final(run), Cur(e, Final(run), g);
    var h := Owner(e, c, s);
    ShapedLast(e, w, g);
    ShapedLast(e, w, h);
    CurrentConfig(e, run, g);
    var st := Last(e, w, g);
    var op := GiveShard(c, s);
    var r1 := Do(e, run, AskAck(g, Newest(e, w, g), s));
    var r2 := Do(e, r1, AnswerAck(h, Newest(e, w, h), AckAsk(g, h, c, s)));
    var r3 := Do(e, r2, TakeAck(g, AckRep(g, c, s)));
    run' := Apply(e, r3, w, g, op);
    GivenUp(st, op);
  }

  lemma CurrentConfig(e: Setting, run: seq<World>, g: nat)
    requires Sane(e) && |run| > 0 && IsRun(e, run) && ShapeOk(e, Final(run)) && g in e.gids
    ensures Last(e, Final(run), g).cur == ConfigAt(e, Cur(e, Final(run), g))
  {
    hide Sane, Inv, IsRun, GroupsOk, LevelOk;
    RunParts(e, run, |run| - 1);
    LastOk(e, Final(run), g);
  }

  lemma GivenUp(st: KvState, op: Op)
    requires Shaped(st) && op.GiveShard? && op.shardNum < NSHARDS
    requires st.cur.num == op.cfgNum && st.owned[op.shardNum] == WaitGive
    ensures OnGiveShard(st, op).cur == st.cur && OnGiveShard(st, op).owned == st.owned[op.shardNum := NoExist]
  {
    hide OnGiveShard;
    MovesExactly(st, GetShard(0, 0, map[], map[]), op);
  }

  lemma Advance(e: Setting, run: seq<World>, g: nat) returns (run': seq<World>)
    requires Sane(e) && |run| > 0 && IsRun(e, run) && ShapeOk(e, Final(run)) && g in e.gids
    requires Ready(Last(e, Final(run), g))
    ensures GoesOn(e, run, run', g)
    ensures Cur(e, Final(run'), g) == Cur(e, Final(run), g) + 1
  {
    hide Sane, IsRun, Applied, Ready, ShapeOk, Last, Updated;
    var w, k := Final(run), Cur(e, Final(run), g) + 1;
    ShapedLast(e, w, g);
    ConfigShape(e, k);
    var op := UpdateConfig(ConfigAt(e, k), k);
    var r1 := Do(e, run, Poll(g, Newest(e, w, g)));
    run' := Apply(e, r1, w, g, op);
    UpdatedConfig(g, Last(e, w, g), ConfigAt(e, k));
  }

  lemma UpdatedConfig(gid: nat, st: KvState, next: Config)
    requires Shaped(st) && |next.shards| == NSHARDS
    ensures Updated(gid, st, next).cur == next
  {
  }

  // ---- How far the groups have to go ----

  predicate Stable(now: ShardState) {
    now == NoExist || now == Exist
  }

  /** How many shards are on the way. */
  function Moving(owned: seq<ShardState>): nat {
    if owned == [] then 0 else Moving(owned[..|owned| - 1]) + if Stable(owned[|owned| - 1]) then 0 else 1
  }

  lemma {:induction false} MovingAtMost(owned: seq<ShardState>)
    ensures Moving(owned) <= |owned|
  {
    if owned != [] { MovingAtMost(owned[..|owned| - 1]); }
  }

  lemma {:induction false} OneSettled(owned: seq<ShardState>, s: nat, now: ShardState)
    requires s < |owned| && !Stable(owned[s]) && Stable(now)
    ensures Moving(owned[s := now]) == Moving(owned) - 1
  {
    var last := |owned| - 1;
    if s < last {
      OneSettled(owned[..last], s, now);
      assert owned[s := now][..last] == owned[..last][s := now];
    } else {
      assert owned[s := now][..last] == owned[..last];
    }
  }

  /** What a group still has to do before it is in configuration goal with no shard on the way. */
  function Weight(st: KvState, goal: nat): nat {
    if st.cur.num > goal then 0 else (goal - st.cur.num) * (|st.owned| + 1) + Moving(st.owned)
  }

  ghost function Total(e: Setting, w: World, order: seq<nat>, goal: nat): nat
    requires ShapeOk(e, w) && forall g :: g in order ==> g in e.gids
  {
    if order == [] then 0
    else Total(e, w, order[..|order| - 1], goal) + Weight(Last(e, w, order[|order| - 1]), goal)
  }

  lemma {:induction false} TotalDrops(e: Setting, w: World, w': World, order: seq<nat>, goal: nat, g: nat)
    requires ShapeOk(e, w) && ShapeOk(e, w') && (forall h :: h in order ==> h in e.gids) && g in e.gids
    requires forall h :: h in e.gids && h != g ==> Last(e, w', h) == Last(e, w, h)
    requires Weight(Last(e, w', g), goal) < Weight(Last(e, w, g), goal)
    ensures Total(e, w', order, goal) <= Total(e, w, order, goal)
    ensures g in order ==> Total(e, w', order, goal) < Total(e, w, order, goal)
  {
    hide Weight, ShapeOk, Last;
    if order != [] {
      TotalDrops(e, w, w', order[..|order| - 1], goal, g);
    }
  }

  lemma WeightSettled(st: KvState, st': KvState, goal: nat, s: nat, now: ShardState)
    requires st.cur.num <= goal && st'.cur == st.cur && s < |st.owned| && !Stable(st.owned[s]) && Stable(now)
    requires st'.owned == st.owned[s := now]
    ensures Weight(st', goal) < Weight(st, goal)
  {
    OneSettled(st.owned, s, now);
  }

  lemma WeightAdvanced(st: KvState, st': KvState, goal: nat)
    requires st.cur.num < goal && st'.cur.num == st.cur.num + 1 && |st'.owned| == |st.owned|
    ensures Weight(st', goal) < Weight(st, goal)
  {
    MovingAtMost(st'.owned);
    var width, left := |st.owned| + 1, goal - st.cur.num;
    assert left * width == (left - 1) * width + width;
  }

  // ---- The theorem ----

  /** Every configuration up to this one gives every shard to a group that there is. */
  ghost predicate AllAssigned(e: Setting, goal: nat)
    requires Sane(e)
  {
    forall k: nat, s: nat :: 1 <= k <= goal && s < NSHARDS ==> Owner(e, k, s) in e.gids
  }

  /** All groups have come to this configuration, and none that is in it has a shard on the way. */
  ghost predicate Reached(e: Setting, w: World, goal: nat) {
    && ShapeOk(e, w)
    && forall g :: g in e.gids ==>
         Cur(e, w, g) >= goal && (Cur(e, w, g) == goal ==> Ready(Last(e, w, g)))
  }

  lemma {:induction false} Hindmost(e: Setting, w: World, order: seq<nat>) returns (g: nat)
    requires ShapeOk(e, w) && order != [] && forall g :: g in order ==> g in e.gids
    ensures g in order && forall h :: h in order ==> Cur(e, w, g) <= Cur(e, w, h)
  {
    hide ShapeOk, Last;
    var last := |order| - 1;
    g := order[last];
    if last > 0 {
      var least := Hindmost(e, w, order[..last]);
      if Cur(e, w, least) <= Cur(e, w, g) { g := least; }
    }
  }

  lemma {:induction false} Listing(gids: set<nat>) returns (order: seq<nat>)
    ensures forall g: nat :: g in order <==> g in gids
  {
    order := [];
    if gids != {} {
      var g: nat :| g in gids;
      var rest := Listing(gids - {g});
      order := rest + [g];
    }
  }

  /** When no group waits to take over, the next owner of a shard has it. */
  lemma NextOwnerHas(e: Setting, run: seq<World>, k: nat, g: nat, s: nat)
    requires Sane(e) && IsRun(e, run) && k < |run| && g in e.gids && s < NSHARDS && ShapeOk(e, run[k])
    requires Last(e, run[k], g).owned[s] == WaitGive
    requires forall h :: h in e.gids ==> Cur(e, run[k], h) >= Cur(e, run[k], g)
    requires forall h :: h in e.gids && Cur(e, run[k], h) == Cur(e, run[k], g) ==> StateOf(e, run[k], h, s) != WaitGet
    ensures var c := Cur(e, run[k], g); c >= 2 && (Owner(e, c, s) in e.gids ==>
      OnAckReceive(Last(e, run[k], Owner(e, c, s)), c, s) == AckReply(true, OK))
  {
    hide Sane, Inv, IsRun, GroupsOk, LevelOk, Frozen, UpToDate, SessionsReal;
    RunParts(e, run, k);
    LastOk(e, run[k], g);
    var c := Cur(e, run[k], g);
    assert ShardOk(e, run[k], g, Last(e, run[k], g), s);
    if Owner(e, c, s) in e.gids {
      var h := Owner(e, c, s);
      LastOk(e, run[k], h);
      assert ShardOk(e, run[k], h, Last(e, run[k], h), s);
      assert Cur(e, run[k], h) == c ==> StateOf(e, run[k], h, s) != WaitGet;
    }
  }

  ghost function StateOf(e: Setting, w: World, g: nat, s: nat): ShardState
    requires ShapeOk(e, w) && g in e.gids && s < NSHARDS
  {
    Last(e, w, g).owned[s]
  }

  lemma NotPast(e: Setting, w: World, goal: nat, c: nat)
    requires ShapeOk(e, w) && !Reached(e, w, goal) && forall h :: h in e.gids ==> Cur(e, w, h) >= c
    ensures c <= goal
  {
  }

  /** When nothing waits where the hindmost groups are, those are ready, and not at the goal. */
  lemma NothingWaits(e: Setting, w: World, goal: nat, c: nat, g: nat)
    requires ShapeOk(e, w) && !Reached(e, w, goal) && g in e.gids && Cur(e, w, g) == c
    requires forall h :: h in e.gids ==> Cur(e, w, h) >= c
    requires forall h, s: nat :: h in e.gids && s < NSHARDS && Cur(e, w, h) == c ==> Stable(StateOf(e, w, h, s))
    ensures c < goal && Ready(Last(e, w, g))
  {
    forall h | h in e.gids && Cur(e, w, h) == c ensures Ready(Last(e, w, h)) {
      forall s: nat | s < |Last(e, w, h).owned| ensures Stable(Last(e, w, h).owned[s]) {
        assert Stable(StateOf(e, w, h, s));
      }
    }
  }

  lemma SomeGroup(e: Setting, w: World, order: seq<nat>, goal: nat)
    requires ShapeOk(e, w) && !Reached(e, w, goal) && forall g :: g in order <==> g in e.gids
    ensures order != []
  {
  }

  /** As long as the goal is not reached, some group gets closer to it. */
  lemma Closer(e: Setting, run: seq<World>, goal: nat, order: seq<nat>) returns (run': seq<World>, g: nat)
    requires Sane(e) && |run| > 0 && IsRun(e, run) && ShapeOk(e, Final(run)) && AllAssigned(e, goal)
    requires (forall g :: g in order <==> g in e.gids) && !Reached(e, Final(run), goal)
    ensures GoesOn(e, run, run', g) && g in order
    ensures Weight(Last(e, Final(run'), g), goal) < Weight(Last(e, Final(run), g), goal)
    ensures Cur(e, Final(run'), g) <= goal
  {
    hide Sane, IsRun, ShapeOk, Last, OnAckReceive, Weight, GoesOn, Reached, Ready;
    var w := Final(run);
    SomeGroup(e, w, order, goal);
    g := Hindmost(e, w, order);
    var c := Cur(e, w, g);
    NotPast(e, w, goal, c);
    if h, s: nat :| h in e.gids && s < NSHARDS && Cur(e, w, h) == c && StateOf(e, w, h, s) == WaitGet {
      g := h;
      ShapedLast(e, w, g);
      run' := Fetch(e, run, g, s);
      StillThere(e, run, run', g);
      WeightSettled(Last(e, w, g), Last(e, Final(run'), g), goal, s, Exist);
    } else if h, s: nat :| h in e.gids && s < NSHARDS && Cur(e, w, h) == c && StateOf(e, w, h, s) == WaitGive {
      g := h;
      ShapedLast(e, w, g);
      NextOwnerHas(e, run, |run| - 1, g, s);
      run' := Give(e, run, g, s);
      StillThere(e, run, run', g);
      WeightSettled(Last(e, w, g), Last(e, Final(run'), g), goal, s, NoExist);
    } else {
      NothingWaits(e, w, goal, c, g);
      run' := Advance(e, run, g);
      StillThere(e, run, run', g);
      ShapedLast(e, w, g);
      ShapedLast(e, Final(run'), g);
      WeightAdvanced(Last(e, w, g), Last(e, Final(run'), g), goal);
    }
  }

  lemma StillThere(e: Setting, run: seq<World>, run': seq<World>, g: nat)
    requires Sane(e) && GoesOn(e, run, run', g)
    ensures |run| > 0 && |run'| > 0 && IsRun(e, run') && run <= run'
    ensures ShapeOk(e, Final(run)) && ShapeOk(e, Final(run'))
    ensures forall h :: h in e.gids && h != g ==> Last(e, Final(run'), h) == Last(e, Final(run), h)
    ensures Final(run').nums == Final(run).nums
  {
    hide Sane, IsRun;
  }

  lemma {:induction false} GoOn(e: Setting, run: seq<World>, goal: nat, order: seq<nat>) returns (run': seq<World>)
    requires Sane(e) && |run| > 0 && IsRun(e, run) && ShapeOk(e, Final(run)) && AllAssigned(e, goal)
    requires forall g :: g in order <==> g in e.gids
    ensures |run'| > 0 && IsRun(e, run') && run <= run' && Reached(e, Final(run'), goal)
    ensures Final(run').nums == Final(run).nums && ShapeOk(e, Final(run'))
    ensures forall g :: g in e.gids ==>
      Cur(e, Final(run'), g) <= goal || Cur(e, Final(run'), g) == Cur(e, Final(run), g)
    decreases Total(e, Final(run), order, goal)
  {
    hide Sane, IsRun, ShapeOk, Last, Weight, GoesOn, Reached, AllAssigned;
    if Reached(e, Final(run), goal) {
      run' := run;
    } else {
      var r1, g := Closer(e, run, goal, order);
      StillThere(e, run, r1, g);
      TotalDrops(e, Final(run), Final(r1), order, goal, g);
      run' := GoOn(e, r1, goal, order);
    }
  }

  /** A run goes on to this one, in which all groups have come to the configuration. */
  ghost predicate Reaches(e: Setting, run: seq<World>, run': seq<World>, goal: nat)
    requires Sane(e)
  {
    |run'| > 0 && IsRun(e, run') && run <= run' && Reached(e, Final(run'), goal)
  }

  /** A group that should give a shard to nobody waits for ever. */
  lemma NobodyTakes(e: Setting, run: seq<World>, cfg: nat, s: nat)
    requires Sane(e) && |run| > 0 && IsRun(e, run) && cfg >= 2 && s < NSHARDS
    requires Owner(e, cfg - 1, s) in e.gids && Owner(e, cfg, s) !in e.gids
    ensures ShapeOk(e, Final(run))
    ensures var g := Owner(e, cfg - 1, s);
      && Cur(e, Final(run), g) <= cfg
      && (Cur(e, Final(run), g) == cfg ==> Last(e, Final(run), g).owned[s] == WaitGive)
  {
    hide Sane, Inv, IsRun, GroupsOk, Frozen, UpToDate, SessionsReal;
    RunParts(e, run, |run| - 1);
    var g, w := Owner(e, cfg - 1, s), Final(run);
    LastOk(e, w, g);
    assert ShardOk(e, w, g, Last(e, w, g), s) && PassedOk(e, w, g, Cur(e, w, g), s) && LevelOk(e, w, s);
  }

  lemma NotReached(e: Setting, run: seq<World>, goal: nat, cfg: nat, s: nat)
    requires Sane(e) && |run| > 0 && IsRun(e, run) && 1 <= cfg <= goal && s < NSHARDS
    requires Owner(e, cfg, s) !in e.gids
    ensures !Reached(e, Final(run), goal)
    decreases cfg
  {
    hide IsRun;
    assert cfg >= 2;
    if Owner(e, cfg - 1, s) in e.gids {
      NobodyTakes(e, run, cfg, s);
      var st := Last(e, Final(run), Owner(e, cfg - 1, s));
      if st.cur.num == cfg { NotReadyWaiting(st, s); }
    } else {
      NotReached(e, run, goal, cfg - 1, s);
    }
  }

  lemma NotReadyWaiting(st: KvState, s: nat)
    requires Shaped(st) && s < NSHARDS && st.owned[s] == WaitGive
    ensures !Ready(st)
  {
  }

  /** However far the groups have got, and whatever was lost: they can all go on to a configuration and
      finish the migrations up to it, exactly when no configuration up to it leaves a shard to nobody. */
  lemma GoesOnUnlessUnassigned(e: Setting, run: seq<World>, goal: nat)
    requires Sane(e) && |run| > 0 && IsRun(e, run)
    ensures (exists run' :: Reaches(e, run, run', goal)) <==> AllAssigned(e, goal)
  {
    hide Sane, IsRun, Reached, Owner;
    if AllAssigned(e, goal) {
      RunParts(e, run, |run| - 1);
      var order := Listing(e.gids);
      var run' := GoOn(e, run, goal, order);
      assert Reaches(e, run, run', goal);
    } else if exists run' :: Reaches(e, run, run', goal) {
      var run' :| Reaches(e, run, run', goal);
      var k: nat, s: nat :| 1 <= k <= goal && s < NSHARDS && Owner(e, k, s) !in e.gids;
      NotReached(e, run', goal, k, s);
    }
  }

  // ---- Clients ----

  /** Where all groups are in one configuration and ready, the owner serves the shard. */
  lemma OwnerServes(e: Setting, run: seq<World>, goal: nat, s: nat)
    requires Sane(e) && |run| > 0 && IsRun(e, run) && ShapeOk(e, Final(run)) && s < NSHARDS && goal >= 1
    requires Owner(e, goal, s) in e.gids
    requires Cur(e, Final(run), Owner(e, goal, s)) == goal && Ready(Last(e, Final(run), Owner(e, goal, s)))
    ensures Shaped(Last(e, Final(run), Owner(e, goal, s)))
    ensures Last(e, Final(run), Owner(e, goal, s)).owned[s] == Exist
  {
    hide Sane, Inv, IsRun, GroupsOk, LevelOk, Frozen, UpToDate, SessionsReal;
    RunParts(e, run, |run| - 1);
    var g := Owner(e, goal, s);
    LastOk(e, Final(run), g);
    assert ShardOk(e, Final(run), g, Last(e, Final(run), g), s);
  }

  lemma Served(st: KvState, op: Op)
    requires Shaped(st) && op.ClientCmd? && st.owned[Key2Shard(op.key)] == Exist
    ensures OnClientCmd(st, op).1.Some?
    ensures Answers(st, op) == {Answer(op.clientId, op.cmdNum, OnClientCmd(st, op).1.value)}
  {
    hide Execute;
  }

  /** The client's current command gets an answer in the longer run. */
  ghost predicate Answered(e: Setting, run: seq<World>, run': seq<World>, client: nat)
    requires Sane(e)
  {
    && |run| > 0 && |run'| > 0 && IsRun(e, run') && run <= run' && Final(run').nums == Final(run).nums
    && exists reply :: Answer(client, Num(Final(run), client), reply) in Final(run').net
  }

  /** Whatever has become of it so far, a client's command can still be answered, if no configuration up to
      some that no group has passed leaves a shard to nobody. */
  lemma CanBeAnswered(e: Setting, run: seq<World>, goal: nat, client: nat) returns (run': seq<World>)
    requires Sane(e) && |run| > 0 && IsRun(e, run) && ShapeOk(e, Final(run)) && goal >= 1 && AllAssigned(e, goal)
    requires forall g :: g in e.gids ==> Cur(e, Final(run), g) <= goal
    ensures Answered(e, run, run', client)
  {
    hide IsRun, ShapeOk, Last, Ready, Applied, OnClientCmd, Answers;
    var order := Listing(e.gids);
    var r1 := GoOn(e, run, goal, order);
    var w, cmd := Final(r1), Cmd(client, Num(Final(run), client));
    var op := e.script(cmd);
    var s := Key2Shard(op.key);
    var g := Owner(e, goal, s);
    AtGoal(e, w, goal, g);
    OwnerServes(e, r1, goal, s);
    NumPositive(e, r1, client);
    var r2 := Do(e, r1, Submit(g, client, cmd.num));
    run' := Apply(e, r2, w, g, op);
    Served(Last(e, w, g), op);
  }

  lemma AtGoal(e: Setting, w: World, goal: nat, g: nat)
    requires ShapeOk(e, w) && Reached(e, w, goal) && g in e.gids && Cur(e, w, g) <= goal
    ensures Cur(e, w, g) == goal && Ready(Last(e, w, g))
  {
  }

  lemma NumPositive(e: Setting, run: seq<World>, client: nat)
    requires Sane(e) && |run| > 0 && IsRun(e, run)
    ensures Num(Final(run), client) >= 1
  {
    hide Sane, Steps;
    NumsGrow(e, run, 0, |run| - 1, client);
  }
}
