/** What holds in every state of every run of the sharded service. */
module ShardKvInvariant {
  import opened Options
  import opened ShardKvServer
  import opened ShardKvCluster

  /** The write was executed. */
  ghost predicate Done(e: Setting, w: World, cmd: Cmd)
    requires Sane(e) && ShapeOk(e, w)
  {
    cmd in w.exec[ShardOf(e, cmd)]
  }

  /** Every record is of a write that was executed. */
  ghost predicate SessionsReal(e: Setting, w: World, sess: Sessions)
    requires Sane(e) && ShapeOk(e, w)
  {
    forall c: nat :: c in sess ==> Done(e, w, Cmd(c, sess[c].lastCmdNum))
  }

  /** No command in the list would be executed again. */
  ghost predicate Covers(sess: Sessions, cmds: seq<Cmd>) {
    forall i: nat :: i < |cmds| ==> cmds[i].client in sess && cmds[i].num <= sess[cmds[i].client].lastCmdNum
  }

  /** This copy of the shard is up to date. */
  ghost predicate UpToDate(e: Setting, w: World, s: nat, data: Shard, sess: Sessions)
    requires Sane(e) && ShapeOk(e, w) && s < NSHARDS
  {
    data == Replay(e, w.exec[s]) && Covers(sess, w.exec[s])
  }

  /** The owner in configuration j has left that configuration, and while nobody after it holds the
      shard, the copy is up to date. */
  ghost predicate Frozen(e: Setting, w: World, j: nat, s: nat, data: Shard, sess: Sessions)
    requires Sane(e) && ShapeOk(e, w) && s < NSHARDS
  {
    && Owner(e, j, s) in e.gids && j < Cur(e, w, Owner(e, j, s)) && j <= w.level[s]
    && (w.level[s] == j ==> UpToDate(e, w, s, data, sess))
  }

  // ---- States, old and new ----

  ghost predicate ShardOk(e: Setting, w: World, g: nat, st: KvState, s: nat)
    requires Sane(e) && ShapeOk(e, w) && Shaped(st) && s < NSHARDS
  {
    var c := st.cur.num;
    match st.owned[s]
    case Exist => c >= 1 && Owner(e, c, s) == g && w.level[s] >= c
    case WaitGet => c >= 2 && Owner(e, c, s) == g && Owner(e, c - 1, s) != g
    case WaitGive =>
      && c >= 2 && Owner(e, c, s) != g && Owner(e, c - 1, s) == g
      && Frozen(e, w, c - 1, s, st.kvDB[s], st.sessions)
    case NoExist =>
      && (c >= 1 ==> Owner(e, c, s) != g) && (c >= 2 && Owner(e, c - 1, s) == g ==> w.level[s] >= c)
      && (c == 0 ==> st.kvDB[s] == map[])
  }

  /** What the group owned in a configuration it has left, it came to hold there; and once it has left
      the next one too, the next owner came to hold it. */
  ghost predicate PassedOk(e: Setting, w: World, g: nat, c: nat, s: nat)
    requires Sane(e) && ShapeOk(e, w) && s < NSHARDS
  {
    forall j: nat :: 1 <= j < c && Owner(e, j, s) == g ==> w.level[s] >= j && (j + 1 < c ==> w.level[s] >= j + 1)
  }

  ghost predicate StateOk(e: Setting, w: World, g: nat, st: KvState)
    requires Sane(e) && ShapeOk(e, w) && Shaped(st)
  {
    && st.cur == ConfigAt(e, st.cur.num) && (st.cur.num >= 2 ==> st.pre == ConfigAt(e, st.cur.num - 1))
    && (forall s: nat :: s < NSHARDS ==> ShardOk(e, w, g, st, s) && PassedOk(e, w, g, st.cur.num, s))
    && SessionsReal(e, w, st.sessions)
  }

  ghost predicate CurrentOk(e: Setting, w: World, g: nat, s: nat)
    requires Sane(e) && ShapeOk(e, w) && g in e.gids && s < NSHARDS
  {
    var st := Last(e, w, g);
    && (st.owned[s] == Exist ==> w.level[s] == st.cur.num && UpToDate(e, w, s, st.kvDB[s], st.sessions))
    && (st.owned[s] == WaitGet ==> w.level[s] < st.cur.num)
  }

  /** A shard that is not moving stays as it is until the configuration changes. */
  predicate KeepsStable(st: KvState, now: KvState)
    requires Shaped(st) && Shaped(now)
  {
    forall s: nat :: s < NSHARDS && (st.owned[s] == Exist || st.owned[s] == NoExist) ==> now.owned[s] == st.owned[s]
  }

  ghost predicate PastOk(e: Setting, w: World, g: nat)
    requires Sane(e) && ShapeOk(e, w) && g in e.gids
  {
    forall i: nat :: i < |w.groups[g]| ==>
      && w.groups[g][i].cur.num <= Cur(e, w, g)
      && (w.groups[g][i].cur.num == Cur(e, w, g) ==> KeepsStable(w.groups[g][i], Last(e, w, g)))
  }

  ghost predicate GroupsOk(e: Setting, w: World)
    requires Sane(e) && ShapeOk(e, w)
  {
    && (forall g, i: nat :: g in e.gids && i < |w.groups[g]| ==> StateOk(e, w, g, w.groups[g][i]))
    && (forall g, s: nat :: g in e.gids && s < NSHARDS ==> CurrentOk(e, w, g, s))
    && (forall g :: g in e.gids ==> PastOk(e, w, g))
  }

  // ---- History ----

  /** Every owner up to the level has reached its configuration. */
  ghost predicate LevelOk(e: Setting, w: World, s: nat)
    requires Sane(e) && ShapeOk(e, w) && s < NSHARDS
  {
    && (forall j: nat :: 1 <= j <= w.level[s] ==> Owner(e, j, s) in e.gids && Cur(e, w, Owner(e, j, s)) >= j)
    && (w.level[s] == 0 ==> w.exec[s] == [])
  }

  /** A client's writes on the shard were executed in the order of their numbers, none twice. */
  predicate Increasing(cmds: seq<Cmd>) {
    forall i: nat, j: nat :: i < j < |cmds| && cmds[i].client == cmds[j].client ==> cmds[i].num < cmds[j].num
  }

  ghost predicate ExecOk(e: Setting, w: World, s: nat)
    requires Sane(e) && ShapeOk(e, w) && s < NSHARDS
  {
    && (forall i: nat :: i < |w.exec[s]| ==>
          && ShardOf(e, w.exec[s][i]) == s && IsWrite(e, w.exec[s][i])
          && w.exec[s][i].num <= Num(w, w.exec[s][i].client))
    && Increasing(w.exec[s])
  }

  /** A client has moved past a write only once it was executed. */
  ghost predicate ClientsOk(e: Setting, w: World)
    requires Sane(e) && ShapeOk(e, w)
  {
    forall cmd: Cmd :: 1 <= cmd.num < Num(w, cmd.client) && IsWrite(e, cmd) ==> Done(e, w, cmd)
  }

  // ---- Logs and messages ----

  ghost predicate OpOk(e: Setting, w: World, g: nat, op: Op)
    requires Sane(e) && ShapeOk(e, w) && g in e.gids
  {
    match op
    case ClientCmd(c, n, _, _, _) => op == e.script(Cmd(c, n)) && 1 <= n <= Num(w, c)
    case UpdateConfig(cfg, k) =>
      && k >= 1 && cfg == ConfigAt(e, k) && k <= Cur(e, w, g) + 1
      && (k == Cur(e, w, g) + 1 ==> Ready(Last(e, w, g)))
    case GetShard(k, s, data, sess) =>
      k >= 2 && s < NSHARDS && Owner(e, k, s) == g && Frozen(e, w, k - 1, s, data, sess) && SessionsReal(e, w, sess)
    case GiveShard(k, s) => s < NSHARDS && w.level[s] >= k
    case EmptyOp => true
  }

  ghost predicate MessageOk(e: Setting, w: World, m: Message)
    requires Sane(e) && ShapeOk(e, w)
  {
    match m
    case MigrateAsk(from, to, k, s) =>
      k >= 2 && s < NSHARDS && Owner(e, k, s) == from && Owner(e, k - 1, s) == to && from != to
    case MigrateRep(to, k, s, data, sess) =>
      k >= 2 && s < NSHARDS && Owner(e, k, s) == to && Frozen(e, w, k - 1, s, data, sess) && SessionsReal(e, w, sess)
    case AckAsk(_, to, k, s) => k >= 1 && s < NSHARDS && Owner(e, k, s) == to
    case AckRep(_, k, s) => s < NSHARDS && w.level[s] >= k
    case Answer(c, n, _) => IsWrite(e, Cmd(c, n)) ==> Done(e, w, Cmd(c, n))
  }

  ghost predicate TrafficOk(e: Setting, w: World)
    requires Sane(e) && ShapeOk(e, w)
  {
    && (forall g, op :: g in e.gids && op in w.proposed[g] ==> OpOk(e, w, g, op))
    && (forall m :: m in w.net ==> MessageOk(e, w, m))
  }

  ghost predicate Inv(e: Setting, w: World)
    requires Sane(e)
  {
    && ShapeOk(e, w) && GroupsOk(e, w)
    && (forall s: nat :: s < NSHARDS ==> LevelOk(e, w, s) && ExecOk(e, w, s))
    && ClientsOk(e, w) && TrafficOk(e, w)
  }

  lemma InitInv(e: Setting)
    requires Sane(e)
    ensures Inv(e, InitWorld(e))
  {
    hide GroupsOk, Sane;
    InitShaped();
    InitGroups(e);
  }

  lemma InitStateOk(e: Setting, g: nat)
    requires Sane(e) && g in e.gids && ShapeOk(e, InitWorld(e)) && Shaped(InitState())
    ensures StateOk(e, InitWorld(e), g, InitState())
  {
    hide Frozen, UpToDate, Replay;
  }

  lemma InitGroups(e: Setting)
    requires Sane(e)
    ensures ShapeOk(e, InitWorld(e)) && GroupsOk(e, InitWorld(e))
  {
    hide Frozen, UpToDate, Replay, StateOk;
    InitShaped();
    var w := InitWorld(e);
    forall g, i: nat | g in e.gids && i < |w.groups[g]| ensures StateOk(e, w, g, w.groups[g][i]) {
      assert w.groups[g] == [InitState()];
      InitStateOk(e, g);
    }
    forall g | g in e.gids ensures PastOk(e, w, g) {
      assert w.groups[g] == [InitState()];
    }
  }

  // ---- What a step keeps ----

  ghost predicate Grows(e: Setting, w: World, w': World)
    requires Sane(e)
  {
    && ShapeOk(e, w) && ShapeOk(e, w')
    && (forall g :: g in e.gids ==> Cur(e, w, g) <= Cur(e, w', g))
    && (forall s: nat :: s < NSHARDS ==> w.level[s] <= w'.level[s] && w.exec[s] <= w'.exec[s])
    && (forall c: nat :: Num(w, c) <= Num(w', c))
    && (forall s: nat :: s < NSHARDS ==> FrozenKept(e, w, w', s))
  }

  /** A shard whose holder has left its configuration is not written, and does not come to be held. */
  ghost predicate FrozenKept(e: Setting, w: World, w': World, s: nat)
    requires Sane(e) && ShapeOk(e, w) && ShapeOk(e, w') && s < NSHARDS
  {
    var j := w'.level[s];
    Owner(e, j, s) in e.gids && j < Cur(e, w', Owner(e, j, s)) ==> w.level[s] == j && w'.exec[s] == w.exec[s]
  }

  lemma GrowsShapes(e: Setting, w: World, w': World)
    requires Sane(e) && Grows(e, w, w')
    ensures ShapeOk(e, w) && ShapeOk(e, w')
  {
  }

  lemma GrowsDone(e: Setting, w: World, w': World, cmd: Cmd)
    requires Sane(e) && Grows(e, w, w') && Done(e, w, cmd)
    ensures Done(e, w', cmd)
  {
    var s := ShardOf(e, cmd);
    assert w.exec[s] <= w'.exec[s];
    var i: nat :| i < |w.exec[s]| && w.exec[s][i] == cmd;
    assert w'.exec[s][i] == cmd;
  }

  lemma GrowsSessions(e: Setting, w: World, w': World, sess: Sessions)
    requires Sane(e) && Grows(e, w, w') && SessionsReal(e, w, sess)
    ensures SessionsReal(e, w', sess)
  {
    hide Grows, Done;
    GrowsShapes(e, w, w');
    forall c: nat | c in sess ensures Done(e, w', Cmd(c, sess[c].lastCmdNum)) {
      GrowsDone(e, w, w', Cmd(c, sess[c].lastCmdNum));
    }
  }

  lemma GrowsFrozen(e: Setting, w: World, w': World, j: nat, s: nat, data: Shard, sess: Sessions)
    requires Sane(e) && Grows(e, w, w') && s < NSHARDS && Frozen(e, w, j, s, data, sess)
    ensures Frozen(e, w', j, s, data, sess)
  {
    assert FrozenKept(e, w, w', s);
  }

  lemma GrowsShard(e: Setting, w: World, w': World, g: nat, st: KvState, s: nat)
    requires Sane(e) && Grows(e, w, w') && Shaped(st) && s < NSHARDS
    requires ShardOk(e, w, g, st, s) && PassedOk(e, w, g, st.cur.num, s)
    ensures ShardOk(e, w', g, st, s) && PassedOk(e, w', g, st.cur.num, s)
  {
    hide Frozen, FrozenKept;
    if st.owned[s] == WaitGive { GrowsFrozen(e, w, w', st.cur.num - 1, s, st.kvDB[s], st.sessions); }
  }

  lemma GrowsState(e: Setting, w: World, w': World, g: nat, st: KvState)
    requires Sane(e) && Grows(e, w, w') && Shaped(st) && StateOk(e, w, g, st)
    ensures StateOk(e, w', g, st)
  {
    hide Grows, ShardOk, PassedOk, SessionsReal;
    GrowsShapes(e, w, w');
    forall s: nat | s < NSHARDS ensures ShardOk(e, w', g, st, s) && PassedOk(e, w', g, st.cur.num, s) {
      GrowsShard(e, w, w', g, st, s);
    }
    GrowsSessions(e, w, w', st.sessions);
  }

  lemma GrowsFacts(e: Setting, w: World, w': World, g: nat)
    requires Sane(e) && Grows(e, w, w')
    ensures ShapeOk(e, w) && ShapeOk(e, w') && (g in e.gids ==> Cur(e, w, g) <= Cur(e, w', g))
    ensures forall c: nat :: Num(w, c) <= Num(w', c)
    ensures forall s: nat :: s < NSHARDS ==> w.level[s] <= w'.level[s]
  {
    hide FrozenKept, Sane;
  }

  lemma GrowsMessage(e: Setting, w: World, w': World, m: Message)
    requires Sane(e) && Grows(e, w, w') && MessageOk(e, w, m)
    ensures MessageOk(e, w', m)
  {
    hide Frozen, Grows, Done, SessionsReal, Sane, Cur;
    GrowsFacts(e, w, w', 0);
    match m {
      case MigrateAsk(_, _, _, _) =>
      case MigrateRep(to, k, s, data, sess) =>
        GrowsFrozen(e, w, w', k - 1, s, data, sess);
        GrowsSessions(e, w, w', sess);
      case AckAsk(_, _, _, _) =>
      case AckRep(_, _, _) =>
      case Answer(c, n, _) =>
        if IsWrite(e, Cmd(c, n)) { GrowsDone(e, w, w', Cmd(c, n)); }
    }
  }

  /** An entry stays sound, given that a new configuration is only taken from a ready state. */
  lemma GrowsOp(e: Setting, w: World, w': World, g: nat, op: Op)
    requires Sane(e) && Grows(e, w, w') && g in e.gids && OpOk(e, w, g, op)
    requires Cur(e, w', g) == Cur(e, w, g) && Ready(Last(e, w, g)) ==> Ready(Last(e, w', g))
    ensures OpOk(e, w', g, op)
  {
    hide Frozen, Grows, SessionsReal, Ready, Sane, Cur, Last;
    GrowsFacts(e, w, w', g);
    match op {
      case ClientCmd(_, _, _, _, _) =>
      case UpdateConfig(_, _) =>
      case GetShard(k, s, data, sess) =>
        GrowsFrozen(e, w, w', k - 1, s, data, sess);
        GrowsSessions(e, w, w', sess);
      case GiveShard(_, _) =>
      case EmptyOp =>
    }
  }
}
