/** A follower that compaction has cut off from its leader: the two hold the same snapshot, the entries after
    it differ, and the leader goes back into the snapshot, which the follower has no use for. */
module RaftStuck {
  import opened RaftServer
  import opened RaftCluster
  import opened RaftInvariant
  import opened RaftProof
  import opened RaftVoting
  import opened RaftFollowing
  import opened RaftSafety
  import opened RaftWitness
  import opened RaftElection
  import opened RaftExchange
  import opened RaftProgress

  // ---- What keeps the two apart ----

  /** The leader of the term, compacted up to k, knows nothing of v and will not send what follows k next. */
  predicate LeaderSide(sv: Server, v: nat, term: int, k: nat, shared: int) {
    && sv.role == Leader && sv.term == term && sv.snap == k && k + 1 < |sv.log| && sv.log[k + 1].term != shared
    && v < |sv.next| && v < |sv.matched| && sv.matched[v] == 0 && sv.next[v] != k + 1
  }

  /** The follower, compacted up to k, goes on with the term of entry k. */
  predicate FollowerSide(f: Server, term: int, k: nat, shared: int) {
    f.term == term && f.snap == k && k + 1 < |f.log| && f.log[k].term == f.log[k + 1].term == shared
  }

  /** No message between them tells either what it would need. */
  predicate Useless(m: Message, v: nat, term: int, k: nat) {
    match m
    case AppendRequest(to, a) => to == v && a.term == term ==> a.prevIndex > k
    case AppendResponse(from, a, r) => from == v && a.term == term ==> !r.success && r.conflictIndex != k + 1
    case InstallRequest(to, a) => to == v && a.term == term ==> a.lastIndex <= k
    case InstallResponse(from, a, r) => from == v && a.term == term ==> !r.accept
    case _ => true
  }

  ghost predicate Wedged(c: Cluster, s: nat, v: nat, term: int, k: nat, shared: int) {
    && s < |c.servers| && v < |c.servers| && s != v
    && LeaderSide(c.servers[s], v, term, k, shared) && FollowerSide(c.servers[v], term, k, shared)
    && forall m :: m in c.net ==> Useless(m, v, term, k)
  }

  /** Server s is still in office and has not compacted further, and v is still in its term. */
  predicate StillHere(c: Cluster, s: nat, v: nat, term: int, k: nat) {
    && s < |c.servers| && v < |c.servers|
    && c.servers[s].role == Leader && c.servers[s].term == term && c.servers[s].snap == k
    && c.servers[v].term == term
  }

  // ---- Steps ----

  lemma TheLeader(c: Cluster, s: nat, v: nat, term: int, k: nat, shared: int)
    requires Inv(c) && Wedged(c, s, v, term, k, shared)
    ensures c.servers[v].role != Leader
    ensures term in c.hist.leaders && c.hist.leaders[term] == s
    ensures term in c.hist.logs && c.hist.logs[term] == c.servers[s].log
    ensures c.servers[v].commit <= k
  {
    hide RecordsOk, Complete, Committed, VoterOk, WellFormed;
    LeaderOnRecord(c, s);
    if c.servers[v].role == Leader { LeaderOnRecord(c, v); }
    InvParts(c, v);
    var f := c.servers[v];
    LogOnRecord(c, v);
    FollowerAgrees(c, v, f, c.services[v], term);
  }

  /** The follower refuses every append that can reach it. */
  lemma RefusesAppend(c: Cluster, s: nat, v: nat, term: int, k: nat, shared: int, a: AppendArgs)
    requires Inv(c) && Wedged(c, s, v, term, k, shared) && AppendRequest(v, a) in c.net && a.term == term
    ensures var (after, r) := OnAppend(c.servers[v], a);
      && after == c.servers[v].(vote := after.vote, role := Follower) && !r.success && r.conflictIndex != k + 1
  {
    hide RecordsOk, Complete, Committed, VoterOk, WellFormed, OnAppend;
    TheLeader(c, s, v, term, k, shared);
    InvMessage(c, AppendRequest(v, a));
    InvParts(c, v);
    var f := c.servers[v];
    assert Useless(AppendRequest(v, a), v, term, k);
    AppendExactly(f, a);
    FollowerAgrees(c, v, f, c.services[v], term);
  }

  lemma Snapped(c: Cluster, s: nat)
    requires Inv(c) && s < |c.servers|
    ensures c.servers[s].snap < |c.servers[s].log| && |c.services| == |c.servers|
  {
    InvParts(c, s);
  }

  /** What a step makes of one server. */
  function ServerAfter(c: Cluster, st: Step, x: nat): Server
    requires Enabled(c, st) && InBounds(c, st) && x < |c.servers|
  {
    var sv := c.servers[x];
    match st
    case Timeout(s) => if s == x then OnTimeout(sv, s) else sv
    case HandleVoteRequest(m) => if m.to == x then OnVoteRequest(sv, m.voteArgs).0 else sv
    case HandleVoteReply(s, m) => if s == x then OnVoteReply(sv, m.from, m.voteArgs, m.voteReply) else sv
    case Win(s) => if s == x then OnWin(sv, |c.servers|) else sv
    case Start(s, command) => if s == x then OnStart(sv, command) else sv
    case Broadcast(s) => if s == x then OnBroadcast(sv, s) else sv
    case HandleAppend(m) => if m.to == x then OnAppend(sv, m.appendArgs).0 else sv
    case HandleAppendReply(s, m) => if s == x then OnAppendReply(sv, m.from, m.appendArgs, m.appendReply) else sv
    case HandleInstall(m) => if m.to == x then OnInstall(sv, m.snapArgs).0 else sv
    case HandleInstallReply(s, m) => if s == x then OnInstallReply(sv, m.from, m.snapArgs, m.snapReply) else sv
    case Snapshot(s, index) => if s == x then OnSnapshot(sv, index) else sv
    case ApplyNext(s) => if s == x then OnApply(sv).0 else sv
    case SetFlags(s, passive, active) => if s == x then sv.(passive := passive, active := active) else sv
    case Restart(s) => if s == x then OnRestart(sv) else sv
    case _ => sv
  }

  lemma ServerAfterStep(c: Cluster, st: Step, x: nat)
    requires Enabled(c, st) && InBounds(c, st) && x < |c.servers|
    ensures |Apply(c, st).servers| == |c.servers| && Apply(c, st).servers[x] == ServerAfter(c, st, x)
  {
    hide OnAppend, OnInstall, OnVoteRequest, OnAppendReply, OnInstallReply, OnVoteReply, OnBroadcast, OnStart, OnApply;
  }

  lemma FollowerStays(c: Cluster, st: Step, s: nat, v: nat, term: int, k: nat, shared: int)
    requires Inv(c) && Wedged(c, s, v, term, k, shared) && Enabled(c, st) && InBounds(c, st)
    requires StillHere(Apply(c, st), s, v, term, k)
    ensures FollowerSide(Apply(c, st).servers[v], term, k, shared)
  {
    hide Inv, Apply, OnAppend, OnInstall, OnVoteRequest, OnAppendReply, OnInstallReply;
    TheLeader(c, s, v, term, k, shared);
    Snapped(c, v);
    ServerAfterStep(c, st, v);
    var f := c.servers[v];
    match st
    case HandleVoteRequest(m) =>
      if m.to == v { VoteExactly(f, m.voteArgs); }
    case HandleAppend(m) =>
      if m.to == v {
        AppendExactly(f, m.appendArgs);
        if m.appendArgs.term == term { RefusesAppend(c, s, v, term, k, shared, m.appendArgs); }
      }
    case HandleInstall(m) =>
      if m.to == v {
        InstallExactly(f, m.snapArgs);
        assert Useless(m, v, term, k);
      }
    case HandleAppendReply(_, m) => NotLeading(f, m);
    case HandleInstallReply(_, m) => NotLeading(f, m);
    case Snapshot(_, _) => AppliedBelow(c, v);
    case _ =>
  }

  lemma NotLeading(f: Server, m: Message)
    requires f.role != Leader && |f.log| > 0
    ensures m.AppendResponse? && AppendReplyInBounds(f, m.from, m.appendArgs, m.appendReply) ==>
      OnAppendReply(f, m.from, m.appendArgs, m.appendReply) == f
    ensures m.InstallResponse? ==> OnInstallReply(f, m.from, m.snapArgs, m.snapReply) == f
  {
  }

  lemma AppliedBelow(c: Cluster, v: nat)
    requires Inv(c) && v < |c.servers|
    ensures c.servers[v].lastApplied <= c.servers[v].commit
  {
    LogOnRecord(c, v);
  }

  lemma LeaderStays(c: Cluster, st: Step, s: nat, v: nat, term: int, k: nat, shared: int)
    requires Inv(c) && Wedged(c, s, v, term, k, shared) && Enabled(c, st) && InBounds(c, st)
    requires StillHere(Apply(c, st), s, v, term, k)
    ensures LeaderSide(Apply(c, st).servers[s], v, term, k, shared)
  {
    hide Inv, Apply, OnAppend, OnInstall, OnVoteRequest, OnAppendReply, OnInstallReply;
    Snapped(c, s);
    TheLeader(c, s, v, term, k, shared);
    ServerAfterStep(c, st, s);
    var sv := c.servers[s];
    match st
    case HandleVoteRequest(m) =>
      if m.to == s { VoteExactly(sv, m.voteArgs); }
    case HandleAppend(m) =>
      if m.to == s { AppendExactly(sv, m.appendArgs); }
    case HandleInstall(m) =>
      if m.to == s { InstallExactly(sv, m.snapArgs); }
    case HandleAppendReply(i, m) =>
      if i == s { HearsAppend(c, s, v, term, k, shared, m); }
    case HandleInstallReply(i, m) =>
      if i == s { HearsInstall(c, s, v, term, k, shared, m); }
    case _ =>
  }

  lemma HearsAppend(c: Cluster, s: nat, v: nat, term: int, k: nat, shared: int, m: Message)
    requires Wedged(c, s, v, term, k, shared) && m in c.net && m.AppendResponse?
    requires AppendReplyInBounds(c.servers[s], m.from, m.appendArgs, m.appendReply)
    requires OnAppendReply(c.servers[s], m.from, m.appendArgs, m.appendReply).term == term
    ensures LeaderSide(OnAppendReply(c.servers[s], m.from, m.appendArgs, m.appendReply), v, term, k, shared)
  {
    hide OnAppendReply, AppendReplyInBounds, BacksUpTo;
    var sv, a, r := c.servers[s], m.appendArgs, m.appendReply;
    assert Useless(m, v, term, k);
    if !Heeded(sv, a.term, r.term) {
      AppendUnheeded(sv, m.from, a, r);
    } else if r.success {
      SuccessExactly(sv, m.from, a, r);
    } else {
      var to := BackUpTarget(sv, r);
      RefusalExactly(sv, m.from, a, r, to);
      BackUpNotNext(sv, r, to);
    }
  }

  lemma AppendUnheeded(sv: Server, from: nat, a: AppendArgs, r: AppendReply)
    requires |sv.log| > 0 && AppendReplyInBounds(sv, from, a, r) && !Heeded(sv, a.term, r.term)
    ensures OnAppendReply(sv, from, a, r) == sv || OnAppendReply(sv, from, a, r).term == r.term > sv.term
  {
  }

  /** Going back to just after an uncompacted entry leads past the entry after the snapshot. */
  lemma BackUpNotNext(sv: Server, r: AppendReply, to: nat)
    requires BacksUpTo(sv, r, to)
    ensures to > sv.snap + 1 || to == r.conflictIndex
  {
  }

  lemma HearsInstall(c: Cluster, s: nat, v: nat, term: int, k: nat, shared: int, m: Message)
    requires Wedged(c, s, v, term, k, shared) && m in c.net && m.InstallResponse?
    requires c.servers[s].term == m.snapArgs.term ==>
      m.from < |c.servers[s].next| && m.from < |c.servers[s].matched|
    requires OnInstallReply(c.servers[s], m.from, m.snapArgs, m.snapReply).term == term
    ensures LeaderSide(OnInstallReply(c.servers[s], m.from, m.snapArgs, m.snapReply), v, term, k, shared)
  {
    hide OnInstallReply;
    var sv, a, r := c.servers[s], m.snapArgs, m.snapReply;
    assert Useless(m, v, term, k);
    if Heeded(sv, a.term, r.term) {
      SnapshotConfirmed(sv, m.from, a, r);
    } else {
      InstallUnheeded(sv, m.from, a, r);
    }
  }

  lemma InstallUnheeded(sv: Server, from: nat, a: SnapArgs, r: SnapReply)
    requires sv.role == Leader && sv.term == a.term ==> from < |sv.next| && from < |sv.matched|
    requires !Heeded(sv, a.term, r.term)
    ensures OnInstallReply(sv, from, a, r) == sv || OnInstallReply(sv, from, a, r).term == r.term > sv.term
  {
  }

  /** Only this leader sends anything for its term, and nothing of use. */
  lemma MessagesStay(c: Cluster, st: Step, s: nat, v: nat, term: int, k: nat, shared: int)
    requires Inv(c) && Wedged(c, s, v, term, k, shared) && Enabled(c, st) && InBounds(c, st)
    ensures forall m :: m in Apply(c, st).net ==> Useless(m, v, term, k)
  {
    hide Inv, OnAppend, OnInstall, OnVoteRequest, OnAppendReply, OnInstallReply, OnVoteReply, OnBroadcast, OnStart;
    Snapped(c, v);
    TheLeader(c, s, v, term, k, shared);
    match st
    case SendAppend(i, _) => OtherTerm(c, s, i, term);
    case SendSnapshot(i, _) => OtherTerm(c, s, i, term);
    case HandleAppend(m) =>
      if m.to == v && m.appendArgs.term == term { RefusesAppend(c, s, v, term, k, shared, m.appendArgs); }
    case HandleInstall(m) =>
      if m.to == v {
        InstallExactly(c.servers[v], m.snapArgs);
        assert Useless(m, v, term, k);
      }
    case _ =>
  }

  lemma OtherTerm(c: Cluster, s: nat, i: nat, term: int)
    requires Inv(c) && i < |c.servers| && c.servers[i].role == Leader
    requires term in c.hist.leaders && c.hist.leaders[term] == s
    ensures c.servers[i].term == term ==> i == s
  {
    LeaderOnRecord(c, i);
  }

  // ---- Runs ----

  lemma StepUnfolds(run: Run, i: nat)
    requires IsRun(run) && i < |run.steps|
    ensures Inv(run.states[i]) && Inv(run.states[i + 1]) && Enabled(run.states[i], run.steps[i])
    ensures InBounds(run.states[i], run.steps[i]) && run.states[i + 1] == Apply(run.states[i], run.steps[i])
  {
    hide Inv, InBounds, Apply, Enabled;
    RunInv(run, i);
    RunInv(run, i + 1);
    NoPanic(run, i);
    assert Next(run.states[i], run.steps[i], run.states[i + 1]);
  }

  lemma SnapStepGrows(c: Cluster, st: Step, x: nat)
    requires Enabled(c, st) && InBounds(c, st) && x < |c.servers|
    ensures ServerAfter(c, st, x).snap >= c.servers[x].snap
  {
  }

  /** What a server has compacted stays compacted. */
  lemma {:induction false} SnapGrows(run: Run, i: nat, j: nat, x: nat)
    requires IsRun(run) && i <= j < |run.states| && x < |run.states[i].servers|
    ensures x < |run.states[j].servers| && run.states[i].servers[x].snap <= run.states[j].servers[x].snap
    decreases j
  {
    hide Next, Init, Inv, InBounds, Apply, Enabled, ServerAfter;
    if i < j {
      SnapGrows(run, i, j - 1, x);
      StepUnfolds(run, j - 1);
      ServerAfterStep(run.states[j - 1], run.steps[j - 1], x);
      SnapStepGrows(run.states[j - 1], run.steps[j - 1], x);
    }
  }

  lemma LeaderBefore(c: Cluster, st: Step, x: nat)
    requires Enabled(c, st) && InBounds(c, st) && x < |c.servers| && ServerAfter(c, st, x).role == Leader
    ensures c.servers[x].term == ServerAfter(c, st, x).term
    ensures c.servers[x].role == Leader || (st == Win(x) && c.servers[x].role == Candidate)
  {
    hide UpToDate, FirstOfTerm, Merge, LastWithTerm, MajorityIndex;
  }

  /** A leader on record that leads after a step led before it: a term is not won twice. */
  lemma LedBefore(c: Cluster, st: Step, s: nat, term: int)
    requires Inv(c) && Enabled(c, st) && InBounds(c, st) && s < |c.servers|
    requires term in c.hist.leaders && c.hist.leaders[term] == s
    requires ServerAfter(c, st, s).role == Leader && ServerAfter(c, st, s).term == term
    ensures c.servers[s].role == Leader && c.servers[s].term == term
  {
    hide Inv, ServerAfter, InBounds, Enabled;
    LeaderBefore(c, st, s);
    if c.servers[s].role == Candidate { CandidateUnwon(c, s); }
  }

  lemma CandidateUnwon(c: Cluster, s: nat)
    requires Inv(c) && s < |c.servers| && c.servers[s].role == Candidate
    ensures c.servers[s].term in c.hist.leaders ==> c.hist.leaders[c.servers[s].term] != s
  {
    InvParts(c, s);
  }

  lemma GrownHistory(c: Cluster, c': Cluster, s: nat, term: int)
    requires Grows(c, c') && term in c.hist.leaders && c.hist.leaders[term] == s
    ensures term in c'.hist.leaders && c'.hist.leaders[term] == s
    ensures |c'.servers| == |c.servers| && forall v: nat :: v < |c.servers| ==> c.servers[v].term <= c'.servers[v].term
  {
  }

  lemma {:induction false} WedgedOn(run: Run, i: nat, j: nat, s: nat, v: nat, term: int, k: nat, shared: int)
    requires IsRun(run) && i <= j < |run.states| && Wedged(run.states[i], s, v, term, k, shared)
    requires StillHere(run.states[j], s, v, term, k)
    ensures Wedged(run.states[j], s, v, term, k, shared)
    decreases j
  {
    hide Next, Init, Inv, InBounds, Apply, Enabled, ServerAfter, Grows, Useless;
    if i < j {
      var c, st := run.states[j - 1], run.steps[j - 1];
      RunInv(run, i);
      TheLeader(run.states[i], s, v, term, k, shared);
      RunGrows(run, i, j - 1);
      GrownHistory(run.states[i], c, s, term);
      RunGrows(run, j - 1, j);
      GrownHistory(c, run.states[j], s, term);
      SnapGrows(run, i, j - 1, s);
      SnapGrows(run, j - 1, j, s);
      StepUnfolds(run, j - 1);
      ServerAfterStep(c, st, s);
      LedBefore(c, st, s, term);
      WedgedOn(run, i, j - 1, s, v, term, k, shared);
      WedgedStep(c, st, s, v, term, k, shared);
    }
  }

  lemma WedgedStep(c: Cluster, st: Step, s: nat, v: nat, term: int, k: nat, shared: int)
    requires Inv(c) && Wedged(c, s, v, term, k, shared) && Enabled(c, st) && InBounds(c, st)
    requires StillHere(Apply(c, st), s, v, term, k)
    ensures Wedged(Apply(c, st), s, v, term, k, shared)
  {
    hide Inv, InBounds, Apply, Enabled, Useless, LeaderSide, FollowerSide;
    FollowerStays(c, st, s, v, term, k, shared);
    LeaderStays(c, st, s, v, term, k, shared);
    MessagesStay(c, st, s, v, term, k, shared);
  }

  /** The net holds nothing of a term that is about to be won. */
  lemma WonWedged(c: Cluster, s: nat, v: nat)
    requires Inv(c) && Enabled(c, Win(s)) && InBounds(c, Win(s)) && v < |c.servers| && s != v
    requires Stuck(c.servers[s], c.servers[v]) && c.servers[v].term == c.servers[s].term
    ensures var sv := c.servers[s];
      Wedged(Apply(c, Win(s)), s, v, sv.term, sv.snap, c.servers[v].log[sv.snap].term)
  {
    hide RecordsOk, Complete, Committed, WellFormed, Ordered, Retained, BallotsOk;
    var sv := c.servers[s];
    VotesQuorum(c, s);
    TermNotYetWon(c, s);
    forall m | m in c.net ensures Useless(m, v, sv.term, sv.snap) {
      InvMessage(c, m);
    }
  }

  lemma VotesQuorum(c: Cluster, s: nat)
    requires Inv(c) && s < |c.servers| && c.servers[s].role == Candidate
    requires |c.servers[s].votes| >= |c.servers| / 2 + 1
    ensures Quorum(c.servers[s].votes, |c.servers|) && ServersOk(c) && LeadersOk(c)
  {
    InvParts(c, s);
  }

  // ---- The theorem ----

  /** The run goes on; server s wins an election, with the logs of both servers as they were and v in its
      term; and in that office, without compacting its log further, it gets v to hold all that its log held. */
  ghost predicate CatchesUp(run: Run, run': Run, i: nat, s: nat, v: nat) {
    && |run.states| > 0 && |run'.states| == |run'.steps| + 1 && IsRun(run') && GoesOnFrom(run, run')
    && |run.steps| <= i < |run'.steps| && run'.steps[i] == Win(s)
    && var before, won, after := Final(run).servers, run'.states[i + 1].servers, Final(run').servers;
    && s < |before| && v < |before| && s != v && |before| == |won| == |after| && |before[s].log| > 0
    && won[s].log == before[s].log && won[s].snap == before[s].snap
    && won[v].log == before[v].log && won[v].snap == before[v].snap && won[v].term == won[s].term
    && after[s].role == Leader && after[s].term == won[s].term == after[v].term
    && after[s].snap == before[s].snap
    && Agree(after[v].log, after[s].log, LastIndex(before[s].log))
  }

  lemma StuckNeverCatches(run: Run, run': Run, i: nat, s: nat, v: nat)
    requires CatchesUp(run, run', i, s, v)
    ensures !Stuck(Final(run).servers[s], Final(run).servers[v])
  {
    hide IsRun, Inv, InBounds, Enabled, Useless;
    var before := Final(run).servers;
    if Stuck(before[s], before[v]) {
      StepUnfolds(run', i);
      var c := run'.states[i];
      SameSize(c, Win(s));
      WinKeeps(c, s, v);
      var term, k, shared := c.servers[s].term, before[s].snap, before[v].log[before[s].snap].term;
      WonWedged(c, s, v);
      WedgedOn(run', i + 1, |run'.states| - 1, s, v, term, k, shared);
    }
  }

  lemma SameSize(c: Cluster, st: Step)
    requires Enabled(c, st) && InBounds(c, st)
    ensures |Apply(c, st).servers| == |c.servers|
  {
    hide OnAppend, OnInstall, OnVoteRequest, OnAppendReply, OnInstallReply, OnVoteReply, OnBroadcast, OnStart, OnApply;
  }

  lemma WinKeeps(c: Cluster, s: nat, v: nat)
    requires Enabled(c, Win(s)) && InBounds(c, Win(s)) && v < |c.servers| && s != v
    ensures var c' := Apply(c, Win(s));
      && |c'.servers| == |c.servers| && c'.servers[v] == c.servers[v]
      && c'.servers[s].term == c.servers[s].term && c'.servers[s].log == c.servers[s].log
      && c'.servers[s].snap == c.servers[s].snap
  {
  }

  lemma UnstuckCatches(run: Run, s: nat, v: nat) returns (run': Run, i: nat)
    requires |run.states| > 0 && IsRun(run) && Preferred(Final(run).servers, s)
    requires v < |Final(run).servers| && v != s && !Stuck(Final(run).servers[s], Final(run).servers[v])
    ensures CatchesUp(run, run', i, s, v)
  {
    hide Next, Preferred, CanCatch, Stuck;
    var r1 := PreferredWins(run, s);
    var won := Final(r1).servers;
    NewLeaderCatches(run, r1, s, v);
    SizesKept(r1);
    var r2, after := CatchOne(r1, won, s, v);
    run', i := r2, |r1.steps| - 1;
  }

  /** Exactly when the two are not stuck can a preferred server, once elected and without compacting its log
      further, bring the other up to date. */
  lemma CatchesUnlessStuck(run: Run, s: nat, v: nat)
    requires |run.states| > 0 && IsRun(run) && Preferred(Final(run).servers, s)
    requires s < |Final(run).servers| && v < |Final(run).servers| && v != s
    ensures (exists run', i: nat :: CatchesUp(run, run', i, s, v))
            <==> !Stuck(Final(run).servers[s], Final(run).servers[v])
  {
    hide IsRun, CatchesUp, Preferred, Stuck;
    if exists run', i: nat :: CatchesUp(run, run', i, s, v) {
      var run', i: nat :| CatchesUp(run, run', i, s, v);
      StuckNeverCatches(run, run', i, s, v);
    } else if !Stuck(Final(run).servers[s], Final(run).servers[v]) {
      var run', i := UnstuckCatches(run, s, v);
      assert false;
    }
  }

  // ---- Where it can happen ----

  /** Servers that have compacted nothing are never stuck, so that a command can always be carried out. */
  lemma DeliversUncompacted(run: Run, command: Command)
    requires |run.states| > 0 && IsRun(run) && |Final(run).servers| >= 2
    requires forall v: nat :: v < |Final(run).servers| ==> Final(run).servers[v].snap == 0
    ensures exists run', s: nat, term :: Delivered(run, run', s, command, term)
  {
    hide IsRun, Delivered, Preferred, Stuck;
    var s := SomePreferred(run, |run.states| - 1);
    PreferredThere(Final(run).servers, s);
    RunInv(run, |run.states| - 1);
    forall v: nat | v < |Final(run).servers| && v != s ensures !Stuck(Final(run).servers[s], Final(run).servers[v]) {
      NotStuckAtStart(Final(run), s, v);
    }
    var run', term := CanDeliver(run, s, command);
  }

  lemma PreferredThere(servers: seq<Server>, s: nat)
    requires Preferred(servers, s)
    ensures s < |servers|
  {
  }

  lemma NotStuckAtStart(c: Cluster, s: nat, v: nat)
    requires Inv(c) && s < |c.servers| && v < |c.servers| && c.servers[s].snap == 0
    ensures !Stuck(c.servers[s], c.servers[v])
  {
    hide RecordsOk, Complete, Committed, VoterOk, LeaderOk;
    LogOnRecord(c, v);
    InvParts(c, v);
    var log := c.servers[v].log;
    if |log| > 1 { InTermLog(c, log[1].term); }
  }

  ghost predicate StuckReached(run: Run, s: nat, v: nat) {
    && |run.states| > 0 && IsRun(run) && Preferred(Final(run).servers, s)
    && v < |Final(run).servers| && v != s && Stuck(Final(run).servers[s], Final(run).servers[v])
  }

  /** Some run comes to a preferred server and another one that are stuck. */
  lemma StuckHappens()
    ensures exists run, s: nat, v: nat :: StuckReached(run, s, v)
  {
    hide IsRun, OldLeader, OnVoteRequest;
    var run := SecondTerm();
    StuckServers();
    var ss := Final(run).servers;
    forall v: nat, t: int | v < 3 && t > ss[v].term ensures Gives(ss[v], ss[1], 1, t) {
      NewerGiven(ss[v], ss[1], 1, t);
    }
    assert StuckReached(run, 1, 0);
  }

  lemma StuckServers()
    ensures Stuck(REBOOTED, OldLeader())
    ensures |OldLeader().log| > 0 && |REBOOTED.log| > 0 && LastTerm(OldLeader().log) == 1 && LastTerm(REBOOTED.log) == 2
  {
    hide Below;
  }
}
