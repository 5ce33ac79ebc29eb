/** Runs that exist: a cluster of two or more can commit, and compaction can show. */
module RaftWitness {
  import opened RaftServer
  import opened RaftCluster
  import opened RaftInvariant
  import opened RaftMajority
  import opened RaftProof
  import opened RaftSafety
  import opened RaftCompaction

  function Final(run: Run): Cluster
    requires |run.states| > 0
  {
    run.states[|run.states| - 1]
  }

  /** A run from the initial state of n servers, with its final servers. */
  predicate Ends(run: Run, servers: seq<Server>) {
    && |run.states| > 0 && IsRun(run)
    && Final(run).servers == servers && |Final(run).services| == |servers| == |run.states[0].servers|
  }

  /** The second run goes on from where the first one ends. */
  predicate GoesOnFrom(run: Run, run': Run) {
    run.states <= run'.states && run.steps <= run'.steps
  }

  lemma Begin(n: nat) returns (run: Run)
    requires n > 0
    ensures Ends(run, seq(n, _ => InitServer()))
  {
    var c := Cluster(seq(n, _ => InitServer()), seq(n, _ => [PLACEHOLDER]), {}, History(map[], map[], map[], map[]));
    run := Run([c], []);
  }

  lemma Do(run: Run, st: Step) returns (run': Run)
    requires IsRun(run) && Enabled(Final(run), st)
    ensures |run'.states| > 0 && IsRun(run') && InBounds(Final(run), st) && Final(run') == Apply(Final(run), st)
    ensures run'.states[0] == run.states[0] && GoesOnFrom(run, run') && run'.steps == run.steps + [st]
  {
    hide Inv, InBounds, Apply, Enabled;
    RunInv(run, |run.states| - 1);
    StepKeepsInv(Final(run), st);
    run' := Run(run.states + [Apply(Final(run), st)], run.steps + [st]);
    forall i | 0 <= i < |run'.steps| ensures Next(run'.states[i], run'.steps[i], run'.states[i + 1]) {
      if i < |run.steps| { assert Next(run.states[i], run.steps[i], run.states[i + 1]); }
    }
  }

  // ---- Exchanges between two servers ----

  /** A candidate asks for a vote and gets it. */
  lemma GetVote(run: Run, ss: seq<Server>, s: nat, v: nat) returns (run': Run)
    requires Ends(run, ss) && s < |ss| && v < |ss| && s != v && |ss[s].log| > 0 && |ss[v].log| > 0
    requires ss[s].role == Candidate && ss[s].term >= 1 && ss[v].term < ss[s].term
    requires OnVoteRequest(ss[v], VoteArgs(ss[s].term, s, LastIndex(ss[s].log), LastTerm(ss[s].log))).1.granted
    ensures GoesOnFrom(run, run')
    ensures Ends(run', ss[v := StepDown(ss[v], ss[s].term).(vote := s)][s := ss[s].(votes := ss[s].votes + {v})])
  {
    hide IsRun;
    var a := VoteArgs(ss[s].term, s, LastIndex(ss[s].log), LastTerm(ss[s].log));
    var r1 := Do(run, AskVote(s, v, ss[s].term));
    var r2 := Do(r1, HandleVoteRequest(VoteRequest(v, a)));
    run' := Do(r2, HandleVoteReply(s, VoteResponse(v, a, VoteReply(ss[s].term, true))));
  }

  lemma SendTo(run: Run, ss: seq<Server>, s: nat, v: nat) returns (run': Run)
    requires Ends(run, ss) && s < |ss| && v < |ss| && s != v && ss[s].role == Leader
    requires v < |ss[s].next| && ss[s].snap < ss[s].next[v] <= |ss[s].log|
    ensures Ends(run', ss) && AppendRequest(v, AppendArgsFor(ss[s], s, v)) in Final(run').net && GoesOnFrom(run, run')
  {
    hide IsRun;
    run' := Do(run, SendAppend(s, v));
  }

  lemma Receive(run: Run, ss: seq<Server>, v: nat, a: AppendArgs) returns (run': Run)
    requires Ends(run, ss) && v < |ss| && ss[v].snap < |ss[v].log| && AppendRequest(v, a) in Final(run).net
    ensures Ends(run', ss[v := OnAppend(ss[v], a).0]) && GoesOnFrom(run, run')
    ensures AppendResponse(v, a, OnAppend(ss[v], a).1) in Final(run').net
  {
    hide IsRun, OnAppend;
    run' := Do(run, HandleAppend(AppendRequest(v, a)));
  }

  /** A leader sends an append, and hears of its success. */
  lemma Exchange(run: Run, ss: seq<Server>, s: nat, v: nat) returns (run': Run)
    requires Ends(run, ss) && s < |ss| && v < |ss| && s != v && ss[s].role == Leader
    requires v < |ss[s].next| && ss[s].snap < ss[s].next[v] <= |ss[s].log| && ss[v].snap < |ss[v].log|
    ensures var a := AppendArgsFor(ss[s], s, v);
      var (sv, r) := OnAppend(ss[v], a);
      && AppendReplyInBounds(ss[s], v, a, r)
      && Ends(run', ss[v := sv][s := OnAppendReply(ss[s], v, a, r)]) && GoesOnFrom(run, run')
  {
    hide IsRun, OnAppend, OnAppendReply, AppendReplyInBounds;
    var a := AppendArgsFor(ss[s], s, v);
    var r1 := SendTo(run, ss, s, v);
    var r2 := Receive(r1, ss, v, a);
    run' := Do(r2, HandleAppendReply(s, AppendResponse(v, a, OnAppend(ss[v], a).1)));
  }

  // ---- The first leader of a cluster of any size ----

  function Below(k: nat): (r: set<nat>)
    ensures |r| == k && forall i: nat :: i in r <==> i < k
  {
    if k == 0 then {} else Below(k - 1) + {k - 1}
  }

  function Candidacy(k: nat): Server {
    InitServer().(term := 1, vote := 0, role := Candidate, votes := Below(k))
  }

  function Voter(): Server {
    InitServer().(term := 1, vote := 0)
  }

  function Canvass(n: nat, k: nat): seq<Server> {
    seq(n, j => if j == 0 then Candidacy(k) else if j < k then Voter() else InitServer())
  }

  lemma CanvassMore(n: nat, k: nat)
    requires 1 <= k < n
    ensures var ss := Canvass(n, k);
      Canvass(n, k + 1) == ss[k := StepDown(ss[k], 1).(vote := 0)][0 := ss[0].(votes := ss[0].votes + {k})]
  {
    var ss := Canvass(n, k);
    assert ss[0] == Candidacy(k) && Below(k + 1) == Below(k) + {k};
    assert ss[k := StepDown(ss[k], 1).(vote := 0)][k] == Voter();
    assert Canvass(n, k + 1) == ss[k := Voter()][0 := Candidacy(k + 1)];
  }

  lemma Elect(n: nat) returns (run: Run)
    requires n > 0
    ensures Ends(run, Canvass(n, n / 2 + 1)[0 := OnWin(Candidacy(n / 2 + 1), n)])
  {
    hide IsRun, Candidacy;
    assert n / 2 + 1 <= n;
    run := Begin(n);
    run := Stand(run, n);
    var k := 1;
    while k < n / 2 + 1
      invariant 1 <= k <= n / 2 + 1 && Ends(run, Canvass(n, k))
    {
      CanvassFits(n, k);
      run := GetVote(run, Canvass(n, k), 0, k);
      CanvassMore(n, k);
      k := k + 1;
    }
    CanvassFits(n, k);
    run := Do(run, Win(0));
  }

  lemma CanvassFits(n: nat, k: nat)
    requires 1 <= k <= n
    ensures var ss := Canvass(n, k);
      && ss[0] == Candidacy(k) && |ss[0].votes| == k
      && ss[0].role == Candidate && ss[0].term == 1 && ss[0].log == [PLACEHOLDER]
      && (k < n ==> ss[k] == InitServer())
  {
  }

  lemma Stand(run: Run, n: nat) returns (run': Run)
    requires n > 0 && Ends(run, seq(n, _ => InitServer()))
    ensures Ends(run', Canvass(n, 1))
  {
    hide IsRun;
    run' := Do(run, Timeout(0));
    assert Below(1) == Below(0) + {0} == {0};
    assert OnTimeout(InitServer(), 0) == Candidacy(1);
    assert Final(run').servers == Canvass(n, 1);
  }

  // ---- Its first command is committed ----

  const FIRST := Entry(1, "")

  function Counted(n: nat, k: nat): Server {
    InitServer().(term := 1, vote := 0, role := Leader, votes := Below(n / 2 + 1), log := [PLACEHOLDER, FIRST],
                  next := seq(n, j => if j < k then 2 else 1), matched := seq(n, j => if j < k then 1 else 0))
  }

  /** The leader has told k servers, itself included, of its one command, and not yet committed it. */
  predicate Spreading(n: nat, k: nat, ss: seq<Server>) {
    && |ss| == n && 1 <= k <= n && ss[0] == Counted(n, k)
    && forall j :: k <= j < n ==> ss[j] == InitServer() || ss[j] == Voter()
  }

  lemma Propose(n: nat) returns (run: Run, ss: seq<Server>)
    requires n > 0
    ensures Ends(run, ss) && Spreading(n, 1, ss)
  {
    hide IsRun, Candidacy, Counted, OnWin, OnStart, OnBroadcast;
    run := Elect(n);
    ProposeServer(n);
    run := Do(run, Start(0, ""));
    run := Do(run, Broadcast(0));
    ss := Final(run).servers;
  }

  lemma ProposeServer(n: nat)
    requires n > 0
    ensures var won := OnWin(Candidacy(n / 2 + 1), n);
      && won.role == Leader == OnStart(won, "").role && |OnStart(won, "").log| > 0
      && |OnStart(won, "").next| == |OnStart(won, "").matched| == n
      && OnBroadcast(OnStart(won, ""), 0) == Counted(n, 1)
  {
    var sv := OnBroadcast(OnStart(OnWin(Candidacy(n / 2 + 1), n), ""), 0);
    assert sv.log == [PLACEHOLDER, FIRST];
    assert sv.next == Counted(n, 1).next && sv.matched == Counted(n, 1).matched;
  }

  lemma CountedMajority(n: nat, k: nat)
    requires 1 <= k <= n
    ensures MajorityIndex(Counted(n, k).matched) == if k >= n / 2 + 1 then 1 else 0
  {
    hide Candidacy, Sorted;
    var matched := Counted(n, k).matched;
    MajorityIndexExact(matched, 1);
    MajorityIndexExact(matched, 2);
    assert Reached(matched, 2) == {};
    assert Reached(matched, 1) == Below(k);
  }

  /** One more server stores the command. */
  lemma Spread(n: nat, k: nat, run: Run, ss: seq<Server>) returns (run': Run, ss': seq<Server>)
    requires Ends(run, ss) && Spreading(n, k, ss) && k < n
    ensures Ends(run', ss') && |ss'| == n
    ensures ss'[0] == Counted(n, k + 1).(commit := if k + 1 >= n / 2 + 1 then 1 else 0)
    ensures k + 1 < n / 2 + 1 ==> Spreading(n, k + 1, ss')
  {
    hide IsRun, Candidacy, MajorityIndex;
    run' := Exchange(run, ss, 0, k);
    ss' := Final(run').servers;
    var a := AppendArgsFor(ss[0], 0, k);
    assert a == AppendArgs(1, 0, 0, -1, [FIRST], 0);
    assert OnAppend(ss[k], a).1 == AppendReply(1, true, 0, 0);
    assert ss[0].matched[k := 1] == Counted(n, k + 1).matched && ss[0].next[k := 2] == Counted(n, k + 1).next;
    CountedMajority(n, k + 1);
  }

  ghost predicate CommitsAt(run: Run, i: nat, s: nat, n: nat) {
    && IsRun(run) && |run.states[0].servers| == n
    && i < |run.states| && s < |run.states[i].servers| && run.states[i].servers[s].commit > 0
  }

  /** Some run of n servers commits something. */
  ghost predicate CanCommit(n: nat) {
    exists run: Run, i: nat, s: nat :: CommitsAt(run, i, s, n)
  }

  lemma TwoCommit(n: nat)
    requires n >= 2
    ensures CanCommit(n)
  {
    hide IsRun, Counted;
    var run, ss := Propose(n);
    var k := 1;
    while k < n / 2
      invariant 1 <= k <= n / 2 && Ends(run, ss) && Spreading(n, k, ss)
    {
      run, ss := Spread(n, k, run, ss);
      k := k + 1;
    }
    run, ss := Spread(n, k, run, ss);
    assert CommitsAt(run, |run.states| - 1, 0, n);
  }

  /** A cluster can commit a command exactly when it has two servers or more. */
  lemma CommitsUnlessAlone(n: nat)
    requires n > 0
    ensures CanCommit(n) <==> n >= 2
  {
    hide IsRun;
    if n >= 2 {
      TwoCommit(n);
    } else if CanCommit(n) {
      var run, i: nat, s: nat :| CommitsAt(run, i, s, n);
      LoneServerNeverCommits(run, i);
    }
  }

  // ---- A run in which compaction shows ----

  /** The log of a server that holds this many entries of term 1. */
  function Old(count: nat): seq<Entry> {
    [PLACEHOLDER] + seq(count, _ => FIRST)
  }

  /** Server 0 as leader of term 1, with two entries that the first k servers hold. */
  function FirstLeader(k: nat, commit: nat): Server {
    InitServer().(term := 1, vote := 0, role := Leader, votes := Below(2), log := Old(2), commit := commit,
                  next := seq(3, j => if j < k then 3 else 1), matched := seq(3, j => if j < k then 2 else 0))
  }

  lemma FirstTerm() returns (run: Run)
    ensures Ends(run, [FirstLeader(1, 0), Voter(), InitServer()])
  {
    hide IsRun, Below;
    run := Elect(3);
    run := Do(run, Start(0, ""));
    run := Do(run, Start(0, ""));
    run := Do(run, Broadcast(0));
    var sv := Final(run).servers[0];
    assert sv.log == Old(2);
    assert sv.next == FirstLeader(1, 0).next && sv.matched == FirstLeader(1, 0).matched;
    assert Final(run).servers == [FirstLeader(1, 0), Voter(), InitServer()];
  }

  lemma TwoHeld()
    ensures MajorityIndex(FirstLeader(2, 2).matched) == 2
  {
    hide Sorted;
    var matched := FirstLeader(2, 2).matched;
    assert Reached(matched, 2) == {0, 1} && Reached(matched, 3) == {};
    MajorityIndexExact(matched, 2);
    MajorityIndexExact(matched, 3);
  }

  function Holder(commit: nat): Server {
    Voter().(log := Old(2), commit := commit)
  }

  const ACCEPTED := AppendReply(1, true, 0, 0)

  lemma EntriesStored()
    ensures var a := AppendArgsFor(FirstLeader(1, 0), 0, 1);
      && OnAppend(Voter(), a) == (Holder(0), ACCEPTED)
      && (AppendReplyInBounds(FirstLeader(1, 0), 1, a, ACCEPTED) ==>
            OnAppendReply(FirstLeader(1, 0), 1, a, ACCEPTED) == FirstLeader(2, 2))
  {
    hide MajorityIndex, Below;
    TwoHeld();
    var a := AppendArgsFor(FirstLeader(1, 0), 0, 1);
    assert a == AppendArgs(1, 0, 0, -1, [FIRST, FIRST], 0);
    assert Merge([PLACEHOLDER], 0, [FIRST, FIRST]) == Old(2);
    assert FirstLeader(1, 0).matched[1 := 2] == FirstLeader(2, 2).matched;
    assert FirstLeader(1, 0).next[1 := 3] == FirstLeader(2, 2).next;
  }

  lemma CommitHeard()
    ensures var a := AppendArgsFor(FirstLeader(2, 2), 0, 1);
      && OnAppend(Holder(0), a) == (Holder(2), ACCEPTED)
      && (AppendReplyInBounds(FirstLeader(2, 2), 1, a, ACCEPTED) ==>
            OnAppendReply(FirstLeader(2, 2), 1, a, ACCEPTED) == FirstLeader(2, 2))
  {
    hide MajorityIndex, Below;
    TwoHeld();
    var a := AppendArgsFor(FirstLeader(2, 2), 0, 1);
    assert a == AppendArgs(1, 0, 2, 1, [], 2);
    assert FirstLeader(2, 2).matched[1 := 2] == FirstLeader(2, 2).matched;
    assert FirstLeader(2, 2).next[1 := 3] == FirstLeader(2, 2).next;
  }

  /** Servers 0 and 1 store the two entries and learn that they are committed. */
  lemma TwoCommitted() returns (run: Run)
    ensures Ends(run, [FirstLeader(2, 2), Holder(2), InitServer()])
  {
    hide IsRun, OnAppend, OnAppendReply, AppendReplyInBounds, Below, MajorityIndex;
    run := FirstTerm();
    EntriesStored();
    run := Exchange(run, [FirstLeader(1, 0), Voter(), InitServer()], 0, 1);
    assert Final(run).servers == [FirstLeader(2, 2), Holder(0), InitServer()];
    CommitHeard();
    run := Exchange(run, [FirstLeader(2, 2), Holder(0), InitServer()], 0, 1);
    assert Final(run).servers == [FirstLeader(2, 2), Holder(2), InitServer()];
  }

  function Compacted(sv: Server): Server {
    sv.(snap := 2, lastApplied := 2)
  }

  /** A server hands over two committed entries and trims them off its log. */
  lemma Compact(run: Run, ss: seq<Server>, s: nat) returns (run': Run)
    requires Ends(run, ss) && s < |ss| && ss[s].snap == ss[s].lastApplied == 0 && ss[s].commit == 2 < |ss[s].log|
    ensures Ends(run', ss[s := Compacted(ss[s])])
  {
    hide IsRun;
    run' := Do(run, ApplyNext(s));
    run' := Do(run', ApplyNext(s));
    run' := Do(run', Snapshot(s, 2));
  }

  /** A server gets the vote of server 2 for the next term and wins with it. */
  lemma WinNext(run: Run, ss: seq<Server>, s: nat) returns (run': Run)
    requires Ends(run, ss) && |ss| == 3 && s < 2 && ss[s].term >= 0 && ss[2].term <= ss[s].term && |ss[s].log| > 0
    requires ss[2].log == [PLACEHOLDER] && LastTerm(ss[s].log) >= 1
    ensures Ends(run', ss[s := OnWin(OnTimeout(ss[s], s).(votes := {s, 2}), 3)]
                         [2 := StepDown(ss[2], ss[s].term + 1).(vote := s)])
  {
    hide IsRun, OnWin;
    var r1 := Do(run, Timeout(s));
    var stood := ss[s := OnTimeout(ss[s], s)];
    var r2 := GetVote(r1, stood, s, 2);
    assert {s} + {2} == {s, 2};
    run' := Do(r2, Win(s));
    assert Final(run').servers == ss[s := OnWin(OnTimeout(ss[s], s).(votes := {s, 2}), 3)]
                                    [2 := StepDown(ss[2], ss[s].term + 1).(vote := s)];
  }

  // ---- Server 0 keeps an entry of term 1, while server 1 leads terms 2 and 3 ----

  function OldLeader(): Server {
    Compacted(FirstLeader(2, 2).(log := Old(3)))
  }

  function NewLeader(): Server {
    InitServer().(term := 3, vote := 1, role := Leader, votes := {1, 2}, log := Old(2) + [Entry(2, "")],
                  next := [4, 4, 4], matched := [0, 0, 0], snap := 2, commit := 2, lastApplied := 2)
  }

  const PROBE := AppendArgs(3, 1, 3, 2, [], 2)

  lemma Trimmed() returns (run: Run)
    ensures Ends(run, [OldLeader(), Compacted(Holder(2)), InitServer()])
  {
    hide IsRun, Below, FirstLeader;
    run := TwoCommitted();
    var ss := [FirstLeader(2, 2), Holder(2), InitServer()];
    FirstLeaderKnown();
    run := Compact(run, ss, 0);
    run := Compact(run, ss[0 := Compacted(ss[0])], 1);
    run := Do(run, Start(0, ""));
    assert Old(2) + [FIRST] == Old(3);
    assert Final(run).servers == [OldLeader(), Compacted(Holder(2)), InitServer()];
  }

  const REBOOTED := InitServer().(term := 2, vote := 1, log := Old(2) + [Entry(2, "")],
                                  snap := 2, commit := 2, lastApplied := 2)

  /** Server 1 leads term 2, takes a command and reboots. */
  lemma SecondTerm() returns (run: Run)
    ensures Ends(run, [OldLeader(), REBOOTED, InitServer().(term := 2, vote := 1)])
  {
    hide IsRun, OldLeader;
    run := Trimmed();
    run := WinNext(run, [OldLeader(), Compacted(Holder(2)), InitServer()], 1);
    run := Do(run, Start(1, ""));
    run := Do(run, Restart(1));
    assert Final(run).servers == [OldLeader(), REBOOTED, InitServer().(term := 2, vote := 1)];
  }

  lemma Divided() returns (run: Run)
    ensures Ends(run, [OldLeader(), NewLeader(), InitServer().(term := 3, vote := 1)])
    ensures AppendRequest(0, PROBE) in Final(run).net
  {
    hide IsRun, OldLeader;
    run := SecondTerm();
    var ss := [OldLeader(), REBOOTED, InitServer().(term := 2, vote := 1)];
    run := WinNext(run, ss, 1);
    ss := Final(run).servers;
    assert ss[1].next == NewLeader().next && ss[1].matched == NewLeader().matched;
    assert ss == [OldLeader(), NewLeader(), InitServer().(term := 3, vote := 1)];
    assert AppendArgsFor(NewLeader(), 1, 0) == PROBE;
    run := SendTo(run, ss, 1, 0);
  }

  lemma FirstLeaderKnown()
    ensures var sv := FirstLeader(2, 2);
      && sv.term == 1 && sv.role == Leader && sv.log == Old(2) && sv.snap == sv.lastApplied == 0 && sv.commit == 2
  {
  }

  const HINTED := AppendReply(3, false, 2, 1)

  lemma OldLeaderRefuses()
    ensures OldLeader().snap == 2 < |OldLeader().log|
    ensures OnAppend(OldLeader(), PROBE) == (Recognise(OldLeader(), 3), HINTED)
    ensures OnAppend(Uncompacted(OldLeader()), PROBE).1 == HINTED.(conflictIndex := 1)
  {
    hide Below;
    var log := Old(3);
    assert FirstOfTerm(log, 2, 3) == FirstOfTerm(log, 2, 2) == 2;
    assert FirstOfTerm(log, 0, 3) == FirstOfTerm(log, 0, 2) == FirstOfTerm(log, 0, 1) == 1;
  }

  ghost predicate HintShows(run: Run, i: nat, m: Message) {
    && IsRun(run) && i < |run.states| && m in run.states[i].net && m.AppendRequest? && m.to < |run.states[i].servers|
    && var sv := run.states[i].servers[m.to];
    && sv.snap < |sv.log| && OnAppend(sv, m.appendArgs).1 != OnAppend(Uncompacted(sv), m.appendArgs).1
  }

  /** The exception for a follower's hint is real: a run comes to it, with hint 2 in place of 1. */
  lemma FollowerHintDiffers()
    ensures exists run, i: nat, m :: HintShows(run, i, m)
  {
    hide IsRun, OnAppend, OldLeader;
    var run := Divided();
    OldLeaderRefuses();
    assert HintShows(run, |run.states| - 1, AppendRequest(0, PROBE));
  }

  ghost predicate BackupShows(run: Run, i: nat, s: nat, m: Message) {
    && IsRun(run) && i < |run.states| && m in run.states[i].net && m.AppendResponse? && m.appendArgs.leader == s
    && s < |run.states[i].servers|
    && var sv := run.states[i].servers[s];
    && |sv.log| > 0 && AppendReplyInBounds(sv, m.from, m.appendArgs, m.appendReply)
    && AppendReplyInBounds(Uncompacted(sv), m.from, m.appendArgs, m.appendReply)
    && OnAppendReply(Uncompacted(sv), m.from, m.appendArgs, m.appendReply)
       != Uncompacted(OnAppendReply(sv, m.from, m.appendArgs, m.appendReply))
  }

  /** The exception for the leader is real too: the same run goes on to it, and the leader goes back to
      index 2 in place of 3. */
  lemma LeaderBackupDiffers()
    ensures exists run, i: nat, s: nat, m :: BackupShows(run, i, s, m)
  {
    hide IsRun, OnAppend, OnAppendReply, OldLeader, AppendReplyInBounds;
    var run := Divided();
    OldLeaderRefuses();
    run := Receive(run, [OldLeader(), NewLeader(), InitServer().(term := 3, vote := 1)], 0, PROBE);
    var m := AppendResponse(0, PROBE, HINTED);
    BackupAfterCompaction(run, |run.states| - 1, 1, m);
    assert ConflictCompacted(NewLeader(), PROBE, HINTED) by { LastOld(); }
    assert BackupShows(run, |run.states| - 1, 1, m);
  }

  lemma LastOld()
    ensures LastWithTerm(NewLeader().log, 0, 4, 1) == 2 && |NewLeader().log| == 4
  {
    var log := NewLeader().log;
    assert log[3].term == 2 && log[2].term == 1;
  }
}
