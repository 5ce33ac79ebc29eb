/** Safety of every run of the cluster. */
module RaftSafety {
  import opened RaftServer
  import opened RaftCluster
  import opened RaftInvariant
  import opened RaftProof
  import opened RaftVoting
  import opened RaftLeading
  import opened RaftFollowing

  // ---- From steps to runs ----

  lemma QuietStep(c: Cluster, st: Step)
    requires Inv(c) && Enabled(c, st) && IsQuietStep(st)
    ensures StepQuiet(c, st)
  {
    match st
    case AskVote(_, _, _) => AskVoteQuiet(c, st);
    case HandleVoteReply(_, _) => HandleVoteReplyQuiet(c, st);
    case SendAppend(_, _) => SendAppendQuiet(c, st);
    case SendSnapshot(_, _) => SendSnapshotQuiet(c, st);
    case HandleAppendReply(_, _) => HandleAppendReplyQuiet(c, st);
    case HandleInstallReply(_, _) => HandleInstallReplyQuiet(c, st);
    case Snapshot(_, _) => SnapshotQuiet(c, st);
    case ApplyNext(_) => ApplyNextQuiet(c, st);
    case SetFlags(_, _, _) => SetFlagsQuiet(c, st);
    case Restart(_) => RestartQuiet(c, st);
  }

  /** Every step the code can take stays within bounds and keeps the invariant. */
  lemma StepKeepsInv(c: Cluster, st: Step)
    requires Inv(c) && Enabled(c, st)
    ensures InBounds(c, st) && Inv(Apply(c, st))
  {
    hide Inv, InBounds, Apply, Enabled, Quiet;
    if IsQuietStep(st) {
      QuietStep(c, st);
      QuietInv(c, Apply(c, st), st.s);
    } else {
      EnabledServer(c, st);
      match st
      case Timeout(s) => TimeoutInv(c, s);
      case HandleVoteRequest(_) => HandleVoteRequestInv(c, st);
      case Win(s) => WinInv(c, s);
      case Start(s, command) => StartInv(c, s, command);
      case Broadcast(s) => BroadcastInv(c, s);
      case HandleAppend(_) => HandleAppendInv(c, st);
      case HandleInstall(_) => HandleInstallInv(c, st);
    }
  }

  lemma EnabledServer(c: Cluster, st: Step)
    requires Enabled(c, st)
    ensures st.Timeout? ==> st.s < |c.servers|
  {
  }

  lemma {:induction false} RunInv(run: Run, i: nat)
    requires IsRun(run) && i < |run.states|
    ensures Inv(run.states[i])
    decreases i
  {
    if i == 0 {
      InitInv(run.states[0]);
    } else {
      RunInv(run, i - 1);
      assert Next(run.states[i - 1], run.steps[i - 1], run.states[i]);
      StepKeepsInv(run.states[i - 1], run.steps[i - 1]);
    }
  }

  /** No step of any run panics: every log, slice and peer index the code uses is within bounds. */
  lemma NoPanic(run: Run, i: nat)
    requires IsRun(run) && i < |run.steps|
    ensures Enabled(run.states[i], run.steps[i]) && InBounds(run.states[i], run.steps[i])
    ensures run.states[i + 1] == Apply(run.states[i], run.steps[i])
  {
    RunInv(run, i);
    assert Next(run.states[i], run.steps[i], run.states[i + 1]);
    StepKeepsInv(run.states[i], run.steps[i]);
  }

  // ---- Runs only grow ----

  lemma SetServerGrows(c: Cluster, c': Cluster)
    requires c'.hist == c.hist && |c'.servers| == |c.servers|
    requires forall s :: 0 <= s < |c.servers| ==> c.servers[s].term <= c'.servers[s].term
    ensures Grows(c, c')
  {
  }

  lemma RecordVoteGrows(c: Cluster, s: nat, term: int, candidate: nat)
    requires (s, term) in c.hist.votes ==> Voted(c.hist, s, term, candidate)
    ensures Grows(c, RecordVote(c, s, term, candidate))
  {
    var c' := RecordVote(c, s, term, candidate);
    forall x: nat, t, v: nat | Voted(c.hist, x, t, v) ensures Voted(c'.hist, x, t, v) {
      assert (x, t) == (s, term) || (x, t) != (s, term);
    }
  }

  lemma RecordAckGrows(c: Cluster, s: nat, term: int, index: nat)
    requires s < |c.servers| && c.servers[s].term <= term
    ensures Grows(c, RecordAck(c, s, term, index))
  {
    var c' := RecordAck(c, s, term, index);
    forall x: nat, t, i: nat
      ensures Acked(c.hist, x, t, i) ==> Acked(c'.hist, x, t, i)
      ensures x < |c.servers| && c.servers[x].term > t && Acked(c'.hist, x, t, i) ==> Acked(c.hist, x, t, i)
    {
      assert (x, t) == (s, term) || (x, t) != (s, term);
    }
  }

  lemma TimeoutGrows(c: Cluster, s: nat)
    requires RecordsOk(c) && Enabled(c, Timeout(s)) && InBounds(c, Timeout(s))
    ensures Grows(c, Apply(c, Timeout(s)))
  {
    var sv := OnTimeout(c.servers[s], s);
    SetServerGrows(c, SetServer(c, s, sv));
    if (s, sv.term) in c.hist.votes {
      assert Voted(c.hist, s, sv.term, c.hist.votes[(s, sv.term)]);
    }
    RecordVoteGrows(SetServer(c, s, sv), s, sv.term, s);
    GrowsTransitive(c, SetServer(c, s, sv), Apply(c, Timeout(s)));
  }

  lemma VoteGrantedFresh(c: Cluster, s: nat, a: VoteArgs)
    requires RecordsOk(c) && s < |c.servers| && VoterOk(c, s, c.servers[s]) && |c.servers[s].log| > 0
    requires OnVoteRequest(c.servers[s], a).1.granted
    ensures var term := OnVoteRequest(c.servers[s], a).0.term;
      (s, term) in c.hist.votes ==> Voted(c.hist, s, term, a.candidate)
  {
    var term := OnVoteRequest(c.servers[s], a).0.term;
    if (s, term) in c.hist.votes {
      assert Voted(c.hist, s, term, c.hist.votes[(s, term)]);
    }
  }

  lemma VoteRequestGrows(c: Cluster, st: Step)
    requires RecordsOk(c) && ServersOk(c) && Enabled(c, st) && InBounds(c, st) && st.HandleVoteRequest?
    ensures Grows(c, Apply(c, st))
  {
    hide RecordsOk, ServersOk, OnVoteRequest, Grows, RecordVote;
    var s, a := st.m.to, st.m.voteArgs;
    VoteRequestParts(c, st);
    var sv, r := OnVoteRequest(c.servers[s], a).0, OnVoteRequest(c.servers[s], a).1;
    var c1 := SetServer(c, s, sv);
    SetServerGrows(c, c1);
    if r.granted {
      RecordVoteGrows(c1, s, sv.term, a.candidate);
      GrowsTransitive(c, c1, RecordVote(c1, s, sv.term, a.candidate));
    }
    var c2 := if r.granted then RecordVote(c1, s, sv.term, a.candidate) else c1;
    SetServerGrows(c2, Send(c2, VoteResponse(s, a, r)));
    GrowsTransitive(c, c2, Send(c2, VoteResponse(s, a, r)));
  }

  lemma VoteRequestParts(c: Cluster, st: Step)
    requires RecordsOk(c) && ServersOk(c) && Enabled(c, st) && InBounds(c, st) && st.HandleVoteRequest?
    ensures var s, a := st.m.to, st.m.voteArgs;
      && OnVoteRequest(c.servers[s], a).0.term >= c.servers[s].term
      && (OnVoteRequest(c.servers[s], a).1.granted ==>
            var term := OnVoteRequest(c.servers[s], a).0.term;
            (s, term) in c.hist.votes ==> Voted(c.hist, s, term, a.candidate))
  {
    var s, a := st.m.to, st.m.voteArgs;
    assert ServerOk(c, s, c.servers[s], c.services[s]);
    if OnVoteRequest(c.servers[s], a).1.granted { VoteGrantedFresh(c, s, a); }
  }

  lemma AckGrows(c: Cluster, c1: Cluster, c2: Cluster, s: nat, index: nat)
    requires Grows(c, c1) && s < |c1.servers|
    requires c2 == RecordAck(c1, s, c1.servers[s].term, index)
    ensures Grows(c, c2)
  {
    RecordAckGrows(c1, s, c1.servers[s].term, index);
    GrowsTransitive(c, c1, c2);
  }

  lemma BroadcastGrows(c: Cluster, st: Step)
    requires Enabled(c, st) && InBounds(c, st) && st.Broadcast?
    ensures Grows(c, Apply(c, st))
  {
    var sv := OnBroadcast(c.servers[st.s], st.s);
    var c1 := SetServer(c, st.s, sv);
    SetServerGrows(c, c1);
    AckGrows(c, c1, Apply(c, st), st.s, LastIndex(sv.log));
  }

  lemma FollowGrows(c: Cluster, st: Step)
    requires Enabled(c, st) && InBounds(c, st) && (st.HandleAppend? || st.HandleInstall?)
    ensures Grows(c, Apply(c, st))
  {
    hide Grows, RecordAck;
    var s := st.m.to;
    if st.HandleAppend? {
      var sv, r := OnAppend(c.servers[s], st.m.appendArgs).0, OnAppend(c.servers[s], st.m.appendArgs).1;
      var c1 := SetServer(c, s, sv);
      SetServerGrows(c, c1);
      var index := st.m.appendArgs.prevIndex + |st.m.appendArgs.entries|;
      AckGrows(c, c1, RecordAck(c1, s, sv.term, index), s, index);
      var c2 := if r.success then RecordAck(c1, s, sv.term, index) else c1;
      SetServerGrows(c2, Apply(c, st));
      GrowsTransitive(c, c2, Apply(c, st));
    } else {
      var sv, r := OnInstall(c.servers[s], st.m.snapArgs).0, OnInstall(c.servers[s], st.m.snapArgs).1;
      var c1 := SetServer(c, s, sv);
      var c1' := SetService(c1, s, st.m.snapArgs.data);
      SetServerGrows(c, c1);
      SetServerGrows(c, c1');
      AckGrows(c, c1', RecordAck(c1', s, sv.term, st.m.snapArgs.lastIndex), s, st.m.snapArgs.lastIndex);
      var c2 := if r.accept then RecordAck(c1', s, sv.term, st.m.snapArgs.lastIndex) else c1;
      SetServerGrows(c2, Apply(c, st));
      GrowsTransitive(c, c2, Apply(c, st));
    }
  }

  lemma WinGrows(c: Cluster, st: Step)
    requires ServersOk(c) && LeadersOk(c) && Enabled(c, st) && InBounds(c, st) && st.Win?
    ensures Grows(c, Apply(c, st))
  {
    var s := st.s;
    assert ServerOk(c, s, c.servers[s], c.services[s]);
    TermNotYetWon(c, s);
    assert Leading(c, Apply(c, st), s);
    LeadingGrows(c, Apply(c, st), s);
  }

  lemma StartGrows(c: Cluster, st: Step)
    requires ServersOk(c) && LeadersOk(c) && Enabled(c, st) && InBounds(c, st) && st.Start?
    ensures Grows(c, Apply(c, st))
  {
    hide Committed, WellFormed, Ordered, VoterOk, LogOk;
    var s := st.s;
    assert ServerOk(c, s, c.servers[s], c.services[s]);
    if c.servers[s].role == Leader {
      assert Leading(c, Apply(c, st), s);
      LeadingGrows(c, Apply(c, st), s);
    }
  }

  lemma StepGrows(c: Cluster, st: Step)
    requires Inv(c) && Enabled(c, st) && InBounds(c, st)
    ensures Grows(c, Apply(c, st))
  {
    hide InBounds, Apply, Enabled, Quiet, Grows, ServersOk, LeadersOk, RecordsOk, Complete, Retained, BallotsOk;
    if IsQuietStep(st) {
      QuietStep(c, st);
      QuietGrows(c, Apply(c, st), st.s);
    } else {
      match st
      case Timeout(s) => TimeoutGrows(c, s);
      case HandleVoteRequest(_) => VoteRequestGrows(c, st);
      case Win(_) => WinGrows(c, st);
      case Start(_, _) => StartGrows(c, st);
      case Broadcast(_) => BroadcastGrows(c, st);
      case HandleAppend(_) => FollowGrows(c, st);
      case HandleInstall(_) => FollowGrows(c, st);
    }
  }

  lemma {:induction false} RunGrows(run: Run, i: nat, j: nat)
    requires IsRun(run) && i <= j < |run.states|
    ensures Grows(run.states[i], run.states[j])
    decreases j
  {
    hide Inv, Grows, Next, Init;
    if i == j {
      GrowsReflexive(run.states[i]);
    } else {
      RunGrows(run, i, j - 1);
      RunInv(run, j - 1);
      NoPanic(run, j - 1);
      StepGrows(run.states[j - 1], run.steps[j - 1]);
      GrowsTransitive(run.states[i], run.states[j - 1], run.states[j]);
    }
  }

  lemma GrowsReflexive(c: Cluster)
    ensures Grows(c, c)
  {
  }

  // ---- The theorems ----

  /** Election safety: in a whole run, over crashes and restarts, a term has one leader. */
  lemma ElectionSafety(run: Run, i: nat, j: nat, a: nat, b: nat)
    requires IsRun(run) && i <= j < |run.states| && a < |run.states[i].servers| && b < |run.states[j].servers|
    requires run.states[i].servers[a].role == Leader && run.states[j].servers[b].role == Leader
    requires run.states[i].servers[a].term == run.states[j].servers[b].term
    ensures a == b
  {
    RunInv(run, i);
    RunInv(run, j);
    RunGrows(run, i, j);
    LeaderOnRecord(run.states[i], a);
    LeaderOnRecord(run.states[j], b);
  }

  lemma LeaderOnRecord(c: Cluster, s: nat)
    requires Inv(c) && s < |c.servers| && c.servers[s].role == Leader
    ensures LeaderOk(c, s, c.servers[s])
  {
    InvParts(c, s);
  }

  lemma LogOnRecord(c: Cluster, s: nat)
    requires Inv(c) && s < |c.servers|
    ensures WellFormed(c.hist.logs, c.servers[s].log)
    ensures Committed(c, c.servers[s].log, c.servers[s].commit, c.servers[s].term)
    ensures c.services[s] == c.servers[s].log[..c.servers[s].lastApplied + 1]
    ensures c.servers[s].lastApplied <= c.servers[s].commit < |c.servers[s].log|
  {
    InvParts(c, s);
  }

  /** Log matching, at any two moments of a run: the same index and term end the same prefix. */
  lemma LogMatching(run: Run, i: nat, j: nat, a: nat, b: nat, k: nat)
    requires IsRun(run) && i <= j < |run.states| && a < |run.states[i].servers| && b < |run.states[j].servers|
    requires k < |run.states[i].servers[a].log| && k < |run.states[j].servers[b].log|
    requires run.states[i].servers[a].log[k].term == run.states[j].servers[b].log[k].term
    ensures run.states[i].servers[a].log[..k + 1] == run.states[j].servers[b].log[..k + 1]
  {
    hide IsRun, Inv, Grows, Committed;
    RunInv(run, i);
    RunInv(run, j);
    RunGrows(run, i, j);
    LogOnRecord(run.states[i], a);
    LogOnRecord(run.states[j], b);
    GrowsWellFormed(run.states[i], run.states[j], run.states[i].servers[a].log);
    SameTermAgree(run.states[j].hist.logs, run.states[i].servers[a].log, run.states[j].servers[b].log, k);
  }

  /** A leader never rewrites its log while in office. */
  lemma LeaderAppendOnly(run: Run, i: nat, j: nat, a: nat)
    requires IsRun(run) && i <= j < |run.states| && a < |run.states[i].servers| && a < |run.states[j].servers|
    requires run.states[i].servers[a].role == Leader && run.states[j].servers[a].role == Leader
    requires run.states[i].servers[a].term == run.states[j].servers[a].term
    ensures run.states[i].servers[a].log <= run.states[j].servers[a].log
  {
    RunInv(run, i);
    RunInv(run, j);
    RunGrows(run, i, j);
    LeaderOnRecord(run.states[i], a);
    LeaderOnRecord(run.states[j], a);
  }

  lemma ChosenInLeader(c: Cluster, term: int, i: nat, term': int)
    requires Complete(c) && Chosen(c, term, i) && term < term' && term' in c.hist.logs
    ensures Agree(c.hist.logs[term'], c.hist.logs[term], i)
  {
    assert Holds(c, c.hist.logs[term'], term, i);
    ChosenNotBlocked(c, term, i);
  }

  lemma CommittedAgree(c: Cluster, a: seq<Entry>, b: seq<Entry>, k: nat, boundA: int, boundB: int)
    requires Complete(c) && WellFormed(c.hist.logs, a) && WellFormed(c.hist.logs, b)
    requires Committed(c, a, k, boundA) && Committed(c, b, k, boundB)
    ensures Agree(a, b, k)
  {
    if k > 0 {
      var t, i :| CommittedAt(c, a, k, boundA, t, i);
      var t', i' :| CommittedAt(c, b, k, boundB, t', i');
      if t < t' { ChosenInLeader(c, t, i, t'); }
      if t' < t { ChosenInLeader(c, t', i', t); }
    }
  }

  lemma CommittedAgreeLater(c: Cluster, c': Cluster, a: seq<Entry>, b: seq<Entry>, ka: nat, kb: nat, boundA: int,
      boundB: int)
    requires Grows(c, c') && Complete(c') && WellFormed(c.hist.logs, a) && WellFormed(c'.hist.logs, b)
    requires Committed(c, a, ka, boundA) && Committed(c', b, kb, boundB)
    ensures Agree(a, b, Min(ka, kb))
  {
    hide Grows, Complete, Committed, WellFormed;
    GrowsWellFormed(c, c', a);
    GrowsCommitted(c, c', a, a, ka, boundA, boundA);
    CommittedBelow(c', a, ka, Min(ka, kb), boundA);
    CommittedBelow(c', b, kb, Min(ka, kb), boundB);
    CommittedAgree(c', a, b, Min(ka, kb), boundA, boundB);
  }

  /** State machine safety: at any two moments of a run, no two servers commit, or hand
      to their services, different entries at the same index. */
  lemma StateMachineSafety(run: Run, i: nat, j: nat, a: nat, b: nat, k: nat)
    requires IsRun(run) && i <= j < |run.states| && a < |run.states[i].servers| && b < |run.states[j].servers|
    ensures var sa, sb := run.states[i].servers[a], run.states[j].servers[b];
      k <= sa.commit && k <= sb.commit ==> k < |sa.log| && k < |sb.log| && sa.log[..k + 1] == sb.log[..k + 1]
    ensures a < |run.states[i].services| && b < |run.states[j].services|
    ensures var pa, pb := run.states[i].services[a], run.states[j].services[b];
      pa <= pb || pb <= pa
  {
    hide IsRun, Inv, Grows, ServersOk, LeadersOk, RecordsOk, Complete, ServerOk, WellFormed, Committed;
    var ci, cj := run.states[i], run.states[j];
    RunInv(run, i);
    RunInv(run, j);
    RunGrows(run, i, j);
    InvParts(ci, a);
    InvParts(cj, b);
    LogOnRecord(ci, a);
    LogOnRecord(cj, b);
    var sa, sb := ci.servers[a], cj.servers[b];
    CommittedAgreeLater(ci, cj, sa.log, sb.log, sa.commit, sb.commit, sa.term, sb.term);
  }

  lemma CompleteAfter(ci: Cluster, cj: Cluster, log: seq<Entry>, k: nat, bound: int, term: int)
    requires Grows(ci, cj) && Complete(cj) && 0 < k && Committed(ci, log, k, bound)
    requires bound < term && term in cj.hist.logs
    ensures Agree(cj.hist.logs[term], log, k)
  {
    var t, x :| CommittedAt(ci, log, k, bound, t, x);
    GrowsChosen(ci, cj, t, x);
    ChosenInLeader(cj, t, x, term);
  }

  lemma CompleteBefore(cj: Cluster, ci: Cluster, log: seq<Entry>, k: nat, bound: int, term: int)
    requires Grows(cj, ci) && Complete(ci) && 0 < k && Committed(ci, log, k, bound)
    requires bound < term && term in cj.hist.logs
    ensures Agree(cj.hist.logs[term], log, k)
  {
    var t, x: nat :| CommittedAt(ci, log, k, bound, t, x);
    ChosenInLeader(ci, t, x, term);
    assert ci.hist.logs[term][x].term == t;
  }

  /** Leader completeness: what a server has committed at any moment of a run is in the log of
      every leader of a later term, whether that leader was elected before that moment or after. */
  lemma LeaderCompleteness(run: Run, i: nat, j: nat, a: nat, b: nat, k: nat)
    requires IsRun(run) && i < |run.states| && j < |run.states|
    requires a < |run.states[i].servers| && b < |run.states[j].servers|
    requires k <= run.states[i].servers[a].commit
    requires run.states[j].servers[b].role == Leader
    requires run.states[j].servers[b].term > run.states[i].servers[a].term
    ensures Agree(run.states[j].servers[b].log, run.states[i].servers[a].log, k)
  {
    hide IsRun, Inv, Grows, ServersOk, LeadersOk, RecordsOk, Complete, ServerOk, Committed;
    var ci, cj := run.states[i], run.states[j];
    var sa, sb := ci.servers[a], cj.servers[b];
    RunInv(run, i);
    RunInv(run, j);
    InvParts(ci, a);
    InvParts(cj, b);
    LogOnRecord(ci, a);
    LogOnRecord(cj, b);
    LeaderOnRecord(cj, b);
    CommittedBelow(ci, sa.log, sa.commit, k, sa.term);
    if k > 0 {
      if i <= j {
        RunGrows(run, i, j);
        CompleteAfter(ci, cj, sa.log, k, sa.term, sb.term);
      } else {
        RunGrows(run, j, i);
        CompleteBefore(cj, ci, sa.log, k, sa.term, sb.term);
      }
    }
  }

  // ---- What single steps of a run promise ----

  lemma CurrentCommit(c: Cluster, s: nat, a: AppendArgs)
    requires LeadersOk(c) && Complete(c) && AppendOk(c, a) && Current(c, s, a.term) && s < |c.services|
    requires ServerOk(c, s, c.servers[s], c.services[s])
    ensures OnAppend(c.servers[s], a).0.commit == Max(c.servers[s].commit, a.leaderCommit)
         || OnAppend(c.servers[s], a).0 == c.servers[s]
  {
    hide LeadersOk, Complete, OnAppend, Adopt, WellFormed, Committed, Agree, VoterOk, LeaderOk;
    var sv := c.servers[s];
    InTermLog(c, a.term);
    FollowerAgrees(c, s, sv, c.services[s], a.term);
    if OnAppend(sv, a).1.success {
      AppendAdopts(c.hist.logs, sv, a, c.hist.logs[a.term]);
    } else {
      AppendRefused(c, s, sv, c.services[s], a);
    }
  }

  /** In every reachable state the follower's bound by its own last index never bites: an append
      covers what it says is committed, and the commit index becomes the greater of the two. */
  lemma FollowerCommitJustified(run: Run, i: nat, m: Message)
    requires IsRun(run) && i < |run.states| && m in run.states[i].net
    requires m.AppendRequest? && m.to < |run.states[i].servers|
    ensures m.appendArgs.leaderCommit <= m.appendArgs.prevIndex + |m.appendArgs.entries|
    ensures var sv := run.states[i].servers[m.to];
      sv.snap < |sv.log| &&
      var sv' := OnAppend(sv, m.appendArgs).0;
      sv'.commit == sv.commit || sv'.commit == m.appendArgs.leaderCommit > sv.commit
  {
    hide IsRun, Inv, ServersOk, LeadersOk, RecordsOk, Complete, ServerOk, OnAppend;
    var c := run.states[i];
    var s, a := m.to, m.appendArgs;
    RunInv(run, i);
    InvParts(c, s);
    InvMessage(c, m);
    if a.term < c.servers[s].term {
      AppendStale(c.servers[s], a);
    } else {
      RecogniseInv(c, s, a.term);
      var c1 := SetServer(c, s, Recognise(c.servers[s], a.term));
      RecogniseSame(c.servers[s], a);
      InvParts(c1, s);
      InvMessage(c1, m);
      CurrentCommit(c1, s, a);
    }
  }

  lemma RecogniseSame(sv: Server, a: AppendArgs)
    requires sv.snap < |sv.log| && sv.term <= a.term
    ensures OnAppend(Recognise(sv, a.term), a) == OnAppend(sv, a)
  {
  }

  // ---- Installed snapshots and next indices ----

  /** Installing a snapshot never takes back a commit, even when it drops the rest of the log. */
  lemma InstallKeepsCommit(run: Run, i: nat, m: Message)
    requires IsRun(run) && i < |run.states| && m in run.states[i].net
    requires m.InstallRequest? && m.to < |run.states[i].servers|
    ensures var sv := run.states[i].servers[m.to];
      && sv.snap < |sv.log|
      && var (sv', r) := OnInstall(sv, m.snapArgs);
      && sv'.commit >= sv.commit
      && sv.commit < |sv.log| && sv'.commit < |sv'.log|
      && sv'.log[..sv.commit + 1] == sv.log[..sv.commit + 1]
      && (r.accept ==> sv'.log[..sv'.snap + 1] == m.snapArgs.data)
  {
    hide IsRun, Inv, ServersOk, LeadersOk, RecordsOk, Complete, OnInstall, VoterOk, LeaderOk, Committed, WellFormed;
    var c := run.states[i];
    var s, a := m.to, m.snapArgs;
    RunInv(run, i);
    InvParts(c, s);
    InvMessage(c, m);
    var sv := c.servers[s];
    InstallCases(sv, a);
    if OnInstall(sv, a).1.accept {
      RecogniseInv(c, s, a.term);
      var c1 := SetServer(c, s, Recognise(sv, a.term));
      InvParts(c1, s);
      InvMessage(c1, m);
      InstallCommit(c1, s, c1.servers[s], c1.services[s], a);
    }
  }

  lemma InstallCases(sv: Server, a: SnapArgs)
    requires sv.snap < |sv.log|
    ensures OnInstall(sv, a).1.accept ==> a.term >= sv.term && OnInstall(Recognise(sv, a.term), a) == OnInstall(sv, a)
    ensures !OnInstall(sv, a).1.accept ==> OnInstall(sv, a).0.log == sv.log && OnInstall(sv, a).0.commit == sv.commit
  {
  }

  lemma InstallCommit(c: Cluster, s: nat, sv: Server, service: seq<Entry>, a: SnapArgs)
    requires LeadersOk(c) && Complete(c) && SnapOk(c, a) && ServerOk(c, s, sv, service)
    requires sv.role == Follower && sv.term == a.term && OnInstall(sv, a).1.accept
    ensures var sv' := OnInstall(sv, a).0;
      && sv'.commit >= sv.commit && sv.commit < |sv.log| && sv'.commit < |sv'.log|
      && sv'.log[..sv.commit + 1] == sv.log[..sv.commit + 1]
      && sv'.snap == a.lastIndex && sv'.log[..a.lastIndex + 1] == a.data
  {
    hide OnInstall, Complete, Adopt, WellFormed, Committed;
    var leaderLog := c.hist.logs[a.term];
    FollowerAgrees(c, s, sv, service, a.term);
    InstallAdopts(c.hist.logs, sv, a, leaderLog);
    AdoptKeeps(sv.log, leaderLog, a.lastIndex, sv.commit);
    AdoptKeeps(sv.log, leaderLog, a.lastIndex, a.lastIndex);
  }

  /** For every peer of every leader: what is known to match lies below what is sent next, which is
      within the log or just past it; and what is known to match is on record as confirmed. */
  lemma NextIndexBounds(run: Run, i: nat, s: nat, peer: nat)
    requires IsRun(run) && i < |run.states| && s < |run.states[i].servers| && peer < |run.states[i].servers|
    requires run.states[i].servers[s].role == Leader
    ensures var sv := run.states[i].servers[s];
      && |sv.next| == |sv.matched| == |run.states[i].servers|
      && sv.matched[peer] < sv.next[peer] <= |sv.log|
      && (sv.matched[peer] > 0 ==> Acked(run.states[i].hist, peer, sv.term, sv.matched[peer]))
  {
    RunInv(run, i);
    LeaderOnRecord(run.states[i], s);
  }

  /** Backing off over a whole conflicting term ends at or below the refused position. */
  lemma SuggestionBelow(c: Cluster, s: nat, sv: Server, m: Message)
    requires LeadersOk(c) && LeaderOk(c, s, sv) && m.AppendResponse? && MessageOk(c, m) && sv.snap < |sv.log|
    requires sv.term == m.appendArgs.term >= m.appendReply.term && !m.appendReply.success
    ensures var a, r := m.appendArgs, m.appendReply;
      && (r.conflictTerm == -1 ==> 1 <= r.conflictIndex <= a.prevIndex)
      && var k := LastWithTerm(sv.log, sv.snap, |sv.log|, r.conflictTerm);
      && (k == sv.snap ==> 1 <= r.conflictIndex <= a.prevIndex)
      && (r.conflictTerm != -1 && k > sv.snap ==> k < a.prevIndex)
  {
    hide LastWithTerm, Committed, Ordered;
    InTermLog(c, sv.term);
    var k := LastWithTerm(sv.log, sv.snap, |sv.log|, m.appendReply.conflictTerm);
    if m.appendReply.conflictTerm != -1 && k > sv.snap && k >= m.appendArgs.prevIndex {
      assert false;
    }
  }

  /** Fast backup never stalls: when a follower refuses at a position that is neither confirmed already
      nor above what would be sent next, the next index moves to that position or below, and stays above
      what is confirmed. Nothing else changes. */
  lemma RefusalLowersNext(run: Run, i: nat, s: nat, m: Message)
    requires IsRun(run) && i < |run.states| && s < |run.states[i].servers|
    requires m in run.states[i].net && m.AppendResponse? && m.appendArgs.leader == s
    requires var sv := run.states[i].servers[s];
      sv.role == Leader && sv.term == m.appendArgs.term >= m.appendReply.term && !m.appendReply.success
    ensures var sv, p := run.states[i].servers[s], m.appendArgs.prevIndex;
      && |sv.log| > 0 && AppendReplyInBounds(sv, m.from, m.appendArgs, m.appendReply)
      && m.from < |sv.next| == |sv.matched|
      && var sv' := OnAppendReply(sv, m.from, m.appendArgs, m.appendReply);
      && m.from < |sv'.next| && sv' == sv.(next := sv.next[m.from := sv'.next[m.from]])
      && sv.matched[m.from] < sv'.next[m.from] <= sv.next[m.from]
      && (sv.matched[m.from] < p < sv.next[m.from] ==> sv'.next[m.from] <= p)
  {
    hide IsRun, Inv, RecordsOk, LeadersOk, Complete, VoterOk, WellFormed, Committed, Acked, AppendOk, LastWithTerm;
    RunInv(run, i);
    var c := run.states[i];
    InvParts(c, s);
    InvMessage(c, m);
    AppendReplyServer(c, s, c.servers[s], c.services[s], m);
    SuggestionBelow(c, s, c.servers[s], m);
  }

  // ---- A cluster of one ----

  /** Nothing was committed, and no entries or snapshots are on the way. */
  predicate Untouched(c: Cluster) {
    && |c.servers| == 1 && c.servers[0].commit == 0
    && forall m :: m in c.net ==> m.VoteRequest? || m.VoteResponse?
  }

  lemma UntouchedStays(c: Cluster, st: Step)
    requires Inv(c) && Untouched(c) && Enabled(c, st) && InBounds(c, st)
    ensures Untouched(Apply(c, st))
  {
    hide LeadersOk, RecordsOk, Complete, Retained, BallotsOk, MessageOk, VoterOk, LeaderOk, WellFormed, Committed;
    assert ServerOk(c, 0, c.servers[0], c.services[0]);
  }

  /** A server without peers can win elections and store commands, but never commits one: the commit
      rule runs only on a peer's reply. */
  lemma {:induction false} LoneServerNeverCommits(run: Run, i: nat)
    requires IsRun(run) && i < |run.states| && |run.states[0].servers| == 1
    ensures Untouched(run.states[i])
  {
    hide Inv, Apply, InBounds, Enabled, Next;
    if i > 0 {
      LoneServerNeverCommits(run, i - 1);
      RunInv(run, i - 1);
      NoPanic(run, i - 1);
      assert Next(run.states[i - 1], run.steps[i - 1], run.states[i]);
      UntouchedStays(run.states[i - 1], run.steps[i - 1]);
    }
  }
}
