/** Every step keeps the invariant. */
module RaftProof {
  import opened RaftServer
  import opened RaftCluster
  import opened RaftInvariant
  import opened RaftMajority

  // ---- What is kept when the history grows under the same leaders' logs ----

  lemma KeepComplete(c: Cluster, c': Cluster)
    requires Grows(c, c') && Complete(c) && c'.hist.logs == c.hist.logs
    ensures Complete(c')
  {
    forall t, i, t' | Own(c'.hist, t, i) && t' in c'.hist.logs && t < t' ensures Holds(c', c'.hist.logs[t'], t, i) {
      assert Own(c.hist, t, i);
      GrowsHolds(c, c', c.hist.logs[t'], t, i);
    }
  }

  lemma KeepRetained(c: Cluster, c': Cluster, s: nat, log: seq<Entry>)
    requires Grows(c, c') && RetainedBy(c, s, log) && c'.hist.logs == c.hist.logs
    requires forall t, i: nat :: Acked(c'.hist, s, t, i) ==> Acked(c.hist, s, t, i)
    ensures RetainedBy(c', s, log)
  {
    forall t, i | Own(c'.hist, t, i) && Acked(c'.hist, s, t, i) ensures Holds(c', log, t, i) {
      assert Own(c.hist, t, i);
      GrowsHolds(c, c', log, t, i);
    }
  }

  lemma KeepBallot(c: Cluster, c': Cluster, voter: nat, log: seq<Entry>, term: int)
    requires Grows(c, c') && BallotOk(c, voter, log, term) && c'.hist.logs == c.hist.logs
    requires voter < |c.servers| && term <= c.servers[voter].term
    ensures BallotOk(c', voter, log, term)
  {
    forall t, i | t < term && Own(c'.hist, t, i) && Acked(c'.hist, voter, t, i) ensures Holds(c', log, t, i) {
      assert Own(c.hist, t, i) && Acked(c.hist, voter, t, i);
      GrowsHolds(c, c', log, t, i);
    }
  }

  /** A candidate after the step either was one before, with the same log, or has just moved on to its term. */
  ghost predicate CandidatesFrom(c: Cluster, c': Cluster) {
    forall v: nat, t :: IsCandidate(c', v, t) ==>
      (IsCandidate(c, v, t) && c'.servers[v].log == c.servers[v].log) || (v < |c.servers| && c.servers[v].term < t)
  }

  /** Every ballot after the step was cast before it, or is sound on its own. */
  ghost predicate BallotsFrom(c: Cluster, c': Cluster) {
    forall x: nat, t, v: nat :: Voted(c'.hist, x, t, v) && IsCandidate(c', v, t) ==>
      (Voted(c.hist, x, t, v) && IsCandidate(c, v, t)) || BallotOk(c', x, c'.servers[v].log, t)
  }

  lemma KeepBallots(c: Cluster, c': Cluster)
    requires Grows(c, c') && BallotsOk(c) && RecordsOk(c) && c'.hist.logs == c.hist.logs
    requires CandidatesFrom(c, c') && BallotsFrom(c, c')
    ensures BallotsOk(c')
  {
    forall x: nat, t, v: nat | Voted(c'.hist, x, t, v) && IsCandidate(c', v, t)
      ensures BallotOk(c', x, c'.servers[v].log, t)
    {
      if Voted(c.hist, x, t, v) && IsCandidate(c, v, t) {
        assert BallotOk(c, x, c.servers[v].log, t);
        KeepBallot(c, c', x, c.servers[v].log, t);
      }
    }
  }

  lemma KeepLeaders(c: Cluster, c': Cluster)
    requires Grows(c, c') && LeadersOk(c)
    requires c'.hist.logs == c.hist.logs && c'.hist.leaders == c.hist.leaders
    ensures LeadersOk(c')
  {
    forall t | t in c'.hist.leaders ensures exists q :: ElectedBy(c', t, q) {
      var q :| ElectedBy(c, t, q);
      assert ElectedBy(c', t, q);
    }
  }

  lemma KeepMessages(c: Cluster, c': Cluster)
    requires Grows(c, c') && CandidatesFrom(c, c')
    requires forall m :: m in c.net ==> MessageOk(c, m)
    ensures forall m :: m in c.net ==> MessageOk(c', m)
  {
    forall m | m in c.net ensures MessageOk(c', m) {
      GrowsMessage(c, c', m);
    }
  }

  lemma KeepServers(c: Cluster, c': Cluster, s: nat)
    requires Grows(c, c') && ServersOk(c) && s < |c.servers|
    requires c'.servers == c.servers[s := c'.servers[s]] && |c'.services| == |c.services|
    requires c'.services == c.services[s := c'.services[s]]
    requires c'.hist.logs == c.hist.logs && c'.hist.leaders == c.hist.leaders
    requires forall x: nat, t :: (x, t) in c'.hist.votes && x != s ==> (x, t) in c.hist.votes
    requires ServerOk(c', s, c'.servers[s], c'.services[s])
    ensures ServersOk(c')
  {
    forall x | 0 <= x < |c'.servers| && x != s ensures ServerOk(c', x, c'.servers[x], c'.services[x]) {
      assert ServerOk(c, x, c.servers[x], c.services[x]);
      GrowsServer(c, c', x);
    }
  }

  /** The one server s changed, within a history whose leaders and logs stay as they are. */
  lemma StepInv(c: Cluster, c': Cluster, s: nat)
    requires Inv(c) && s < |c.servers| && Grows(c, c')
    requires c'.servers == c.servers[s := c'.servers[s]] && |c'.services| == |c.services|
    requires c'.services == c.services[s := c'.services[s]]
    requires c'.hist.leaders == c.hist.leaders && c'.hist.logs == c.hist.logs
    requires forall x: nat, t :: (x, t) in c'.hist.votes && x != s ==> (x, t) in c.hist.votes
    requires forall x: nat, t, i: nat :: Acked(c'.hist, x, t, i) && x != s ==> Acked(c.hist, x, t, i)
    requires ServerOk(c', s, c'.servers[s], c'.services[s])
    requires RecordsOk(c') && RetainedBy(c', s, c'.servers[s].log)
    requires CandidatesFrom(c, c') && BallotsFrom(c, c')
    requires forall m :: m in c'.net ==> m in c.net || MessageOk(c', m)
    ensures Inv(c')
  {
    KeepServers(c, c', s);
    KeepLeaders(c, c');
    KeepComplete(c, c');
    KeepBallots(c, c');
    KeepMessages(c, c');
    forall x | 0 <= x < |c'.servers| && x != s ensures RetainedBy(c', x, c'.servers[x].log) {
      KeepRetained(c, c', x, c.servers[x].log);
    }
  }

  // ---- Steps that leave the history alone ----

  lemma LiftServer(c: Cluster, c': Cluster, s: nat, sv: Server, service: seq<Entry>)
    requires Grows(c, c') && c'.hist == c.hist && ServerOk(c, s, sv, service)
    ensures ServerOk(c', s, sv, service)
  {
    GrowsCommitted(c, c', sv.log, sv.log, sv.commit, sv.term, sv.term);
  }

  lemma LiftMessage(c: Cluster, c': Cluster, m: Message)
    requires Grows(c, c') && CandidatesFrom(c, c')
    requires m in c'.net ==> m in c.net || MessageOk(c, m)
    ensures m in c'.net ==> m in c.net || MessageOk(c', m)
  {
    if m in c'.net && m !in c.net { GrowsMessage(c, c', m); }
  }

  /** Server s moved on without touching its log, and nothing was recorded. */
  ghost predicate Quiet(c: Cluster, c': Cluster, s: nat) {
    && s < |c.servers| == |c'.servers| && |c'.services| == |c.services| == |c.servers|
    && c'.hist == c.hist
    && c'.servers == c.servers[s := c'.servers[s]] && c'.services == c.services[s := c'.services[s]]
    && c'.servers[s].log == c.servers[s].log && c'.servers[s].term >= c.servers[s].term
    && (c'.servers[s].role == Candidate ==> IsCandidate(c, s, c'.servers[s].term))
    && ServerOk(c, s, c'.servers[s], c'.services[s])
    && forall m :: m in c'.net ==> m in c.net || MessageOk(c, m)
  }

  lemma QuietGrows(c: Cluster, c': Cluster, s: nat)
    requires Quiet(c, c', s) && RecordsOk(c)
    ensures Grows(c, c') && CandidatesFrom(c, c') && BallotsFrom(c, c') && RecordsOk(c')
  {
  }

  lemma QuietInv(c: Cluster, c': Cluster, s: nat)
    requires Inv(c) && Quiet(c, c', s)
    ensures Inv(c')
  {
    QuietGrows(c, c', s);
    LiftServer(c, c', s, c'.servers[s], c'.services[s]);
    KeepRetained(c, c', s, c.servers[s].log);
    forall m | m in c'.net ensures m in c.net || MessageOk(c', m) {
      LiftMessage(c, c', m);
    }
    StepInv(c, c', s);
  }

  lemma CommittedBelow(c: Cluster, log: seq<Entry>, k: nat, j: nat, bound: int)
    requires Committed(c, log, k, bound) && j <= k
    ensures Committed(c, log, j, bound)
  {
    if j > 0 {
      var term, i :| CommittedAt(c, log, k, bound, term, i);
      assert CommittedAt(c, log, j, bound, term, i);
    }
  }

  lemma CommittedLater(c: Cluster, log: seq<Entry>, k: nat, bound: int, bound': int)
    requires Committed(c, log, k, bound) && bound <= bound'
    ensures Committed(c, log, k, bound')
  {
    if k > 0 {
      var term, i :| CommittedAt(c, log, k, bound, term, i);
      assert CommittedAt(c, log, k, bound', term, i);
    }
  }

  lemma NewerTerm(c: Cluster, s: nat, sv: Server, sv': Server, service: seq<Entry>)
    requires RecordsOk(c) && s < |c.servers| && c.servers[s] == sv && ServerOk(c, s, sv, service)
    requires sv' == sv.(term := sv'.term, vote := NOBODY, role := Follower)
    requires sv'.term > sv.term
    ensures ServerOk(c, s, sv', service)
  {
    CommittedLater(c, sv.log, sv.commit, sv.term, sv'.term);
    if (s, sv'.term) in c.hist.votes {
      assert Voted(c.hist, s, sv'.term, c.hist.votes[(s, sv'.term)]);
    }
  }

  /** The steps in which one server changes quietly. */
  predicate IsQuietStep(st: Step) {
    || st.AskVote? || st.HandleVoteReply? || st.SendAppend? || st.SendSnapshot?
    || st.HandleAppendReply? || st.HandleInstallReply?
    || st.Snapshot? || st.ApplyNext? || st.SetFlags? || st.Restart?
  }

  lemma AllInBounds(c: Cluster)
    requires ServersOk(c)
    ensures forall s :: 0 <= s < |c.servers| ==> c.servers[s].snap < |c.servers[s].log|
  {
    forall s | 0 <= s < |c.servers| ensures c.servers[s].snap < |c.servers[s].log| {
      assert ServerOk(c, s, c.servers[s], c.services[s]);
    }
  }

  /** What one server's own state says is enough to take the step, and the result is sound. */
  ghost predicate StepQuiet(c: Cluster, st: Step) {
    Enabled(c, st) && IsQuietStep(st) && InBounds(c, st) && Quiet(c, Apply(c, st), st.s)
  }

  lemma AskVoteQuiet(c: Cluster, st: Step)
    requires Enabled(c, st) && st.AskVote? && ServersOk(c)
    ensures StepQuiet(c, st)
  {
    AllInBounds(c);
    assert ServerOk(c, st.s, c.servers[st.s], c.services[st.s]);
  }

  lemma VoteReplyServer(c: Cluster, s: nat, sv: Server, service: seq<Entry>, m: Message)
    requires RecordsOk(c) && s < |c.servers| && c.servers[s] == sv && ServerOk(c, s, sv, service)
    requires m.VoteResponse? && m.voteArgs.candidate == s && MessageOk(c, m)
    ensures ServerOk(c, s, OnVoteReply(sv, m.from, m.voteArgs, m.voteReply), service)
  {
    if sv.role == Candidate && sv.term == m.voteArgs.term && sv.term < m.voteReply.term {
      NewerTerm(c, s, sv, StepDown(sv, m.voteReply.term), service);
    }
  }

  lemma HandleVoteReplyQuiet(c: Cluster, st: Step)
    requires Enabled(c, st) && st.HandleVoteReply? && ServersOk(c) && RecordsOk(c) && MessageOk(c, st.m)
    ensures StepQuiet(c, st)
  {
    hide RecordsOk, MessageOk, LogOk, VoterOk, LeaderOk;
    AllInBounds(c);
    VoteReplyServer(c, st.s, c.servers[st.s], c.services[st.s], st.m);
  }

  lemma SendAppendQuiet(c: Cluster, st: Step)
    requires Enabled(c, st) && st.SendAppend? && ServersOk(c)
    ensures StepQuiet(c, st)
  {
    AllInBounds(c);
    assert ServerOk(c, st.s, c.servers[st.s], c.services[st.s]);
  }

  lemma SendSnapshotQuiet(c: Cluster, st: Step)
    requires Enabled(c, st) && st.SendSnapshot? && ServersOk(c)
    ensures StepQuiet(c, st)
  {
    AllInBounds(c);
    var sv := c.servers[st.s];
    assert ServerOk(c, st.s, sv, c.services[st.s]);
    CommittedBelow(c, sv.log, sv.commit, sv.snap, sv.term);
  }

  lemma SnapshotQuiet(c: Cluster, st: Step)
    requires Enabled(c, st) && st.Snapshot? && ServersOk(c)
    ensures StepQuiet(c, st)
  {
    AllInBounds(c);
    assert ServerOk(c, st.s, c.servers[st.s], c.services[st.s]);
  }

  lemma ApplyNextQuiet(c: Cluster, st: Step)
    requires Enabled(c, st) && st.ApplyNext? && ServersOk(c)
    ensures StepQuiet(c, st)
  {
    AllInBounds(c);
    assert ServerOk(c, st.s, c.servers[st.s], c.services[st.s]);
  }

  lemma SetFlagsQuiet(c: Cluster, st: Step)
    requires Enabled(c, st) && st.SetFlags? && ServersOk(c)
    ensures StepQuiet(c, st)
  {
    AllInBounds(c);
    assert ServerOk(c, st.s, c.servers[st.s], c.services[st.s]);
  }

  lemma RestartQuiet(c: Cluster, st: Step)
    requires Enabled(c, st) && st.Restart? && ServersOk(c)
    ensures StepQuiet(c, st)
  {
    AllInBounds(c);
    var sv := c.servers[st.s];
    assert ServerOk(c, st.s, sv, c.services[st.s]);
    CommittedBelow(c, sv.log, sv.commit, sv.snap, sv.term);
  }

  lemma HandleInstallReplyQuiet(c: Cluster, st: Step)
    requires Enabled(c, st) && st.HandleInstallReply? && ServersOk(c) && RecordsOk(c) && MessageOk(c, st.m)
    ensures StepQuiet(c, st)
  {
    AllInBounds(c);
    InstallReplyServer(c, st.s, c.servers[st.s], c.services[st.s], st.m);
  }

  lemma InstallReplyServer(c: Cluster, s: nat, sv: Server, service: seq<Entry>, m: Message)
    requires RecordsOk(c) && s < |c.servers| && c.servers[s] == sv && ServerOk(c, s, sv, service)
    requires m.InstallResponse? && m.snapArgs.leader == s && MessageOk(c, m)
    ensures sv.role == Leader && sv.term == m.snapArgs.term ==> m.from < |sv.next| && m.from < |sv.matched|
    ensures ServerOk(c, s, OnInstallReply(sv, m.from, m.snapArgs, m.snapReply), service)
  {
    if sv.role == Leader && sv.term == m.snapArgs.term && sv.term < m.snapReply.term {
      NewerTerm(c, s, sv, StepDown(sv, m.snapReply.term), service);
    }
  }

  // ---- The leader's handling of an append reply ----

  /** The conflicting term a follower reports is never that of the leader's last entry. */
  lemma ConflictBeforeEnd(c: Cluster, sv: Server, a: AppendArgs, term: int)
    requires sv.term == a.term && AppendOk(c, a) && c.hist.logs[a.term] == sv.log
    requires WellFormed(c.hist.logs, sv.log) && ConflictOk(c, a, term) && sv.snap < |sv.log|
    ensures var k := LastWithTerm(sv.log, sv.snap, |sv.log|, term); k == sv.snap || k + 1 < |sv.log|
  {
    var last := |sv.log| - 1;
    if last > 0 && sv.log[last].term == term {
      assert false;
    }
  }

  /** The acknowledgements a leader knows of stay real when it hears of one more. */
  lemma MatchedStaysReal(c: Cluster, s: nat, sv: Server, from: nat, index: nat)
    requires LeaderOk(c, s, sv) && RecordsOk(c) && from < |c.servers| && Acked(c.hist, from, sv.term, index)
    ensures var m := Max(index, sv.matched[from]);
      && m < |sv.log|
      && LeaderOk(c, s, sv.(matched := sv.matched[from := m], next := sv.next[from := m + 1]))
  {
  }

  /** An entry of the leader's own term that the rule commits is chosen. */
  lemma CommitRuleChooses(c: Cluster, s: nat, sv: Server, n: nat)
    requires LeaderOk(c, s, sv) && |c.servers| > 0 && 0 < n <= MajorityIndex(sv.matched) && n < |sv.log|
      && sv.log[n].term == sv.term
    ensures Chosen(c, sv.term, n)
  {
    var q := Reached(sv.matched, n);
    MajorityIndexExact(sv.matched, n);
    assert Quorum(q, |c.servers|);
    forall j | j in q ensures Acked(c.hist, j, sv.term, n) {
      assert Acked(c.hist, j, sv.term, sv.matched[j]);
    }
    assert ChosenBy(c, sv.term, n, q);
  }

  lemma AppendReplyServer(c: Cluster, s: nat, sv: Server, service: seq<Entry>, m: Message)
    requires RecordsOk(c) && s < |c.servers| && c.servers[s] == sv && ServerOk(c, s, sv, service)
    requires m.AppendResponse? && m.appendArgs.leader == s && MessageOk(c, m)
    ensures AppendReplyInBounds(sv, m.from, m.appendArgs, m.appendReply)
    ensures ServerOk(c, s, OnAppendReply(sv, m.from, m.appendArgs, m.appendReply), service)
  {
    hide RecordsOk, WellFormed, Committed, AppendOk, SnapOk, ConflictOk, LastWithTerm;
    var a, r := m.appendArgs, m.appendReply;
    if sv.role == Leader && sv.term == a.term {
      if sv.term < r.term {
        NewerTerm(c, s, sv, StepDown(sv, r.term), service);
      } else if !r.success {
        if r.conflictTerm != -1 { ConflictBeforeEnd(c, sv, a, r.conflictTerm); }
      } else {
        AppendAccepted(c, s, sv, service, m);
      }
    }
  }

  /** A leader that knows of real acknowledgements may apply the commit rule. */
  lemma CommitRuleSound(c: Cluster, s: nat, sv: Server, service: seq<Entry>)
    requires |c.servers| > 0 && ServerOk(c, s, sv, service) && sv.role == Leader
    ensures MajorityIndex(sv.matched) < |sv.log|
    ensures var n := LastWithTerm(sv.log, sv.commit, MajorityIndex(sv.matched) + 1, sv.term);
      ServerOk(c, s, sv.(commit := n), service)
  {
    var j := MajorityIndexReached(sv.matched);
    assert sv.matched[j] < |sv.log|;
    var n := LastWithTerm(sv.log, sv.commit, MajorityIndex(sv.matched) + 1, sv.term);
    if n > sv.commit {
      CommitRuleChooses(c, s, sv, n);
      assert CommittedAt(c, sv.log, n, sv.term, sv.term, n);
    }
  }

  function NoteMatched(sv: Server, from: nat, index: nat): Server
    requires from < |sv.matched| && from < |sv.next|
  {
    var m := Max(index, sv.matched[from]);
    sv.(matched := sv.matched[from := m], next := sv.next[from := m + 1])
  }

  lemma NoteMatchedSound(c: Cluster, s: nat, sv: Server, service: seq<Entry>, from: nat, index: nat)
    requires RecordsOk(c) && ServerOk(c, s, sv, service) && sv.role == Leader
    requires from < |c.servers| && Acked(c.hist, from, sv.term, index)
    ensures ServerOk(c, s, NoteMatched(sv, from, index), service)
  {
    MatchedStaysReal(c, s, sv, from, index);
  }

  lemma AppendAccepted(c: Cluster, s: nat, sv: Server, service: seq<Entry>, m: Message)
    requires RecordsOk(c) && s < |c.servers| && ServerOk(c, s, sv, service)
    requires m.AppendResponse? && MessageOk(c, m)
    requires sv.role == Leader && sv.term == m.appendArgs.term >= m.appendReply.term && m.appendReply.success
    ensures AppendReplyInBounds(sv, m.from, m.appendArgs, m.appendReply)
    ensures ServerOk(c, s, OnAppendReply(sv, m.from, m.appendArgs, m.appendReply), service)
  {
    hide RecordsOk, WellFormed, Committed, VoterOk, LogOk, AppendOk, SnapOk, ConflictOk, LastWithTerm;
    var index := m.appendArgs.prevIndex + |m.appendArgs.entries|;
    NoteMatchedSound(c, s, sv, service, m.from, index);
    CommitRuleSound(c, s, NoteMatched(sv, m.from, index), service);
  }

  lemma HandleAppendReplyQuiet(c: Cluster, st: Step)
    requires Enabled(c, st) && st.HandleAppendReply? && ServersOk(c) && RecordsOk(c) && MessageOk(c, st.m)
    ensures StepQuiet(c, st)
  {
    hide RecordsOk, MessageOk, VoterOk, LeaderOk, AppendReplyInBounds, LastWithTerm, Sorted;
    AllInBounds(c);
    AppendReplyServer(c, st.s, c.servers[st.s], c.services[st.s], st.m);
  }
}
