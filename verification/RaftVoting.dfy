/** Timeouts, ballots and election wins keep the invariant. */
module RaftVoting {
  import opened RaftServer
  import opened RaftCluster
  import opened RaftInvariant
  import opened RaftProof

  /** A log at least as up to date as one that holds an entry holds the entry itself. */
  lemma UpToDateHolds(c: Cluster, a: VoteArgs, candidateLog: seq<Entry>, voterLog: seq<Entry>, term: int, i: nat)
    requires LeadersOk(c) && Complete(c)
    requires WellFormed(c.hist.logs, candidateLog) && WellFormed(c.hist.logs, voterLog)
    requires a.lastIndex == LastIndex(candidateLog) && a.lastTerm == LastTerm(candidateLog)
    requires UpToDate(a, voterLog)
    requires Own(c.hist, term, i) && Agree(voterLog, c.hist.logs[term], i)
    ensures Holds(c, candidateLog, term, i)
  {
    var m, last := LastIndex(voterLog), LastIndex(candidateLog);
    var y, x := LastTerm(voterLog), LastTerm(candidateLog);
    assert Agree(voterLog, c.hist.logs[y], m);
    assert voterLog[i].term <= voterLog[m].term;
    assert Agree(candidateLog, c.hist.logs[x], last);
    if x > term {
      assert Holds(c, c.hist.logs[x], term, i);
      if Agree(c.hist.logs[x], c.hist.logs[term], i) {
        assert c.hist.logs[x][i].term < c.hist.logs[x][last].term;
        assert i < last;
      }
    }
  }

  /** What follows for a step in which server s votes. */
  ghost predicate Voting(c: Cluster, c': Cluster, s: nat) {
    && s < |c.servers| == |c'.servers| && c'.services == c.services && |c.services| == |c.servers|
    && c'.servers == c.servers[s := c'.servers[s]]
    && var sv, sv' := c.servers[s], c'.servers[s];
    && sv'.log == sv.log && sv'.term >= sv.term && sv'.vote >= 0
    && ((s, sv'.term) in c.hist.votes ==> Voted(c.hist, s, sv'.term, sv'.vote))
    && c'.hist == c.hist.(votes := c.hist.votes[(s, sv'.term) := sv'.vote])
    && sv'.vote < |c.servers| && sv'.term <= c'.servers[sv'.vote].term
    && (sv'.role == Candidate ==> IsCandidate(c, s, sv'.term) || sv.term < sv'.term)
    && ServerOk(c', s, sv', c.services[s])
  }

  lemma VotingGrows(c: Cluster, c': Cluster, s: nat)
    requires Voting(c, c', s) && RecordsOk(c)
    ensures Grows(c, c') && CandidatesFrom(c, c') && RecordsOk(c')
  {
    forall x: nat, t, v: nat | Voted(c.hist, x, t, v) ensures Voted(c'.hist, x, t, v) {
      assert (x, t) == (s, c'.servers[s].term) || (x, t) != (s, c'.servers[s].term);
    }
    forall x: nat, t, v: nat | Voted(c'.hist, x, t, v)
      ensures x < |c'.servers| && t <= c'.servers[x].term && v < |c'.servers| && t <= c'.servers[v].term
    {
      assert Voted(c.hist, x, t, v) || (x == s && t == c'.servers[s].term && v == c'.servers[s].vote);
    }
    forall x: nat, t, i: nat | Acked(c'.hist, x, t, i)
      ensures x < |c'.servers| && t <= c'.servers[x].term && t in c'.hist.logs && i < |c'.hist.logs[t]|
    {
      assert Acked(c.hist, x, t, i);
    }
  }

  /** The only ballot to look at is the new one. */
  lemma VotingBallots(c: Cluster, c': Cluster, s: nat)
    requires Voting(c, c', s) && RecordsOk(c)
    requires IsCandidate(c', c'.servers[s].vote, c'.servers[s].term) ==>
      BallotOk(c', s, c'.servers[c'.servers[s].vote].log, c'.servers[s].term)
    ensures BallotsFrom(c, c')
  {
    forall x: nat, t, v: nat | Voted(c'.hist, x, t, v) && IsCandidate(c', v, t)
      ensures (Voted(c.hist, x, t, v) && IsCandidate(c, v, t)) || BallotOk(c', x, c'.servers[v].log, t)
    {
      if !(x == s && t == c'.servers[s].term && v == c'.servers[s].vote) {
        assert Voted(c.hist, x, t, v);
        assert t <= c.servers[v].term;
      }
    }
  }

  lemma VotingInv(c: Cluster, c': Cluster, s: nat)
    requires Inv(c) && Voting(c, c', s)
    requires IsCandidate(c', c'.servers[s].vote, c'.servers[s].term) ==>
      BallotOk(c', s, c'.servers[c'.servers[s].vote].log, c'.servers[s].term)
    requires c'.net == c.net
    ensures Inv(c')
  {
    hide Committed, WellFormed, VoterOk, LeaderOk, LogOk, BallotOk;
    VotingGrows(c, c', s);
    VotingBallots(c, c', s);
    KeepRetained(c, c', s, c.servers[s].log);
    StepInv(c, c', s);
  }

  // ---- Timeout ----

  lemma TimeoutServer(c: Cluster, c': Cluster, s: nat, sv: Server, service: seq<Entry>)
    requires s < |c.servers| && |c'.servers| == |c.servers| && sv == c.servers[s] && ServerOk(c, s, sv, service)
    requires LeadersOk(c)
    requires c'.hist == c.hist.(votes := c.hist.votes[(s, sv.term + 1) := s])
    ensures ServerOk(c', s, OnTimeout(sv, s), service)
  {
    if sv.commit > 0 {
      var term, i :| CommittedAt(c, sv.log, sv.commit, sv.term, term, i);
      var q :| ChosenBy(c, term, i, q);
      assert ChosenBy(c', term, i, q);
      assert CommittedAt(c', sv.log, sv.commit, sv.term + 1, term, i);
    }
  }

  lemma NotVotedYet(c: Cluster, s: nat, term: int)
    requires RecordsOk(c) && s < |c.servers| && term > c.servers[s].term
    ensures (s, term) !in c.hist.votes
  {
    assert (s, term) in c.hist.votes ==> Voted(c.hist, s, term, c.hist.votes[(s, term)]);
  }

  lemma TimeoutVoting(c: Cluster, s: nat)
    requires ServersOk(c) && LeadersOk(c) && RecordsOk(c) && s < |c.servers|
    ensures Enabled(c, Timeout(s)) && InBounds(c, Timeout(s)) && Voting(c, Apply(c, Timeout(s)), s)
  {
    hide Committed, WellFormed, Ordered, LeaderOk, LogOk, ElectedBy;
    AllInBounds(c);
    var sv := c.servers[s];
    NotVotedYet(c, s, sv.term + 1);
    TimeoutServer(c, Apply(c, Timeout(s)), s, sv, c.services[s]);
  }

  lemma TimeoutInv(c: Cluster, s: nat)
    requires Inv(c) && s < |c.servers|
    ensures Enabled(c, Timeout(s)) && InBounds(c, Timeout(s)) && Inv(Apply(c, Timeout(s)))
  {
    TimeoutVoting(c, s);
    var c' := Apply(c, Timeout(s));
    VotingGrows(c, c', s);
    KeepRetained(c, c', s, c.servers[s].log);
    VotingInv(c, c', s);
  }

  // ---- Vote requests ----

  /** First the server moves on to the newer term, which touches nothing else. */
  lemma CatchUp(c: Cluster, s: nat, term: int)
    requires Inv(c) && s < |c.servers| && term > c.servers[s].term
    ensures Inv(SetServer(c, s, StepDown(c.servers[s], term)))
  {
    hide Committed, WellFormed, Ordered, LeaderOk, LogOk, VoterOk, Complete, Retained;
    var sv := c.servers[s];
    NewerTerm(c, s, sv, StepDown(sv, term), c.services[s]);
    QuietInv(c, SetServer(c, s, StepDown(sv, term)), s);
  }

  lemma SendInv(c: Cluster, m: Message)
    requires Inv(c) && MessageOk(c, m)
    ensures Inv(Send(c, m))
  {
    assert ServerOk(c, 0, c.servers[0], c.services[0]);
    QuietInv(c, Send(c, m), 0);
  }

  lemma GrantServer(c: Cluster, c': Cluster, s: nat, sv: Server, service: seq<Entry>, candidate: nat)
    requires s < |c.servers| == |c'.servers| && ServerOk(c, s, sv, service)
    requires sv.vote == NOBODY || sv.vote == candidate
    requires c'.hist == c.hist.(votes := c.hist.votes[(s, sv.term) := candidate])
    requires (s, sv.term) in c.hist.votes ==> Voted(c.hist, s, sv.term, candidate)
    ensures ServerOk(c', s, sv.(vote := candidate), service)
  {
    assert sv.role == Candidate ==> forall v :: v in sv.votes ==> Voted(c.hist, v, sv.term, s);
    if sv.commit > 0 {
      var term, i :| CommittedAt(c, sv.log, sv.commit, sv.term, term, i);
      var q :| ChosenBy(c, term, i, q);
      assert ChosenBy(c', term, i, q);
      assert CommittedAt(c', sv.log, sv.commit, sv.term, term, i);
    }
  }

  /** What a voter confirmed below this term, the candidate it may vote for holds. */
  lemma GrantBallot(c: Cluster, s: nat, voterLog: seq<Entry>, a: VoteArgs, candidateLog: seq<Entry>)
    requires LeadersOk(c) && Complete(c) && RetainedBy(c, s, voterLog)
    requires WellFormed(c.hist.logs, candidateLog) && WellFormed(c.hist.logs, voterLog)
    requires a.lastIndex == LastIndex(candidateLog) && a.lastTerm == LastTerm(candidateLog)
    requires UpToDate(a, voterLog)
    ensures BallotOk(c, s, candidateLog, a.term)
  {
    forall t, i: nat | t < a.term && Own(c.hist, t, i) && Acked(c.hist, s, t, i) ensures Holds(c, candidateLog, t, i) {
      if Agree(voterLog, c.hist.logs[t], i) {
        UpToDateHolds(c, a, candidateLog, voterLog, t, i);
      }
    }
  }

  lemma GrantVoting(c: Cluster, s: nat, a: VoteArgs)
    requires ServersOk(c) && s < |c.servers| && MessageOk(c, VoteRequest(s, a)) && a.term == c.servers[s].term
    requires c.servers[s].vote == NOBODY || c.servers[s].vote == a.candidate
    ensures Voting(c, RecordVote(SetServer(c, s, c.servers[s].(vote := a.candidate)), s, a.term, a.candidate), s)
  {
    var sv := c.servers[s];
    var c' := RecordVote(SetServer(c, s, sv.(vote := a.candidate)), s, a.term, a.candidate);
    assert ServerOk(c, s, sv, c.services[s]);
    GrantServer(c, c', s, sv, c.services[s], a.candidate);
  }

  lemma GrantToCandidate(c: Cluster, s: nat, a: VoteArgs)
    requires ServersOk(c) && LeadersOk(c) && Complete(c) && s < |c.servers| && RetainedBy(c, s, c.servers[s].log)
    requires MessageOk(c, VoteRequest(s, a)) && IsCandidate(c, a.candidate, a.term)
    requires WellFormed(c.hist.logs, c.servers[s].log) && UpToDate(a, c.servers[s].log)
    ensures BallotOk(c, s, c.servers[a.candidate].log, a.term)
  {
    assert ServerOk(c, a.candidate, c.servers[a.candidate], c.services[a.candidate]);
    GrantBallot(c, s, c.servers[s].log, a, c.servers[a.candidate].log);
  }

  /** Casting the vote, in the voter's current term. */
  lemma GrantInv(c: Cluster, s: nat, a: VoteArgs)
    requires Inv(c) && s < |c.servers| && MessageOk(c, VoteRequest(s, a)) && a.term == c.servers[s].term
    requires c.servers[s].vote == NOBODY || c.servers[s].vote == a.candidate
    requires WellFormed(c.hist.logs, c.servers[s].log) && UpToDate(a, c.servers[s].log)
    ensures Inv(RecordVote(SetServer(c, s, c.servers[s].(vote := a.candidate)), s, a.term, a.candidate))
  {
    var c' := RecordVote(SetServer(c, s, c.servers[s].(vote := a.candidate)), s, a.term, a.candidate);
    GrantVoting(c, s, a);
    VotingGrows(c, c', s);
    if IsCandidate(c', a.candidate, a.term) {
      GrantToCandidate(c, s, a);
      KeepBallot(c, c', s, c.servers[a.candidate].log, a.term);
    }
    VotingInv(c, c', s);
  }

  lemma HandleVoteRequestCurrent(c: Cluster, st: Step)
    requires Inv(c) && Enabled(c, st) && st.HandleVoteRequest? && InBounds(c, st)
    requires st.m.voteArgs.term <= c.servers[st.m.to].term
    ensures Inv(Apply(c, st))
  {
    hide LeadersOk, RecordsOk, Complete, Retained, BallotsOk;
    var s, a := st.m.to, st.m.voteArgs;
    var sv := c.servers[s];
    var (sv', r) := OnVoteRequest(sv, a);
    assert MessageOk(c, st.m) && VoteRequest(s, a) == st.m;
    if r.granted {
      assert ServerOk(c, s, sv, c.services[s]);
      GrantInv(c, s, a);
      SendInv(RecordVote(SetServer(c, s, sv'), s, sv'.term, a.candidate), VoteResponse(s, a, r));
    } else {
      assert SetServer(c, s, sv') == c;
      SendInv(c, VoteResponse(s, a, r));
    }
  }

  lemma HandleVoteRequestInv(c: Cluster, st: Step)
    requires Inv(c) && Enabled(c, st) && st.HandleVoteRequest?
    ensures InBounds(c, st) && Inv(Apply(c, st))
  {
    hide LeadersOk, RecordsOk, Complete, Retained, BallotsOk, MessageOk, ServerOk;
    AllInBounds(c);
    var s, a := st.m.to, st.m.voteArgs;
    if a.term > c.servers[s].term {
      CatchUp(c, s, a.term);
      var c1 := SetServer(c, s, StepDown(c.servers[s], a.term));
      AllInBounds(c1);
      HandleVoteRequestCurrent(c1, st);
      assert Apply(c1, st) == Apply(c, st);
    } else {
      HandleVoteRequestCurrent(c, st);
    }
  }

  // ---- Winning ----

  /** A term has at most one winner: a quorum voted for each, and nobody votes twice. */
  lemma TermNotYetWon(c: Cluster, s: nat)
    requires ServersOk(c) && LeadersOk(c) && s < |c.servers| && c.servers[s].role == Candidate
    requires Quorum(c.servers[s].votes, |c.servers|)
    ensures c.servers[s].term !in c.hist.leaders
  {
    var sv := c.servers[s];
    assert ServerOk(c, s, sv, c.services[s]);
    if sv.term in c.hist.leaders {
      var q :| ElectedBy(c, sv.term, q);
      var v := QuorumsMeet(|c.servers|, q, sv.votes);
      assert false;
    }
  }

  /** A winner holds every entry of an older term that can still be chosen. */
  lemma WinnerHolds(c: Cluster, s: nat, t: int, i: nat)
    requires ServersOk(c) && RecordsOk(c) && BallotsOk(c)
    requires s < |c.servers| && IsCandidate(c, s, c.servers[s].term)
    requires Quorum(c.servers[s].votes, |c.servers|)
    requires Own(c.hist, t, i) && t < c.servers[s].term
    ensures Holds(c, c.servers[s].log, t, i)
  {
    var sv := c.servers[s];
    assert ServerOk(c, s, sv, c.services[s]);
    if v :| v in sv.votes && Acked(c.hist, v, t, i) {
      assert Voted(c.hist, v, sv.term, s);
      assert BallotOk(c, v, sv.log, sv.term);
    } else {
      forall v | v in sv.votes ensures c.servers[v].term > t {
        assert Voted(c.hist, v, sv.term, s);
      }
      assert BlockedBy(c, t, i, sv.votes);
    }
  }
}
