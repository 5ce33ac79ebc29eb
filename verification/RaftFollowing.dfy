/** Adopting a leader's log, by entries or by snapshot, keeps the invariant. */
module RaftFollowing {
  import opened RaftServer
  import opened RaftCluster
  import opened RaftInvariant
  import opened RaftProof
  import opened RaftVoting

  /** What a follower's log becomes when it takes over the leader's log up to m:
      itself if it agrees that far already, and otherwise exactly the leader's entries. */
  ghost function Adopt(log: seq<Entry>, leaderLog: seq<Entry>, m: nat): seq<Entry>
    requires m < |leaderLog|
  {
    if Agree(log, leaderLog, m) then log else leaderLog[..m + 1]
  }

  /** Entries with the same index and term end the same prefix. */
  lemma SameTermAgree(logs: map<int, seq<Entry>>, a: seq<Entry>, b: seq<Entry>, i: nat)
    requires WellFormed(logs, a) && WellFormed(logs, b) && i < |a| && i < |b| && a[i].term == b[i].term
    ensures Agree(a, b, i)
  {
    if i > 0 {
      assert Agree(a, logs[a[i].term], i) && Agree(b, logs[b[i].term], i);
    }
  }

  /** The first-mismatch merge of the append handler is adoption. */
  lemma MergeIsAdopt(logs: map<int, seq<Entry>>, log: seq<Entry>, leaderLog: seq<Entry>, p: nat, entries: seq<Entry>)
    requires WellFormed(logs, log) && WellFormed(logs, leaderLog) && Agree(log, leaderLog, p)
    requires p + |entries| < |leaderLog| && leaderLog[p + 1..p + 1 + |entries|] == entries
    ensures Merge(log, p, entries) == Adopt(log, leaderLog, p + |entries|)
  {
    hide WellFormed, FirstMismatch;
    var i := FirstMismatch(log, p, entries);
    MatchedAgree(logs, log, leaderLog, p, entries, i);
    if i < |entries| {
      assert entries[i] == leaderLog[p + 1 + i];
      SplicedPrefix(log, leaderLog, p, entries, i);
    }
  }

  lemma MatchedAgree(logs: map<int, seq<Entry>>, log: seq<Entry>, leaderLog: seq<Entry>, p: nat, entries: seq<Entry>,
      i: nat)
    requires WellFormed(logs, log) && WellFormed(logs, leaderLog) && Agree(log, leaderLog, p)
    requires p + |entries| < |leaderLog| && leaderLog[p + 1..p + 1 + |entries|] == entries
    requires i <= |entries| && p + 1 + i <= |log|
    requires forall k :: p + 1 <= k < p + 1 + i ==> log[k].term == entries[k - p - 1].term
    ensures Agree(log, leaderLog, p + i)
  {
    hide WellFormed;
    if i > 0 {
      assert entries[i - 1] == leaderLog[p + i];
      assert log[p + i].term == leaderLog[p + i].term;
      SameTermAgree(logs, log, leaderLog, p + i);
    }
  }

  lemma SplicedPrefix(log: seq<Entry>, leaderLog: seq<Entry>, p: nat, entries: seq<Entry>, i: nat)
    requires i <= |entries| && p + |entries| < |leaderLog| && leaderLog[p + 1..p + 1 + |entries|] == entries
    requires Agree(log, leaderLog, p + i)
    ensures log[..p + 1 + i] + entries[i..] == leaderLog[..p + |entries| + 1]
  {
    assert log[..p + 1 + i] == leaderLog[..p + 1 + i];
    assert entries[i..] == leaderLog[p + 1 + i..p + 1 + |entries|];
  }

  lemma AdoptWellFormed(logs: map<int, seq<Entry>>, log: seq<Entry>, leaderLog: seq<Entry>, m: nat)
    requires WellFormed(logs, log) && WellFormed(logs, leaderLog) && m < |leaderLog|
    ensures WellFormed(logs, Adopt(log, leaderLog, m))
  {
  }

  lemma AdoptKeeps(log: seq<Entry>, leaderLog: seq<Entry>, m: nat, k: nat)
    requires m < |leaderLog|
    ensures Agree(Adopt(log, leaderLog, m), leaderLog, m)
    ensures Agree(log, leaderLog, k) ==> Agree(Adopt(log, leaderLog, m), leaderLog, k)
  {
  }

  /** What is committed is held by every leader of that or a later term. */
  lemma CommittedInLeader(c: Cluster, log: seq<Entry>, k: nat, bound: int, term: int)
    requires LeadersOk(c) && Complete(c) && WellFormed(c.hist.logs, log)
    requires Committed(c, log, k, bound) && bound <= term && term in c.hist.logs
    ensures Agree(log, c.hist.logs[term], k)
  {
    hide LeadersOk, Complete, WellFormed, Agree, Blocked;
    if k > 0 {
      var t, i :| CommittedAt(c, log, k, bound, t, i);
      if t < term {
        LaterHolds(c, t, i, term);
        ChosenNotBlocked(c, t, i);
        AgreeThrough(log, c.hist.logs[term], c.hist.logs[t], k, i);
      }
    } else {
      InTermLog(c, term);
      AgreeAtStart(c.hist.logs, log, c.hist.logs[term]);
    }
  }

  lemma LaterHolds(c: Cluster, t: int, i: nat, term: int)
    requires Complete(c) && Own(c.hist, t, i) && term in c.hist.logs && t < term
    ensures Holds(c, c.hist.logs[term], t, i)
  {
  }

  lemma AgreeThrough(a: seq<Entry>, b: seq<Entry>, via: seq<Entry>, k: nat, i: nat)
    requires Agree(a, via, k) && Agree(b, via, i) && k <= i
    ensures Agree(a, b, k)
  {
  }

  lemma AgreeAtStart(logs: map<int, seq<Entry>>, a: seq<Entry>, b: seq<Entry>)
    requires WellFormed(logs, a) && WellFormed(logs, b)
    ensures Agree(a, b, 0)
  {
  }

  lemma ChosenNotBlocked(c: Cluster, term: int, i: nat)
    requires Chosen(c, term, i)
    ensures !Blocked(c, term, i)
  {
    if Blocked(c, term, i) {
      var q :| ChosenBy(c, term, i, q);
      var b :| BlockedBy(c, term, i, b);
      var s := QuorumsMeet(|c.servers|, q, b);
      assert false;
    }
  }

  /** A log that agrees with the leader as far as another one holds what that one has committed. */
  lemma CommittedMoves(c: Cluster, from: seq<Entry>, to: seq<Entry>, k: nat, bound: int)
    requires Committed(c, from, k, bound) && Agree(to, from, k)
    ensures Committed(c, to, k, bound)
  {
    if k > 0 {
      var t, i :| CommittedAt(c, from, k, bound, t, i);
      assert CommittedAt(c, to, k, bound, t, i);
    }
  }

  // ---- One server confirms its leader's log up to m ----

  ghost predicate Following(c: Cluster, c': Cluster, s: nat, m: nat) {
    && s < |c.servers| == |c'.servers| && |c'.services| == |c.services| == |c.servers|
    && c'.servers == c.servers[s := c'.servers[s]] && c'.services == c.services[s := c'.services[s]]
    && var sv, sv' := c.servers[s], c'.servers[s];
    && sv'.term == sv.term && sv.term in c.hist.logs && m < |c.hist.logs[sv.term]|
    && sv'.role != Candidate
    && sv'.log == Adopt(sv.log, c.hist.logs[sv.term], m)
    && c' == RecordAck(c.(servers := c'.servers, services := c'.services), s, sv.term, m)
    && ServerOk(c, s, sv', c'.services[s])
  }

  lemma FollowingGrows(c: Cluster, c': Cluster, s: nat, m: nat)
    requires Following(c, c', s, m) && RecordsOk(c)
    ensures Grows(c, c') && CandidatesFrom(c, c') && BallotsFrom(c, c')
    ensures forall x: nat, t, i: nat :: Acked(c'.hist, x, t, i) ==>
              Acked(c.hist, x, t, i) || (x == s && t == c.servers[s].term && i <= m)
    ensures Acked(c'.hist, s, c.servers[s].term, m)
  {
    var key := (s, c.servers[s].term);
    forall x: nat, t, i: nat | Acked(c'.hist, x, t, i)
      ensures Acked(c.hist, x, t, i) || (x == s && t == c.servers[s].term && i <= m)
    {
      assert (x, t) == key || (x, t) != key;
    }
    forall x: nat, t, i: nat | Acked(c.hist, x, t, i) ensures Acked(c'.hist, x, t, i) {
      assert (x, t) == key || (x, t) != key;
    }
  }

  lemma FollowingRecords(c: Cluster, c': Cluster, s: nat, m: nat)
    requires Following(c, c', s, m) && RecordsOk(c)
    ensures RecordsOk(c')
  {
    FollowingGrows(c, c', s, m);
    forall x: nat, t, v: nat | Voted(c'.hist, x, t, v)
      ensures x < |c'.servers| && t <= c'.servers[x].term && v < |c'.servers| && t <= c'.servers[v].term
    {
      assert Voted(c.hist, x, t, v);
    }
  }

  lemma FollowingRetained(c: Cluster, c': Cluster, s: nat, m: nat)
    requires Following(c, c', s, m) && RecordsOk(c) && Complete(c) && RetainedBy(c, s, c.servers[s].log)
    ensures RetainedBy(c', s, c'.servers[s].log)
  {
    FollowingGrows(c, c', s, m);
    var term := c.servers[s].term;
    var log, log' := c.servers[s].log, c'.servers[s].log;
    forall t, i: nat | Own(c'.hist, t, i) && Acked(c'.hist, s, t, i) ensures Holds(c', log', t, i) {
      AdoptKeeps(log, c.hist.logs[term], m, i);
      assert Own(c.hist, t, i);
      if Acked(c.hist, s, t, i) {
        assert Holds(c, log, t, i);
        assert t == term || Holds(c, c.hist.logs[term], t, i);
        GrowsHolds(c, c', log', t, i);
      }
    }
  }

  lemma FollowingServer(c: Cluster, c': Cluster, s: nat, m: nat)
    requires Following(c, c', s, m) && RecordsOk(c)
    ensures ServerOk(c', s, c'.servers[s], c'.services[s])
  {
    FollowingGrows(c, c', s, m);
    var sv := c'.servers[s];
    GrowsCommitted(c, c', sv.log, sv.log, sv.commit, sv.term, sv.term);
  }

  lemma FollowingInv(c: Cluster, c': Cluster, s: nat, m: nat)
    requires Inv(c) && Following(c, c', s, m)
    ensures Inv(c')
  {
    FollowingGrows(c, c', s, m);
    FollowingRecords(c, c', s, m);
    FollowingRetained(c, c', s, m);
    FollowingServer(c, c', s, m);
    StepInv(c, c', s);
  }

  lemma FollowingMessage(c: Cluster, c': Cluster, s: nat, m: nat, msg: Message)
    requires Following(c, c', s, m) && RecordsOk(c) && MessageOk(c, msg)
    ensures MessageOk(c', msg)
  {
    FollowingGrows(c, c', s, m);
    GrowsMessage(c, c', msg);
  }

  lemma InvParts(c: Cluster, s: nat)
    requires Inv(c)
    ensures ServersOk(c) && LeadersOk(c) && RecordsOk(c) && Complete(c) && |c.services| == |c.servers|
    ensures s < |c.servers| ==>
      ServerOk(c, s, c.servers[s], c.services[s]) && c.servers[s].snap < |c.servers[s].log|
  {
  }

  lemma FollowingAcked(c: Cluster, c': Cluster, s: nat, m: nat)
    requires Following(c, c', s, m)
    ensures Acked(c'.hist, s, c.servers[s].term, m)
  {
  }

  // ---- Broadcast ----

  lemma BroadcastAck(c: Cluster, s: nat)
    requires Inv(c) && s < |c.servers| && ServerOk(c, s, c.servers[s], c.services[s]) && c.servers[s].role == Leader
    ensures var c1 := RecordAck(c, s, c.servers[s].term, LastIndex(c.servers[s].log));
      Inv(c1) && Acked(c1.hist, s, c.servers[s].term, LastIndex(c.servers[s].log))
  {
    hide LeadersOk, RecordsOk, Complete, Retained, BallotsOk, MessageOk, WellFormed, Committed;
    var sv := c.servers[s];
    var c1 := RecordAck(c, s, sv.term, LastIndex(sv.log));
    assert Following(c, c1, s, LastIndex(sv.log));
    FollowingGrows(c, c1, s, LastIndex(sv.log));
    FollowingInv(c, c1, s, LastIndex(sv.log));
  }

  lemma BroadcastServer(c: Cluster, s: nat, sv: Server, service: seq<Entry>)
    requires ServerOk(c, s, sv, service) && sv.role == Leader && s < |c.servers|
    requires Acked(c.hist, s, sv.term, LastIndex(sv.log))
    ensures s < |sv.next| && s < |sv.matched| && ServerOk(c, s, OnBroadcast(sv, s), service)
  {
  }

  lemma BroadcastInv(c: Cluster, s: nat)
    requires Inv(c) && Enabled(c, Broadcast(s))
    ensures InBounds(c, Broadcast(s)) && Inv(Apply(c, Broadcast(s)))
  {
    hide LeadersOk, RecordsOk, Complete, Retained, BallotsOk, MessageOk;
    AllInBounds(c);
    var sv := c.servers[s];
    assert ServerOk(c, s, sv, c.services[s]);
    BroadcastAck(c, s);
    var c1 := RecordAck(c, s, sv.term, LastIndex(sv.log));
    assert ServerOk(c1, s, sv, c1.services[s]);
    BroadcastServer(c1, s, sv, c.services[s]);
    QuietInv(c1, SetServer(c1, s, OnBroadcast(sv, s)), s);
    assert Apply(c, Broadcast(s)) == SetServer(c1, s, OnBroadcast(sv, s));
  }

  // ---- Appends ----

  /** The follower has already moved to the leader's term and given up any claim of its own. */
  ghost predicate Current(c: Cluster, s: nat, term: int) {
    s < |c.servers| && c.servers[s].term == term && c.servers[s].role == Follower
  }

  /** Everything committed here, and the matching entry of an append, agrees with the leader's log. */
  lemma FollowerAgrees(c: Cluster, s: nat, sv: Server, service: seq<Entry>, term: int)
    requires LeadersOk(c) && Complete(c) && ServerOk(c, s, sv, service) && sv.term == term && term in c.hist.logs
    ensures Agree(sv.log, c.hist.logs[term], sv.commit)
    ensures forall p :: 0 <= p < |sv.log| && p < |c.hist.logs[term]| && sv.log[p].term == c.hist.logs[term][p].term
              ==> Agree(sv.log, c.hist.logs[term], p)
  {
    CommittedInLeader(c, sv.log, sv.commit, sv.term, term);
    forall p | 0 <= p < |sv.log| && p < |c.hist.logs[term]| && sv.log[p].term == c.hist.logs[term][p].term
      ensures Agree(sv.log, c.hist.logs[term], p)
    {
      SameTermAgree(c.hist.logs, sv.log, c.hist.logs[term], p);
    }
  }

  /** A follower that adopts the leader's log up to m keeps what it committed, and may commit up to m. */
  lemma AdoptServer(c: Cluster, s: nat, sv: Server, service: seq<Entry>, m: nat, commit: nat)
    requires LeadersOk(c) && Complete(c) && ServerOk(c, s, sv, service) && sv.role == Follower
    requires sv.term in c.hist.logs && m < |c.hist.logs[sv.term]|
    requires commit == sv.commit || (sv.commit < commit <= m && Committed(c, c.hist.logs[sv.term], commit, sv.term))
    ensures ServerOk(c, s, sv.(log := Adopt(sv.log, c.hist.logs[sv.term], m), commit := commit), service)
  {
    hide LeadersOk, Complete, WellFormed, Committed;
    var leaderLog := c.hist.logs[sv.term];
    var log := Adopt(sv.log, leaderLog, m);
    InTermLog(c, sv.term);
    FollowerAgrees(c, s, sv, service, sv.term);
    AdoptWellFormed(c.hist.logs, sv.log, leaderLog, m);
    AdoptKeeps(sv.log, leaderLog, m, sv.commit);
    CommittedMoves(c, if commit == sv.commit then sv.log else leaderLog, log, commit, sv.term);
    assert service == log[..sv.lastApplied + 1];
  }

  lemma AppendMatchedAdopts(logs: map<int, seq<Entry>>, sv: Server, leaderLog: seq<Entry>, p: nat,
      entries: seq<Entry>, leaderCommit: nat)
    requires WellFormed(logs, sv.log) && WellFormed(logs, leaderLog) && Agree(sv.log, leaderLog, p)
    requires p + |entries| < |leaderLog| && leaderLog[p + 1..p + 1 + |entries|] == entries
    requires leaderCommit <= p + |entries|
    ensures AppendMatched(sv, p, entries, leaderCommit)
         == sv.(log := Adopt(sv.log, leaderLog, p + |entries|), commit := Max(sv.commit, leaderCommit))
  {
    MergeIsAdopt(logs, sv.log, leaderLog, p, entries);
    AdoptKeeps(sv.log, leaderLog, p + |entries|, p + |entries|);
  }

  /** The three ways an append is accepted by a follower in the sender's term. */
  lemma AppendCases(sv: Server, a: AppendArgs)
    requires sv.snap < |sv.log| && sv.role == Follower && a.term == sv.term && OnAppend(sv, a).1.success
    ensures var sv' := OnAppend(sv, a).0;
      if a.prevIndex >= sv.snap then
        && a.prevIndex < |sv.log| && sv.log[a.prevIndex].term == a.prevTerm
        && sv' == AppendMatched(sv, a.prevIndex, a.entries, a.leaderCommit)
      else if a.prevIndex + |a.entries| > sv.snap then
        sv' == AppendMatched(sv, sv.snap, a.entries[sv.snap - a.prevIndex..], a.leaderCommit)
      else sv' == sv
  {
    hide AppendMatched, FirstOfTerm;
  }

  lemma AgreeBelow(a: seq<Entry>, b: seq<Entry>, i: nat, j: nat)
    requires Agree(a, b, i) && j <= i
    ensures Agree(a, b, j)
  {
  }

  /** The append handler, once the terms agree: the log is adopted up to the last entry sent. */
  lemma AppendAdopts(logs: map<int, seq<Entry>>, sv: Server, a: AppendArgs, leaderLog: seq<Entry>)
    requires WellFormed(logs, sv.log) && WellFormed(logs, leaderLog)
    requires sv.snap <= sv.commit && Agree(sv.log, leaderLog, sv.commit)
    requires sv.role == Follower && a.term == sv.term
    requires var m := a.prevIndex + |a.entries|;
      && m < |leaderLog| && leaderLog[a.prevIndex].term == a.prevTerm
      && leaderLog[a.prevIndex + 1..m + 1] == a.entries && a.leaderCommit <= m
    requires OnAppend(sv, a).1.success
    ensures var m := a.prevIndex + |a.entries|;
      OnAppend(sv, a).0 == sv.(log := Adopt(sv.log, leaderLog, m), commit := Max(sv.commit, a.leaderCommit))
  {
    hide OnAppend, Merge, AppendMatched;
    var m := a.prevIndex + |a.entries|;
    AppendCases(sv, a);
    AgreeBelow(sv.log, leaderLog, sv.commit, sv.snap);
    if a.prevIndex >= sv.snap {
      SameTermAgree(logs, sv.log, leaderLog, a.prevIndex);
      AppendMatchedAdopts(logs, sv, leaderLog, a.prevIndex, a.entries, a.leaderCommit);
    } else if m > sv.snap {
      var rest := a.entries[sv.snap - a.prevIndex..];
      assert rest == leaderLog[sv.snap + 1..m + 1];
      AppendMatchedAdopts(logs, sv, leaderLog, sv.snap, rest, a.leaderCommit);
    } else {
      AgreeBelow(sv.log, leaderLog, sv.commit, m);
    }
  }

  /** A refused append leaves the follower as it was, and the reported conflict is real. */
  lemma AppendRefused(c: Cluster, s: nat, sv: Server, service: seq<Entry>, a: AppendArgs)
    requires ServerOk(c, s, sv, service) && sv.role == Follower && AppendOk(c, a) && LeadersOk(c) && Complete(c)
    requires a.term <= sv.term && !OnAppend(sv, a).1.success && s < |c.servers|
    ensures OnAppend(sv, a).0 == sv && MessageOk(c, AppendResponse(s, a, OnAppend(sv, a).1))
  {
    var r := OnAppend(sv, a).1;
    if r.term <= a.term && r.conflictTerm != -1 {
      assert a.prevIndex > 0;
      assert Agree(sv.log, c.hist.logs[r.conflictTerm], a.prevIndex);
      HintReal(c, s, sv, service, a);
    }
  }

  /** The hint is the first entry of its term in the follower's log, or the last one of its snapshot,
      which the leader has too. */
  lemma HintReal(c: Cluster, s: nat, sv: Server, service: seq<Entry>, a: AppendArgs)
    requires LeadersOk(c) && Complete(c) && ServerOk(c, s, sv, service) && AppendOk(c, a) && sv.term == a.term
    requires sv.snap <= a.prevIndex < |sv.log| && 0 < a.prevIndex && sv.log[a.prevIndex].term != a.prevTerm
    ensures HintOk(c.hist.logs[a.term], FirstOfTerm(sv.log, sv.snap, a.prevIndex), sv.log[a.prevIndex].term)
  {
    hide LeadersOk, Complete, Committed, VoterOk, LeaderOk, FirstOfTerm, Ordered;
    var leaderLog, term := c.hist.logs[a.term], sv.log[a.prevIndex].term;
    var first := FirstOfTerm(sv.log, sv.snap, a.prevIndex);
    FollowerAgrees(c, s, sv, service, a.term);
    if first > sv.snap {
      assert Agree(sv.log, c.hist.logs[term], a.prevIndex);
      InTermLog(c, term);
      InTermLog(c, a.term);
      forall j: nat | 0 < j < |leaderLog| && leaderLog[j].term == term
        ensures first < |leaderLog| && leaderLog[first].term == term
      {
        assert Agree(leaderLog, c.hist.logs[term], j);
        SharedFirst(c.hist.logs[term], sv.log, leaderLog, first, a.prevIndex, j, term);
      }
    }
  }

  /** If both logs have an entry of the term, both have the first one. */
  lemma SharedFirst(own: seq<Entry>, log: seq<Entry>, leaderLog: seq<Entry>, first: nat, p: nat, j: nat, term: int)
    requires Ordered(own, term) && Agree(log, own, p) && Agree(leaderLog, own, j) && leaderLog[j].term == term
    requires 0 < first <= p && log[first - 1].term != term == log[first].term
    ensures first < |leaderLog| && leaderLog[first].term == term
  {
    assert own[first - 1].term < term;
    assert j >= first;
  }

  lemma AppendFollows(c: Cluster, c1: Cluster, s: nat, a: AppendArgs)
    requires LeadersOk(c) && Complete(c) && AppendOk(c, a) && Current(c, s, a.term) && |c.services| == |c.servers|
    requires ServerOk(c, s, c.servers[s], c.services[s]) && OnAppend(c.servers[s], a).1.success
    requires c1 == RecordAck(SetServer(c, s, OnAppend(c.servers[s], a).0), s, a.term, a.prevIndex + |a.entries|)
    ensures Following(c, c1, s, a.prevIndex + |a.entries|)
  {
    hide OnAppend, Adopt, LeadersOk, Complete, Committed, Agree;
    var sv := c.servers[s];
    InTermLog(c, a.term);
    FollowerAgrees(c, s, sv, c.services[s], a.term);
    AppendAdopts(c.hist.logs, sv, a, c.hist.logs[a.term]);
    AdoptServer(c, s, sv, c.services[s], a.prevIndex + |a.entries|, Max(sv.commit, a.leaderCommit));
  }

  lemma AppendAcceptedInv(c: Cluster, s: nat, a: AppendArgs)
    requires Inv(c) && MessageOk(c, AppendRequest(s, a)) && Current(c, s, a.term)
    requires c.servers[s].snap < |c.servers[s].log| && OnAppend(c.servers[s], a).1.success
    ensures var (sv', r) := OnAppend(c.servers[s], a);
      var c1 := RecordAck(SetServer(c, s, sv'), s, a.term, a.prevIndex + |a.entries|);
      Inv(Send(c1, AppendResponse(s, a, r)))
  {
    hide OnAppend, Inv, ServersOk, LeadersOk, RecordsOk, Complete, ServerOk, Following;
    InvParts(c, s);
    var sv', r := OnAppend(c.servers[s], a).0, OnAppend(c.servers[s], a).1;
    var m := a.prevIndex + |a.entries|;
    var c1 := RecordAck(SetServer(c, s, sv'), s, a.term, m);
    AppendFollows(c, c1, s, a);
    FollowingInv(c, c1, s, m);
    FollowingMessage(c, c1, s, m, AppendRequest(s, a));
    FollowingAcked(c, c1, s, m);
    SendInv(c1, AppendResponse(s, a, r));
  }

  lemma AppendRefusedInv(c: Cluster, s: nat, a: AppendArgs)
    requires Inv(c) && MessageOk(c, AppendRequest(s, a)) && Current(c, s, a.term)
    requires ServerOk(c, s, c.servers[s], c.services[s]) && !OnAppend(c.servers[s], a).1.success
    ensures Inv(Send(c, AppendResponse(s, a, OnAppend(c.servers[s], a).1)))
    ensures OnAppend(c.servers[s], a).0 == c.servers[s]
  {
    AppendRefused(c, s, c.servers[s], c.services[s], a);
    SendInv(c, AppendResponse(s, a, OnAppend(c.servers[s], a).1));
  }

  lemma AppendTerm(sv: Server, a: AppendArgs)
    requires sv.snap < |sv.log|
    ensures OnAppend(sv, a).0.term == Max(a.term, sv.term)
  {
    hide Merge, FirstOfTerm;
  }

  /** What the append step amounts to, when the receiver is already in the sender's term. */
  lemma AppendStep(c: Cluster, st: Step)
    requires Enabled(c, st) && st.HandleAppend? && InBounds(c, st)
    ensures var s, a := st.m.to, st.m.appendArgs;
      var (sv', r) := OnAppend(c.servers[s], a);
      && var acked := RecordAck(SetServer(c, s, sv'), s, sv'.term, a.prevIndex + |a.entries|);
      && (r.success ==> Apply(c, st) == Send(acked, AppendResponse(s, a, r)))
      && (!r.success && sv' == c.servers[s] ==> Apply(c, st) == Send(c, AppendResponse(s, a, r)))
      && (r.success ==> sv'.term == Max(a.term, c.servers[s].term))
  {
    hide OnAppend;
    AppendTerm(c.servers[st.m.to], st.m.appendArgs);
    assert SetServer(c, st.m.to, c.servers[st.m.to]) == c;
  }

  /** The receiver of an append or snapshot is never the leader of that term itself. */
  lemma RecogniseInv(c: Cluster, s: nat, term: int)
    requires Inv(c) && s < |c.servers| && c.servers[s].term <= term
    requires term in c.hist.leaders && c.hist.leaders[term] != s
    ensures var c1 := SetServer(c, s, Recognise(c.servers[s], term)); Inv(c1) && Current(c1, s, term)
  {
    hide LeadersOk, RecordsOk, Complete, Retained, BallotsOk, MessageOk, WellFormed, Committed;
    var sv := c.servers[s];
    assert ServerOk(c, s, sv, c.services[s]);
    if term > sv.term { NewerTerm(c, s, sv, Recognise(sv, term), c.services[s]); }
    QuietInv(c, SetServer(c, s, Recognise(sv, term)), s);
  }

  lemma RecogniseAppend(c: Cluster, c1: Cluster, st: Step)
    requires Enabled(c, st) && st.HandleAppend? && InBounds(c, st)
    requires c.servers[st.m.to].term <= st.m.appendArgs.term
    requires c1 == SetServer(c, st.m.to, Recognise(c.servers[st.m.to], st.m.appendArgs.term))
    ensures Enabled(c1, st) && InBounds(c1, st) && Apply(c1, st) == Apply(c, st)
  {
    var s, a := st.m.to, st.m.appendArgs;
    assert OnAppend(c1.servers[s], a) == OnAppend(c.servers[s], a);
    assert forall sv :: SetServer(c1, s, sv) == SetServer(c, s, sv);
  }

  lemma HandleAppendStale(c: Cluster, st: Step)
    requires Inv(c) && Enabled(c, st) && st.HandleAppend? && InBounds(c, st)
    requires st.m.appendArgs.term < c.servers[st.m.to].term
    ensures Inv(Apply(c, st))
  {
    hide OnAppend, Apply, Inv;
    var s, a := st.m.to, st.m.appendArgs;
    InvMessage(c, st.m);
    AppendStep(c, st);
    AppendStale(c.servers[s], a);
    SendInv(c, AppendResponse(s, a, OnAppend(c.servers[s], a).1));
  }

  lemma HandleAppendCurrent(c: Cluster, st: Step)
    requires Inv(c) && Enabled(c, st) && st.HandleAppend? && InBounds(c, st)
    requires Current(c, st.m.to, st.m.appendArgs.term)
    ensures Inv(Apply(c, st))
  {
    hide OnAppend, Apply, Inv, ServersOk, LeadersOk, RecordsOk, Complete, ServerOk, MessageOk;
    var s, a := st.m.to, st.m.appendArgs;
    InvParts(c, s);
    InvMessage(c, st.m);
    assert st.m == AppendRequest(s, a);
    AppendStep(c, st);
    if OnAppend(c.servers[s], a).1.success { AppendAcceptedInv(c, s, a); } else { AppendRefusedInv(c, s, a); }
  }

  lemma HandleAppendInv(c: Cluster, st: Step)
    requires Inv(c) && Enabled(c, st) && st.HandleAppend?
    ensures InBounds(c, st) && Inv(Apply(c, st))
  {
    hide OnAppend, Apply, Inv, ServersOk, LeadersOk, RecordsOk, Complete, ServerOk;
    var s, a := st.m.to, st.m.appendArgs;
    InvParts(c, s);
    InvMessage(c, st.m);
    AllInBounds(c);
    if a.term < c.servers[s].term {
      HandleAppendStale(c, st);
    } else {
      RecogniseInv(c, s, a.term);
      var c1 := SetServer(c, s, Recognise(c.servers[s], a.term));
      RecogniseAppend(c, c1, st);
      HandleAppendCurrent(c1, st);
    }
  }

  lemma InvMessage(c: Cluster, m: Message)
    requires Inv(c) && m in c.net
    ensures MessageOk(c, m)
  {
  }

  lemma AppendStale(sv: Server, a: AppendArgs)
    requires sv.snap < |sv.log| && a.term < sv.term
    ensures OnAppend(sv, a) == (sv, AppendReply(sv.term, false, 0, 0))
  {
  }

  // ---- Snapshots ----

  /** Installing a snapshot of the leader's log is adoption too, and never undoes a commit. */
  lemma InstallAdopts(logs: map<int, seq<Entry>>, sv: Server, a: SnapArgs, leaderLog: seq<Entry>)
    requires WellFormed(logs, sv.log) && WellFormed(logs, leaderLog)
    requires sv.snap <= sv.commit && Agree(sv.log, leaderLog, sv.commit)
    requires sv.role == Follower && a.term == sv.term
    requires a.lastIndex < |leaderLog| && a.data == leaderLog[..a.lastIndex + 1]
      && a.lastTerm == leaderLog[a.lastIndex].term
    requires OnInstall(sv, a).1.accept
    ensures OnInstall(sv, a).0
         == sv.(log := Adopt(sv.log, leaderLog, a.lastIndex), commit := Max(sv.commit, a.lastIndex),
              lastApplied := a.lastIndex, snap := a.lastIndex, passive := true)
  {
    var i := a.lastIndex;
    if i < |sv.log| && sv.log[i].term == a.lastTerm {
      SameTermAgree(logs, sv.log, leaderLog, i);
      assert a.data + sv.log[i + 1..] == sv.log;
      assert i == |sv.log| - 1 ==> a.data == sv.log;
    }
  }

  lemma InstallServer(c: Cluster, s: nat, sv: Server, service: seq<Entry>, i: nat)
    requires LeadersOk(c) && Complete(c) && ServerOk(c, s, sv, service) && sv.role == Follower
    requires sv.term in c.hist.logs && i < |c.hist.logs[sv.term]| && Committed(c, c.hist.logs[sv.term], i, sv.term)
    ensures var log := Adopt(sv.log, c.hist.logs[sv.term], i);
      ServerOk(c, s, sv.(log := log, commit := Max(sv.commit, i), lastApplied := i, snap := i, passive := true),
               c.hist.logs[sv.term][..i + 1])
  {
    hide LeadersOk, Complete, WellFormed, Committed;
    var leaderLog := c.hist.logs[sv.term];
    AdoptServer(c, s, sv, service, i, Max(sv.commit, i));
    assert leaderLog[..i + 1] == Adopt(sv.log, leaderLog, i)[..i + 1];
  }

  lemma InstallFollows(c: Cluster, c1: Cluster, s: nat, a: SnapArgs)
    requires LeadersOk(c) && Complete(c) && SnapOk(c, a) && Current(c, s, a.term) && |c.services| == |c.servers|
    requires ServerOk(c, s, c.servers[s], c.services[s]) && OnInstall(c.servers[s], a).1.accept
    requires c1
       == RecordAck(SetService(SetServer(c, s, OnInstall(c.servers[s], a).0), s, a.data), s, a.term, a.lastIndex)
    ensures Following(c, c1, s, a.lastIndex)
  {
    hide OnInstall, Adopt, LeadersOk, Complete, Committed, Agree;
    var sv := c.servers[s];
    InTermLog(c, a.term);
    FollowerAgrees(c, s, sv, c.services[s], a.term);
    InstallAdopts(c.hist.logs, sv, a, c.hist.logs[a.term]);
    InstallServer(c, s, sv, c.services[s], a.lastIndex);
  }

  lemma InstallAcceptedInv(c: Cluster, s: nat, a: SnapArgs)
    requires Inv(c) && MessageOk(c, InstallRequest(s, a)) && Current(c, s, a.term)
    requires c.servers[s].snap < |c.servers[s].log| && s < |c.services| && OnInstall(c.servers[s], a).1.accept
    ensures var (sv', r) := OnInstall(c.servers[s], a);
      var c1 := RecordAck(SetService(SetServer(c, s, sv'), s, a.data), s, a.term, a.lastIndex);
      Inv(Send(c1, InstallResponse(s, a, r)))
  {
    hide OnInstall, Inv, ServersOk, LeadersOk, RecordsOk, Complete, ServerOk, Following;
    InvParts(c, s);
    var sv', r := OnInstall(c.servers[s], a).0, OnInstall(c.servers[s], a).1;
    var c1 := RecordAck(SetService(SetServer(c, s, sv'), s, a.data), s, a.term, a.lastIndex);
    InstallFollows(c, c1, s, a);
    FollowingInv(c, c1, s, a.lastIndex);
    FollowingMessage(c, c1, s, a.lastIndex, InstallRequest(s, a));
    FollowingAcked(c, c1, s, a.lastIndex);
    SendInv(c1, InstallResponse(s, a, r));
  }

  lemma InstallStep(c: Cluster, st: Step)
    requires Enabled(c, st) && st.HandleInstall? && InBounds(c, st)
    ensures var s, a := st.m.to, st.m.snapArgs;
      var (sv', r) := OnInstall(c.servers[s], a);
      && var acked := RecordAck(SetService(SetServer(c, s, sv'), s, a.data), s, sv'.term, a.lastIndex);
      && (r.accept ==>
            Apply(c, st) == Send(acked, InstallResponse(s, a, r)) && sv'.term == Max(a.term, c.servers[s].term))
      && (!r.accept && sv' == c.servers[s] ==> Apply(c, st) == Send(c, InstallResponse(s, a, r)))
      && (!r.accept && Current(c, s, a.term) ==> sv' == c.servers[s])
      && (a.term < c.servers[s].term || c.servers[s].active ==> sv' == c.servers[s] && !r.accept)
  {
    assert SetServer(c, st.m.to, c.servers[st.m.to]) == c;
  }

  lemma RecogniseInstall(c: Cluster, c1: Cluster, st: Step)
    requires Enabled(c, st) && st.HandleInstall? && InBounds(c, st)
    requires c.servers[st.m.to].term <= st.m.snapArgs.term && !c.servers[st.m.to].active
    requires c1 == SetServer(c, st.m.to, Recognise(c.servers[st.m.to], st.m.snapArgs.term))
    ensures Enabled(c1, st) && InBounds(c1, st) && Apply(c1, st) == Apply(c, st)
  {
    var s, a := st.m.to, st.m.snapArgs;
    assert OnInstall(c1.servers[s], a) == OnInstall(c.servers[s], a);
    assert forall sv :: SetServer(c1, s, sv) == SetServer(c, s, sv);
  }

  lemma HandleInstallRefused(c: Cluster, st: Step)
    requires Inv(c) && Enabled(c, st) && st.HandleInstall? && InBounds(c, st)
    requires !OnInstall(c.servers[st.m.to], st.m.snapArgs).1.accept
    requires OnInstall(c.servers[st.m.to], st.m.snapArgs).0 == c.servers[st.m.to]
    ensures Inv(Apply(c, st))
  {
    hide OnInstall, Apply, Inv;
    InvMessage(c, st.m);
    InstallStep(c, st);
    SendInv(c, InstallResponse(st.m.to, st.m.snapArgs, OnInstall(c.servers[st.m.to], st.m.snapArgs).1));
  }

  lemma HandleInstallCurrent(c: Cluster, st: Step)
    requires Inv(c) && Enabled(c, st) && st.HandleInstall? && InBounds(c, st)
    requires Current(c, st.m.to, st.m.snapArgs.term)
    ensures Inv(Apply(c, st))
  {
    hide OnInstall, Apply, Inv, ServersOk, LeadersOk, RecordsOk, Complete, ServerOk, MessageOk;
    InvMessage(c, st.m);
    InstallStep(c, st);
    assert st.m == InstallRequest(st.m.to, st.m.snapArgs);
    if OnInstall(c.servers[st.m.to], st.m.snapArgs).1.accept {
      InstallAcceptedInv(c, st.m.to, st.m.snapArgs);
    } else {
      HandleInstallRefused(c, st);
    }
  }

  lemma HandleInstallInv(c: Cluster, st: Step)
    requires Inv(c) && Enabled(c, st) && st.HandleInstall?
    ensures InBounds(c, st) && Inv(Apply(c, st))
  {
    hide OnInstall, Apply, Inv, ServersOk, LeadersOk, RecordsOk, Complete, ServerOk;
    var s, a := st.m.to, st.m.snapArgs;
    InvParts(c, s);
    InvMessage(c, st.m);
    AllInBounds(c);
    if a.term < c.servers[s].term || c.servers[s].active {
      InstallStep(c, st);
      HandleInstallRefused(c, st);
    } else {
      RecogniseInv(c, s, a.term);
      var c1 := SetServer(c, s, Recognise(c.servers[s], a.term));
      RecogniseInstall(c, c1, st);
      HandleInstallCurrent(c1, st);
    }
  }
}
