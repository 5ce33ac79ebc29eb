/** The inductive invariant of the cluster, and what a growing history leaves true. */
module RaftInvariant {
  import opened RaftServer
  import opened RaftCluster

  // ---- Logs ----

  /** The two logs hold the same entries up to and including index i. */
  ghost predicate Agree(a: seq<Entry>, b: seq<Entry>, i: int) {
    i < |a| && i < |b| && forall j :: 0 <= j <= i ==> a[j] == b[j]
  }

  /** Log matching in one statement: up to any entry, the log is that of the entry's leader. */
  ghost predicate WellFormed(logs: map<int, seq<Entry>>, log: seq<Entry>) {
    && |log| > 0 && log[0] == PLACEHOLDER
    && forall i :: 0 < i < |log| ==> log[i].term in logs && Agree(log, logs[log[i].term], i)
  }

  ghost predicate Ordered(log: seq<Entry>, term: int) {
    && (forall i, j :: 0 <= i < j < |log| ==> log[i].term <= log[j].term)
    && forall i :: 0 <= i < |log| ==> log[i].term <= term
  }

  // ---- Quorums ----

  ghost predicate Quorum(q: set<nat>, n: nat) {
    |q| >= n / 2 + 1 && forall s :: s in q ==> s < n
  }

  lemma {:induction false} CardinalityBound(q: set<nat>, n: nat)
    requires forall s :: s in q ==> s < n
    ensures |q| <= n
  {
    if n == 0 {
      assert q == {};
    } else {
      CardinalityBound(q - {n - 1}, n - 1);
      assert q <= (q - {n - 1}) + {n - 1};
    }
  }

  lemma QuorumsMeet(n: nat, a: set<nat>, b: set<nat>) returns (s: nat)
    requires Quorum(a, n) && Quorum(b, n)
    ensures s in a && s in b
  {
    CardinalityBound(a + b, n);
    assert |a + b| + |a * b| == |a| + |b|;
    s :| s in a * b;
  }

  // ---- Votes and acknowledgements ----

  predicate Voted(h: History, s: nat, term: int, candidate: nat) {
    (s, term) in h.votes && h.votes[(s, term)] == candidate
  }

  /** Server s has confirmed that its log agreed with that term's leader up to index i. */
  predicate Acked(h: History, s: nat, term: int, i: nat) {
    (s, term) in h.acks && i <= h.acks[(s, term)]
  }

  /** Index i of that term's leader log holds an entry that leader created itself. */
  predicate Own(h: History, term: int, i: nat) {
    term in h.logs && 0 < i < |h.logs[term]| && h.logs[term][i].term == term
  }

  ghost predicate BlockedBy(c: Cluster, term: int, i: nat, q: set<nat>) {
    Quorum(q, |c.servers|) && forall s :: s in q ==> c.servers[s].term > term && !Acked(c.hist, s, term, i)
  }

  /** No quorum can ever confirm entry i of this term. */
  ghost predicate Blocked(c: Cluster, term: int, i: nat) {
    exists q :: BlockedBy(c, term, i, q)
  }

  ghost predicate ChosenBy(c: Cluster, term: int, i: nat, q: set<nat>) {
    Quorum(q, |c.servers|) && forall s :: s in q ==> Acked(c.hist, s, term, i)
  }

  /** A quorum has confirmed entry i of this term. */
  ghost predicate Chosen(c: Cluster, term: int, i: nat) {
    Own(c.hist, term, i) && exists q :: ChosenBy(c, term, i, q)
  }

  ghost predicate Holds(c: Cluster, log: seq<Entry>, term: int, i: nat)
    requires term in c.hist.logs
  {
    Agree(log, c.hist.logs[term], i) || Blocked(c, term, i)
  }

  ghost predicate CommittedAt(c: Cluster, log: seq<Entry>, k: nat, bound: int, term: int, i: nat) {
    term <= bound && k <= i && Chosen(c, term, i) && Agree(log, c.hist.logs[term], k)
  }

  /** The log up to k is covered by an entry chosen in a term not above `bound`. */
  ghost predicate Committed(c: Cluster, log: seq<Entry>, k: nat, bound: int) {
    k == 0 || exists term, i :: CommittedAt(c, log, k, bound, term, i)
  }

  // ---- The invariant ----

  ghost predicate ElectedBy(c: Cluster, term: int, q: set<nat>)
    requires term in c.hist.leaders
  {
    Quorum(q, |c.servers|) && forall s :: s in q ==> Voted(c.hist, s, term, c.hist.leaders[term])
  }

  ghost predicate LeadersOk(c: Cluster) {
    && c.hist.logs.Keys == c.hist.leaders.Keys
    && (forall t :: t in c.hist.logs ==>
          t >= 1 && WellFormed(c.hist.logs, c.hist.logs[t]) && Ordered(c.hist.logs[t], t))
    && (forall t :: t in c.hist.leaders ==>
          c.hist.leaders[t] < |c.servers| && c.servers[c.hist.leaders[t]].term >= t
          && exists q :: ElectedBy(c, t, q))
  }

  ghost predicate RecordsOk(c: Cluster) {
    && (forall s: nat, t, v: nat :: Voted(c.hist, s, t, v) ==>
          s < |c.servers| && t <= c.servers[s].term && v < |c.servers| && t <= c.servers[v].term)
    && (forall s: nat, t, i: nat :: Acked(c.hist, s, t, i) ==>
          s < |c.servers| && t <= c.servers[s].term && t in c.hist.logs && i < |c.hist.logs[t]|)
  }

  /** Every later leader holds the entry, unless it can no longer be chosen. */
  ghost predicate Complete(c: Cluster) {
    forall t, i, t' :: Own(c.hist, t, i) && t' in c.hist.logs && t < t' ==> Holds(c, c.hist.logs[t'], t, i)
  }

  ghost predicate RetainedBy(c: Cluster, s: nat, log: seq<Entry>) {
    forall t, i :: Own(c.hist, t, i) && Acked(c.hist, s, t, i) ==> Holds(c, log, t, i)
  }

  /** Entries of terms below `term` that the voter confirmed are in the candidate's log. */
  ghost predicate BallotOk(c: Cluster, voter: nat, log: seq<Entry>, term: int) {
    forall t, i :: t < term && Own(c.hist, t, i) && Acked(c.hist, voter, t, i) ==> Holds(c, log, t, i)
  }

  predicate IsCandidate(c: Cluster, s: nat, term: int) {
    s < |c.servers| && c.servers[s].role == Candidate && c.servers[s].term == term
  }

  ghost predicate BallotsOk(c: Cluster) {
    forall s: nat, t, v: nat :: Voted(c.hist, s, t, v) && IsCandidate(c, v, t) ==> BallotOk(c, s, c.servers[v].log, t)
  }

  ghost predicate LeaderOk(c: Cluster, s: nat, sv: Server) {
    && sv.term in c.hist.leaders && c.hist.leaders[sv.term] == s
    && sv.term in c.hist.logs && c.hist.logs[sv.term] == sv.log
    && |sv.next| == |sv.matched| == |c.servers|
    && forall j :: 0 <= j < |c.servers| ==>
         && sv.matched[j] < sv.next[j] <= |sv.log|
         && (sv.matched[j] > 0 ==> Acked(c.hist, j, sv.term, sv.matched[j]) && sv.next[j] == sv.matched[j] + 1)
  }

  ghost predicate VoterOk(c: Cluster, s: nat, sv: Server) {
    && sv.term >= 0
    && (sv.vote == NOBODY ==> (s, sv.term) !in c.hist.votes)
    && (sv.vote != NOBODY ==> 0 <= sv.vote && Voted(c.hist, s, sv.term, sv.vote))
    && (sv.role == Candidate ==>
          && sv.term >= 1
          && (sv.term in c.hist.leaders ==> c.hist.leaders[sv.term] != s)
          && forall v :: v in sv.votes ==> v < |c.servers| && Voted(c.hist, v, sv.term, s))
  }

  ghost predicate LogOk(c: Cluster, sv: Server, service: seq<Entry>) {
    && WellFormed(c.hist.logs, sv.log)
    && (forall i :: 0 <= i < |sv.log| ==> sv.log[i].term <= sv.term)
    && sv.snap <= sv.lastApplied <= sv.commit < |sv.log|
    && Committed(c, sv.log, sv.commit, sv.term)
    && service == sv.log[..sv.lastApplied + 1]
  }

  ghost predicate ServerOk(c: Cluster, s: nat, sv: Server, service: seq<Entry>) {
    && VoterOk(c, s, sv)
    && LogOk(c, sv, service)
    && (sv.role == Leader ==> LeaderOk(c, s, sv))
  }

  ghost predicate AppendOk(c: Cluster, a: AppendArgs) {
    && a.term in c.hist.leaders && c.hist.leaders[a.term] == a.leader && a.term in c.hist.logs
    && var log := c.hist.logs[a.term];
    && a.prevIndex + |a.entries| < |log|
    && log[a.prevIndex].term == a.prevTerm
    && log[a.prevIndex + 1..a.prevIndex + 1 + |a.entries|] == a.entries
    && a.leaderCommit <= a.prevIndex + |a.entries|
    && Committed(c, log, a.leaderCommit, a.term)
  }

  ghost predicate SnapOk(c: Cluster, a: SnapArgs) {
    && a.term in c.hist.leaders && c.hist.leaders[a.term] == a.leader && a.term in c.hist.logs
    && var log := c.hist.logs[a.term];
    && a.lastIndex < |log|
    && a.data == log[..a.lastIndex + 1]
    && a.lastTerm == log[a.lastIndex].term
    && Committed(c, log, a.lastIndex, a.term)
  }

  /** The index a follower hints at carries the conflicting term in the leader's log, if any index does. */
  predicate HintOk(log: seq<Entry>, index: nat, term: int) {
    index < |log| && (log[index].term == term || forall j :: 0 < j < |log| ==> log[j].term != term)
  }

  /** The conflict a follower reports is not with an entry of the leader's log. */
  predicate ConflictOk(c: Cluster, a: AppendArgs, term: int) {
    && term in c.hist.logs && term != a.prevTerm
    && a.prevIndex < |c.hist.logs[term]| && c.hist.logs[term][a.prevIndex].term == term
  }

  ghost predicate MessageOk(c: Cluster, m: Message) {
    match m
    case VoteRequest(to, a) =>
      && a.candidate < |c.servers| && 1 <= a.term <= c.servers[a.candidate].term
      && (IsCandidate(c, a.candidate, a.term) ==>
            var log := c.servers[a.candidate].log;
            && |log| > 0 && a.lastIndex == LastIndex(log) && a.lastTerm == LastTerm(log))
    case VoteResponse(from, a, r) =>
      from < |c.servers| && (r.granted ==> Voted(c.hist, from, a.term, a.candidate))
    case AppendRequest(to, a) => to != a.leader && AppendOk(c, a)
    case AppendResponse(from, a, r) =>
      && from < |c.servers| && AppendOk(c, a)
      && (r.success ==> Acked(c.hist, from, a.term, a.prevIndex + |a.entries|))
      && (!r.success && r.term <= a.term ==>
            && 1 <= r.conflictIndex <= a.prevIndex
            && (r.conflictTerm != -1 ==>
                  ConflictOk(c, a, r.conflictTerm) && HintOk(c.hist.logs[a.term], r.conflictIndex, r.conflictTerm)))
    case InstallRequest(to, a) => to != a.leader && SnapOk(c, a)
    case InstallResponse(from, a, r) =>
      && from < |c.servers| && SnapOk(c, a)
      && (r.accept ==> Acked(c.hist, from, a.term, a.lastIndex))
  }

  ghost predicate ServersOk(c: Cluster) {
    |c.services| == |c.servers| > 0 &&
    forall s :: 0 <= s < |c.servers| ==> ServerOk(c, s, c.servers[s], c.services[s])
  }

  ghost predicate Retained(c: Cluster) {
    forall s :: 0 <= s < |c.servers| ==> RetainedBy(c, s, c.servers[s].log)
  }

  ghost predicate Inv(c: Cluster) {
    && ServersOk(c)
    && LeadersOk(c) && RecordsOk(c) && Complete(c) && Retained(c) && BallotsOk(c)
    && forall m :: m in c.net ==> MessageOk(c, m)
  }

  lemma InTermLog(c: Cluster, term: int)
    requires LeadersOk(c) && term in c.hist.logs
    ensures term >= 1 && WellFormed(c.hist.logs, c.hist.logs[term]) && Ordered(c.hist.logs[term], term)
  {
  }

  lemma InitInv(c: Cluster)
    requires Init(c)
    ensures Inv(c)
  {
  }

  // ---- Growth ----

  /** Servers do not fall back to older terms, and the history is only added to:
      no acknowledgement for a term its server has already left. */
  ghost predicate Grows(c: Cluster, c': Cluster) {
    && |c.servers| == |c'.servers|
    && (forall s :: 0 <= s < |c.servers| ==> c.servers[s].term <= c'.servers[s].term)
    && (forall t :: t in c.hist.leaders ==> t in c'.hist.leaders && c'.hist.leaders[t] == c.hist.leaders[t])
    && (forall t :: t in c.hist.logs ==> t in c'.hist.logs && c.hist.logs[t] <= c'.hist.logs[t])
    && (forall t, k :: t in c.hist.logs && |c.hist.logs[t]| <= k < |c'.hist.logs[t]| ==> c'.hist.logs[t][k].term == t)
    && (forall s: nat, t, v: nat :: Voted(c.hist, s, t, v) ==> Voted(c'.hist, s, t, v))
    && (forall s: nat, t, i: nat :: Acked(c.hist, s, t, i) ==> Acked(c'.hist, s, t, i))
    && (forall s: nat, t, i: nat :: 0 <= s < |c.servers| && c.servers[s].term > t && Acked(c'.hist, s, t, i)
          ==> Acked(c.hist, s, t, i))
  }

  lemma GrowsBlocked(c: Cluster, c': Cluster, term: int, i: nat)
    requires Grows(c, c') && Blocked(c, term, i)
    ensures Blocked(c', term, i)
  {
    var q :| BlockedBy(c, term, i, q);
    assert BlockedBy(c', term, i, q);
  }

  lemma GrowsHolds(c: Cluster, c': Cluster, log: seq<Entry>, term: int, i: nat)
    requires Grows(c, c') && term in c.hist.logs && Holds(c, log, term, i)
    ensures Holds(c', log, term, i)
  {
    if Blocked(c, term, i) { GrowsBlocked(c, c', term, i); }
  }

  lemma GrowsChosen(c: Cluster, c': Cluster, term: int, i: nat)
    requires Grows(c, c') && Chosen(c, term, i)
    ensures Chosen(c', term, i)
  {
    var q :| ChosenBy(c, term, i, q);
    assert ChosenBy(c', term, i, q);
  }

  lemma GrowsCommitted(c: Cluster, c': Cluster, log: seq<Entry>, log': seq<Entry>, k: nat, bound: int, bound': int)
    requires Grows(c, c') && Committed(c, log, k, bound) && bound <= bound' && log <= log'
    ensures Committed(c', log', k, bound')
  {
    if k > 0 {
      var term, i :| CommittedAt(c, log, k, bound, term, i);
      GrowsChosen(c, c', term, i);
      assert CommittedAt(c', log', k, bound', term, i);
    }
  }

  lemma GrowsWellFormed(c: Cluster, c': Cluster, log: seq<Entry>)
    requires Grows(c, c') && WellFormed(c.hist.logs, log)
    ensures WellFormed(c'.hist.logs, log)
  {
  }

  lemma GrowsTransitive(c: Cluster, c': Cluster, c'': Cluster)
    requires Grows(c, c') && Grows(c', c'')
    ensures Grows(c, c'')
  {
  }

  lemma GrowsMessage(c: Cluster, c': Cluster, m: Message)
    requires Grows(c, c') && MessageOk(c, m)
    requires forall s: nat, t :: IsCandidate(c', s, t) ==>
               (IsCandidate(c, s, t) && c.servers[s].log == c'.servers[s].log)
               || (s < |c.servers| && c.servers[s].term < t)
    ensures MessageOk(c', m)
  {
    match m
    case VoteRequest(_, _) =>
    case VoteResponse(_, _, _) =>
    case AppendRequest(_, a) =>
      GrowsCommitted(c, c', c.hist.logs[a.term], c'.hist.logs[a.term], a.leaderCommit, a.term, a.term);
    case AppendResponse(_, a, _) =>
      GrowsCommitted(c, c', c.hist.logs[a.term], c'.hist.logs[a.term], a.leaderCommit, a.term, a.term);
    case InstallRequest(_, a) =>
      GrowsCommitted(c, c', c.hist.logs[a.term], c'.hist.logs[a.term], a.lastIndex, a.term, a.term);
    case InstallResponse(_, a, _) =>
      GrowsCommitted(c, c', c.hist.logs[a.term], c'.hist.logs[a.term], a.lastIndex, a.term, a.term);
  }

  /** A server that does not change stays sound, as long as its own term's log and vote record do not. */
  lemma GrowsServer(c: Cluster, c': Cluster, s: nat)
    requires Grows(c, c') && s < |c.servers| && ServersOk(c) && |c'.services| == |c'.servers|
    requires c'.servers[s] == c.servers[s] && c'.services[s] == c.services[s]
    requires c.servers[s].role == Leader ==>
          c.servers[s].term in c'.hist.logs && c'.hist.logs[c.servers[s].term] == c.servers[s].log
    requires c.servers[s].role == Candidate && c.servers[s].term in c'.hist.leaders ==>
          c'.hist.leaders[c.servers[s].term] != s
    requires (s, c.servers[s].term) in c'.hist.votes ==> (s, c.servers[s].term) in c.hist.votes
    ensures ServerOk(c', s, c'.servers[s], c'.services[s])
  {
    var sv := c.servers[s];
    GrowsCommitted(c, c', sv.log, sv.log, sv.commit, sv.term, sv.term);
    GrowsWellFormed(c, c', sv.log);
  }
}
