/** What one Raft server does with each message and event, as functions over the
    server's full log. Index 0 holds the placeholder entry, so the entry with index k
    stands at position k; `snap` says how much of the log is held only as a snapshot.
    Class RaftNode.Raft implements these functions on the offset log. */
module RaftServer {
  import opened Options

  type Command = string

  datatype Entry = Entry(term: int, command: Command)

  const PLACEHOLDER := Entry(-1, "")

  const NOBODY := -1

  datatype Role = Follower | Candidate | Leader

  datatype Server = Server(
    term: int,
    vote: int,
    role: Role,
    votes: set<nat>,
    log: seq<Entry>,
    snap: nat,
    commit: nat,
    lastApplied: nat,
    next: seq<nat>,
    matched: seq<nat>,
    passive: bool,
    active: bool)

  datatype VoteArgs = VoteArgs(term: int, candidate: nat, lastIndex: nat, lastTerm: int)
  datatype VoteReply = VoteReply(term: int, granted: bool)

  datatype AppendArgs = AppendArgs(
    term: int, leader: nat, prevIndex: nat, prevTerm: int, entries: seq<Entry>, leaderCommit: nat)
  datatype AppendReply = AppendReply(term: int, success: bool, conflictIndex: nat, conflictTerm: int)

  /** `data` is the service state at `lastIndex`, taken as the entries that produced it. */
  datatype SnapArgs = SnapArgs(term: int, leader: nat, lastIndex: nat, lastTerm: int, data: seq<Entry>)
  datatype SnapReply = SnapReply(term: int, accept: bool)

  function Max(a: int, b: int): int { if a >= b then a else b }

  function Min(a: int, b: int): int { if a <= b then a else b }

  function LastIndex(log: seq<Entry>): nat
    requires |log| > 0
  {
    |log| - 1
  }

  function LastTerm(log: seq<Entry>): int
    requires |log| > 0
  {
    log[|log| - 1].term
  }

  function InitServer(): Server {
    Server(0, NOBODY, Follower, {}, [PLACEHOLDER], 0, 0, 0, [], [], false, false)
  }

  /** The state a restarted server rebuilds from what it persisted. */
  function OnRestart(s: Server): Server {
    InitServer().(term := s.term, vote := s.vote, log := s.log,
                  snap := s.snap, commit := s.snap, lastApplied := s.snap)
  }

  // ---- Elections ----

  /** Adopting a newer term forgets the vote and any claim to office. */
  function StepDown(s: Server, term: int): Server {
    s.(term := term, vote := NOBODY, role := Follower)
  }

  function OnTimeout(s: Server, me: nat): Server {
    s.(term := s.term + 1, vote := me, role := Candidate, votes := {me})
  }

  predicate UpToDate(a: VoteArgs, log: seq<Entry>)
    requires |log| > 0
  {
    a.lastTerm > LastTerm(log) || (a.lastTerm == LastTerm(log) && a.lastIndex >= LastIndex(log))
  }

  function OnVoteRequest(s: Server, a: VoteArgs): (Server, VoteReply)
    requires |s.log| > 0
  {
    if a.term < s.term then (s, VoteReply(s.term, false))
    else
      var s1 := if s.term < a.term then StepDown(s, a.term) else s;
      if (s1.vote == NOBODY || s1.vote == a.candidate) && UpToDate(a, s1.log)
      then (s1.(vote := a.candidate), VoteReply(s1.term, true))
      else (s1, VoteReply(s1.term, false))
  }

  function OnVoteReply(s: Server, from: nat, a: VoteArgs, r: VoteReply): Server {
    if s.role != Candidate || s.term != a.term then s
    else if s.term < r.term then StepDown(s, r.term)
    else if r.granted then s.(votes := s.votes + {from})
    else s
  }

  function OnWin(s: Server, n: nat): Server
    requires |s.log| > 0
  {
    s.(role := Leader, next := seq(n, _ => LastIndex(s.log) + 1), matched := seq(n, _ => 0))
  }

  // ---- Replication: the follower ----

  /** Position among the new entries of the first one the log lacks or holds with another term. */
  function FirstMismatch(log: seq<Entry>, prev: nat, entries: seq<Entry>, i: nat := 0): (r: nat)
    requires i <= |entries| && prev + 1 + i <= |log|
    ensures i <= r <= |entries| && prev + 1 + r <= |log|
    ensures forall k :: prev + 1 + i <= k < prev + 1 + r ==> log[k].term == entries[k - prev - 1].term
    ensures r < |entries| ==> prev + 1 + r == |log| || log[prev + 1 + r].term != entries[r].term
    decreases |entries| - i
  {
    if i == |entries| || prev + 1 + i >= |log| || log[prev + 1 + i].term != entries[i].term then i
    else FirstMismatch(log, prev, entries, i + 1)
  }

  function Merge(log: seq<Entry>, prev: nat, entries: seq<Entry>): seq<Entry>
    requires prev < |log|
  {
    var i := FirstMismatch(log, prev, entries);
    if i == |entries| then log else log[..prev + 1 + i] + entries[i..]
  }

  /** Walks back from `at` while the term stays the same, not past `lo`. */
  function FirstOfTerm(log: seq<Entry>, lo: nat, at: nat): (r: nat)
    requires lo <= at < |log|
    ensures lo <= r <= at
    ensures forall k :: r <= k <= at ==> log[k].term == log[at].term
    ensures r > lo ==> log[r - 1].term != log[at].term
  {
    if at > lo && log[at - 1].term == log[at].term then FirstOfTerm(log, lo, at - 1) else at
  }

  function AppendMatched(s: Server, prev: nat, entries: seq<Entry>, leaderCommit: nat): Server
    requires prev < |s.log|
  {
    var log := Merge(s.log, prev, entries);
    s.(log := log,
       commit := if leaderCommit > s.commit then Min(leaderCommit, LastIndex(log)) else s.commit)
  }

  /** Recognising the sender as leader of its term. */
  function Recognise(s: Server, term: int): Server {
    (if term > s.term then s.(term := term, vote := NOBODY) else s).(role := Follower)
  }

  /** An append from the leader of the server's own term. */
  function AppendChecked(s: Server, a: AppendArgs): (Server, AppendReply)
    requires s.snap < |s.log|
  {
    var ok := AppendReply(s.term, true, 0, 0);
    if a.prevIndex < s.snap then
      if a.prevIndex + |a.entries| <= s.snap then (s, ok)
      else (AppendMatched(s, s.snap, a.entries[s.snap - a.prevIndex..], a.leaderCommit), ok)
    else if LastIndex(s.log) < a.prevIndex then
      (s, AppendReply(s.term, false, LastIndex(s.log) + 1, -1))
    else if s.log[a.prevIndex].term != a.prevTerm then
      (s, AppendReply(s.term, false, FirstOfTerm(s.log, s.snap, a.prevIndex), s.log[a.prevIndex].term))
    else (AppendMatched(s, a.prevIndex, a.entries, a.leaderCommit), ok)
  }

  function OnAppend(s: Server, a: AppendArgs): (Server, AppendReply)
    requires s.snap < |s.log|
  {
    if a.term < s.term then (s, AppendReply(s.term, false, 0, 0))
    else AppendChecked(Recognise(s, a.term), a)
  }

  /** The log goes on past a snapshot's last entry, which it holds with the same term. */
  predicate GoesOn(log: seq<Entry>, index: nat, term: int)
    requires |log| > 0
  {
    index < LastIndex(log) && log[index].term == term
  }

  function SuffixAfter(log: seq<Entry>, index: nat, term: int): seq<Entry>
    requires |log| > 0
  {
    if GoesOn(log, index, term) then log[index + 1..] else []
  }

  /** A snapshot longer than what is compacted replaces the log, except for a suffix it agrees with. */
  function InstallChecked(s: Server, a: SnapArgs): (Server, SnapReply)
    requires s.snap < |s.log|
  {
    if a.lastIndex <= s.snap then (s, SnapReply(s.term, false))
    else
      (s.(log := a.data + SuffixAfter(s.log, a.lastIndex, a.lastTerm),
          commit := if GoesOn(s.log, a.lastIndex, a.lastTerm) then Max(s.commit, a.lastIndex) else a.lastIndex,
          lastApplied := a.lastIndex, snap := a.lastIndex, passive := true),
       SnapReply(s.term, true))
  }

  function OnInstall(s: Server, a: SnapArgs): (Server, SnapReply)
    requires s.snap < |s.log|
  {
    if a.term < s.term || s.active then (s, SnapReply(s.term, false))
    else InstallChecked(Recognise(s, a.term), a)
  }

  // ---- Replication: the leader ----

  function OnStart(s: Server, command: Command): Server {
    if s.role != Leader then s else s.(log := s.log + [Entry(s.term, command)])
  }

  function OnBroadcast(s: Server, me: nat): Server
    requires |s.log| > 0 && me < |s.next| && me < |s.matched|
  {
    s.(matched := s.matched[me := LastIndex(s.log)], next := s.next[me := LastIndex(s.log) + 1])
  }

  function AppendArgsFor(s: Server, me: nat, to: nat): AppendArgs
    requires to < |s.next| && 0 < s.next[to] <= |s.log|
  {
    var nx := s.next[to];
    AppendArgs(s.term, me, nx - 1, s.log[nx - 1].term, s.log[nx..], s.commit)
  }

  function SnapArgsFor(s: Server, me: nat): SnapArgs
    requires s.snap < |s.log|
  {
    SnapArgs(s.term, me, s.snap, s.log[s.snap].term, s.log[..s.snap + 1])
  }

  /** Greatest k with lo < k < hi whose entry has this term, or lo. */
  function LastWithTerm(log: seq<Entry>, lo: nat, hi: nat, term: int): (r: nat)
    requires hi <= |log|
    ensures r == lo || (lo < r < hi && log[r].term == term)
    ensures forall k :: r < k < hi ==> log[k].term != term
    decreases hi
  {
    if hi <= lo + 1 then lo
    else if log[hi - 1].term == term then hi - 1
    else LastWithTerm(log, lo, hi - 1, term)
  }

  function Insert(x: nat, xs: seq<nat>): (r: seq<nat>)
    ensures |r| == |xs| + 1
  {
    if xs == [] || x <= xs[0] then [x] + xs else [xs[0]] + Insert(x, xs[1..])
  }

  function Sorted(xs: seq<nat>): (r: seq<nat>)
    ensures |r| == |xs|
  {
    if xs == [] then [] else Insert(xs[0], Sorted(xs[1..]))
  }

  /** The index the commit rule starts from. */
  function MajorityIndex(matched: seq<nat>): nat
    requires |matched| > 0
  {
    Sorted(matched)[(|matched| - 1) / 2]
  }

  /** The entries the handler of an append reply looks at are there. */
  predicate AppendReplyInBounds(s: Server, from: nat, a: AppendArgs, r: AppendReply)
    requires |s.log| > 0
  {
    s.role == Leader && s.term == a.term && s.term >= r.term ==>
      && from < |s.next| && from < |s.matched|
      && (!r.success && r.conflictTerm != -1 && s.snap < |s.log| ==>
            LastWithTerm(s.log, s.snap, |s.log|, r.conflictTerm) + 1 < |s.log|
            || LastWithTerm(s.log, s.snap, |s.log|, r.conflictTerm) == s.snap)
      && (r.success ==>
            MajorityIndex(s.matched[from := Max(a.prevIndex + |a.entries|, s.matched[from])]) < |s.log|)
  }

  function OnAppendReply(s: Server, from: nat, a: AppendArgs, r: AppendReply): Server
    requires |s.log| > 0 && AppendReplyInBounds(s, from, a, r)
  {
    if s.role != Leader || s.term != a.term then s
    else if s.term < r.term then StepDown(s, r.term)
    else if !r.success then
      var k := if r.conflictTerm == -1 then s.snap else LastWithTerm(s.log, s.snap, |s.log|, r.conflictTerm);
      var possible := if k == s.snap then r.conflictIndex else k + 1;
      if s.matched[from] < possible < s.next[from] then s.(next := s.next[from := possible]) else s
    else
      var m := Max(a.prevIndex + |a.entries|, s.matched[from]);
      var matched := s.matched[from := m];
      s.(matched := matched, next := s.next[from := m + 1],
         commit := LastWithTerm(s.log, s.commit, MajorityIndex(matched) + 1, s.term))
  }

  function OnInstallReply(s: Server, from: nat, a: SnapArgs, r: SnapReply): Server
    requires s.role == Leader && s.term == a.term ==> from < |s.next| && from < |s.matched|
  {
    if s.role != Leader || s.term != a.term then s
    else if s.term < r.term then StepDown(s, r.term)
    else if r.accept then
      var m := Max(a.lastIndex, s.matched[from]);
      s.(matched := s.matched[from := m], next := s.next[from := m + 1])
    else s
  }

  // ---- Compaction and the service ----

  function OnSnapshot(s: Server, index: nat): Server {
    if index <= s.snap then s else s.(snap := index)
  }

  /** One round of the apply loop: the new state and the entry handed to the service. */
  function OnApply(s: Server): (Server, Option<Entry>)
    requires s.lastApplied < s.commit && s.lastApplied + 1 > s.snap ==> s.lastApplied + 1 < |s.log|
  {
    if s.lastApplied >= s.commit then (s, None)
    else if s.lastApplied + 1 <= s.snap then (s.(lastApplied := s.snap), None)
    else (s.(lastApplied := s.lastApplied + 1), Some(s.log[s.lastApplied + 1]))
  }
}
