/** What compacting its log changes in what a server does, and what it leaves as it is. */
module RaftCompaction {
  import opened RaftServer
  import opened RaftCluster
  import opened RaftInvariant
  import opened RaftProof
  import opened RaftFollowing
  import opened RaftSafety

  /** The same server, had it never made or installed a snapshot. */
  function Uncompacted(sv: Server): Server {
    sv.(snap := 0)
  }

  // ---- The follower ----

  /** The scan for the first entry of a term is only cut short by compaction. */
  lemma {:induction false} FirstOfTermClipped(log: seq<Entry>, lo: nat, at: nat)
    requires lo <= at < |log|
    ensures FirstOfTerm(log, lo, at) == Max(lo, FirstOfTerm(log, 0, at))
  {
    if at > lo && log[at - 1].term == log[at].term { FirstOfTermClipped(log, lo, at - 1); }
  }

  /** The append is refused for an entry of another term at its previous index. */
  predicate RefusesTerm(sv: Server, a: AppendArgs) {
    a.term >= sv.term && sv.snap <= a.prevIndex < |sv.log| && sv.log[a.prevIndex].term != a.prevTerm
  }

  /** It is refused for a term that begins before the last entry of the snapshot. */
  predicate TermStartsCompacted(sv: Server, a: AppendArgs) {
    && RefusesTerm(sv, a) && sv.snap > 0
    && forall k :: sv.snap - 1 <= k <= a.prevIndex ==> sv.log[k].term == sv.log[a.prevIndex].term
  }

  lemma HintMoves(sv: Server, a: AppendArgs)
    requires RefusesTerm(sv, a)
    ensures FirstOfTerm(sv.log, sv.snap, a.prevIndex) == Max(sv.snap, FirstOfTerm(sv.log, 0, a.prevIndex))
    ensures FirstOfTerm(sv.log, 0, a.prevIndex) < sv.snap <==> TermStartsCompacted(sv, a)
  {
    FirstOfTermClipped(sv.log, sv.snap, a.prevIndex);
    var first := FirstOfTerm(sv.log, 0, a.prevIndex);
    if first > 0 && TermStartsCompacted(sv, a) {
      assert sv.log[sv.snap - 1].term == sv.log[a.prevIndex].term;
    }
  }

  /** The two replies, given that the append only reaches below the snapshot where the terms match. */
  ghost predicate SameBut(sv: Server, a: AppendArgs, reply: AppendReply, reply0: AppendReply) {
    && reply == (if RefusesTerm(sv, a) then reply0.(conflictIndex := Max(sv.snap, reply0.conflictIndex)) else reply0)
    && (reply != reply0 <==> TermStartsCompacted(sv, a))
  }

  lemma SameVerdict(sv: Server, a: AppendArgs, leaderLog: seq<Entry>)
    requires sv.snap <= sv.commit && Agree(sv.log, leaderLog, sv.commit) && sv.role == Follower && a.term == sv.term
    requires a.prevIndex < |leaderLog| && leaderLog[a.prevIndex].term == a.prevTerm
    ensures SameBut(sv, a, OnAppend(sv, a).1, OnAppend(Uncompacted(sv), a).1)
    ensures !OnAppend(sv, a).1.success ==>
      OnAppend(sv, a).0 == sv && OnAppend(Uncompacted(sv), a).0 == Uncompacted(sv)
  {
    hide AppendMatched, FirstOfTerm;
    if a.prevIndex < sv.snap {
      assert sv.log[a.prevIndex] == leaderLog[a.prevIndex];
    }
    if RefusesTerm(sv, a) { HintMoves(sv, a); }
  }

  lemma CompactionCurrent(logs: map<int, seq<Entry>>, sv: Server, a: AppendArgs, leaderLog: seq<Entry>)
    requires WellFormed(logs, sv.log) && WellFormed(logs, leaderLog)
    requires sv.snap <= sv.commit && Agree(sv.log, leaderLog, sv.commit)
    requires sv.role == Follower && a.term == sv.term
    requires var m := a.prevIndex + |a.entries|;
      && m < |leaderLog| && leaderLog[a.prevIndex].term == a.prevTerm
      && leaderLog[a.prevIndex + 1..m + 1] == a.entries && a.leaderCommit <= m
    ensures Uncompacted(OnAppend(sv, a).0) == OnAppend(Uncompacted(sv), a).0
    ensures SameBut(sv, a, OnAppend(sv, a).1, OnAppend(Uncompacted(sv), a).1)
  {
    hide OnAppend, Adopt, WellFormed, RefusesTerm, TermStartsCompacted;
    SameVerdict(sv, a, leaderLog);
    if OnAppend(sv, a).1.success {
      AppendAdopts(logs, sv, a, leaderLog);
      AppendAdopts(logs, Uncompacted(sv), a, leaderLog);
    }
  }

  lemma CompactionFollower(c: Cluster, s: nat, sv: Server, service: seq<Entry>, a: AppendArgs)
    requires LeadersOk(c) && Complete(c) && AppendOk(c, a) && ServerOk(c, s, sv, service)
    requires sv.role == Follower && sv.term == a.term
    ensures Uncompacted(OnAppend(sv, a).0) == OnAppend(Uncompacted(sv), a).0
    ensures SameBut(sv, a, OnAppend(sv, a).1, OnAppend(Uncompacted(sv), a).1)
  {
    hide OnAppend, Complete;
    FollowerAgrees(c, s, sv, service, a.term);
    CompactionCurrent(c.hist.logs, sv, a, c.hist.logs[a.term]);
  }

  /** In every reachable state, a follower that has compacted its log handles an append as it would have
      with the whole log. Only its hint where to go on may differ: it is never below the last entry of the
      snapshot, and differs exactly when the conflicting term begins before that entry. */
  lemma CompactionInvisible(run: Run, i: nat, m: Message)
    requires IsRun(run) && i < |run.states| && m in run.states[i].net
    requires m.AppendRequest? && m.to < |run.states[i].servers|
    ensures var sv, a := run.states[i].servers[m.to], m.appendArgs;
      && sv.snap < |sv.log|
      && var (after, reply) := OnAppend(sv, a);
      && var (after0, reply0) := OnAppend(Uncompacted(sv), a);
      && after0 == Uncompacted(after)
      && reply == (if RefusesTerm(sv, a) then reply0.(conflictIndex := Max(sv.snap, reply0.conflictIndex)) else reply0)
      && (reply != reply0 <==> TermStartsCompacted(sv, a))
  {
    hide IsRun, Inv, ServersOk, LeadersOk, RecordsOk, Complete, OnAppend, VoterOk, LeaderOk, Committed, WellFormed;
    var c := run.states[i];
    var s, a := m.to, m.appendArgs;
    RunInv(run, i);
    InvParts(c, s);
    InvMessage(c, m);
    var sv := c.servers[s];
    if a.term < sv.term {
      AppendStale(sv, a);
      AppendStale(Uncompacted(sv), a);
    } else {
      RecogniseInv(c, s, a.term);
      var c1 := SetServer(c, s, Recognise(sv, a.term));
      RecogniseSame(sv, a);
      RecogniseSame(Uncompacted(sv), a);
      InvParts(c1, s);
      InvMessage(c1, m);
      CompactionFollower(c1, s, c1.servers[s], c1.services[s], a);
    }
  }

  // ---- The leader ----

  /** The scan for the last entry of a term stops at the snapshot. */
  lemma {:induction false} LastWithTermClipped(log: seq<Entry>, lo: nat, hi: nat, term: int)
    requires hi <= |log|
    ensures LastWithTerm(log, lo, hi, term)
         == if LastWithTerm(log, 0, hi, term) > lo then LastWithTerm(log, 0, hi, term) else lo
  {
    if hi > lo + 1 && log[hi - 1].term != term { LastWithTermClipped(log, lo, hi - 1, term); }
  }

  /** A refusal that the leader takes up names a term whose last entry in its log is under its snapshot. */
  predicate ConflictCompacted(sv: Server, a: AppendArgs, r: AppendReply) {
    && sv.role == Leader && sv.term == a.term >= r.term && !r.success && r.conflictTerm != -1
    && 0 < LastWithTerm(sv.log, 0, |sv.log|, r.conflictTerm) <= sv.snap
  }

  lemma ReplyCompaction(sv: Server, from: nat, a: AppendArgs, r: AppendReply)
    requires |sv.log| > 0 && AppendReplyInBounds(sv, from, a, r) && AppendReplyInBounds(Uncompacted(sv), from, a, r)
    ensures var after, after0 := OnAppendReply(sv, from, a, r), OnAppendReply(Uncompacted(sv), from, a, r);
      if !ConflictCompacted(sv, a, r) then after0 == Uncompacted(after)
      else
        var k := LastWithTerm(sv.log, 0, |sv.log|, r.conflictTerm);
        && after == (if sv.matched[from] < r.conflictIndex < sv.next[from]
                     then sv.(next := sv.next[from := r.conflictIndex]) else sv)
        && after0 == (if sv.matched[from] < k + 1 < sv.next[from]
                      then Uncompacted(sv).(next := sv.next[from := k + 1]) else Uncompacted(sv))
  {
    hide LastWithTerm, Sorted;
    LastWithTermClipped(sv.log, sv.snap, |sv.log|, r.conflictTerm);
  }

  /** Where the conflicting term is under the leader's snapshot, the hint lies at or before its last entry. */
  lemma HintBelow(c: Cluster, s: nat, sv: Server, m: Message)
    requires LeadersOk(c) && LeaderOk(c, s, sv) && m.AppendResponse? && MessageOk(c, m)
    requires ConflictCompacted(sv, m.appendArgs, m.appendReply)
    ensures var k := LastWithTerm(sv.log, 0, |sv.log|, m.appendReply.conflictTerm);
      && 1 <= m.appendReply.conflictIndex <= k < |sv.log|
      && sv.log[m.appendReply.conflictIndex].term == sv.log[k].term == m.appendReply.conflictTerm
  {
    hide LastWithTerm, Committed, Ordered, WellFormed;
  }

  lemma UncompactedInBounds(c: Cluster, s: nat, sv: Server, service: seq<Entry>, m: Message)
    requires RecordsOk(c) && s < |c.servers| && c.servers[s] == sv && ServerOk(c, s, sv, service)
    requires m.AppendResponse? && m.appendArgs.leader == s && MessageOk(c, m)
    ensures |sv.log| > 0 && AppendReplyInBounds(sv, m.from, m.appendArgs, m.appendReply)
    ensures AppendReplyInBounds(Uncompacted(sv), m.from, m.appendArgs, m.appendReply)
  {
    hide RecordsOk, WellFormed, Committed, AppendOk, SnapOk, ConflictOk, LastWithTerm;
    var a, r := m.appendArgs, m.appendReply;
    AppendReplyServer(c, s, sv, service, m);
    if sv.role == Leader && sv.term == a.term >= r.term && !r.success && r.conflictTerm != -1 {
      ConflictBeforeEnd(c, Uncompacted(sv), a, r.conflictTerm);
    }
  }

  /** In every reachable state, a leader that has compacted its log handles the reply to an append as it
      would have with the whole log, but for one case, in which it goes back further than it had to. The
      case is exact: the conflicting term ends under its snapshot, nothing is confirmed by the follower
      yet, and the hint is below the next index. Then it goes on at the hint, and with the whole log just
      past the last entry of the term. */
  lemma BackupAfterCompaction(run: Run, i: nat, s: nat, m: Message)
    requires IsRun(run) && i < |run.states| && s < |run.states[i].servers|
    requires m in run.states[i].net && m.AppendResponse? && m.appendArgs.leader == s
    ensures var sv, a, r := run.states[i].servers[s], m.appendArgs, m.appendReply;
      && |sv.log| > 0 && AppendReplyInBounds(sv, m.from, a, r) && AppendReplyInBounds(Uncompacted(sv), m.from, a, r)
      && (ConflictCompacted(sv, a, r) ==> m.from < |sv.matched| == |sv.next|)
      && var after, after0 := OnAppendReply(sv, m.from, a, r), OnAppendReply(Uncompacted(sv), m.from, a, r);
      && (after0 != Uncompacted(after) <==>
            ConflictCompacted(sv, a, r) && sv.matched[m.from] == 0 && r.conflictIndex < sv.next[m.from])
      && (after0 != Uncompacted(after) ==>
            var k := LastWithTerm(sv.log, 0, |sv.log|, r.conflictTerm);
            && r.conflictIndex <= k
            && after == sv.(next := sv.next[m.from := r.conflictIndex])
            && after0 == Uncompacted(sv).(next := sv.next[m.from := Min(k + 1, sv.next[m.from])]))
  {
    hide IsRun, Inv, RecordsOk, LeadersOk, Complete, VoterOk, WellFormed, Committed, Acked, MessageOk, LastWithTerm,
         AppendReplyInBounds, OnAppendReply;
    RunInv(run, i);
    var c, a, r := run.states[i], m.appendArgs, m.appendReply;
    var sv := c.servers[s];
    InvParts(c, s);
    InvMessage(c, m);
    UncompactedInBounds(c, s, sv, c.services[s], m);
    ReplyCompaction(sv, m.from, a, r);
    if ConflictCompacted(sv, a, r) {
      SenderKnown(c, m);
      HintBelow(c, s, sv, m);
      assert sv.next[m.from := sv.next[m.from]] == sv.next;
      var after, after0 := OnAppendReply(sv, m.from, a, r), OnAppendReply(Uncompacted(sv), m.from, a, r);
      if sv.matched[m.from] == 0 && r.conflictIndex < sv.next[m.from] {
        assert after0.next[m.from] != after.next[m.from];
      }
    }
  }

  lemma SenderKnown(c: Cluster, m: Message)
    requires m.AppendResponse? && MessageOk(c, m)
    ensures m.from < |c.servers|
  {
  }
}
