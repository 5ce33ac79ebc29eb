/** What the handlers of replication answer and change, told without them: which messages are accepted, what
    a refusal says, how far an accepted exchange takes the two servers, and what it commits. */
module RaftExchange {
  import opened RaftServer
  import opened RaftCluster
  import opened RaftInvariant
  import opened RaftMajority
  import opened RaftProof
  import opened RaftVoting
  import opened RaftFollowing
  import opened RaftSafety
  import opened RaftWitness

  // ---- The follower's answer to an append ----

  /** The follower's log holds the entry before the ones sent, in its snapshot or in the log. */
  predicate HoldsPrevious(sv: Server, a: AppendArgs) {
    a.prevIndex < sv.snap || (a.prevIndex < |sv.log| && sv.log[a.prevIndex].term == a.prevTerm)
  }

  /** The entries from first to last are all there are of their term, down to the snapshot. */
  predicate RunOfTerm(sv: Server, first: nat, last: nat) {
    && sv.snap <= first <= last < |sv.log|
    && (forall k: nat :: first <= k <= last ==> sv.log[k].term == sv.log[last].term)
    && (first > sv.snap ==> sv.log[first - 1].term != sv.log[last].term)
  }

  /** An append of an old term is turned away. Any other makes the server a follower of its term and is
      accepted exactly when the previous entry is there; a refusal changes nothing more, and says where the
      log ends, or where the conflicting term begins in it. */
  lemma AppendExactly(sv: Server, a: AppendArgs)
    requires sv.snap < |sv.log|
    ensures var (after, r) := OnAppend(sv, a);
      if a.term < sv.term then after == sv && r == AppendReply(sv.term, false, 0, 0)
      else
        && r.term == after.term == a.term && after.role == Follower
        && after.vote == (if a.term > sv.term then NOBODY else sv.vote)
        && (r.success <==> HoldsPrevious(sv, a))
        && (!r.success ==> after == sv.(term := a.term, vote := after.vote, role := Follower))
        && (!r.success && a.prevIndex >= |sv.log| ==> r.conflictIndex == |sv.log| && r.conflictTerm == -1)
        && (!r.success && a.prevIndex < |sv.log| ==>
              RunOfTerm(sv, r.conflictIndex, a.prevIndex) && r.conflictTerm == sv.log[a.prevIndex].term)
  {
    hide Merge;
  }

  /** A snapshot is accepted exactly when it is not of an old term, reaches further than the server has
      compacted, and the service is not installing one. */
  lemma InstallExactly(sv: Server, a: SnapArgs)
    requires sv.snap < |sv.log|
    ensures var (after, r) := OnInstall(sv, a);
      && (r.accept <==> a.term >= sv.term && !sv.active && a.lastIndex > sv.snap)
      && (a.term < sv.term || sv.active ==> after == sv && r.term == sv.term)
      && (a.term >= sv.term && !sv.active ==>
            && r.term == after.term == a.term && after.role == Follower
            && after.vote == (if a.term > sv.term then NOBODY else sv.vote)
            && (!r.accept ==> after == sv.(term := a.term, vote := after.vote, role := Follower)))
  {
  }

  // ---- The leader's view of the reply ----

  /** The reply is for this leader's term, and does not come from a newer one. */
  predicate Heeded(sv: Server, term: int, replyTerm: int) {
    sv.role == Leader && sv.term == term && replyTerm <= sv.term
  }

  /** A reply to an old request is dropped, and one of a newer term ends the leader's office. */
  lemma UnheededExactly(sv: Server, from: nat, a: AppendArgs, r: AppendReply, b: SnapArgs, q: SnapReply)
    requires |sv.log| > 0 && AppendReplyInBounds(sv, from, a, r)
    requires sv.role == Leader && sv.term == b.term ==> from < |sv.next| && from < |sv.matched|
    ensures !Heeded(sv, a.term, r.term) ==>
      OnAppendReply(sv, from, a, r)
      == if sv.role == Leader && sv.term == a.term then sv.(term := r.term, vote := NOBODY, role := Follower) else sv
    ensures !Heeded(sv, b.term, q.term) ==>
      OnInstallReply(sv, from, b, q)
      == if sv.role == Leader && sv.term == b.term then sv.(term := q.term, vote := NOBODY, role := Follower) else sv
  {
  }

  /** This index holds an entry of the leader's own term, and a strict majority is known to match it. */
  predicate Majority(sv: Server, j: nat) {
    0 < j < |sv.log| && sv.log[j].term == sv.term && |Reached(sv.matched, j)| >= |sv.matched| / 2 + 1
  }

  /** After a success the peer is known to match the last entry sent, or further if it was before, and is
      sent what follows; and the commit index is the highest that a majority matches in the leader's own
      term, unless it was higher already. */
  lemma SuccessExactly(sv: Server, from: nat, a: AppendArgs, r: AppendReply)
    requires |sv.log| > 0 && AppendReplyInBounds(sv, from, a, r) && Heeded(sv, a.term, r.term) && r.success
    ensures var after := OnAppendReply(sv, from, a, r);
      && from < |after.matched| == |sv.matched| && from < |after.next| == |sv.next|
      && after.matched[from] == Max(a.prevIndex + |a.entries|, sv.matched[from])
      && after.next[from] == after.matched[from] + 1
      && (forall j: nat :: j < |sv.matched| && j != from ==> after.matched[j] == sv.matched[j])
      && (forall j: nat :: j < |sv.next| && j != from ==> after.next[j] == sv.next[j])
      && after.commit >= sv.commit
      && (after.commit > sv.commit ==> Majority(after, after.commit))
      && (forall j: nat :: Majority(after, j) ==> j <= after.commit)
      && after == sv.(matched := after.matched, next := after.next, commit := after.commit)
  {
    hide MajorityIndex, LastWithTerm;
    var after := OnAppendReply(sv, from, a, r);
    if after.commit > sv.commit { MajorityIndexExact(after.matched, after.commit); }
    forall j: nat | Majority(after, j) ensures j <= after.commit {
      MajorityIndexExact(after.matched, j);
    }
  }

  /** Where the leader goes back to: just after its own last uncompacted entry of the conflicting term, or
      to the index the follower names when it has none. */
  predicate BacksUpTo(sv: Server, r: AppendReply, k: nat) {
    if r.conflictTerm != -1 && exists j: nat :: sv.snap < j < |sv.log| && sv.log[j].term == r.conflictTerm then
      && sv.snap < k - 1 < |sv.log| && sv.log[k - 1].term == r.conflictTerm
      && forall j: nat :: k <= j < |sv.log| ==> sv.log[j].term != r.conflictTerm
    else k == r.conflictIndex
  }

  /** After a refusal the next index goes there, if that lies between what is known to match and the next
      index so far; nothing else changes. */
  lemma RefusalExactly(sv: Server, from: nat, a: AppendArgs, r: AppendReply, k: nat)
    requires sv.snap < |sv.log| && AppendReplyInBounds(sv, from, a, r)
    requires Heeded(sv, a.term, r.term) && !r.success && BacksUpTo(sv, r, k)
    ensures from < |sv.next| && from < |sv.matched|
    ensures OnAppendReply(sv, from, a, r)
         == if sv.matched[from] < k < sv.next[from] then sv.(next := sv.next[from := k]) else sv
  {
  }

  /** After an accepted snapshot the peer is known to match its last entry, or further if it was before, and
      is sent what follows; a refused one changes nothing. */
  lemma SnapshotConfirmed(sv: Server, from: nat, a: SnapArgs, r: SnapReply)
    requires Heeded(sv, a.term, r.term) && from < |sv.next| && from < |sv.matched|
    ensures var after := OnInstallReply(sv, from, a, r);
      && |after.next| == |sv.next| && |after.matched| == |sv.matched|
      && (!r.accept ==> after == sv)
      && (r.accept ==>
            && after.matched[from] >= a.lastIndex && after.matched[from] >= sv.matched[from]
            && (after.matched[from] == a.lastIndex || after.matched[from] == sv.matched[from])
            && after.next[from] == after.matched[from] + 1
            && (forall j: nat :: j < |sv.matched| && j != from ==> after.matched[j] == sv.matched[j])
            && (forall j: nat :: j < |sv.next| && j != from ==> after.next[j] == sv.next[j])
            && after == sv.(matched := after.matched, next := after.next))
  {
  }

  // ---- What a server does by itself ----

  /** Only a leader takes a command, as its last entry and under its term; compaction never goes back, and
      leaves the log that the server stands for; and the service is handed one entry at a time, the next one,
      or skips to the end of the snapshot. */
  lemma AloneExactly(sv: Server, command: Command, index: nat)
    requires sv.lastApplied < sv.commit && sv.lastApplied + 1 > sv.snap ==> sv.lastApplied + 1 < |sv.log|
    ensures var started := OnStart(sv, command);
      if sv.role != Leader then started == sv
      else
        && |started.log| == |sv.log| + 1 && started.log[..|sv.log|] == sv.log
        && started.log[|sv.log|] == Entry(sv.term, command) && started == sv.(log := started.log)
    ensures var trimmed := OnSnapshot(sv, index);
      && trimmed.snap >= sv.snap && trimmed.snap >= index && (trimmed.snap == sv.snap || trimmed.snap == index)
      && trimmed == sv.(snap := trimmed.snap)
    ensures var (after, delivered) := OnApply(sv);
      && after == sv.(lastApplied := after.lastApplied)
      && (after.lastApplied > sv.lastApplied <==> sv.lastApplied < sv.commit)
      && (delivered.Some? <==> sv.snap <= sv.lastApplied < sv.commit)
      && (delivered.Some? ==>
            after.lastApplied == sv.lastApplied + 1 < |sv.log| && delivered.value == sv.log[sv.lastApplied + 1])
      && (delivered.None? && sv.lastApplied < sv.commit ==> after.lastApplied == sv.snap)
  {
  }
}
