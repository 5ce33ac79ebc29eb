/** A newly elected leader can bring its followers up to date and have a command carried out everywhere,
    unless compaction left it and a follower at the same snapshot with different entries after it. */
module RaftProgress {
  import opened RaftServer
  import opened RaftCluster
  import opened RaftInvariant
  import opened RaftMajority
  import opened RaftProof
  import opened RaftVoting
  import opened RaftFollowing
  import opened RaftSafety
  import opened RaftWitness
  import opened RaftElection
  import opened RaftExchange

  /** Server v follows server s in its term. */
  predicate Follows(servers: seq<Server>, s: nat, v: nat) {
    && s < |servers| && v < |servers| && s != v
    && servers[s].role == Leader && servers[v].role == Follower && servers[v].term == servers[s].term
  }

  lemma LeaderFacts(run: Run, servers: seq<Server>, s: nat, v: nat)
    requires Ends(run, servers) && Follows(servers, s, v)
    ensures var sv, f := servers[s], servers[v];
      && |sv.next| == |sv.matched| == |servers| && sv.matched[v] < sv.next[v] <= |sv.log|
      && sv.snap < |sv.log| && f.snap <= f.commit < |f.log| && sv.snap <= sv.commit < |sv.log|
      && Inv(Final(run)) && LeaderOk(Final(run), s, sv) && ServerOk(Final(run), v, f, Final(run).services[v])
      && ServerOk(Final(run), s, sv, Final(run).services[s])
  {
    hide IsRun, Inv, LogOk, VoterOk;
    var c := Final(run);
    RunInv(run, |run.states| - 1);
    LeaderOnRecord(c, s);
    InvParts(c, s);
    InvParts(c, v);
    LogBounds(c, s);
    LogBounds(c, v);
  }

  lemma LogBounds(c: Cluster, s: nat)
    requires s < |c.servers| && s < |c.services| && ServerOk(c, s, c.servers[s], c.services[s])
    ensures c.servers[s].snap <= c.servers[s].commit < |c.servers[s].log|
  {
  }

  /** An append that is accepted makes the follower hold the whole of the leader's log, and know as much
      of it committed as the leader does; and its reply tells the leader so. */
  lemma BroughtUpToDate(run: Run, servers: seq<Server>, s: nat, v: nat)
    requires Ends(run, servers) && Follows(servers, s, v)
    requires v < |servers[s].next| && servers[s].snap < servers[s].next[v] <= |servers[s].log|
    requires servers[v].snap < |servers[v].log|
    requires OnAppend(servers[v], AppendArgsFor(servers[s], s, v)).1.success
    ensures var sv, f, a := servers[s], servers[v], AppendArgsFor(servers[s], s, v);
      var (after, r) := OnAppend(f, a);
      && Agree(after.log, sv.log, LastIndex(sv.log))
      && after == f.(log := after.log, commit := Max(f.commit, sv.commit))
      && a.prevIndex + |a.entries| == LastIndex(sv.log)
  {
    hide IsRun, Inv, ServerOk, LeaderOk, OnAppend, Agree;
    var r1 := SendTo(run, servers, s, v);
    RunInv(r1, |r1.states| - 1);
    Adopted(Final(r1), s, v, AppendArgsFor(servers[s], s, v));
  }

  lemma Adopted(c: Cluster, s: nat, v: nat, a: AppendArgs)
    requires Inv(c) && Follows(c.servers, s, v) && AppendRequest(v, a) in c.net
    requires a.term == c.servers[s].term && |c.servers[s].log| > 0
    requires a.prevIndex + |a.entries| == LastIndex(c.servers[s].log)
    requires c.servers[v].snap < |c.servers[v].log| && OnAppend(c.servers[v], a).1.success
    ensures var sv, f, after := c.servers[s], c.servers[v], OnAppend(c.servers[v], a).0;
      && Agree(after.log, sv.log, LastIndex(sv.log))
      && after == f.(log := after.log, commit := Max(f.commit, a.leaderCommit))
  {
    hide Inv, ServersOk, RecordsOk, Complete, OnAppend, Committed, WellFormed, VoterOk, Adopt, Ordered, ElectedBy;
    LeaderOnRecord(c, s);
    InvParts(c, v);
    InvMessage(c, AppendRequest(v, a));
    var sv, f := c.servers[s], c.servers[v];
    InTermLog(c, f.term);
    FollowerAgrees(c, v, f, c.services[v], f.term);
    AppendAdopts(c.hist.logs, f, a, sv.log);
    AdoptKeeps(f.log, sv.log, LastIndex(sv.log), LastIndex(sv.log));
  }

  // ---- One exchange ----

  /** Leader and follower are compacted to the same entry, and only the follower goes on with its term. */
  predicate Stuck(sv: Server, f: Server) {
    && sv.snap == f.snap && f.snap + 1 < |f.log| && sv.snap + 1 < |sv.log|
    && f.log[f.snap + 1].term == f.log[f.snap].term != sv.log[sv.snap + 1].term
  }

  /** All but these two are as they were; the leader knows the follower to hold its whole log; and the
      follower has heard of what was committed. */
  ghost predicate Caught(before: seq<Server>, after: seq<Server>, s: nat, v: nat) {
    && Follows(before, s, v) && Follows(after, s, v) && |after| == |before|
    && (forall j: nat :: j < |before| && j != s && j != v ==> after[j] == before[j])
    && var sv, sv', f, f' := before[s], after[s], before[v], after[v];
    && |sv.log| > 0 && |sv'.matched| == |sv'.next| == |sv.matched| == |sv.next| == |before|
    && sv' == sv.(matched := sv'.matched, next := sv'.next, commit := sv'.commit)
    && sv'.matched[v] == LastIndex(sv.log) && sv'.next[v] == |sv.log|
    && (forall j: nat :: j < |before| && j != v ==> sv'.matched[j] == sv.matched[j] && sv'.next[j] == sv.next[j])
    && sv'.commit >= sv.commit && (forall j: nat :: Majority(sv', j) ==> j <= sv'.commit)
    && Agree(f'.log, sv.log, LastIndex(sv.log)) && f'.commit >= f.commit && f'.commit >= sv.commit
    && f'.term == f.term
  }

  /** Only the leader's next index for the follower has changed: it is lower, and if it is now within
      the leader's snapshot then the follower's snapshot is shorter. */
  predicate Lowered(before: seq<Server>, after: seq<Server>, s: nat, v: nat) {
    && Follows(before, s, v) && v < |before[s].next| && |after| == |before| && v < |after[s].next|
    && after == before[s := before[s].(next := before[s].next[v := after[s].next[v]])]
    && 0 < after[s].next[v] < before[s].next[v]
    && (after[s].next[v] <= before[s].snap ==> before[v].snap < before[s].snap)
  }

  /** The follower's refusal sends the leader back, and not into a snapshot that it shares. */
  lemma RefusalMeans(sv: Server, f: Server, s: nat, v: nat, k: nat)
    requires sv.snap < |sv.log| && f.snap < |f.log| && v < |sv.next| && sv.snap < sv.next[v] <= |sv.log|
    requires f.term == sv.term
    requires var r := OnAppend(f, AppendArgsFor(sv, s, v)).1; !r.success && BacksUpTo(sv, r, k)
    requires k <= sv.snap && !Stuck(sv, f)
    requires sv.snap == f.snap ==> sv.log[sv.snap].term == f.log[sv.snap].term
    requires forall j: nat :: 0 < j < |f.log| ==> f.log[j].term >= 1
    ensures f.snap < sv.snap
  {
    hide OnAppend;
    AppendExactly(f, AppendArgsFor(sv, s, v));
  }

  /** Where a refusal sends the leader. */
  lemma BackUpTarget(sv: Server, r: AppendReply) returns (k: nat)
    ensures BacksUpTo(sv, r, k)
  {
    if r.conflictTerm != -1 && exists j: nat :: sv.snap < j < |sv.log| && sv.log[j].term == r.conflictTerm {
      var j: nat :| sv.snap < j < |sv.log| && sv.log[j].term == r.conflictTerm;
      k := LastWithTerm(sv.log, j, |sv.log|, r.conflictTerm) + 1;
    } else {
      k := r.conflictIndex;
    }
  }

  lemma FollowerTerms(c: Cluster, s: nat, v: nat)
    requires Inv(c) && s < |c.servers| && v < |c.servers| && c.servers[s].role == Leader
    requires c.servers[v].term == c.servers[s].term
    ensures var sv, f := c.servers[s], c.servers[v];
      && |f.log| > 0 && |sv.log| > 0 && sv.log[0] == f.log[0]
      && (forall j: nat :: 0 < j < |f.log| ==> f.log[j].term >= 1)
      && sv.snap < |sv.log| && f.snap < |f.log|
      && (sv.snap == f.snap ==> sv.log[sv.snap].term == f.log[sv.snap].term)
  {
    hide RecordsOk, Complete, Committed, VoterOk, Agree;
    var sv, f := c.servers[s], c.servers[v];
    InvParts(c, s);
    InvParts(c, v);
    LeaderOnRecord(c, s);
    LogOnRecord(c, v);
    LogOnRecord(c, s);
    FollowerAgrees(c, v, f, c.services[v], f.term);
    assert Agree(f.log, sv.log, f.commit);
    AgreeBelow(f.log, sv.log, f.commit, f.snap);
    AgreeHere(f.log, sv.log, f.snap);
  }

  lemma AgreeHere(a: seq<Entry>, b: seq<Entry>, i: nat)
    requires Agree(a, b, i)
    ensures i < |a| && i < |b| && a[i] == b[i]
  {
  }

  lemma Accepted(run: Run, servers: seq<Server>, s: nat, v: nat) returns (run': Run, servers': seq<Server>)
    requires Ends(run, servers) && Follows(servers, s, v) && v < |servers[s].next| && servers[v].snap < |servers[v].log|
    requires servers[s].snap < servers[s].next[v] <= |servers[s].log|
    requires HoldsPrevious(servers[v], AppendArgsFor(servers[s], s, v))
    ensures Ends(run', servers') && GoesOnFrom(run, run') && Caught(servers, servers', s, v)
  {
    hide IsRun, Inv, OnAppend, OnAppendReply, AppendReplyInBounds, LeaderOk, ServerOk, Majority, HoldsPrevious;
    LeaderFacts(run, servers, s, v);
    var sv, f, a := servers[s], servers[v], AppendArgsFor(servers[s], s, v);
    AppendExactly(f, a);
    run' := Exchange(run, servers, s, v);
    servers' := servers[v := OnAppend(f, a).0][s := OnAppendReply(sv, v, a, OnAppend(f, a).1)];
    BroughtUpToDate(run, servers, s, v);
    SuccessExactly(sv, v, a, OnAppend(f, a).1);
  }

  lemma Refused(run: Run, servers: seq<Server>, s: nat, v: nat) returns (run': Run, servers': seq<Server>)
    requires Ends(run, servers) && Follows(servers, s, v) && !Stuck(servers[s], servers[v])
    requires v < |servers[s].next| && v < |servers[s].matched| && servers[v].snap < |servers[v].log|
    requires servers[s].snap < servers[s].next[v] <= |servers[s].log| && servers[s].matched[v] == 0
    requires !HoldsPrevious(servers[v], AppendArgsFor(servers[s], s, v))
    ensures Ends(run', servers') && GoesOnFrom(run, run') && Lowered(servers, servers', s, v)
  {
    hide IsRun, Inv, OnAppend, OnAppendReply, Stuck, AppendReplyInBounds, BacksUpTo, LeaderOk, ServerOk;
    LeaderFacts(run, servers, s, v);
    FollowerTerms(Final(run), s, v);
    var sv, f, a := servers[s], servers[v], AppendArgsFor(servers[s], s, v);
    var r := OnAppend(f, a).1;
    AppendExactly(f, a);
    var r1 := SendTo(run, servers, s, v);
    var r2 := Receive(r1, servers, v, a);
    assert servers[v := OnAppend(f, a).0] == servers;
    run' := Do(r2, HandleAppendReply(s, AppendResponse(v, a, r)));
    servers' := servers[s := OnAppendReply(sv, v, a, r)];
    RefusalLowersNext(r2, |r2.states| - 1, s, AppendResponse(v, a, r));
    var k := BackUpTarget(sv, r);
    RefusalExactly(sv, v, a, r, k);
    if k <= sv.snap { RefusalMeans(sv, f, s, v, k); }
  }

  // ---- One snapshot ----

  /** The leader sends its snapshot to a follower whose service is not installing one. */
  lemma Offered(run: Run, servers: seq<Server>, s: nat, v: nat) returns (run': Run)
    requires Ends(run, servers) && Follows(servers, s, v) && servers[s].snap < |servers[s].log|
    ensures Ends(run', servers[v := servers[v].(active := false)]) && GoesOnFrom(run, run')
    ensures InstallRequest(v, SnapArgsFor(servers[s], s)) in Final(run').net
  {
    hide IsRun;
    var r1 := Do(run, SetFlags(v, servers[v].passive, false));
    run' := Do(r1, SendSnapshot(s, v));
  }

  /** The follower takes over the leader's snapshot, which is longer than its own. */
  lemma Installed(run: Run, servers: seq<Server>, s: nat, v: nat) returns (run': Run, servers': seq<Server>)
    requires Ends(run, servers) && Follows(servers, s, v) && servers[v].snap < servers[s].snap < |servers[s].log|
    requires v < |servers[s].next| && v < |servers[s].matched| && servers[s].matched[v] == 0
    requires servers[v].snap < |servers[v].log|
    ensures Ends(run', servers') && GoesOnFrom(run, run')
    ensures var sv, f' := servers[s], servers'[v];
      && servers' == servers[v := f'][s := sv.(matched := sv.matched[v := sv.snap], next := sv.next[v := sv.snap + 1])]
      && f'.role == Follower && f'.term == sv.term && f'.snap == sv.snap < |f'.log| && f'.commit >= servers[v].commit
      && f'.log[sv.snap] == sv.log[sv.snap]
  {
    hide IsRun, OnInstall, OnInstallReply, InBounds;
    var sv, a, f := servers[s], SnapArgsFor(servers[s], s), servers[v].(active := false);
    var asked := InstallRequest(v, a);
    var r2 := Offered(run, servers, s, v);
    InstallKeepsCommit(r2, |r2.states| - 1, asked);
    InstallExactly(f, a);
    InstallSnap(f, a);
    var (f', r) := OnInstall(f, a);
    PrefixEnd(f'.log, a.data, sv.snap);
    var r3 := Do(r2, HandleInstall(asked));
    run' := Do(r3, HandleInstallReply(s, InstallResponse(v, a, r)));
    SnapshotHeard(sv, v, a, r);
    servers' := Final(run').servers;
  }

  lemma PrefixEnd(log: seq<Entry>, data: seq<Entry>, k: nat)
    requires k + 1 <= |log| && log[..k + 1] == data
    ensures |data| == k + 1 && log[k] == data[k]
  {
  }

  lemma SnapshotHeard(sv: Server, v: nat, a: SnapArgs, r: SnapReply)
    requires Heeded(sv, a.term, r.term) && r.accept && a.lastIndex == sv.snap
    requires v < |sv.next| && v < |sv.matched| && sv.matched[v] == 0
    ensures OnInstallReply(sv, v, a, r)
         == sv.(matched := sv.matched[v := sv.snap], next := sv.next[v := sv.snap + 1])
  {
    hide OnInstallReply;
    SnapshotConfirmed(sv, v, a, r);
    var after := OnInstallReply(sv, v, a, r);
    assert after.matched == sv.matched[v := sv.snap] && after.next == sv.next[v := sv.snap + 1];
  }

  lemma InstallSnap(f: Server, a: SnapArgs)
    requires f.snap < |f.log| && OnInstall(f, a).1.accept && |a.data| == a.lastIndex + 1
    ensures OnInstall(f, a).0.snap == a.lastIndex < |OnInstall(f, a).0.log|
  {
  }

  // ---- Until the follower is up to date ----

  lemma {:induction false} CatchUp(run: Run, servers: seq<Server>, s: nat, v: nat)
    returns (run': Run, servers': seq<Server>)
    requires Ends(run, servers) && Follows(servers, s, v) && !Stuck(servers[s], servers[v])
    requires v < |servers[s].next| && v < |servers[s].matched| && servers[s].matched[v] == 0
    requires servers[s].next[v] <= servers[s].snap ==> servers[v].snap < servers[s].snap
    ensures Ends(run', servers') && GoesOnFrom(run, run') && Caught(servers, servers', s, v)
    decreases servers[s].next[v]
  {
    hide IsRun, Inv, LeaderOk, ServerOk, Stuck, HoldsPrevious, Caught;
    LeaderFacts(run, servers, s, v);
    if servers[s].next[v] <= servers[s].snap {
      run', servers' := Installed(run, servers, s, v);
      var between := servers';
      LeaderFacts(run', between, s, v);
      SnapshotHolds(between[v], between[s], s, v);
      run', servers' := Accepted(run', between, s, v);
      CaughtAfterInstall(servers, between, servers', s, v);
    } else if HoldsPrevious(servers[v], AppendArgsFor(servers[s], s, v)) {
      run', servers' := Accepted(run, servers, s, v);
    } else {
      var r1, ss1 := Refused(run, servers, s, v);
      StuckStill(servers, ss1, s, v);
      run', servers' := CatchUp(r1, ss1, s, v);
      CaughtAfterLowered(servers, ss1, servers', s, v);
    }
  }

  lemma StuckStill(before: seq<Server>, after: seq<Server>, s: nat, v: nat)
    requires Lowered(before, after, s, v)
    ensures Stuck(after[s], after[v]) <==> Stuck(before[s], before[v])
  {
  }

  lemma SnapshotHolds(f: Server, sv: Server, s: nat, v: nat)
    requires v < |sv.next| && sv.next[v] == sv.snap + 1 <= |sv.log| && f.snap == sv.snap < |f.log|
    requires f.log[sv.snap] == sv.log[sv.snap]
    ensures HoldsPrevious(f, AppendArgsFor(sv, s, v))
  {
  }

  lemma CaughtAfterInstall(before: seq<Server>, between: seq<Server>, after: seq<Server>, s: nat, v: nat)
    requires Follows(before, s, v) && Caught(between, after, s, v)
    requires v < |before[s].next| && v < |before[s].matched| && |between| == |before|
    requires between == before[v := between[v]]
      [s := before[s].(matched := between[s].matched, next := between[s].next)]
    requires between[s].matched == before[s].matched[v := between[s].matched[v]]
    requires between[s].next == before[s].next[v := between[s].next[v]]
    requires between[v].commit >= before[v].commit && between[v].term == before[v].term
    ensures Caught(before, after, s, v)
  {
    hide Majority, Agree;
  }

  lemma CaughtAfterLowered(before: seq<Server>, between: seq<Server>, after: seq<Server>, s: nat, v: nat)
    requires Lowered(before, between, s, v) && Caught(between, after, s, v)
    ensures Caught(before, after, s, v)
  {
    hide Majority, Agree;
  }

  // ---- A round of exchanges with all followers ----

  /** The leader can bring this follower up to date: what it would send next fits the follower's log, or
      it knows nothing of the follower yet, and the two are not stuck. */
  predicate CanCatch(sv: Server, f: Server, v: nat) {
    && v < |sv.next| && v < |sv.matched| && sv.snap < sv.next[v] <= |sv.log| && f.snap < |f.log|
    && (sv.next[v] - 1 < f.snap
        || (sv.next[v] <= |f.log| && f.log[sv.next[v] - 1].term == sv.log[sv.next[v] - 1].term)
        || (sv.matched[v] == 0 && !Stuck(sv, f)))
  }

  lemma CatchOne(run: Run, servers: seq<Server>, s: nat, v: nat) returns (run': Run, servers': seq<Server>)
    requires Ends(run, servers) && Follows(servers, s, v) && CanCatch(servers[s], servers[v], v)
    ensures Ends(run', servers') && GoesOnFrom(run, run') && Caught(servers, servers', s, v)
  {
    hide IsRun, Caught, Stuck;
    if HoldsPrevious(servers[v], AppendArgsFor(servers[s], s, v)) {
      run', servers' := Accepted(run, servers, s, v);
    } else {
      run', servers' := CatchUp(run, servers, s, v);
    }
  }

  /** The first k servers are up to date with this leader, and nothing else has changed. */
  ghost predicate Rounded(before: seq<Server>, after: seq<Server>, s: nat, k: nat) {
    && |after| == |before| && s < |before| && |before[s].log| > 0
    && var sv, sv' := before[s], after[s];
    && |sv'.matched| == |sv'.next| == |sv.matched| == |sv.next| == |before|
    && sv' == sv.(matched := sv'.matched, next := sv'.next, commit := sv'.commit) && sv'.commit >= sv.commit
    && sv'.matched[s] == sv.matched[s] && sv'.next[s] == sv.next[s]
    && (k > (if s == 0 then 1 else 0) ==> forall j: nat :: Majority(sv', j) ==> j <= sv'.commit)
    && forall v: nat :: v < |before| && v != s ==>
         && Follows(after, s, v)
         && (v < k ==>
               && sv'.matched[v] == LastIndex(sv.log) && sv'.next[v] == |sv.log|
               && Agree(after[v].log, sv.log, LastIndex(sv.log))
               && after[v].commit >= before[v].commit && after[v].commit >= sv.commit)
         && (v >= k ==> after[v] == before[v] && sv'.matched[v] == sv.matched[v] && sv'.next[v] == sv.next[v])
  }

  /** All other servers follow this one. */
  ghost predicate Led(servers: seq<Server>, s: nat) {
    && s < |servers| && servers[s].role == Leader && |servers[s].log| > 0
    && |servers[s].matched| == |servers[s].next| == |servers|
    && forall v: nat :: v < |servers| && v != s ==> Follows(servers, s, v)
  }

  lemma {:induction false} Round(run: Run, servers: seq<Server>, s: nat, k: nat)
    returns (run': Run, servers': seq<Server>)
    requires Ends(run, servers) && Led(servers, s) && k <= |servers|
    requires forall v: nat :: v < |servers| && v != s ==> CanCatch(servers[s], servers[v], v)
    ensures Ends(run', servers') && GoesOnFrom(run, run') && Rounded(servers, servers', s, k)
  {
    hide IsRun, CanCatch, Majority, Caught, Agree;
    if k == 0 {
      run', servers' := run, servers;
    } else {
      var r1, ss1 := Round(run, servers, s, k - 1);
      run', servers' := r1, ss1;
      if k - 1 != s {
        StillCatches(servers, ss1, s, k - 1);
        run', servers' := CatchOne(r1, ss1, s, k - 1);
        OneMoreCaught(servers, ss1, servers', s, k - 1);
      }
    }
  }

  lemma StillCatches(before: seq<Server>, after: seq<Server>, s: nat, v: nat)
    requires Rounded(before, after, s, v) && v < |before| && v != s && CanCatch(before[s], before[v], v)
    ensures CanCatch(after[s], after[v], v)
  {
    hide Majority, Agree;
  }

  lemma OneMoreCaught(before: seq<Server>, between: seq<Server>, after: seq<Server>, s: nat, v: nat)
    requires Rounded(before, between, s, v) && v < |before| && v != s && Caught(between, after, s, v)
    ensures Rounded(before, after, s, v + 1)
  {
    hide Majority, Agree, Stuck;
  }

  // ---- A command for everyone ----

  /** The leader takes a command. */
  lemma Proposed(run: Run, servers: seq<Server>, s: nat, command: Command) returns (run': Run, servers': seq<Server>)
    requires Ends(run, servers) && Led(servers, s)
    ensures Ends(run', servers') && GoesOnFrom(run, run')
    ensures var sv := servers[s];
      servers' == servers[s := sv.(log := sv.log + [Entry(sv.term, command)],
                                   matched := sv.matched[s := |sv.log|], next := sv.next[s := |sv.log| + 1])]
  {
    hide IsRun, Led;
    assert Led(servers, s);
    LedSizes(servers, s);
    var r1 := Do(run, Start(s, command));
    run' := Do(r1, Broadcast(s));
    servers' := Final(run').servers;
  }

  lemma LedSizes(servers: seq<Server>, s: nat)
    requires Led(servers, s)
    ensures s < |servers| && servers[s].role == Leader && |servers[s].log| > 0
    ensures |servers[s].matched| == |servers[s].next| == |servers|
  {
  }

  lemma AllMatched(sv: Server, e: nat)
    requires 0 < e < |sv.log| && sv.log[e].term == sv.term && |sv.matched| > 0
    requires forall j: nat :: j < |sv.matched| ==> sv.matched[j] >= e
    ensures Majority(sv, e)
  {
    assert Reached(sv.matched, e) == Below(|sv.matched|);
  }

  lemma ServerBounds(run: Run, servers: seq<Server>, v: nat)
    requires Ends(run, servers) && v < |servers|
    ensures servers[v].snap <= servers[v].lastApplied <= servers[v].commit < |servers[v].log|
    ensures Final(run).services[v] == servers[v].log[..servers[v].lastApplied + 1]
  {
    hide IsRun, Inv;
    RunInv(run, |run.states| - 1);
    InvParts(Final(run), v);
    LogParts(Final(run), v);
  }

  lemma LogParts(c: Cluster, v: nat)
    requires v < |c.servers| && v < |c.services| && ServerOk(c, v, c.servers[v], c.services[v])
    ensures c.servers[v].snap <= c.servers[v].lastApplied <= c.servers[v].commit < |c.servers[v].log|
    ensures c.services[v] == c.servers[v].log[..c.servers[v].lastApplied + 1]
  {
  }

  /** A new leader can bring a follower up to date if the two are not stuck. */
  lemma NewLeaderCatches(run: Run, run': Run, s: nat, v: nat)
    requires Elected(run, run', s) && v < |Final(run).servers| && v != s
    requires !Stuck(Final(run).servers[s], Final(run).servers[v])
    ensures var servers := Final(run').servers; v < |servers| && s < |servers| && CanCatch(servers[s], servers[v], v)
  {
    hide IsRun;
    SizesKept(run');
    ServerBounds(run', Final(run').servers, v);
    ServerBounds(run', Final(run').servers, s);
  }

  lemma NewLeaderLeads(run: Run, run': Run, s: nat)
    requires Elected(run, run', s)
    ensures Led(Final(run').servers, s)
    ensures forall v: nat :: v < |Final(run').servers| ==> Final(run').servers[s].matched[v] == 0
  {
    hide IsRun;
  }

  /** What a leader would send next fits a follower that it has brought up to date. */
  lemma FitsAgain(run: Run, servers: seq<Server>, s: nat, v: nat)
    requires Ends(run, servers) && Led(servers, s) && v < |servers| && v != s
    requires servers[s].snap < servers[s].next[v] <= |servers[s].log|
    requires Agree(servers[v].log, servers[s].log, servers[s].next[v] - 1)
    ensures CanCatch(servers[s], servers[v], v)
  {
    hide IsRun;
    ServerBounds(run, servers, v);
  }

  /** Everyone holds the leader's whole log and knows it committed. */
  ghost predicate Shared(servers: seq<Server>, s: nat) {
    s < |servers| && |servers[s].log| > 0
    && forall v: nat :: v < |servers| ==>
         && Agree(servers[v].log, servers[s].log, LastIndex(servers[s].log))
         && servers[v].commit >= LastIndex(servers[s].log)
  }

  lemma AfterRound(before: seq<Server>, after: seq<Server>, s: nat)
    requires Led(before, s) && Rounded(before, after, s, |before|)
    ensures Led(after, s) && after[s].log == before[s].log && after[s].snap == before[s].snap
    ensures after[s].term == before[s].term && after[s].matched[s] == before[s].matched[s]
    ensures forall v: nat :: v < |before| && v != s ==>
      && after[s].next[v] == |after[s].log| && after[s].matched[v] == LastIndex(after[s].log)
      && Agree(after[v].log, after[s].log, LastIndex(after[s].log)) && after[v].commit >= before[s].commit
    ensures after[s].commit >= before[s].commit
    ensures |before| >= 2 ==> forall j: nat :: Majority(after[s], j) ==> j <= after[s].commit
  {
    hide Majority, Agree;
  }

  /** With everyone up to date, one more command is stored and committed by everyone. */
  lemma CommandShared(run: Run, servers: seq<Server>, s: nat, command: Command)
    returns (run': Run, servers': seq<Server>)
    requires Ends(run, servers) && Led(servers, s) && |servers| >= 2 && servers[s].snap < |servers[s].log|
    requires forall v: nat :: v < |servers| && v != s ==>
      servers[s].next[v] == |servers[s].log| && Agree(servers[v].log, servers[s].log, LastIndex(servers[s].log))
    ensures Ends(run', servers') && GoesOnFrom(run, run') && Shared(servers', s) && |servers'| == |servers|
    ensures servers'[s].log == servers[s].log + [Entry(servers[s].term, command)]
  {
    hide IsRun, Majority, CanCatch, Led, Rounded;
    var r1, ss1 := Proposed(run, servers, s, command);
    ProposedLed(servers, ss1, s, command);
    forall v: nat | v < |ss1| && v != s ensures CanCatch(ss1[s], ss1[v], v) {
      FitsAgain(r1, ss1, s, v);
    }
    var r2, ss2 := Round(r1, ss1, s, |servers|);
    AfterRound(ss1, ss2, s);
    LedSizes(ss2, s);
    AllMatched(ss2[s], LastIndex(ss2[s].log));
    forall v: nat | v < |ss2| && v != s ensures CanCatch(ss2[s], ss2[v], v) {
      FitsAgain(r2, ss2, s, v);
    }
    run', servers' := Round(r2, ss2, s, |servers|);
    AfterRound(ss2, servers', s);
  }

  lemma ProposedLed(before: seq<Server>, after: seq<Server>, s: nat, command: Command)
    requires Led(before, s) && before[s].snap < |before[s].log|
    requires after == before[s := before[s].(log := before[s].log + [Entry(before[s].term, command)],
      matched := before[s].matched[s := |before[s].log|], next := before[s].next[s := |before[s].log| + 1])]
    requires forall v: nat :: v < |before| && v != s ==>
      before[s].next[v] == |before[s].log| && Agree(before[v].log, before[s].log, LastIndex(before[s].log))
    ensures Led(after, s)
    ensures after[s].matched[s] == LastIndex(after[s].log)
    ensures forall v: nat :: v < |before| && v != s ==>
      && after[s].snap < after[s].next[v] <= |after[s].log|
      && Agree(after[v].log, after[s].log, after[s].next[v] - 1)
  {
    forall v: nat | v < |after| && v != s ensures Follows(after, s, v) {
      assert Follows(before, s, v);
    }
  }

  // ---- Handing over to the service ----

  lemma {:induction false} ApplyUp(run: Run, servers: seq<Server>, v: nat) returns (run': Run)
    requires Ends(run, servers) && v < |servers|
    ensures Ends(run', servers[v := servers[v].(lastApplied := servers[v].commit)]) && GoesOnFrom(run, run')
    decreases servers[v].commit - servers[v].lastApplied
  {
    hide IsRun;
    ServerBounds(run, servers, v);
    if servers[v].lastApplied == servers[v].commit {
      run' := run;
      assert servers == servers[v := servers[v].(lastApplied := servers[v].commit)];
    } else {
      var r1 := Do(run, ApplyNext(v));
      var ss1 := servers[v := servers[v].(lastApplied := servers[v].lastApplied + 1)];
      run' := ApplyUp(r1, ss1, v);
      assert ss1[v := ss1[v].(lastApplied := ss1[v].commit)]
          == servers[v := servers[v].(lastApplied := servers[v].commit)];
    }
  }

  lemma {:induction false} ApplyAll(run: Run, servers: seq<Server>, k: nat) returns (run': Run, servers': seq<Server>)
    requires Ends(run, servers) && k <= |servers|
    ensures Ends(run', servers') && GoesOnFrom(run, run') && |servers'| == |servers|
    ensures forall v: nat :: v < |servers| ==>
      servers'[v] == if v < k then servers[v].(lastApplied := servers[v].commit) else servers[v]
  {
    hide IsRun;
    if k == 0 {
      run', servers' := run, servers;
    } else {
      var r1, ss1 := ApplyAll(run, servers, k - 1);
      run' := ApplyUp(r1, ss1, k - 1);
      servers' := ss1[k - 1 := ss1[k - 1].(lastApplied := ss1[k - 1].commit)];
    }
  }

  // ---- The theorem ----

  /** After the longer run every service has carried out the command, in the place just after the log that
      server s had, and under a term newer than any before. */
  ghost predicate Delivered(run: Run, run': Run, s: nat, command: Command, term: int) {
    && |run.states| > 0 && |run'.states| > 0 && IsRun(run') && GoesOnFrom(run, run')
    && var n := |Final(run).servers|;
    && |Final(run').services| == n && s < n
    && forall v: nat :: v < n ==>
         && Final(run).servers[v].term < term
         && |Final(run').services[v]| > |Final(run).servers[s].log|
         && Final(run').services[v][|Final(run).servers[s].log|] == Entry(term, command)
  }

  /** No follower would be stuck under this leader. */
  ghost predicate NoneStuck(servers: seq<Server>, s: nat) {
    s < |servers| && forall v: nat :: v < |servers| && v != s ==> !Stuck(servers[s], servers[v])
  }

  lemma SharedService(run: Run, servers: seq<Server>, s: nat, v: nat)
    requires Ends(run, servers) && Shared(servers, s) && v < |servers| && servers[v].lastApplied == servers[v].commit
    ensures |Final(run).services[v]| > LastIndex(servers[s].log)
    ensures Final(run).services[v][LastIndex(servers[s].log)] == servers[s].log[LastIndex(servers[s].log)]
  {
    hide IsRun;
    ServerBounds(run, servers, v);
  }

  /** Whatever has happened in a cluster of two or more, a command can still be carried out everywhere,
      by electing a server that is preferred and under which nobody is stuck. */
  lemma CanDeliver(run: Run, s: nat, command: Command) returns (run': Run, term: int)
    requires |run.states| > 0 && IsRun(run) && |Final(run).servers| >= 2
    requires Preferred(Final(run).servers, s) && NoneStuck(Final(run).servers, s)
    ensures Delivered(run, run', s, command, term)
  {
    hide IsRun, Elected, Preferred, Led, CanCatch, Rounded, Shared, Stuck;
    var r1 := PreferredWins(run, s);
    ElectedKnown(run, r1, s);
    SizesKept(r1);
    var ss1 := Final(r1).servers;
    NewLeaderLeads(run, r1, s);
    ServerBounds(r1, ss1, s);
    forall v: nat | v < |ss1| && v != s ensures CanCatch(ss1[s], ss1[v], v) {
      NewLeaderCatches(run, r1, s, v);
    }
    var r2, ss2 := Round(r1, ss1, s, |ss1|);
    AfterRound(ss1, ss2, s);
    var r3, ss3 := CommandShared(r2, ss2, s, command);
    var r4, ss4 := ApplyAll(r3, ss3, |ss3|);
    SharedStill(ss3, ss4, s);
    run', term := r4, ss1[s].term;
    forall v: nat | v < |ss4|
      ensures |Final(run').services[v]| > LastIndex(ss4[s].log)
      ensures Final(run').services[v][LastIndex(ss4[s].log)] == ss4[s].log[LastIndex(ss4[s].log)]
    {
      SharedService(r4, ss4, s, v);
    }
  }

  lemma ElectedKnown(run: Run, run': Run, s: nat)
    requires Elected(run, run', s)
    ensures IsRun(run') && GoesOnFrom(run, run') && |run'.states| > 0
    ensures s < |Final(run').servers| == |Final(run).servers| && Final(run').servers[s].log == Final(run).servers[s].log
    ensures forall v: nat :: v < |Final(run).servers| ==> Final(run).servers[v].term < Final(run').servers[s].term
  {
  }

  lemma SharedStill(before: seq<Server>, after: seq<Server>, s: nat)
    requires Shared(before, s) && |after| == |before|
    requires forall v: nat :: v < |before| ==> after[v] == before[v].(lastApplied := before[v].commit)
    ensures Shared(after, s) && after[s].log == before[s].log
  {
  }
}
