/** The server objects inside a cluster: in every reachable state, each handler may be called on every
    message there is, and the object then stands for the server after that step. */
module RaftRefinement {
  import opened Options
  import opened RaftServer
  import opened RaftCluster
  import opened RaftInvariant
  import opened RaftProof
  import opened RaftFollowing
  import opened RaftSafety
  import opened RaftNode

  /** The object is server s of the cluster. */
  ghost predicate Plays(r: Raft, c: Cluster, s: nat)
    reads r, r.persister
  {
    r.Valid() && s < |c.servers| && r.me == s && r.peers == |c.servers| && r.Abs() == c.servers[s]
  }

  /** The message with the indices that its entries carry. */
  function Numbered(a: AppendArgs): AppendEntriesArgs {
    AppendEntriesArgs(a.term, a.leader, a.prevIndex, a.prevTerm,
                      seq(|a.entries|, i requires 0 <= i < |a.entries| =>
                            LogEntry(a.entries[i].command, a.entries[i].term, a.prevIndex + 1 + i)),
                      a.leaderCommit)
  }

  lemma NumberedIsSame(a: AppendArgs)
    ensures Numbered(a).Consecutive() && Numbered(a).Abstract() == a
  {
    assert Strip(Numbered(a).entries) == a.entries;
  }

  /** What the handler of the message demands. */
  ghost predicate MayHandle(r: Raft, m: Message)
    requires r.Valid()
    reads r, r.persister
  {
    match m
    case VoteRequest(_, _) => true
    case VoteResponse(_, _, _) => true
    case AppendRequest(_, a) => Numbered(a).Consecutive()
    case AppendResponse(from, a, reply) =>
      |r.Full()| > 0 && AppendReplyInBounds(r.Abs(), from, Numbered(a).Abstract(), reply)
    case InstallRequest(_, a) => |a.data| == a.lastIndex + 1 && a.data[a.lastIndex].term == a.lastTerm
    case InstallResponse(from, a, _) =>
      r.state == Leader && r.currentTerm == a.term ==> from < |r.nextIndex| && from < |r.matchIndex|
  }

  /** The message is one for server s. */
  predicate IsFor(m: Message, s: nat) {
    match m
    case VoteRequest(to, _) => to == s
    case VoteResponse(_, a, _) => a.candidate == s
    case AppendRequest(to, _) => to == s
    case AppendResponse(_, a, _) => a.leader == s
    case InstallRequest(to, _) => to == s
    case InstallResponse(_, a, _) => a.leader == s
  }

  /** What the steps that no message starts demand: a round of appends, a snapshot of what was
      applied, a round of the apply loop, and booting again. */
  ghost predicate MayAct(r: Raft)
    requires r.Valid()
    reads r, r.persister
  {
    && (r.state == Leader ==>
          && r.me < r.peers == |r.nextIndex| == |r.matchIndex|
          && forall idx :: 0 <= idx < r.peers ==>
               && 0 < r.nextIndex[idx] <= |r.Full()|
               && (r.nextIndex[idx] <= r.lastIncludedIndex ==> r.lastIncludedIndex > 0))
    && r.lastApplied <= r.commitIndex && r.lastApplied < |r.Full()|
    && (r.lastApplied < r.commitIndex ==> r.lastApplied + 1 < |r.Full()|)
    && r.persister.raftState.Some? && StateOk(r.persister.raftState.value, r.persister.snapshot)
  }

  /** Nothing the handlers demand can fail in a run. */
  lemma HandlersMayBeCalled(run: Run, i: nat, r: Raft, s: nat)
    requires IsRun(run) && i < |run.states| && Plays(r, run.states[i], s)
    ensures MayAct(r)
    ensures forall m :: m in run.states[i].net && IsFor(m, s) ==> MayHandle(r, m)
  {
    hide IsRun, Inv, RecordsOk, LeadersOk, Complete, FullLog, StateOk;
    RunInv(run, i);
    var c := run.states[i];
    InvParts(c, s);
    forall m | m in c.net && IsFor(m, s) ensures MayHandle(r, m) {
      InvMessage(c, m);
      MessageMayBeHandled(c, s, r, m);
    }
  }

  lemma MessageMayBeHandled(c: Cluster, s: nat, r: Raft, m: Message)
    requires Plays(r, c, s) && RecordsOk(c) && s < |c.services| && ServerOk(c, s, c.servers[s], c.services[s])
    requires MessageOk(c, m) && IsFor(m, s)
    ensures MayHandle(r, m)
  {
    hide FullLog, StateOk, RecordsOk, AppendReplyInBounds, WellFormed, Committed, AppendOk;
    match m
    case AppendRequest(_, a) => NumberedIsSame(a);
    case AppendResponse(_, a, _) =>
      NumberedIsSame(a);
      AppendReplyServer(c, s, c.servers[s], c.services[s], m);
    case _ =>
  }

  /** The step in which server s handles the message. */
  function Handling(m: Message, s: nat): Step {
    match m
    case VoteRequest(_, _) => HandleVoteRequest(m)
    case VoteResponse(_, _, _) => HandleVoteReply(s, m)
    case AppendRequest(_, _) => HandleAppend(m)
    case AppendResponse(_, _, _) => HandleAppendReply(s, m)
    case InstallRequest(_, _) => HandleInstall(m)
    case InstallResponse(_, _, _) => HandleInstallReply(s, m)
  }

  /** What the step makes of the server. */
  function Handled(sv: Server, m: Message): Server
    requires sv.snap < |sv.log|
    requires m.AppendResponse? ==> AppendReplyInBounds(sv, m.from, m.appendArgs, m.appendReply)
    requires m.InstallResponse? && sv.role == Leader && sv.term == m.snapArgs.term ==>
               m.from < |sv.next| && m.from < |sv.matched|
  {
    match m
    case VoteRequest(_, a) => OnVoteRequest(sv, a).0
    case VoteResponse(from, a, r) => OnVoteReply(sv, from, a, r)
    case AppendRequest(_, a) => OnAppend(sv, a).0
    case AppendResponse(from, a, r) => OnAppendReply(sv, from, a, r)
    case InstallRequest(_, a) => OnInstall(sv, a).0
    case InstallResponse(from, a, r) => OnInstallReply(sv, from, a, r)
  }

  lemma HandlingStep(run: Run, i: nat, s: nat, m: Message)
    requires IsRun(run) && i < |run.states| && s < |run.states[i].servers| && m in run.states[i].net && IsFor(m, s)
    ensures var c := run.states[i];
      && Enabled(c, Handling(m, s)) && InBounds(c, Handling(m, s))
      && c.servers[s].snap < |c.servers[s].log|
      && Apply(c, Handling(m, s)).servers == c.servers[s := Handled(c.servers[s], m)]
  {
    hide IsRun, Inv, OnAppend, OnAppendReply, OnInstall, OnInstallReply, OnVoteRequest, OnVoteReply,
         AppendReplyInBounds;
    RunInv(run, i);
    InvParts(run.states[i], s);
    assert Enabled(run.states[i], Handling(m, s)) by { ServicesThere(run.states[i]); }
    StepKeepsInv(run.states[i], Handling(m, s));
  }

  lemma ServicesThere(c: Cluster)
    requires ServersOk(c)
    ensures |c.services| == |c.servers|
  {
  }

  /** The object handles a message of a reachable state, and then is the server that the cluster's step
      makes of it. */
  method Handle(ghost run: Run, ghost i: nat, r: Raft, ghost s: nat, m: Message)
    requires IsRun(run) && i < |run.states| && Plays(r, run.states[i], s)
    requires m in run.states[i].net && IsFor(m, s)
    modifies r, r.persister
    ensures Enabled(run.states[i], Handling(m, s)) && InBounds(run.states[i], Handling(m, s))
    ensures Plays(r, Apply(run.states[i], Handling(m, s)), s)
  {
    hide IsRun, FullLog, StateOk, Apply, Enabled, InBounds;
    HandlersMayBeCalled(run, i, r, s);
    HandlingStep(run, i, s, m);
    match m {
      case VoteRequest(_, a) => var _ := r.RequestVote(a);
      case VoteResponse(from, a, reply) => r.HandleVoteReply(from, a, reply);
      case AppendRequest(_, a) =>
        NumberedIsSame(a);
        var _ := r.AppendEntries(Numbered(a));
      case AppendResponse(from, a, reply) =>
        NumberedIsSame(a);
        r.HandleAppendReply(from, Numbered(a), reply);
      case InstallRequest(_, a) => var _ := r.CondInstallSnap(a);
      case InstallResponse(from, a, reply) => r.HandleSnapshotReply(from, a, reply);
    }
  }

  // ---- A leader's round of appends ----

  /** The round begins with the leader's own entries. */
  method BeginRound(ghost run: Run, ghost i: nat, r: Raft, ghost s: nat)
    requires IsRun(run) && i < |run.states| && Plays(r, run.states[i], s) && r.state == Leader
    modifies r
    ensures Enabled(run.states[i], Broadcast(s)) && InBounds(run.states[i], Broadcast(s))
    ensures Plays(r, Apply(run.states[i], Broadcast(s)), s)
  {
    hide IsRun, Inv, FullLog, StateOk;
    HandlersMayBeCalled(run, i, r, s);
    LeaderSteps(run, i, s, s);
    r.UpdateOwnMatch();
  }

  /** Then each peer is sent the entries it lacks, or the snapshot if they are compacted away: what is
      sent is the message of the cluster's step. */
  method SendTo(ghost run: Run, ghost i: nat, r: Raft, ghost s: nat, to: nat)
    returns (append: Option<AppendEntriesArgs>, snapshot: Option<SnapArgs>)
    requires IsRun(run) && i < |run.states| && Plays(r, run.states[i], s) && r.state == Leader
    requires to < r.peers && to != r.me
    ensures append.Some? <==> snapshot.None?
    ensures append.Some? ==>
      && Enabled(run.states[i], SendAppend(s, to)) && InBounds(run.states[i], SendAppend(s, to))
      && append.value.Consecutive()
      && AppendRequest(to, append.value.Abstract()) in Apply(run.states[i], SendAppend(s, to)).net
    ensures snapshot.Some? ==>
      && Enabled(run.states[i], SendSnapshot(s, to)) && InBounds(run.states[i], SendSnapshot(s, to))
      && InstallRequest(to, snapshot.value) in Apply(run.states[i], SendSnapshot(s, to)).net
  {
    hide IsRun, Inv, FullLog, StateOk;
    HandlersMayBeCalled(run, i, r, s);
    LeaderSteps(run, i, s, to);
    append := r.PrepareAppend(to);
    if append.Some? { return append, None; }
    var args := r.PrepareSnapshot();
    snapshot := Some(args);
  }

  lemma LeaderSteps(run: Run, i: nat, s: nat, to: nat)
    requires IsRun(run) && i < |run.states| && s < |run.states[i].servers| && to < |run.states[i].servers|
    requires run.states[i].servers[s].role == Leader
    ensures var c, sv := run.states[i], run.states[i].servers[s];
      && |c.services| == |c.servers| && sv.snap < |sv.log| && s < |sv.next| && s < |sv.matched| && to < |sv.next|
      && Enabled(c, Broadcast(s)) && InBounds(c, Broadcast(s))
      && (to != s && sv.next[to] > sv.snap ==> Enabled(c, SendAppend(s, to)) && InBounds(c, SendAppend(s, to)))
      && (to != s ==> Enabled(c, SendSnapshot(s, to)) && InBounds(c, SendSnapshot(s, to)))
  {
    hide IsRun, RecordsOk, LeadersOk, Complete, Retained, BallotsOk, MessageOk, WellFormed, Committed;
    RunInv(run, i);
    AllInBounds(run.states[i]);
    NextIndexBounds(run, i, s, to);
    NextIndexBounds(run, i, s, s);
  }
}
