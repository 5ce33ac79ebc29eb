/** A whole cluster: servers that crash and restart, a network that loses, delays,
    repeats and reorders messages, and the service above each server. */
module RaftCluster {
  import opened RaftServer

  datatype Message =
    | VoteRequest(to: nat, voteArgs: VoteArgs)
    | VoteResponse(from: nat, voteArgs: VoteArgs, voteReply: VoteReply)
    | AppendRequest(to: nat, appendArgs: AppendArgs)
    | AppendResponse(from: nat, appendArgs: AppendArgs, appendReply: AppendReply)
    | InstallRequest(to: nat, snapArgs: SnapArgs)
    | InstallResponse(from: nat, snapArgs: SnapArgs, snapReply: SnapReply)

  /** What has happened so far; no step reads it.
      leaders: who won each term; logs: the log of that term's leader, as long as it grew;
      votes: for whom each server voted in each term;
      acks: up to where each server has confirmed that leader's log. */
  datatype History = History(
    leaders: map<int, nat>, logs: map<int, seq<Entry>>,
    votes: map<(nat, int), nat>, acks: map<(nat, int), nat>)

  datatype Cluster = Cluster(
    servers: seq<Server>, services: seq<seq<Entry>>, net: set<Message>, hist: History)

  datatype Step =
    | Timeout(s: nat)
    | AskVote(s: nat, to: nat, term: int)
    | HandleVoteRequest(m: Message)
    | HandleVoteReply(s: nat, m: Message)
    | Win(s: nat)
    | Start(s: nat, command: Command)
    | Broadcast(s: nat)
    | SendAppend(s: nat, to: nat)
    | SendSnapshot(s: nat, to: nat)
    | HandleAppend(m: Message)
    | HandleAppendReply(s: nat, m: Message)
    | HandleInstall(m: Message)
    | HandleInstallReply(s: nat, m: Message)
    | Snapshot(s: nat, index: nat)
    | ApplyNext(s: nat)
    | SetFlags(s: nat, passive: bool, active: bool)
    | Restart(s: nat)

  predicate Init(c: Cluster) {
    && |c.servers| > 0
    && c.servers == seq(|c.servers|, _ => InitServer())
    && c.services == seq(|c.servers|, _ => [PLACEHOLDER])
    && c.net == {}
    && c.hist == History(map[], map[], map[], map[])
  }

  /** The guards the code itself tests before a step. */
  predicate Enabled(c: Cluster, st: Step) {
    var n := |c.servers|;
    |c.services| == n &&
    match st
    case Timeout(s) => s < n
    case AskVote(s, to, term) => s < n && to < n && to != s && 1 <= term <= c.servers[s].term
    case HandleVoteRequest(m) => m in c.net && m.VoteRequest? && m.to < n
    case HandleVoteReply(s, m) => m in c.net && m.VoteResponse? && s < n && m.voteArgs.candidate == s
    case Win(s) => s < n && c.servers[s].role == Candidate && |c.servers[s].votes| >= n / 2 + 1
    case Start(s, _) => s < n
    case Broadcast(s) => s < n && c.servers[s].role == Leader
    case SendAppend(s, to) =>
      && s < n && to < n && to != s && c.servers[s].role == Leader
      && (to < |c.servers[s].next| ==> c.servers[s].next[to] > c.servers[s].snap)
    case SendSnapshot(s, to) => s < n && to < n && to != s && c.servers[s].role == Leader
    case HandleAppend(m) => m in c.net && m.AppendRequest? && m.to < n
    case HandleAppendReply(s, m) => m in c.net && m.AppendResponse? && s < n && m.appendArgs.leader == s
    case HandleInstall(m) => m in c.net && m.InstallRequest? && m.to < n
    case HandleInstallReply(s, m) => m in c.net && m.InstallResponse? && s < n && m.snapArgs.leader == s
    case Snapshot(s, index) => s < n && index <= c.servers[s].lastApplied
    case ApplyNext(s) => s < n
    case SetFlags(s, _, _) => s < n
    case Restart(s) => s < n
  }

  /** Every index the code touches in the step is within bounds. */
  predicate InBounds(c: Cluster, st: Step)
    requires Enabled(c, st)
  {
    (forall s :: 0 <= s < |c.servers| ==> c.servers[s].snap < |c.servers[s].log|) &&
    match st
    case Broadcast(s) => s < |c.servers[s].next| && s < |c.servers[s].matched|
    case SendAppend(s, to) => to < |c.servers[s].next| && 0 < c.servers[s].next[to] <= |c.servers[s].log|
    case HandleAppendReply(s, m) => AppendReplyInBounds(c.servers[s], m.from, m.appendArgs, m.appendReply)
    case HandleInstallReply(s, m) =>
      var sv := c.servers[s];
      sv.role == Leader && sv.term == m.snapArgs.term ==> m.from < |sv.next| && m.from < |sv.matched|
    case Snapshot(s, index) => index < |c.servers[s].log|
    case ApplyNext(s) =>
      var sv := c.servers[s];
      sv.lastApplied < sv.commit && sv.lastApplied + 1 > sv.snap ==> sv.lastApplied + 1 < |sv.log|
    case _ => true
  }

  function SetServer(c: Cluster, s: nat, sv: Server): Cluster
    requires s < |c.servers|
  {
    c.(servers := c.servers[s := sv])
  }

  function SetService(c: Cluster, s: nat, entries: seq<Entry>): Cluster
    requires s < |c.services|
  {
    c.(services := c.services[s := entries])
  }

  function Send(c: Cluster, m: Message): Cluster {
    c.(net := c.net + {m})
  }

  function RecordVote(c: Cluster, s: nat, term: int, candidate: nat): Cluster {
    c.(hist := c.hist.(votes := c.hist.votes[(s, term) := candidate]))
  }

  function RecordLeader(c: Cluster, term: int, s: nat, log: seq<Entry>): Cluster {
    c.(hist := c.hist.(leaders := c.hist.leaders[term := s], logs := c.hist.logs[term := log]))
  }

  function RecordAck(c: Cluster, s: nat, term: int, index: nat): Cluster {
    var prior := if (s, term) in c.hist.acks then c.hist.acks[(s, term)] else 0;
    c.(hist := c.hist.(acks := c.hist.acks[(s, term) := Max(prior, index)]))
  }

  function Apply(c: Cluster, st: Step): Cluster
    requires Enabled(c, st) && InBounds(c, st)
  {
    match st
    case Timeout(s) =>
      var sv := OnTimeout(c.servers[s], s);
      RecordVote(SetServer(c, s, sv), s, sv.term, s)
    case AskVote(s, to, term) =>
      var log := c.servers[s].log;
      Send(c, VoteRequest(to, VoteArgs(term, s, LastIndex(log), LastTerm(log))))
    case HandleVoteRequest(m) =>
      var (sv, r) := OnVoteRequest(c.servers[m.to], m.voteArgs);
      var c1 := SetServer(c, m.to, sv);
      var c2 := if r.granted then RecordVote(c1, m.to, sv.term, m.voteArgs.candidate) else c1;
      Send(c2, VoteResponse(m.to, m.voteArgs, r))
    case HandleVoteReply(s, m) =>
      SetServer(c, s, OnVoteReply(c.servers[s], m.from, m.voteArgs, m.voteReply))
    case Win(s) =>
      var sv := OnWin(c.servers[s], |c.servers|);
      RecordLeader(SetServer(c, s, sv), sv.term, s, sv.log)
    case Start(s, command) =>
      var sv := OnStart(c.servers[s], command);
      var c1 := SetServer(c, s, sv);
      if sv.role == Leader then RecordLeader(c1, sv.term, s, sv.log) else c1
    case Broadcast(s) =>
      var sv := OnBroadcast(c.servers[s], s);
      RecordAck(SetServer(c, s, sv), s, sv.term, LastIndex(sv.log))
    case SendAppend(s, to) =>
      Send(c, AppendRequest(to, AppendArgsFor(c.servers[s], s, to)))
    case SendSnapshot(s, to) =>
      Send(c, InstallRequest(to, SnapArgsFor(c.servers[s], s)))
    case HandleAppend(m) =>
      var (sv, r) := OnAppend(c.servers[m.to], m.appendArgs);
      var c1 := SetServer(c, m.to, sv);
      var c2 := if r.success
        then RecordAck(c1, m.to, sv.term, m.appendArgs.prevIndex + |m.appendArgs.entries|) else c1;
      Send(c2, AppendResponse(m.to, m.appendArgs, r))
    case HandleAppendReply(s, m) =>
      SetServer(c, s, OnAppendReply(c.servers[s], m.from, m.appendArgs, m.appendReply))
    case HandleInstall(m) =>
      var (sv, r) := OnInstall(c.servers[m.to], m.snapArgs);
      var c1 := SetServer(c, m.to, sv);
      var c2 := if r.accept
        then RecordAck(SetService(c1, m.to, m.snapArgs.data), m.to, sv.term, m.snapArgs.lastIndex) else c1;
      Send(c2, InstallResponse(m.to, m.snapArgs, r))
    case HandleInstallReply(s, m) =>
      SetServer(c, s, OnInstallReply(c.servers[s], m.from, m.snapArgs, m.snapReply))
    case Snapshot(s, index) => SetServer(c, s, OnSnapshot(c.servers[s], index))
    case ApplyNext(s) =>
      var (sv, delivered) := OnApply(c.servers[s]);
      var c1 := SetServer(c, s, sv);
      if delivered.Some? then SetService(c1, s, c1.services[s] + [delivered.value]) else c1
    case SetFlags(s, passive, active) =>
      SetServer(c, s, c.servers[s].(passive := passive, active := active))
    case Restart(s) =>
      var sv := OnRestart(c.servers[s]);
      SetService(SetServer(c, s, sv), s, sv.log[..sv.snap + 1])
  }

  /** A step whose indices are out of bounds panics; nothing is promised about what follows. */
  predicate Next(c: Cluster, st: Step, c': Cluster) {
    Enabled(c, st) && (InBounds(c, st) ==> c' == Apply(c, st))
  }

  datatype Run = Run(states: seq<Cluster>, steps: seq<Step>)

  predicate IsRun(run: Run) {
    && |run.states| == |run.steps| + 1
    && Init(run.states[0])
    && forall i :: 0 <= i < |run.steps| ==> Next(run.states[i], run.steps[i], run.states[i + 1])
  }
}
