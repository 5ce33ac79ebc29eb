/** Which votes have to be given, and that no cluster ever gets stuck without a leader. */
module RaftElection {
  import opened RaftServer
  import opened RaftCluster
  import opened RaftInvariant
  import opened RaftSafety
  import opened RaftWitness

  // ---- One vote ----

  /** The voter grants what server s asks for when it stands at that term. */
  predicate Gives(voter: Server, sv: Server, s: nat, term: int)
    requires |voter.log| > 0 && |sv.log| > 0
  {
    OnVoteRequest(voter, VoteArgs(term, s, LastIndex(sv.log), LastTerm(sv.log))).1.granted
  }

  /** Of two servers at least one gets the other's vote at a new term, and both do exactly when their
      logs end with the same index and term. */
  lemma EitherGives(x: Server, y: Server, i: nat, j: nat, t: int, u: int)
    requires |x.log| > 0 && |y.log| > 0 && t > y.term && u > x.term
    ensures Gives(y, x, i, t) || Gives(x, y, j, u)
    ensures Gives(y, x, i, t) && Gives(x, y, j, u)
            <==> LastIndex(x.log) == LastIndex(y.log) && LastTerm(x.log) == LastTerm(y.log)
  {
  }

  /** A newer last term gets the vote however long the voter's log is, and so does a log that goes on
      where the voter's ends. */
  lemma NewerGiven(voter: Server, sv: Server, s: nat, t: int)
    requires |voter.log| > 0 && |sv.log| > 0 && t > voter.term
    requires LastTerm(sv.log) > LastTerm(voter.log)
             || (voter.log <= sv.log && LastTerm(sv.log) == LastTerm(voter.log))
    ensures Gives(voter, sv, s, t)
  {
  }

  /** At its own term a server gives the vote it would give at a new one, unless it gave it to another;
      a vote once given is given again; and the vote is all that changes, but for a newer term. */
  lemma VoteExactly(voter: Server, a: VoteArgs)
    requires |voter.log| > 0
    ensures var (after, reply) := OnVoteRequest(voter, a);
      && (a.term < voter.term ==> !reply.granted && after == voter)
      && (a.term == voter.term ==>
            (reply.granted <==> (voter.vote == NOBODY || voter.vote == a.candidate)
                                && OnVoteRequest(voter.(term := a.term - 1), a).1.granted))
      && (a.term >= voter.term ==>
            && after.vote == (if reply.granted then a.candidate else if a.term > voter.term then NOBODY else voter.vote)
            && after.role == (if a.term > voter.term then Follower else voter.role)
            && after == voter.(term := a.term, vote := after.vote, role := after.role))
      && (reply.granted ==> OnVoteRequest(after, a) == (after, reply))
      && reply.term == after.term
  {
  }

  /** A server that stands moves on by one term and counts itself; a vote given to it for this term is
      counted once, however often it is heard; a newer term ends the attempt; anything else changes nothing.
      A winner sends each server first what follows its own last entry, and knows nothing of any yet. */
  lemma CandidacyExactly(sv: Server, me: nat, from: nat, a: VoteArgs, r: VoteReply, n: nat)
    requires |sv.log| > 0
    ensures var stood := OnTimeout(sv, me);
      && stood.term == sv.term + 1 && stood.vote == me && stood.role == Candidate && stood.votes == {me}
      && stood == sv.(term := stood.term, vote := stood.vote, role := Candidate, votes := stood.votes)
    ensures var heard := OnVoteReply(sv, from, a, r);
      && (sv.role != Candidate || a.term != sv.term ==> heard == sv)
      && (sv.role == Candidate && a.term == sv.term < r.term ==>
            heard == sv.(term := r.term, vote := NOBODY, role := Follower))
      && (sv.role == Candidate && a.term == sv.term >= r.term ==>
            && heard == sv.(votes := heard.votes)
            && forall v: nat :: v in heard.votes <==> v in sv.votes || (v == from && r.granted))
    ensures var won := OnWin(sv, n);
      && won.role == Leader && |won.next| == |won.matched| == n
      && (forall v: nat :: v < n ==> won.next[v] == |sv.log| && won.matched[v] == 0)
      && won == sv.(role := Leader, next := won.next, matched := won.matched)
  {
  }

  // ---- Some server can always win ----

  /** Every other server would vote for this one at any new term. */
  ghost predicate Preferred(servers: seq<Server>, s: nat) {
    s < |servers| && (forall v: nat :: v < |servers| ==> |servers[v].log| > 0)
    && forall v: nat, t: int :: v < |servers| && t > servers[v].term ==> Gives(servers[v], servers[s], s, t)
  }

  lemma {:induction false} BestOf(servers: seq<Server>, k: nat) returns (s: nat)
    requires 0 < k <= |servers| && forall v: nat :: v < |servers| ==> |servers[v].log| > 0
    ensures s < k
    ensures forall v: nat, t: int :: v < k && t > servers[v].term ==> Gives(servers[v], servers[s], s, t)
  {
    var last := k - 1;
    s := last;
    if k > 1 {
      var best := BestOf(servers, last);
      if Gives(servers[last], servers[best], best, servers[last].term + 1) { s := best; }
      forall v: nat, t: int | v < last && t > servers[v].term ensures Gives(servers[v], servers[s], s, t) {
        assert Gives(servers[v], servers[best], best, t);
      }
    }
  }

  /** In every state of every run some server would get all votes. */
  lemma SomePreferred(run: Run, i: nat) returns (s: nat)
    requires IsRun(run) && i < |run.states|
    ensures Preferred(run.states[i].servers, s)
  {
    hide IsRun, OnVoteRequest;
    RunInv(run, i);
    LogsThere(run.states[i]);
    s := BestOf(run.states[i].servers, |run.states[i].servers|);
  }

  lemma LogsThere(c: Cluster)
    requires Inv(c)
    ensures |c.servers| == |c.services| > 0
    ensures forall v: nat :: v < |c.servers| ==> |c.servers[v].log| > 0 && c.servers[v].term >= 0
  {
    forall v: nat | v < |c.servers| ensures |c.servers[v].log| > 0 && c.servers[v].term >= 0 {
      assert ServerOk(c, v, c.servers[v], c.services[v]);
    }
  }

  // ---- An election that goes through ----

  lemma {:induction false} HighestTerm(servers: seq<Server>) returns (t: int)
    ensures forall v: nat :: v < |servers| ==> servers[v].term <= t
  {
    t := 0;
    if servers != [] {
      var last := |servers| - 1;
      t := HighestTerm(servers[..last]);
      assert forall v: nat :: v < last ==> servers[..last][v] == servers[v];
      t := Max(t, servers[last].term);
    }
  }

  /** The others are as they were, and this server stands at a term above t. */
  ghost predicate Stands(before: seq<Server>, after: seq<Server>, s: nat, t: int) {
    && |after| == |before| && s < |before|
    && (forall v: nat :: v < |before| && v != s ==> after[v] == before[v])
    && after[s] == before[s].(term := after[s].term, vote := s, role := Candidate, votes := {s})
    && after[s].term > t
  }

  lemma {:induction false} StandAbove(run: Run, servers: seq<Server>, s: nat, t: int)
    returns (run': Run, servers': seq<Server>)
    requires Ends(run, servers) && s < |servers|
    ensures Ends(run', servers') && GoesOnFrom(run, run') && Stands(servers, servers', s, t)
    ensures servers'[s].term > servers[s].term
    decreases Max(0, t + 1 - servers[s].term)
  {
    hide IsRun;
    var r1 := Do(run, Timeout(s));
    var ss1 := servers[s := OnTimeout(servers[s], s)];
    if ss1[s].term > t {
      run', servers' := r1, ss1;
    } else {
      run', servers' := StandAbove(r1, ss1, s, t);
    }
  }

  /** The first k servers have voted for this one. */
  ghost predicate Canvassed(before: seq<Server>, after: seq<Server>, s: nat, k: nat) {
    && |after| == |before| && s < |before| && k <= |before|
    && after[s] == before[s].(votes := Below(k) + {s})
    && forall v: nat :: v < |before| && v != s ==>
         after[v] == if v < k then StepDown(before[v], before[s].term).(vote := s) else before[v]
  }

  lemma {:induction false} CanvassAll(run: Run, servers: seq<Server>, s: nat, k: nat)
    returns (run': Run, servers': seq<Server>)
    requires Ends(run, servers) && s < |servers| && k <= |servers| && Preferred(servers, s)
    requires servers[s].role == Candidate && servers[s].votes == {s} && servers[s].term >= 1
    requires forall v: nat :: v < |servers| && v != s ==> servers[v].term < servers[s].term
    ensures Ends(run', servers') && GoesOnFrom(run, run') && Canvassed(servers, servers', s, k)
  {
    hide IsRun, OnVoteRequest, StepDown, Below, Canvassed, Preferred;
    if k == 0 {
      run', servers' := run, servers;
      NobodyAsked(servers, s);
    } else {
      run', servers' := CanvassAll(run, servers, s, k - 1);
      if k - 1 != s { PreferredGives(servers, s, k - 1); }
      OneMoreAsked(servers, servers', s, k - 1);
      if k - 1 != s {
        run' := GetVote(run', servers', s, k - 1);
        servers' := VotedToo(servers', s, k - 1);
      }
    }
  }

  /** One more server has voted. */
  function VotedToo(servers: seq<Server>, s: nat, v: nat): seq<Server>
    requires s < |servers| && v < |servers|
  {
    servers[v := StepDown(servers[v], servers[s].term).(vote := s)]
           [s := servers[s].(votes := servers[s].votes + {v})]
  }

  lemma NobodyAsked(servers: seq<Server>, s: nat)
    requires s < |servers| && servers[s].votes == {s}
    ensures Canvassed(servers, servers, s, 0)
  {
    NoneBelow();
  }

  lemma OneMoreAsked(before: seq<Server>, after: seq<Server>, s: nat, v: nat)
    requires Canvassed(before, after, s, v) && v < |before|
    requires v != s ==>
      && before[v].term < before[s].term && |before[s].log| > 0 && |before[v].log| > 0
      && Gives(before[v], before[s], s, before[s].term)
    ensures v == s ==> Canvassed(before, after, s, v + 1)
    ensures v != s ==>
      && |after[s].log| > 0 && |after[v].log| > 0
      && after[s] == before[s].(votes := after[s].votes) && after[v].term < after[s].term
      && Gives(after[v], after[s], s, after[s].term)
      && Canvassed(before, VotedToo(after, s, v), s, v + 1)
  {
    hide Below, OnVoteRequest, StepDown;
    OneMoreBelow(v + 1, s);
  }

  lemma PreferredGives(servers: seq<Server>, s: nat, v: nat)
    requires Preferred(servers, s) && v < |servers| && servers[v].term < servers[s].term
    ensures |servers[s].log| > 0 && |servers[v].log| > 0 && Gives(servers[v], servers[s], s, servers[s].term)
  {
  }

  lemma NoneBelow()
    ensures Below(0) == {}
  {
  }

  lemma OneMoreBelow(k: nat, s: nat)
    requires k > 0
    ensures Below(k) + {s} == Below(k - 1) + {s} + {k - 1}
  {
  }

  lemma AllVotes(n: nat, s: nat)
    requires s < n
    ensures |Below(n) + {s}| == n
  {
    assert Below(n) + {s} == Below(n);
  }

  /** The run goes on to one in which this server has just won an election: its term is newer than any
      server's before, all follow it there, and all logs are what they were. */
  ghost predicate Elected(run: Run, run': Run, s: nat) {
    && |run.states| > 0 && |run'.states| > 0 && IsRun(run') && GoesOnFrom(run, run')
    && |run.steps| < |run'.steps| && run'.steps[|run'.steps| - 1] == Win(s)
    && var before, after := Final(run).servers, Final(run').servers;
    && |after| == |before| && s < |before|
    && after[s].role == Leader && |after[s].log| > 0
    && after[s] == OnWin(after[s], |after|)
    && forall v: nat :: v < |before| ==>
         && before[v].term < after[s].term == after[v].term && after[v].vote == s
         && (v != s ==> after[v].role == Follower)
         && after[v].log == before[v].log && after[v].snap == before[v].snap && after[v].commit == before[v].commit
  }

  /** A server that is preferred can be elected. */
  lemma PreferredWins(run: Run, s: nat) returns (run': Run)
    requires |run.states| > 0 && IsRun(run) && Preferred(Final(run).servers, s)
    ensures Elected(run, run', s)
  {
    hide IsRun, OnVoteRequest, StepDown, Below, OnWin;
    var servers := Final(run).servers;
    RunInv(run, |run.states| - 1);
    LogsThere(Final(run));
    SizesKept(run);
    var t := HighestTerm(servers);
    var r1, ss1 := StandAbove(run, servers, s, t);
    StandingPreferred(servers, ss1, s, t);
    var r2, ss2 := CanvassAll(r1, ss1, s, |servers|);
    AllVotes(|servers|, s);
    run' := Do(r2, Win(s));
    WonServers(servers, ss1, ss2, s, t);
  }

  lemma SizesKept(run: Run)
    requires |run.states| > 0 && IsRun(run)
    ensures Ends(run, Final(run).servers)
  {
    hide IsRun, Grows;
    RunInv(run, |run.states| - 1);
    LogsThere(Final(run));
    RunGrows(run, 0, |run.states| - 1);
    GrownSize(run.states[0], Final(run));
  }

  lemma GrownSize(c: Cluster, c': Cluster)
    requires Grows(c, c')
    ensures |c.servers| == |c'.servers|
  {
  }

  lemma StandingPreferred(before: seq<Server>, after: seq<Server>, s: nat, t: int)
    requires Preferred(before, s) && Stands(before, after, s, t)
    requires forall v: nat :: v < |before| ==> before[v].term <= t
    ensures Preferred(after, s)
  {
    forall v: nat, u: int | v < |after| && u > after[v].term ensures Gives(after[v], after[s], s, u) {
      if v != s { assert Gives(before[v], before[s], s, u); }
    }
  }

  lemma WonServers(before: seq<Server>, standing: seq<Server>, voted: seq<Server>, s: nat, t: int)
    requires Stands(before, standing, s, t) && Canvassed(standing, voted, s, |before|) && |voted[s].log| > 0
    requires forall v: nat :: v < |before| ==> before[v].term <= t
    ensures var after := voted[s := OnWin(voted[s], |voted|)];
      && after[s].role == Leader && after[s] == OnWin(after[s], |after|)
      && forall v: nat :: v < |before| ==>
           && before[v].term < after[s].term == after[v].term && after[v].vote == s
           && (v != s ==> after[v].role == Follower)
           && after[v].log == before[v].log && after[v].snap == before[v].snap && after[v].commit == before[v].commit
  {
    hide Below;
  }

  /** However the servers' logs and terms have come to differ, every run goes on to one that elects a leader. */
  lemma AlwaysElects(run: Run)
    requires |run.states| > 0 && IsRun(run)
    ensures exists run', s: nat :: Elected(run, run', s)
  {
    hide IsRun, Elected, Preferred;
    var s := SomePreferred(run, |run.states| - 1);
    var run' := PreferredWins(run, s);
  }
}
