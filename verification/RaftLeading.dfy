/** Winning an election and appending as leader keep the invariant. */
module RaftLeading {
  import opened RaftServer
  import opened RaftCluster
  import opened RaftInvariant
  import opened RaftProof
  import opened RaftVoting

  /** Server s leads its term with a log that extends what is on record for that term. */
  ghost predicate Leading(c: Cluster, c': Cluster, s: nat) {
    && s < |c.servers| == |c'.servers| && c'.services == c.services && |c.services| == |c.servers|
    && c'.servers == c.servers[s := c'.servers[s]] && c'.net == c.net
    && var sv, sv' := c.servers[s], c'.servers[s];
    && sv'.term == sv.term && sv'.role == Leader && sv.log <= sv'.log
    && c'.hist == c.hist.(leaders := c.hist.leaders[sv.term := s], logs := c.hist.logs[sv.term := sv'.log])
    && (sv.term in c.hist.leaders ==> c.hist.leaders[sv.term] == s)
    && (sv.term in c.hist.logs ==> c.hist.logs[sv.term] == sv.log)
    && (forall i :: |sv.log| <= i < |sv'.log| ==> sv'.log[i].term == sv.term)
  }

  lemma LeadingGrows(c: Cluster, c': Cluster, s: nat)
    requires Leading(c, c', s)
    ensures Grows(c, c') && CandidatesFrom(c, c')
  {
  }

  /** The new entries on record: those the leader adds now. */
  lemma LeadingOwn(c: Cluster, c': Cluster, s: nat, t: int, i: nat)
    requires Leading(c, c', s) && Own(c'.hist, t, i)
    requires forall k :: 0 < k < |c.servers[s].log| && c.servers[s].log[k].term == c.servers[s].term
               ==> c.servers[s].term in c.hist.logs
    ensures Own(c.hist, t, i) || (t == c.servers[s].term && |c.servers[s].log| <= i)
  {
  }

  lemma LeadingLogs(c: Cluster, c': Cluster, s: nat, t: int)
    requires LeadersOk(c) && Leading(c, c', s) && c.servers[s].term >= 1 && t in c'.hist.logs
    requires WellFormed(c.hist.logs, c.servers[s].log)
    requires forall i :: 0 <= i < |c.servers[s].log| ==> c.servers[s].log[i].term <= c.servers[s].term
    ensures t >= 1 && WellFormed(c'.hist.logs, c'.hist.logs[t]) && Ordered(c'.hist.logs[t], t)
  {
    if t == c.servers[s].term {
      WellFormedOrdered(c, c.servers[s].log, t);
    } else {
      LeadingGrows(c, c', s);
      GrowsWellFormed(c, c', c.hist.logs[t]);
    }
  }

  lemma LeadingLeaders(c: Cluster, c': Cluster, s: nat, q: set<nat>)
    requires LeadersOk(c) && Leading(c, c', s) && LogOk(c, c.servers[s], c.services[s]) && c.servers[s].term >= 1
    requires c.servers[s].term !in c.hist.leaders ==>
               Quorum(q, |c.servers|) && forall v :: v in q ==> Voted(c.hist, v, c.servers[s].term, s)
    ensures LeadersOk(c')
  {
    forall t | t in c'.hist.logs
      ensures t >= 1 && WellFormed(c'.hist.logs, c'.hist.logs[t]) && Ordered(c'.hist.logs[t], t)
    {
      LeadingLogs(c, c', s, t);
    }
    forall t | t in c'.hist.leaders ensures exists q :: ElectedBy(c', t, q) {
      if t in c.hist.leaders {
        var q' :| ElectedBy(c, t, q');
        assert ElectedBy(c', t, q');
      } else {
        assert ElectedBy(c', t, q);
      }
    }
  }

  lemma WellFormedOrdered(c: Cluster, log: seq<Entry>, term: int)
    requires LeadersOk(c) && WellFormed(c.hist.logs, log) && term >= 1
    requires forall i :: 0 <= i < |log| ==> log[i].term <= term
    ensures Ordered(log, term)
  {
    forall i, j | 0 <= i < j < |log| ensures log[i].term <= log[j].term {
      assert Agree(log, c.hist.logs[log[j].term], j);
      assert log[i] == c.hist.logs[log[j].term][i];
    }
  }

  lemma LeadingComplete(c: Cluster, c': Cluster, s: nat)
    requires LeadersOk(c) && RecordsOk(c) && Complete(c) && Leading(c, c', s)
    requires WellFormed(c.hist.logs, c.servers[s].log)
    requires c.servers[s].term !in c.hist.leaders ==>
      forall t, i :: Own(c.hist, t, i) && t < c.servers[s].term ==> Holds(c, c.servers[s].log, t, i)
    ensures Complete(c')
  {
    LeadingGrows(c, c', s);
    var sv := c.servers[s];
    forall t, i, t' | Own(c'.hist, t, i) && t' in c'.hist.logs && t < t' ensures Holds(c', c'.hist.logs[t'], t, i) {
      OwnTermOnRecord(c, sv.log, sv.term);
      LeadingOwn(c, c', s, t, i);
      if Own(c.hist, t, i) {
        var before := if t' == sv.term then sv.log else c.hist.logs[t'];
        assert Holds(c, before, t, i);
        GrowsHolds(c, c', before, t, i);
      } else {
        NewEntryBlocked(c, c', s, i, t');
      }
    }
  }

  lemma OwnTermOnRecord(c: Cluster, log: seq<Entry>, term: int)
    requires WellFormed(c.hist.logs, log)
    ensures forall k :: 0 < k < |log| && log[k].term == term ==> term in c.hist.logs
  {
  }

  /** Nobody has confirmed a brand new entry, so the voters of any later leader block it. */
  lemma NewEntryBlocked(c: Cluster, c': Cluster, s: nat, i: nat, t': int)
    requires LeadersOk(c) && RecordsOk(c) && Leading(c, c', s) && Grows(c, c')
    requires c.servers[s].term in c.hist.logs ==> |c.hist.logs[c.servers[s].term]| <= i
    requires t' in c.hist.leaders && c.servers[s].term < t'
    ensures Blocked(c', c.servers[s].term, i)
  {
    var q :| ElectedBy(c, t', q);
    forall v | v in q ensures c'.servers[v].term > c.servers[s].term && !Acked(c'.hist, v, c.servers[s].term, i) {
      assert Voted(c.hist, v, t', c.hist.leaders[t']);
      if Acked(c'.hist, v, c.servers[s].term, i) {
        assert Acked(c.hist, v, c.servers[s].term, i);
        assert false;
      }
    }
    assert BlockedBy(c', c.servers[s].term, i, q);
  }

  lemma LeadingHolds(c: Cluster, c': Cluster, s: nat, voter: nat, t: int, i: nat, log: seq<Entry>, log': seq<Entry>)
    requires RecordsOk(c) && Leading(c, c', s) && WellFormed(c.hist.logs, c.servers[s].log)
    requires Own(c'.hist, t, i) && Acked(c'.hist, voter, t, i)
    requires Own(c.hist, t, i) ==> Holds(c, log, t, i)
    requires log <= log'
    ensures Holds(c', log', t, i)
  {
    LeadingGrows(c, c', s);
    OwnTermOnRecord(c, c.servers[s].log, c.servers[s].term);
    LeadingOwn(c, c', s, t, i);
    assert Acked(c.hist, voter, t, i);
    GrowsHolds(c, c', log, t, i);
  }

  lemma LeadingRetained(c: Cluster, c': Cluster, s: nat)
    requires RecordsOk(c) && Retained(c) && Leading(c, c', s) && WellFormed(c.hist.logs, c.servers[s].log)
    ensures Retained(c')
  {
    forall x | 0 <= x < |c'.servers| ensures RetainedBy(c', x, c'.servers[x].log) {
      forall t, i: nat | Own(c'.hist, t, i) && Acked(c'.hist, x, t, i) ensures Holds(c', c'.servers[x].log, t, i) {
        assert RetainedBy(c, x, c.servers[x].log);
        assert Acked(c.hist, x, t, i);
        LeadingHolds(c, c', s, x, t, i, c.servers[x].log, c'.servers[x].log);
      }
    }
  }

  lemma LeadingBallots(c: Cluster, c': Cluster, s: nat)
    requires RecordsOk(c) && BallotsOk(c) && Leading(c, c', s) && WellFormed(c.hist.logs, c.servers[s].log)
    ensures BallotsOk(c')
  {
    forall x: nat, t, v: nat | Voted(c'.hist, x, t, v) && IsCandidate(c', v, t)
      ensures BallotOk(c', x, c'.servers[v].log, t)
    {
      assert Voted(c.hist, x, t, v) && IsCandidate(c, v, t);
      assert BallotOk(c, x, c.servers[v].log, t);
      forall t0, i: nat | t0 < t && Own(c'.hist, t0, i) && Acked(c'.hist, x, t0, i)
        ensures Holds(c', c'.servers[v].log, t0, i)
      {
        assert Acked(c.hist, x, t0, i);
        LeadingHolds(c, c', s, x, t0, i, c.servers[v].log, c'.servers[v].log);
      }
    }
  }

  lemma LeadingRecords(c: Cluster, c': Cluster, s: nat)
    requires RecordsOk(c) && Leading(c, c', s)
    ensures RecordsOk(c')
  {
    forall x: nat, t, v: nat | Voted(c'.hist, x, t, v)
      ensures x < |c'.servers| && t <= c'.servers[x].term && v < |c'.servers| && t <= c'.servers[v].term
    {
      assert Voted(c.hist, x, t, v);
    }
    forall x: nat, t, i: nat | Acked(c'.hist, x, t, i)
      ensures x < |c'.servers| && t <= c'.servers[x].term && t in c'.hist.logs && i < |c'.hist.logs[t]|
    {
      assert Acked(c.hist, x, t, i);
    }
  }

  lemma LeadingServers(c: Cluster, c': Cluster, s: nat)
    requires ServersOk(c) && Leading(c, c', s) && ServerOk(c', s, c'.servers[s], c'.services[s])
    requires c.servers[s].role == Leader || c.servers[s].term !in c.hist.leaders
    ensures ServersOk(c')
  {
    LeadingGrows(c, c', s);
    assert ServerOk(c, s, c.servers[s], c.services[s]);
    forall x | 0 <= x < |c'.servers| && x != s ensures ServerOk(c', x, c'.servers[x], c'.services[x]) {
      assert ServerOk(c, x, c.servers[x], c.services[x]);
      GrowsServer(c, c', x);
    }
  }

  lemma LeadingInv(c: Cluster, c': Cluster, s: nat)
    requires Inv(c) && Leading(c, c', s) && ServerOk(c', s, c'.servers[s], c'.services[s])
    requires c.servers[s].role == Leader || c.servers[s].term !in c.hist.leaders
    requires LeadersOk(c') && Complete(c')
    requires WellFormed(c.hist.logs, c.servers[s].log)
    ensures Inv(c')
  {
    LeadingServers(c, c', s);
    LeadingRecords(c, c', s);
    LeadingRetained(c, c', s);
    LeadingBallots(c, c', s);
    LeadingGrows(c, c', s);
    KeepMessages(c, c');
  }

  // ---- Start ----

  lemma StartServer(c: Cluster, c': Cluster, s: nat, sv: Server, sv': Server, service: seq<Entry>)
    requires Grows(c, c') && s < |c.servers| && sv == c.servers[s] && ServerOk(c, s, sv, service) && sv.role == Leader
    requires exists command :: sv' == sv.(log := sv.log + [Entry(sv.term, command)])
    requires c'.hist == c.hist.(logs := c.hist.logs[sv.term := sv'.log])
    ensures ServerOk(c', s, sv', service)
  {
    hide Committed;
    GrowsCommitted(c, c', sv.log, sv'.log, sv.commit, sv.term, sv.term);
    GrowsWellFormed(c, c', sv.log);
    assert sv'.log[..sv.lastApplied + 1] == sv.log[..sv.lastApplied + 1];
  }

  lemma StartInv(c: Cluster, s: nat, command: Command)
    requires Inv(c) && Enabled(c, Start(s, command))
    ensures InBounds(c, Start(s, command)) && Inv(Apply(c, Start(s, command)))
  {
    hide LeadersOk, RecordsOk, Complete, Retained, BallotsOk, MessageOk, Committed;
    AllInBounds(c);
    var sv := c.servers[s];
    var c' := Apply(c, Start(s, command));
    assert ServerOk(c, s, sv, c.services[s]);
    if sv.role != Leader {
      assert c' == c;
    } else {
      assert c'.hist == c.hist.(logs := c.hist.logs[sv.term := c'.servers[s].log]);
      InTermLog(c, sv.term);
      LeadingGrows(c, c', s);
      StartServer(c, c', s, sv, c'.servers[s], c.services[s]);
      LeadingLeaders(c, c', s, {});
      LeadingComplete(c, c', s);
      LeadingInv(c, c', s);
    }
  }

  // ---- Win ----

  lemma WinServer(c: Cluster, c': Cluster, s: nat, sv: Server, service: seq<Entry>)
    requires Grows(c, c') && s < |c.servers| && sv == c.servers[s] && ServerOk(c, s, sv, service)
    requires sv.role == Candidate
      && c'.hist == c.hist.(leaders := c.hist.leaders[sv.term := s], logs := c.hist.logs[sv.term := sv.log])
    ensures ServerOk(c', s, OnWin(sv, |c.servers|), service)
  {
    GrowsCommitted(c, c', sv.log, sv.log, sv.commit, sv.term, sv.term);
    GrowsWellFormed(c, c', sv.log);
  }

  lemma WinComplete(c: Cluster, c': Cluster, s: nat)
    requires LeadersOk(c) && RecordsOk(c) && Complete(c) && ServersOk(c) && BallotsOk(c)
    requires Leading(c, c', s) && WellFormed(c.hist.logs, c.servers[s].log)
    requires c.servers[s].role == Candidate && Quorum(c.servers[s].votes, |c.servers|)
    ensures Complete(c')
  {
    forall t, i: nat | Own(c.hist, t, i) && t < c.servers[s].term ensures Holds(c, c.servers[s].log, t, i) {
      WinnerHolds(c, s, t, i);
    }
    LeadingComplete(c, c', s);
  }

  lemma WinInv(c: Cluster, s: nat)
    requires Inv(c) && Enabled(c, Win(s))
    ensures InBounds(c, Win(s)) && Inv(Apply(c, Win(s)))
  {
    AllInBounds(c);
    var sv := c.servers[s];
    var c' := Apply(c, Win(s));
    assert ServerOk(c, s, sv, c.services[s]);
    TermNotYetWon(c, s);
    assert Leading(c, c', s);
    LeadingGrows(c, c', s);
    WinServer(c, c', s, sv, c.services[s]);
    LeadingLeaders(c, c', s, sv.votes);
    WinComplete(c, c', s);
    LeadingInv(c, c', s);
  }
}
