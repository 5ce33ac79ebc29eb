/** What a log of commands comes to, told by the commands in it: which of them take effect, which groups
    there are, and what a query is answered. */
module ShardMasterLog {
  import opened RebalancePlan
  import opened ShardMaster

  // ---- Which commands take effect ----

  /** The command changes the configurations: it is not a query, and its client has given no command with
      that number or a later one before. */
  predicate TakesEffect(log: seq<Op>, k: nat) {
    k < |log| && log[k].opType != Query
    && forall i: nat :: i < k && log[i].clientId == log[k].clientId && log[i].opType != Query ==>
         log[i].seqNum < log[k].seqNum
  }

  /** How many of them take effect. */
  function Changes(log: seq<Op>): nat {
    if log == [] then 0 else Changes(log[..|log| - 1]) + if TakesEffect(log, |log| - 1) then 1 else 0
  }

  /** A session holds the largest number of its client's commands. */
  ghost predicate SessionIs(log: seq<Op>, sessions: map<nat, Session>, c: nat) {
    && (forall i: nat :: i < |log| && log[i].clientId == c && log[i].opType != Query ==>
          c in sessions && log[i].seqNum <= sessions[c].lastSeqNum)
    && (c in sessions ==>
          sessions[c].response == Done &&
          exists i: nat :: i < |log| && log[i].clientId == c && log[i].opType != Query
                           && log[i].seqNum == sessions[c].lastSeqNum)
  }

  lemma {:induction false} SessionsAre(log: seq<Op>, nShards: nat, c: nat)
    requires AllAcceptable(log, nShards)
    ensures SessionIs(log, After(log, nShards).sessions, c)
  {
    hide Execute;
    if log != [] {
      var front, op := log[..|log| - 1], log[|log| - 1];
      SessionsAre(front, nShards, c);
      var before, after := After(front, nShards).sessions, After(log, nShards).sessions;
      assert forall i: nat :: i < |front| ==> front[i] == log[i];
      if c in after {
        if c in before && after[c].lastSeqNum == before[c].lastSeqNum {
          var i: nat :| i < |front| && front[i].clientId == c && front[i].opType != Query
                        && front[i].seqNum == before[c].lastSeqNum;
          assert log[i].clientId == c;
        } else {
          assert log[|log| - 1].clientId == c;
        }
      }
    }
  }

  /** The sessions turn away exactly the commands that should have no effect, and all are answered alike. */
  lemma EffectExactly(log: seq<Op>, k: nat, nShards: nat)
    requires AllAcceptable(log, nShards) && k < |log| && log[k].opType != Query
    ensures OnOp(After(log[..k], nShards), log[k], nShards).1 == Done
    ensures Repeated(After(log[..k], nShards), log[k]) <==> !TakesEffect(log, k)
  {
    hide After;
    SessionsAre(log[..k], nShards, log[k].clientId);
    var sessions := After(log[..k], nShards).sessions;
    assert forall i: nat :: i < k ==> log[..k][i] == log[i];
    if log[k].clientId in sessions {
      var i: nat :| i < k && log[..k][i].clientId == log[k].clientId && log[..k][i].opType != Query
                    && log[..k][i].seqNum == sessions[log[k].clientId].lastSeqNum;
      assert log[i].seqNum == sessions[log[k].clientId].lastSeqNum;
    }
  }

  /** What one more command does. */
  lemma OneMore(log: seq<Op>, nShards: nat)
    requires AllAcceptable(log, nShards) && log != []
    ensures var front, op := log[..|log| - 1], log[|log| - 1];
      && AllAcceptable(front, nShards)
      && After(log, nShards).configs
         == (if TakesEffect(log, |front|) then Execute(After(front, nShards).configs, op, nShards)
             else After(front, nShards).configs)
      && Changes(log) == Changes(front) + if TakesEffect(log, |front|) then 1 else 0
  {
    hide Execute;
    var front := log[..|log| - 1];
    if log[|front|].opType != Query { EffectExactly(log, |front|, nShards); }
  }

  /** There is one configuration for every change, and the first. */
  lemma {:induction false} ConfigsCount(log: seq<Op>, nShards: nat)
    requires AllAcceptable(log, nShards)
    ensures |After(log, nShards).configs| == Changes(log) + 1
  {
    hide After, Changes, Execute;
    if log == [] {
      NoChanges(nShards);
    } else {
      var front := log[..|log| - 1];
      ConfigsCount(front, nShards);
      OneMore(log, nShards);
      if log[|front|].opType != Query { ExecuteAddsOne(After(front, nShards).configs, log[|front|], nShards); }
    }
  }

  lemma ExecuteAddsOne(configs: seq<Config>, op: Op, nShards: nat)
    requires Sound(configs, nShards) && Acceptable(op, nShards) && op.opType != Query
    ensures |Execute(configs, op, nShards)| == |configs| + 1
  {
  }

  lemma NoChanges(nShards: nat)
    ensures After([], nShards).configs == [Config(0, seq(nShards, _ => 0), map[])] && Changes([]) == 0
  {
  }

  // ---- Queries ----

  lemma {:induction false} ChangesGrow(log: seq<Op>, i: nat)
    requires i <= |log|
    ensures Changes(log[..i]) <= Changes(log)
  {
    if i < |log| {
      ChangesGrow(log[..|log| - 1], i);
      assert log[..|log| - 1][..i] == log[..i];
    } else {
      assert log[..i] == log;
    }
  }

  /** Some prefix of the log has any number of changes up to all of them. */
  lemma {:induction false} PrefixWith(log: seq<Op>, n: nat) returns (i: nat)
    requires n <= Changes(log)
    ensures i <= |log| && Changes(log[..i]) == n
  {
    if n == Changes(log) {
      i := |log|;
      assert log[..i] == log;
    } else {
      i := PrefixWith(log[..|log| - 1], n);
      assert log[..|log| - 1][..i] == log[..i];
    }
  }

  /** The configuration that was the newest when n changes had taken effect keeps the number n. */
  lemma ConfigOfChange(log: seq<Op>, i: nat, nShards: nat)
    requires AllAcceptable(log, nShards) && i <= |log|
    ensures Changes(log[..i]) < |After(log, nShards).configs|
    ensures After(log, nShards).configs[Changes(log[..i])] == LastOf(After(log[..i], nShards).configs)
    ensures LastOf(After(log[..i], nShards).configs).num == Changes(log[..i])
  {
    hide After, Changes;
    ConfigsOnlyGrow(log, i, nShards);
    ConfigsCount(log[..i], nShards);
    ConfigsCount(log, nShards);
    ChangesGrow(log, i);
  }

  /** What a query in the log is answered. */
  ghost function AnswerAt(log: seq<Op>, k: nat, nShards: nat): Reply
    requires AllAcceptable(log, nShards) && k < |log| && log[k].opType == Query
  {
    OnOp(After(log[..k], nShards), log[k], nShards).1
  }

  /** A query for a number that exists is answered with the configuration that was the newest once that many
      changes had taken effect, and any other with the newest. */
  lemma QueryExactly(log: seq<Op>, k: nat, nShards: nat)
    requires AllAcceptable(log, nShards) && k < |log| && log[k].opType == Query
    ensures var n, reply := log[k].cfgNum, AnswerAt(log, k, nShards);
      && reply.Answer?
      && (0 <= n <= Changes(log[..k]) ==>
            && reply.config.num == n
            && (exists i: nat :: i <= k && Changes(log[..i]) == n)
            && forall i: nat :: i <= k && Changes(log[..i]) == n ==>
                 reply.config == LastOf(After(log[..i], nShards).configs))
      && (n < 0 || n > Changes(log[..k]) ==> reply.config == LastOf(After(log[..k], nShards).configs))
  {
    hide After, Changes;
    var n, front := log[k].cfgNum, log[..k];
    ConfigsCount(front, nShards);
    if 0 <= n <= Changes(front) {
      var j := PrefixWith(front, n);
      assert front[..j] == log[..j];
      forall i: nat | i <= k && Changes(log[..i]) == n
        ensures After(front, nShards).configs[n] == LastOf(After(log[..i], nShards).configs)
      {
        assert front[..i] == log[..i];
        ConfigOfChange(front, i, nShards);
      }
    }
  }

  /** Wherever they are in the log, two queries for the same number that both find it get the same answer. */
  lemma SameAnswer(log: seq<Op>, k: nat, l: nat, nShards: nat)
    requires AllAcceptable(log, nShards) && k <= l < |log| && log[k].opType == Query && log[l].opType == Query
    requires log[k].cfgNum == log[l].cfgNum && 0 <= log[k].cfgNum <= Changes(log[..k])
    ensures AnswerAt(log, k, nShards) == AnswerAt(log, l, nShards)
  {
    hide After, Changes, OnOp;
    QueryExactly(log, k, nShards);
    QueryExactly(log, l, nShards);
    assert log[..l][..k] == log[..k];
    ChangesGrow(log[..l], k);
    var i: nat :| i <= k && Changes(log[..i]) == log[k].cfgNum;
  }

  // ---- Groups ----

  /** The command takes effect and says that the group is there, or is not. */
  predicate Names(log: seq<Op>, k: nat, g: int) {
    k < |log| && TakesEffect(log, k)
    && ((log[k].opType == Join && g in log[k].servers) || (log[k].opType == Leave && g in log[k].gids))
  }

  predicate LastNames(log: seq<Op>, k: nat, g: int) {
    Names(log, k, g) && forall i: nat :: k < i < |log| ==> !Names(log, i, g)
  }

  lemma NamesBefore(log: seq<Op>, k: nat, g: int)
    requires k < |log| - 1
    ensures Names(log[..|log| - 1], k, g) <==> Names(log, k, g)
  {
    var front := log[..|log| - 1];
    assert forall i: nat :: i < |front| ==> front[i] == log[i];
  }

  lemma ExecuteGroups(configs: seq<Config>, op: Op, nShards: nat, g: int)
    requires Sound(configs, nShards) && Acceptable(op, nShards)
    ensures |Execute(configs, op, nShards)| > 0
    ensures var before, after := LastOf(configs).groups, LastOf(Execute(configs, op, nShards)).groups;
      && (g in after <==> (op.opType == Join && g in op.servers)
                          || (g in before && !(op.opType == Leave && g in op.gids)))
      && (g in after ==>
            after[g] == if op.opType == Join && g in op.servers then op.servers[g] else before[g])
  {
    hide Rebalanced;
  }

  /** A group is there exactly when the last command about it that took effect was a join, and its servers
      are the ones that join gave. */
  lemma {:induction false} GroupsAre(log: seq<Op>, nShards: nat, g: int)
    requires AllAcceptable(log, nShards)
    ensures var groups := LastOf(After(log, nShards).configs).groups;
      && (g in groups <==> exists k: nat :: LastNames(log, k, g) && log[k].opType == Join)
      && forall k: nat :: LastNames(log, k, g) && log[k].opType == Join ==> groups[g] == log[k].servers[g]
  {
    hide After, Changes, TakesEffect, Execute;
    if log == [] {
      NoChanges(nShards);
    } else {
      var front, last := log[..|log| - 1], |log| - 1;
      GroupsAre(front, nShards, g);
      OneMore(log, nShards);
      ExecuteGroups(After(front, nShards).configs, log[last], nShards, g);
      forall k: nat | k < last ensures Names(front, k, g) <==> Names(log, k, g) { NamesBefore(log, k, g); }
      if Names(log, last, g) {
        assert forall k: nat :: LastNames(log, k, g) ==> k == last;
        assert LastNames(log, last, g);
      } else {
        assert forall k: nat :: LastNames(log, k, g) <==> LastNames(front, k, g);
        assert forall k: nat :: k < |front| ==> front[k] == log[k];
      }
    }
  }

  // ---- Shards ----

  /** A move that takes effect changes the group of its shard and nothing else; a query, and a command that
      was given before, change nothing. */
  lemma MovesOne(log: seq<Op>, nShards: nat)
    requires AllAcceptable(log, nShards) && log != []
    requires log[|log| - 1].opType == Move || log[|log| - 1].opType == Query || !TakesEffect(log, |log| - 1)
    ensures var op, after := log[|log| - 1], After(log, nShards).configs;
      var before := After(log[..|log| - 1], nShards).configs;
      if !TakesEffect(log, |log| - 1) then after == before
      else
        && |LastOf(after).shards| == nShards && LastOf(after).groups == LastOf(before).groups
        && LastOf(after).shards[op.shard] == op.gid
        && forall s: nat :: s < nShards && s != op.shard ==> LastOf(after).shards[s] == LastOf(before).shards[s]
  {
    hide After, Changes;
    OneMore(log, nShards);
  }
}
