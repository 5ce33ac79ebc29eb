/** The shard master: the configurations, and the commands that add to them. */
module ShardMaster {
  import opened RebalancePlan
  import opened RebalanceProof
  import opened RebalanceZero

  type Groups = map<int, seq<string>>

  datatype Config = Config(num: nat, shards: seq<int>, groups: Groups)

  datatype OpType = Join | Leave | Move | Query

  datatype Op = Op(
    clientId: nat, seqNum: nat, opType: OpType, servers: Groups, gids: seq<int>, shard: nat, gid: int, cfgNum: int)

  /** What a command is answered: nothing but OK, and a configuration for a query. */
  datatype Reply = Done | Answer(config: Config)

  datatype Session = Session(lastSeqNum: nat, opType: OpType, response: Reply)

  datatype State = State(configs: seq<Config>, sessions: map<nat, Session>)

  // ---- Rebalancing in place ----

  lemma ReplaceRest(s: seq<int>, from: int, to: int, k: nat, j: nat)
    requires j <= |s| && Count(s[..j], from) >= k
    ensures ReplaceFirst(s, from, to, k) == ReplaceFirst(s[..j], from, to, k) + s[j..]
  {
    forall i: nat | j <= i < |s| ensures Count(s[..i], from) >= k {
      CountGrows(s, from, j, i);
    }
    assert forall i: nat :: i < j ==> s[..j][..i] == s[..i];
  }

  lemma {:induction false} CountGrows(s: seq<int>, x: int, j: nat, i: nat)
    requires j <= i <= |s|
    ensures Count(s[..j], x) <= Count(s[..i], x)
  {
    if j < i {
      CountGrows(s, x, j, i - 1);
      assert s[..i][..i - 1] == s[..i - 1];
    }
  }

  lemma ChangeNone(s: seq<int>, from: int, to: int, k: nat)
    ensures ReplaceFirst(s[..0], from, to, k) + s[0..] == s && Count(s[..0], from) == 0
  {
  }

  lemma ChangeOne(s: seq<int>, from: int, to: int, k: nat, j: nat, a: seq<int>)
    requires j < |s| && a == ReplaceFirst(s[..j], from, to, k) + s[j..]
    ensures |a| == |s| && a[j] == s[j]
    ensures Count(s[..j + 1], from) == Count(s[..j], from) + if s[j] == from then 1 else 0
    ensures ReplaceFirst(s[..j + 1], from, to, k) + s[j + 1..]
         == if s[j] == from && Count(s[..j], from) < k then a[j := to] else a
  {
    assert s[..j + 1] == s[..j] + [s[j]] && s[..j + 1][..j] == s[..j];
    ReplacePush(s[..j], s[j], from, to, k);
  }

  /** One group's loop over the shards, which stops once delta of them are changed. */
  method ChangeShards(a: array<int>, from: int, to: int, k: nat)
    modifies a
    ensures a[..] == ReplaceFirst(old(a[..]), from, to, k)
  {
    hide Count, ReplaceFirst;
    ghost var s := a[..];
    ChangeNone(s, from, to, k);
    var delta := k;
    var j := 0;
    while j < a.Length
      invariant 0 <= j <= a.Length && a[..] == ReplaceFirst(s[..j], from, to, k) + s[j..]
      invariant delta == k - Min(k, Count(s[..j], from))
    {
      if delta == 0 {
        break;
      }
      ghost var before := a[..];
      ChangeOne(s, from, to, k, j, before);
      if a[j] == from {
        a[j] := to;
        delta := delta - 1;
      }
      j := j + 1;
    }
    if j < a.Length {
      ReplaceRest(s, from, to, k, j);
    } else {
      assert s[..j] == s;
    }
  }

  lemma NoneYet(s: seq<int>)
    ensures forall g :: Count(s[..0], g) == 0
  {
  }

  lemma OneMore(s: seq<int>, j: nat)
    requires j < |s|
    ensures forall g :: Count(s[..j + 1], g) == Count(s[..j], g) + if s[j] == g then 1 else 0
  {
    assert s[..j + 1][..j] == s[..j];
  }

  /** How many shards each group that is still there has; the others' shards become free. */
  method CountShards(groups: Groups, lastShards: seq<int>, resShards: array<int>) returns (shardCnt: map<int, nat>)
    requires resShards[..] == lastShards
    modifies resShards
    ensures resShards[..] == Cleaned(lastShards, groups.Keys)
    ensures forall g :: g in groups ==> Count(lastShards, g) == if g in shardCnt then shardCnt[g] else 0
  {
    hide Count;
    shardCnt := map[];
    NoneYet(lastShards);
    var shard := 0;
    while shard < |lastShards|
      invariant 0 <= shard <= |lastShards|
      invariant forall k: nat :: k < |lastShards| ==>
        resShards[k] == if k < shard then Cleaned(lastShards, groups.Keys)[k] else lastShards[k]
      invariant forall g :: g in groups ==> Count(lastShards[..shard], g) == if g in shardCnt then shardCnt[g] else 0
    {
      var gid := lastShards[shard];
      OneMore(lastShards, shard);
      if gid in groups {
        shardCnt := shardCnt[gid := (if gid in shardCnt then shardCnt[gid] else 0) + 1];
      } else {
        resShards[shard] := 0;
      }
      shard := shard + 1;
    }
    assert lastShards[..|lastShards|] == lastShards;
  }

  predicate Lists(listing: seq<int>, keys: set<int>) {
    AllDistinct(listing) && (forall g :: g in listing ==> g in keys) && (forall g :: g in keys ==> g in listing)
  }

  /** The first i places hold what comes before everything behind them. */
  predicate FrontSorted(last: seq<int>, s: seq<int>, i: nat) {
    forall a: nat, b: nat :: a < i && a < b < |s| ==> Before(last, s[a], s[b])
  }

  /** Place j holds what comes before everything behind it. */
  predicate LeadsRest(last: seq<int>, s: seq<int>, j: nat) {
    j < |s| && forall b: nat :: j < b < |s| ==> Before(last, s[j], s[b])
  }

  /** One comparison of neighbours: the smaller of the two leads the rest from one place further on. */
  lemma BubbleStep(last: seq<int>, s: seq<int>, t: seq<int>, keys: set<int>, i: nat, j: nat)
    requires Lists(s, keys) && FrontSorted(last, s, i) && LeadsRest(last, s, j) && i < j
    requires t == if Before(last, s[j], s[j - 1]) then s[j - 1 := s[j]][j := s[j - 1]] else s
    ensures Lists(t, keys) && FrontSorted(last, t, i) && LeadsRest(last, t, j - 1)
  {
    hide Count;
    if Before(last, s[j], s[j - 1]) {
      SwapLists(s, t, keys, j);
      forall a: nat, b: nat | a < i && a < b < |t| ensures Before(last, t[a], t[b]) {
        assert t[a] == s[a];
      }
    } else {
      assert s[j] != s[j - 1];
    }
  }

  lemma SwapLists(s: seq<int>, t: seq<int>, keys: set<int>, j: nat)
    requires Lists(s, keys) && 0 < j < |s| && t == s[j - 1 := s[j]][j := s[j - 1]]
    ensures Lists(t, keys)
  {
    forall g | g in keys ensures g in t {
      var k: nat :| k < |s| && s[k] == g;
      assert t[if k == j then j - 1 else if k == j - 1 then j else k] == g;
    }
  }

  predicate Counted(shardCnt: map<int, nat>, last: seq<int>, keys: set<int>) {
    forall g :: g in keys ==> g in shardCnt && shardCnt[g] == Count(last, g)
  }

  lemma CountOf(shardCnt: map<int, nat>, last: seq<int>, keys: set<int>, s: seq<int>, j: nat)
    requires Counted(shardCnt, last, keys) && Lists(s, keys) && j < |s|
    ensures s[j] in shardCnt && shardCnt[s[j]] == Count(last, s[j])
  {
    hide Count;
    assert s[j] in s;
    assert s[j] in keys;
  }

  /** Bubble sort: the group with most shards first, the smaller gid first among equals. */
  method SortGids(gidSlice: array<int>, shardCnt: map<int, nat>, ghost last: seq<int>, ghost keys: set<int>)
    requires Lists(gidSlice[..], keys) && Counted(shardCnt, last, keys)
    modifies gidSlice
    ensures gidSlice[..] == Sorted(last, keys)
  {
    hide Count, Lists, Counted, FrontSorted, LeadsRest;
    var m := gidSlice.Length;
    NothingSorted(last, gidSlice[..]);
    var i := 0;
    while i < m - 1
      invariant 0 <= i <= m
      invariant Lists(gidSlice[..], keys) && FrontSorted(last, gidSlice[..], i)
    {
      var j := m - 1;
      LastLeads(last, gidSlice[..]);
      while j > i
        invariant i <= j < m
        invariant Lists(gidSlice[..], keys) && FrontSorted(last, gidSlice[..], i) && LeadsRest(last, gidSlice[..], j)
      {
        ghost var s := gidSlice[..];
        CountOf(shardCnt, last, keys, s, j);
        CountOf(shardCnt, last, keys, s, j - 1);
        if shardCnt[gidSlice[j]] > shardCnt[gidSlice[j - 1]]
           || (shardCnt[gidSlice[j]] == shardCnt[gidSlice[j - 1]] && gidSlice[j] < gidSlice[j - 1]) {
          gidSlice[j - 1], gidSlice[j] := gidSlice[j], gidSlice[j - 1];
        }
        BubbleStep(last, s, gidSlice[..], keys, i, j);
        j := j - 1;
      }
      FrontGrows(last, gidSlice[..], i);
      i := i + 1;
    }
    FrontIsAll(last, gidSlice[..], keys, i);
  }

  lemma NothingSorted(last: seq<int>, s: seq<int>)
    ensures FrontSorted(last, s, 0)
  {
  }

  lemma LastLeads(last: seq<int>, s: seq<int>)
    requires s != []
    ensures LeadsRest(last, s, |s| - 1)
  {
  }

  lemma FrontGrows(last: seq<int>, s: seq<int>, i: nat)
    requires FrontSorted(last, s, i) && LeadsRest(last, s, i)
    ensures FrontSorted(last, s, i + 1)
  {
    hide Count;
  }

  lemma FrontIsAll(last: seq<int>, s: seq<int>, keys: set<int>, i: nat)
    requires FrontSorted(last, s, i) && i >= |s| - 1 && Lists(s, keys)
    ensures s == Sorted(last, keys)
  {
    hide Count;
    OrderUnique(last, keys, s);
  }

  /** Rebalances. listing is the order in which the map of groups happens to be ranged over. */
  method ShardLoadBalance(groups: Groups, lastShards: seq<int>, listing: seq<int>) returns (r: seq<int>)
    requires Lists(listing, groups.Keys)
    ensures r == Rebalanced(lastShards, groups.Keys)
  {
    hide Filled, Released, Sorted;
    if |groups| == 0 {
      assert groups.Keys == {};
      return seq(|lastShards|, _ => 0);
    }
    var resShards := new int[|lastShards|](i requires 0 <= i < |lastShards| => lastShards[i]);
    assert resShards[..] == lastShards;
    var groupNum := |listing|;
    var shardCnt := CountShards(groups, lastShards, resShards);
    var gidSlice := new int[groupNum](i requires 0 <= i < |listing| => listing[i]);
    assert gidSlice[..] == listing;
    shardCnt := AddNewGroups(listing, shardCnt);
    SortGids(gidSlice, shardCnt, lastShards, groups.Keys);
    TwoPasses(groups, lastShards, resShards, gidSlice[..], shardCnt);
    assert groups.Keys != {} by { assert |groups.Keys| == |groups|; }
    r := resShards[..];
  }

  /** Groups without a shard get the count 0. */
  method AddNewGroups(listing: seq<int>, shardCnt: map<int, nat>) returns (r: map<int, nat>)
    ensures forall g :: g in listing ==> g in r && r[g] == if g in shardCnt then shardCnt[g] else 0
  {
    r := shardCnt;
    var i := 0;
    while i < |listing|
      invariant 0 <= i <= |listing|
      invariant forall g :: g in r ==> r[g] == if g in shardCnt then shardCnt[g] else 0
      invariant forall g :: g in shardCnt || g in listing[..i] ==> g in r
    {
      if listing[i] !in r {
        r := r[listing[i] := 0];
      }
      i := i + 1;
    }
  }

  /** Groups with too much release, then groups with too little take. */
  method TwoPasses(groups: Groups, ghost lastShards: seq<int>, resShards: array<int>, ord: seq<int>,
      shardCnt: map<int, nat>)
    requires resShards[..] == Cleaned(lastShards, groups.Keys) && |ord| > 0
    requires forall g :: g in ord ==> g in groups && g in shardCnt && shardCnt[g] == Count(lastShards, g)
    modifies resShards
    ensures resShards[..] == Filled(lastShards, groups.Keys, ord, |ord|)
  {
    hide Count;
    var nShards, groupNum := resShards.Length, |ord|;
    var avgShardNum, remainder := nShards / groupNum, nShards % groupNum;
    var i := 0;
    while i < groupNum
      invariant 0 <= i <= groupNum && resShards[..] == Released(lastShards, groups.Keys, ord, i)
    {
      var curTar := if i < remainder then avgShardNum + 1 else avgShardNum;
      var curGid := ord[i];
      assert curGid in ord;
      var delta := shardCnt[curGid] - curTar;
      assert delta > 0 ==> delta == Over(lastShards, ord, i);
      assert delta <= 0 ==> Over(lastShards, ord, i) == 0;
      ReplaceNone(resShards[..], curGid, 0);
      if delta > 0 {
        ChangeShards(resShards, curGid, 0, delta);
      }
      i := i + 1;
    }
    i := 0;
    while i < groupNum
      invariant 0 <= i <= groupNum && resShards[..] == Filled(lastShards, groups.Keys, ord, i)
    {
      var curTar := if i < remainder then avgShardNum + 1 else avgShardNum;
      var curGid := ord[i];
      assert curGid in ord;
      var delta := shardCnt[curGid] - curTar;
      assert delta < 0 ==> -delta == Under(lastShards, ord, i);
      assert delta >= 0 ==> Under(lastShards, ord, i) == 0;
      ReplaceNone(resShards[..], 0, curGid);
      if delta < 0 {
        ChangeShards(resShards, 0, curGid, -delta);
      }
      i := i + 1;
    }
  }

  lemma ReplaceNone(s: seq<int>, from: int, to: int)
    ensures ReplaceFirst(s, from, to, 0) == s
  {
  }

  // ---- The commands, as functions ----

  ghost function LastOf(configs: seq<Config>): Config
    requires |configs| > 0
  {
    configs[|configs| - 1]
  }

  ghost function OnJoin(configs: seq<Config>, servers: Groups): seq<Config>
    requires |configs| > 0
  {
    var last := LastOf(configs);
    var groups := last.groups + servers;
    configs + [Config(last.num + 1, Rebalanced(last.shards, groups.Keys), groups)]
  }

  function Without(groups: Groups, gids: seq<int>): Groups {
    groups - set g | g in gids
  }

  ghost function OnLeave(configs: seq<Config>, gids: seq<int>): seq<Config>
    requires |configs| > 0
  {
    var last := LastOf(configs);
    var groups := Without(last.groups, gids);
    configs + [Config(last.num + 1, Rebalanced(last.shards, groups.Keys), groups)]
  }

  ghost function OnMove(configs: seq<Config>, shard: nat, gid: int): seq<Config>
    requires |configs| > 0 && shard < |LastOf(configs).shards|
  {
    var last := LastOf(configs);
    configs + [Config(last.num + 1, last.shards[shard := gid], last.groups)]
  }

  ghost function OnQuery(configs: seq<Config>, cfgNum: int): Config
    requires |configs| > 0 && LastOf(configs).num < |configs| && cfgNum >= -1
  {
    if cfgNum == -1 || cfgNum > LastOf(configs).num then LastOf(configs) else configs[cfgNum]
  }

  /** Configurations are numbered from 0. */
  ghost predicate Sound(configs: seq<Config>, nShards: nat) {
    && |configs| > 0
    && (forall i: nat :: i < |configs| ==>
          configs[i].num == i && |configs[i].shards| == nShards)
  }

  predicate Acceptable(op: Op, nShards: nat) {
    (op.opType == Move ==> op.shard < nShards) && op.cfgNum >= -1
  }

  predicate Repeated(s: State, op: Op) {
    op.clientId in s.sessions && op.opType != Query && op.seqNum <= s.sessions[op.clientId].lastSeqNum
  }

  ghost function Execute(configs: seq<Config>, op: Op, nShards: nat): seq<Config>
    requires Sound(configs, nShards) && Acceptable(op, nShards)
  {
    match op.opType
    case Join => OnJoin(configs, op.servers)
    case Leave => OnLeave(configs, op.gids)
    case Move => OnMove(configs, op.shard, op.gid)
    case Query => configs
  }

  ghost function OnOp(s: State, op: Op, nShards: nat): (State, Reply)
    requires Sound(s.configs, nShards) && Acceptable(op, nShards)
  {
    if Repeated(s, op) then (s, s.sessions[op.clientId].response)
    else
      var configs := Execute(s.configs, op, nShards);
      if op.opType == Query then (s, Answer(OnQuery(s.configs, op.cfgNum)))
      else (State(configs, s.sessions[op.clientId := Session(op.seqNum, op.opType, Done)]), Done)
  }

  // ---- The server ----

  class ShardMasterServer {
    const nShards: nat
    var configs: seq<Config>
    var sessions: map<nat, Session>

    ghost predicate Valid()
      reads this
    {
      Sound(configs, nShards)
    }

    ghost function Abs(): State
      reads this
    {
      State(configs, sessions)
    }

    constructor (nShards: nat)
      ensures Valid() && this.nShards == nShards
      ensures Abs() == State([Config(0, seq(nShards, _ => 0), map[])], map[])
    {
      this.nShards := nShards;
      configs := [Config(0, seq(nShards, _ => 0), map[])];
      sessions := map[];
    }

    method GetLastConfig() returns (c: Config)
      requires Valid()
      ensures c == LastOf(configs)
    {
      c := configs[|configs| - 1];
    }

    method ExecuteJoin(servers: Groups, listing: seq<int>)
      requires Valid() && Lists(listing, LastOf(configs).groups.Keys + servers.Keys)
      modifies this`configs
      ensures Valid() && configs == OnJoin(old(configs), servers)
    {
      hide Rebalanced;
      var lastConfig := GetLastConfig();
      var newGroups := lastConfig.groups + servers;
      assert newGroups.Keys == lastConfig.groups.Keys + servers.Keys;
      var newShards := ShardLoadBalance(newGroups, lastConfig.shards, listing);
      configs := configs + [Config(lastConfig.num + 1, newShards, newGroups)];
    }

    method ExecuteLeave(gids: seq<int>, listing: seq<int>)
      requires Valid() && Lists(listing, Without(LastOf(configs).groups, gids).Keys)
      modifies this`configs
      ensures Valid() && configs == OnLeave(old(configs), gids)
    {
      var lastConfig := GetLastConfig();
      var newGroups := RemoveGroups(lastConfig.groups, gids);
      var newShards := seq(nShards, _ => 0);
      if |newGroups| != 0 {
        newShards := ShardLoadBalance(newGroups, lastConfig.shards, listing);
      } else {
        assert newGroups.Keys == {};
      }
      configs := configs + [Config(lastConfig.num + 1, newShards, newGroups)];
    }

    method RemoveGroups(groups: Groups, gids: seq<int>) returns (r: Groups)
      ensures r == Without(groups, gids)
    {
      r := groups;
      var i := 0;
      while i < |gids|
        invariant 0 <= i <= |gids| && r == Without(groups, gids[..i])
      {
        assert gids[..i + 1] == gids[..i] + [gids[i]];
        r := r - {gids[i]};
        i := i + 1;
      }
      assert gids[..|gids|] == gids;
    }

    method ExecuteMove(shard: nat, gid: int)
      requires Valid() && shard < nShards
      modifies this`configs
      ensures Valid() && configs == OnMove(old(configs), shard, gid)
    {
      var lastConfig := GetLastConfig();
      configs := configs + [Config(lastConfig.num + 1, lastConfig.shards[shard := gid], lastConfig.groups)];
    }

    method ExecuteQuery(cfgNum: int) returns (c: Config)
      requires Valid() && cfgNum >= -1
      ensures c == OnQuery(configs, cfgNum)
    {
      var lastConfig := GetLastConfig();
      if cfgNum == -1 || cfgNum > lastConfig.num {
        return lastConfig;
      }
      c := configs[cfgNum];
    }

    /** Applies one entry of the log; a repeated command is answered from the session. */
    method ApplyConfigChange(op: Op, listing: seq<int>) returns (reply: Reply)
      requires Valid() && Acceptable(op, nShards)
      requires op.opType == Join ==> Lists(listing, LastOf(configs).groups.Keys + op.servers.Keys)
      requires op.opType == Leave ==> Lists(listing, Without(LastOf(configs).groups, op.gids).Keys)
      modifies this
      ensures Valid() && (Abs(), reply) == OnOp(old(Abs()), op, nShards)
    {
      hide OnJoin, OnLeave, OnMove, OnQuery, Without;
      if op.clientId in sessions && op.opType != Query && op.seqNum <= sessions[op.clientId].lastSeqNum {
        return sessions[op.clientId].response;
      }
      reply := Done;
      match op.opType {
        case Join => ExecuteJoin(op.servers, listing);
        case Leave => ExecuteLeave(op.gids, listing);
        case Move => ExecuteMove(op.shard, op.gid);
        case Query =>
          var c := ExecuteQuery(op.cfgNum);
          reply := Answer(c);
      }
      if op.opType != Query {
        sessions := sessions[op.clientId := Session(op.seqNum, op.opType, reply)];
      }
    }
  }

  // ---- Over a whole log ----

  ghost predicate AllAcceptable(log: seq<Op>, nShards: nat) {
    forall i: nat :: i < |log| ==> Acceptable(log[i], nShards)
  }

  lemma ExecuteSound(configs: seq<Config>, op: Op, nShards: nat)
    requires Sound(configs, nShards) && Acceptable(op, nShards)
    ensures Sound(Execute(configs, op, nShards), nShards) && configs <= Execute(configs, op, nShards)
  {
    hide Rebalanced;
  }

  /** The state any replica is in after the log, whatever order its maps were ranged over in. */
  ghost function After(log: seq<Op>, nShards: nat): (s: State)
    requires AllAcceptable(log, nShards)
    ensures Sound(s.configs, nShards)
  {
    if log == [] then State([Config(0, seq(nShards, _ => 0), map[])], map[])
    else
      var s := After(log[..|log| - 1], nShards);
      var op := log[|log| - 1];
      ExecuteSound(s.configs, op, nShards);
      OnOp(s, op, nShards).0
  }

  /** Configurations are never changed or taken back. */
  lemma {:induction false} ConfigsOnlyGrow(log: seq<Op>, k: nat, nShards: nat)
    requires AllAcceptable(log, nShards) && k <= |log|
    ensures After(log[..k], nShards).configs <= After(log, nShards).configs
  {
    if k < |log| {
      var front := log[..|log| - 1];
      ConfigsOnlyGrow(front, k, nShards);
      assert front[..k] == log[..k];
      ExecuteSound(After(front, nShards).configs, log[|log| - 1], nShards);
    } else {
      assert log[..k] == log;
    }
  }

  lemma {:induction false} SessionsOnlyGrow(log: seq<Op>, k: nat, nShards: nat, c: nat)
    requires AllAcceptable(log, nShards) && k <= |log| && c in After(log[..k], nShards).sessions
    ensures c in After(log, nShards).sessions
    ensures After(log[..k], nShards).sessions[c].lastSeqNum <= After(log, nShards).sessions[c].lastSeqNum
  {
    hide Execute;
    if k < |log| {
      var front := log[..|log| - 1];
      assert front[..k] == log[..k];
      SessionsOnlyGrow(front, k, nShards, c);
    } else {
      assert log[..k] == log;
    }
  }

  /** A command that is in the log twice takes effect once. */
  lemma RepeatHasNoEffect(log: seq<Op>, k: nat, nShards: nat)
    requires AllAcceptable(log, nShards) && k < |log| - 1 && log[|log| - 1] == log[k] && log[k].opType != Query
    ensures After(log, nShards) == After(log[..|log| - 1], nShards)
  {
    hide Execute;
    var front, op := log[..|log| - 1], log[k];
    assert front[..k + 1] == log[..k + 1] && log[..k + 1][..k] == log[..k];
    var s := After(log[..k], nShards);
    assert After(log[..k + 1], nShards) == OnOp(s, op, nShards).0;
    assert op.clientId in After(front[..k + 1], nShards).sessions;
    SessionsOnlyGrow(front, k + 1, nShards, op.clientId);
  }

  /** After a join or leave that takes effect, the newest configuration has every shard in a group, evenly;
      unless a group 0 does harm, as many as possible are where they were; with no group left, every shard
      is free. */
  lemma NewestIsBalanced(configs: seq<Config>, op: Op, nShards: nat)
    requires Sound(configs, nShards) && Acceptable(op, nShards) && (op.opType == Join || op.opType == Leave)
    ensures |Execute(configs, op, nShards)| == |configs| + 1
    ensures var last, next := LastOf(configs), LastOf(Execute(configs, op, nShards));
      && (next.groups.Keys == {} ==> forall s: nat :: s < nShards ==> next.shards[s] == 0)
      && (next.groups.Keys != {} ==>
            && Balanced(next.shards, next.groups.Keys)
            && (ZeroHarmless(nShards, next.groups.Keys) ==>
                 forall other: seq<int> :: |other| == nShards && Balanced(other, next.groups.Keys) ==>
                   Kept(last.shards, other, next.groups.Keys) <= Kept(last.shards, next.shards, next.groups.Keys)))
  {
    hide Rebalanced, Balanced, Kept, ZeroHarmless;
    var last, next := LastOf(configs), LastOf(Execute(configs, op, nShards));
    assert Sound(Execute(configs, op, nShards), nShards) by { ExecuteSound(configs, op, nShards); }
    if next.groups.Keys == {} {
      RebalancedToNone(last.shards);
    } else {
      RebalancedIsBalanced(last.shards, next.groups.Keys);
      forall other: seq<int> | ZeroHarmless(nShards, next.groups.Keys) && |other| == nShards
        && Balanced(other, next.groups.Keys)
        ensures Kept(last.shards, other, next.groups.Keys) <= Kept(last.shards, next.shards, next.groups.Keys)
      {
        RebalancedKeepsMost(last.shards, next.groups.Keys, other);
      }
    }
  }

  // ---- Moves to groups that do not exist ----

  /** Every shard is free or in a group of the configuration. */
  predicate Homed(c: Config) {
    forall s: nat :: s < |c.shards| ==> c.shards[s] == 0 || c.shards[s] in c.groups
  }

  ghost predicate AllHomed(configs: seq<Config>) {
    forall i: nat :: i < |configs| ==> Homed(configs[i])
  }

  /** The command takes effect and moves a shard to a number that is no group. */
  ghost predicate Strays(s: State, op: Op)
    requires |s.configs| > 0
  {
    !Repeated(s, op) && op.opType == Move && op.gid != 0 && op.gid !in LastOf(s.configs).groups
  }

  lemma NewestHomed(configs: seq<Config>, op: Op, nShards: nat)
    requires Sound(configs, nShards) && Acceptable(op, nShards) && op.opType != Query && Homed(LastOf(configs))
    ensures |Execute(configs, op, nShards)| == |configs| + 1
    ensures Homed(LastOf(Execute(configs, op, nShards))) <==>
              !(op.opType == Move && op.gid != 0 && op.gid !in LastOf(configs).groups)
  {
    hide Rebalanced, Kept, Count;
    ExecuteSound(configs, op, nShards);
    if op.opType == Move {
      var next := LastOf(Execute(configs, op, nShards));
      assert next.shards[op.shard] == op.gid;
    } else {
      RebalancedHomes(LastOf(configs).shards, LastOf(Execute(configs, op, nShards)).groups.Keys);
    }
  }

  lemma StepHomed(s: State, op: Op, nShards: nat)
    requires Sound(s.configs, nShards) && Acceptable(op, nShards) && AllHomed(s.configs)
    ensures AllHomed(OnOp(s, op, nShards).0.configs) <==> !Strays(s, op)
  {
    hide Homed, Execute;
    if !Repeated(s, op) && op.opType != Query {
      NewestHomed(s.configs, op, nShards);
      ExecuteSound(s.configs, op, nShards);
    }
  }

  lemma HomedBefore(log: seq<Op>, k: nat, nShards: nat)
    requires AllAcceptable(log, nShards) && k <= |log| && AllHomed(After(log, nShards).configs)
    ensures AllHomed(After(log[..k], nShards).configs)
  {
    hide Homed, After;
    ConfigsOnlyGrow(log, k, nShards);
    var part, whole := After(log[..k], nShards).configs, After(log, nShards).configs;
    assert forall i: nat :: i < |part| ==> part[i] == whole[i];
  }

  ghost predicate NoneStrays(log: seq<Op>, nShards: nat)
    requires AllAcceptable(log, nShards)
  {
    forall k: nat :: k < |log| ==> !Strays(After(log[..k], nShards), log[k])
  }

  lemma NoneStraysPush(log: seq<Op>, nShards: nat)
    requires AllAcceptable(log, nShards) && log != []
    ensures var front := log[..|log| - 1];
      NoneStrays(log, nShards) <==> NoneStrays(front, nShards) && !Strays(After(front, nShards), log[|log| - 1])
  {
    hide Strays, After, Acceptable;
    var front := log[..|log| - 1];
    assert forall k: nat :: k <= |front| ==> front[..k] == log[..k];
    if NoneStrays(log, nShards) {
      assert !Strays(After(log[..|front|], nShards), log[|front|]);
    }
  }

  /** Configurations name only groups they have exactly when no move that took effect named another:
      a move is not checked against the groups. */
  lemma {:induction false} HomedUnlessStray(log: seq<Op>, nShards: nat)
    requires AllAcceptable(log, nShards)
    ensures AllHomed(After(log, nShards).configs) <==> NoneStrays(log, nShards)
  {
    hide Homed, Strays, Execute, NoneStrays, AllHomed, OnOp, Acceptable;
    if log == [] {
      EmptyHomed(nShards);
    } else {
      var front, op := log[..|log| - 1], log[|log| - 1];
      HomedUnlessStray(front, nShards);
      NoneStraysPush(log, nShards);
      if AllHomed(After(log, nShards).configs) { HomedBefore(log, |front|, nShards); }
      if AllHomed(After(front, nShards).configs) { StepHomed(After(front, nShards), op, nShards); }
    }
  }

  lemma EmptyHomed(nShards: nat)
    ensures AllHomed(After([], nShards).configs) && NoneStrays([], nShards)
  {
  }

  /** Such a move happens: join group 1, then move shard 0 to group 7, which nobody has joined. */
  function StrayLog(): seq<Op> {
    [Op(1, 1, Join, map[1 := []], [], 0, 0, 0), Op(1, 2, Move, map[], [], 0, 7, 0)]
  }

  lemma StrayMove(nShards: nat)
    requires nShards > 0
    ensures AllAcceptable(StrayLog(), nShards)
    ensures !AllHomed(After(StrayLog(), nShards).configs)
    ensures LastOf(After(StrayLog(), nShards).configs).shards[0] == 7
  {
    hide Rebalanced;
    var log := StrayLog();
    assert log[..1] == [log[0]] && log[..1][..0] == [] && log[..2] == log;
    var joined := After(log[..1], nShards);
    assert joined == OnOp(After([], nShards), log[0], nShards).0;
    assert After(log, nShards) == OnOp(joined, log[1], nShards).0;
    assert LastOf(joined.configs).groups == map[1 := []] && |LastOf(joined.configs).shards| == nShards;
    var c := LastOf(After(log, nShards).configs);
    assert c.shards[0] == 7 && c.groups == map[1 := []];
    assert !Homed(LastOf(After(log, nShards).configs));
  }

  // ---- A group 0 does harm ----

  /** Groups 0, 1 and 5 join, shard 0 is moved to group 0 and shard 1 to group 5, and group 5 leaves. */
  function ZeroLog(): seq<Op> {
    [Op(1, 1, Join, map[0 := [], 1 := [], 5 := []], [], 0, 0, 0),
     Op(1, 2, Move, map[], [], 0, 0, 0),
     Op(1, 3, Move, map[], [], 1, 5, 0),
     Op(1, 4, Leave, map[], [5], 0, 0, 0)]
  }

  lemma ZeroLogStep(k: nat)
    requires k < 4
    ensures AllAcceptable(ZeroLog(), 2)
    ensures After(ZeroLog()[..k + 1], 2) == OnOp(After(ZeroLog()[..k], 2), ZeroLog()[k], 2).0
  {
    hide OnOp;
    assert ZeroLog()[..k + 1][..k] == ZeroLog()[..k];
  }

  /** The first three commands leave shard 0 with group 0 and shard 1 with group 5. */
  lemma ZeroMoved()
    ensures AllAcceptable(ZeroLog(), 2)
    ensures var s := After(ZeroLog()[..3], 2);
      && LastOf(s.configs).shards == [0, 5] && LastOf(s.configs).groups == map[0 := [], 1 := [], 5 := []]
      && s.sessions == map[1 := Session(3, Move, Done)]
  {
    hide Rebalanced, After;
    var log := ZeroLog();
    assert After(log[..0], 2) == State([Config(0, seq(2, _ => 0), map[])], map[]) by { NothingApplied(log); }
    ZeroLogStep(0);
    ZeroLogStep(1);
    ZeroLogStep(2);
    var joined, moved := After(log[..1], 2), After(log[..2], 2);
    assert LastOf(joined.configs).groups == map[0 := [], 1 := [], 5 := []];
    assert LastOf(moved.configs).shards[0] == 0;
  }

  lemma NothingApplied(log: seq<Op>)
    ensures AllAcceptable(log[..0], 2) && After(log[..0], 2) == State([Config(0, seq(2, _ => 0), map[])], map[])
  {
  }

  /** When group 5 leaves, both shards move, although a balanced assignment would leave shard 0 alone. */
  lemma ZeroLogMovesMore()
    ensures AllAcceptable(ZeroLog(), 2)
    ensures var last, next := LastOf(After(ZeroLog()[..3], 2).configs), LastOf(After(ZeroLog(), 2).configs);
      && next.groups.Keys == {0, 1} && last.shards == [0, 5] && next.shards == [1, 0]
      && Balanced([0, 1], next.groups.Keys)
      && Kept(last.shards, next.shards, next.groups.Keys) < Kept(last.shards, [0, 1], next.groups.Keys)
  {
    hide Rebalanced, After, Balanced, Kept;
    var log := ZeroLog();
    ZeroMoved();
    ZeroLogStep(3);
    assert log[..4] == log;
    assert Without(map[0 := [], 1 := [], 5 := []], [5]).Keys == {0, 1};
    GroupZeroMovesMore();
  }
}
