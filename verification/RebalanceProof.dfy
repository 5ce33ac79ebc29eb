/** Rebalancing is total, balanced, moves as few shards as any balanced assignment could, and leaves
    a balanced assignment alone. */
module RebalanceProof {
  import opened RebalancePlan

  /** The groups in the order they are served, for an assignment over these groups. */
  ghost predicate Plan(last: seq<int>, keys: set<int>, ord: seq<int>) {
    && ord != [] && InOrder(last, ord) && (forall g :: g in ord <==> g in keys)
  }

  // ---- What is left after the release pass, and after the assign pass ----

  /** Every shard is where it was, or free. */
  predicate Thinned(last: seq<int>, keys: set<int>, s: seq<int>) {
    |s| == |last| && forall j: nat :: j < |s| ==> s[j] == 0 || (s[j] == last[j] && s[j] in keys)
  }

  lemma {:induction false} CleanedCount(last: seq<int>, keys: set<int>, g: int)
    requires g in keys && g != 0
    ensures Count(Cleaned(last, keys), g) == Count(last, g)
  {
    if last != [] {
      var front := last[..|last| - 1];
      CleanedCount(front, keys, g);
      assert Cleaned(last, keys)[..|last| - 1] == Cleaned(front, keys);
    }
  }

  lemma {:induction false} ReleasedThins(last: seq<int>, keys: set<int>, ord: seq<int>, i: nat)
    requires Plan(last, keys, ord) && i <= |ord|
    ensures Thinned(last, keys, Released(last, keys, ord, i))
  {
    if i > 0 { ReleasedThins(last, keys, ord, i - 1); }
  }

  /** A group that has released keeps its target or what it had, whichever is less. What a group 0
      releases is at 0 as before. */
  lemma {:induction false} ReleasedCount(last: seq<int>, keys: set<int>, ord: seq<int>, i: nat, k: nat)
    requires Plan(last, keys, ord) && i <= |ord| && k < |ord| && ord[k] != 0
    ensures Count(Released(last, keys, ord, i), ord[k])
         == if k < i then Min(Count(last, ord[k]), Target(|last|, |ord|, k)) else Count(last, ord[k])
  {
    hide Target;
    InOrderDistinct(last, ord);
    assert ord[k] in keys && (i > 0 ==> ord[i - 1] in keys);
    if i == 0 {
      CleanedCount(last, keys, ord[k]);
    } else {
      ReleasedCount(last, keys, ord, i - 1, k);
      var before := Released(last, keys, ord, i - 1);
      if ord[i - 1] == 0 {
        ReplaceSame(before, 0, Over(last, ord, i - 1));
      } else {
        ReplaceCount(before, ord[i - 1], 0, Over(last, ord, i - 1), ord[k]);
      }
    }
  }

  /** What the groups from i on still lack, other than a group 0, which needs no shard changed. */
  function Lacking(last: seq<int>, ord: seq<int>, i: nat): nat
    requires i <= |ord|
    decreases |ord| - i
  {
    if i == |ord| then 0 else (if ord[i] == 0 then 0 else Under(last, ord, i)) + Lacking(last, ord, i + 1)
  }

  /** The target of a group 0 among the first k groups. */
  function OwnTarget(n: nat, ord: seq<int>, k: nat): nat
    requires k <= |ord|
  {
    if k == 0 then 0 else OwnTarget(n, ord, k - 1) + if ord[k - 1] == 0 then Target(n, |ord|, k - 1) else 0
  }

  lemma {:induction false} OwnTargetIs(n: nat, ord: seq<int>, k: nat)
    requires AllDistinct(ord) && k <= |ord|
    ensures 0 !in ord[..k] ==> OwnTarget(n, ord, k) == 0
    ensures forall i: nat :: i < k && ord[i] == 0 ==> OwnTarget(n, ord, k) == Target(n, |ord|, i)
  {
    hide Target;
    if k > 0 {
      OwnTargetIs(n, ord, k - 1);
      assert ord[..k] == ord[..k - 1] + [ord[k - 1]];
      assert forall i: nat :: i < k - 1 ==> ord[i] in ord[..k - 1];
    }
  }

  lemma {:induction false} KeptAndLacking(last: seq<int>, keys: set<int>, ord: seq<int>, k: nat, s: seq<int>)
    requires Plan(last, keys, ord) && k <= |ord|
    requires forall i: nat :: i < |ord| && ord[i] != 0 ==>
               Count(s, ord[i]) == Min(Count(last, ord[i]), Target(|last|, |ord|, i))
    ensures Total(s, ord[..k]) + Lacking(last, ord, 0) + OwnTarget(|last|, ord, k)
         == SumTargets(|last|, |ord|, k) + Lacking(last, ord, k) + if 0 in ord[..k] then Count(s, 0) else 0
  {
    hide Count, Target;
    if k > 0 {
      KeptAndLacking(last, keys, ord, k - 1, s);
      assert ord[..k][..k - 1] == ord[..k - 1];
      assert ord[..k] == ord[..k - 1] + [ord[k - 1]];
      InOrderDistinct(last, ord);
      assert ord[k - 1] !in ord[..k - 1];
    }
  }

  /** As many shards are free after the release pass as the groups lack together, and a group 0 keeps. */
  lemma FreeIsLacking(last: seq<int>, keys: set<int>, ord: seq<int>)
    requires Plan(last, keys, ord)
    ensures Count(Released(last, keys, ord, |ord|), 0) == Lacking(last, ord, 0) + OwnTarget(|last|, ord, |ord|)
  {
    hide Target, Released;
    var s := Released(last, keys, ord, |ord|);
    forall i: nat | i < |ord| && ord[i] != 0
      ensures Count(s, ord[i]) == Min(Count(last, ord[i]), Target(|last|, |ord|, i))
    {
      ReleasedCount(last, keys, ord, |ord|, i);
    }
    KeptAndLacking(last, keys, ord, |ord|, s);
    assert ord[..|ord|] == ord;
    TargetsCover(|last|, |ord|);
    InOrderDistinct(last, ord);
    OwnTargetIs(|last|, ord, |ord|);
    ReleasedThins(last, keys, ord, |ord|);
    TotalIsAll(s, ord);
  }

  /** In the assign pass the groups that were served have their targets, and the free shards suffice. */
  lemma {:induction false} FilledCount(last: seq<int>, keys: set<int>, ord: seq<int>, i: nat, k: nat)
    requires Plan(last, keys, ord) && i <= |ord| && k < |ord|
    ensures ord[k] != 0 ==>
      (Count(Filled(last, keys, ord, i), ord[k])
       == if k < i then Target(|last|, |ord|, k) else Min(Count(last, ord[k]), Target(|last|, |ord|, k)))
    ensures Count(Filled(last, keys, ord, i), 0) == Lacking(last, ord, i) + OwnTarget(|last|, ord, |ord|)
  {
    hide Target, Released, OwnTarget;
    InOrderDistinct(last, ord);
    assert ord[k] in keys && (i > 0 ==> ord[i - 1] in keys);
    if i == 0 {
      if ord[k] != 0 { ReleasedCount(last, keys, ord, |ord|, k); }
      FreeIsLacking(last, keys, ord);
    } else {
      FilledCount(last, keys, ord, i - 1, k);
      var before := Filled(last, keys, ord, i - 1);
      if ord[i - 1] == 0 {
        ReplaceSame(before, 0, Under(last, ord, i - 1));
      } else {
        assert Under(last, ord, i - 1) <= Count(before, 0);
        ReplaceCount(before, 0, ord[i - 1], Under(last, ord, i - 1), ord[k]);
        ReplaceCount(before, 0, ord[i - 1], Under(last, ord, i - 1), 0);
      }
    }
  }

  /** In the end every group has its target, a group 0 too, and without one no shard is free. */
  lemma FilledTargets(last: seq<int>, keys: set<int>, ord: seq<int>, k: nat)
    requires Plan(last, keys, ord) && k < |ord|
    ensures Count(Filled(last, keys, ord, |ord|), ord[k]) == Target(|last|, |ord|, k)
    ensures 0 !in keys ==> Count(Filled(last, keys, ord, |ord|), 0) == 0
  {
    hide Target, Filled, OwnTarget;
    InOrderDistinct(last, ord);
    FilledCount(last, keys, ord, |ord|, k);
    OwnTargetIs(|last|, ord, |ord|);
    assert ord[..|ord|] == ord;
  }

  lemma {:induction false} FilledOwners(last: seq<int>, keys: set<int>, ord: seq<int>, i: nat)
    requires Plan(last, keys, ord) && i <= |ord|
    ensures forall j: nat :: j < |last| ==> Filled(last, keys, ord, i)[j] == 0 || Filled(last, keys, ord, i)[j] in keys
    ensures forall j: nat :: j < |last| && Filled(last, keys, ord, 0)[j] != 0 ==>
              Filled(last, keys, ord, i)[j] == Filled(last, keys, ord, 0)[j]
  {
    if i == 0 {
      ReleasedThins(last, keys, ord, |ord|);
    } else {
      FilledOwners(last, keys, ord, i - 1);
      assert ord[i - 1] in ord;
    }
  }

  lemma {:induction false} NoneLeft(s: seq<int>, x: int, j: nat)
    requires Count(s, x) == 0 && j < |s|
    ensures s[j] != x
  {
    if j < |s| - 1 { NoneLeft(s[..|s| - 1], x, j); }
  }

  // ---- Balance ----

  /** Every shard is some group's, and every group has the floor or the ceiling of its share. */
  ghost predicate Balanced(s: seq<int>, keys: set<int>) {
    && keys != {} && (forall j: nat :: j < |s| ==> s[j] in keys)
    && (forall g :: g in keys ==>
          Count(s, g) == |s| / |keys| || (|s| % |keys| != 0 && Count(s, g) == |s| / |keys| + 1))
  }

  lemma PlanOf(last: seq<int>, keys: set<int>)
    requires keys != {}
    ensures Plan(last, keys, Sorted(last, keys)) && |Sorted(last, keys)| == |keys| > 0
  {
    SortedInOrder(last, keys);
    var x := AnyOf(keys);
    assert x in Sorted(last, keys);
  }

  /** Total and balanced: whatever the assignment was before. */
  lemma RebalancedIsBalanced(last: seq<int>, keys: set<int>)
    requires keys != {}
    ensures Balanced(Rebalanced(last, keys), keys)
  {
    hide Filled, Sorted;
    PlanOf(last, keys);
    var ord := Sorted(last, keys);
    var s := Rebalanced(last, keys);
    FilledOwners(last, keys, ord, |ord|);
    FilledTargets(last, keys, ord, 0);
    forall j: nat | j < |s| ensures s[j] in keys {
      if 0 !in keys { NoneLeft(s, 0, j); }
    }
    forall g | g in keys
      ensures Count(s, g) == |s| / |keys| || (|s| % |keys| != 0 && Count(s, g) == |s| / |keys| + 1)
    {
      assert g in ord;
      var k: nat :| k < |ord| && ord[k] == g;
      FilledTargets(last, keys, ord, k);
    }
  }

  /** With no group left, every shard is free. */
  lemma RebalancedToNone(last: seq<int>)
    ensures forall j: nat :: j < |last| ==> Rebalanced(last, {})[j] == 0
  {
  }

  // ---- Moving little ----

  /** The shards that were the group's and still are. */
  function KeptBy(last: seq<int>, s: seq<int>, g: int): nat
    requires |s| == |last|
  {
    if s == [] then 0
    else KeptBy(last[..|s| - 1], s[..|s| - 1], g) + if last[|s| - 1] == g && s[|s| - 1] == g then 1 else 0
  }

  /** The shards of groups that are still there, and that stay with them. */
  function Kept(last: seq<int>, s: seq<int>, keys: set<int>): nat
    requires |s| == |last|
  {
    if s == [] then 0
    else Kept(last[..|s| - 1], s[..|s| - 1], keys) + if last[|s| - 1] in keys
      && s[|s| - 1] == last[|s| - 1] then 1 else 0
  }

  function SumKept(last: seq<int>, s: seq<int>, ord: seq<int>): nat
    requires |s| == |last|
  {
    if ord == [] then 0 else SumKept(last, s, ord[..|ord| - 1]) + KeptBy(last, s, ord[|ord| - 1])
  }

  lemma {:induction false} SumKeptNothing(ord: seq<int>)
    ensures SumKept([], [], ord) == 0
  {
    if ord != [] { SumKeptNothing(ord[..|ord| - 1]); }
  }

  lemma {:induction false} SumKeptPush(last: seq<int>, s: seq<int>, x: int, y: int, ord: seq<int>)
    requires |s| == |last| && AllDistinct(ord)
    ensures SumKept(last + [x], s + [y], ord) == SumKept(last, s, ord) + if x in ord && x == y then 1 else 0
  {
    if ord != [] {
      var front, g := ord[..|ord| - 1], ord[|ord| - 1];
      SumKeptPush(last, s, x, y, front);
      assert (last + [x])[..|s|] == last && (s + [y])[..|s|] == s;
      assert ord == front + [g] && g !in front;
    }
  }

  lemma {:induction false} KeptIsSum(last: seq<int>, s: seq<int>, keys: set<int>, ord: seq<int>)
    requires |s| == |last| && AllDistinct(ord) && forall g :: g in ord <==> g in keys
    ensures Kept(last, s, keys) == SumKept(last, s, ord)
  {
    if s == [] {
      SumKeptNothing(ord);
    } else {
      var lastFront, sFront := last[..|s| - 1], s[..|s| - 1];
      KeptIsSum(lastFront, sFront, keys, ord);
      SumKeptPush(lastFront, sFront, last[|s| - 1], s[|s| - 1], ord);
      assert last == lastFront + [last[|s| - 1]] && s == sFront + [s[|s| - 1]];
    }
  }

  lemma {:induction false} KeptAtMost(last: seq<int>, s: seq<int>, g: int)
    requires |s| == |last|
    ensures KeptBy(last, s, g) <= Min(Count(last, g), Count(s, g))
  {
    if s != [] {
      KeptAtMost(last[..|s| - 1], s[..|s| - 1], g);
    }
  }

  /** A group keeps everything the release pass left it. */
  lemma {:induction false} KeptAtLeast(last: seq<int>, s: seq<int>, thin: seq<int>, g: int)
    requires |s| == |last| == |thin| && g != 0
    requires forall j: nat :: j < |s| ==> thin[j] == 0 || (thin[j] == last[j] && s[j] == thin[j])
    ensures KeptBy(last, s, g) >= Count(thin, g)
  {
    if s != [] {
      KeptAtLeast(last[..|s| - 1], s[..|s| - 1], thin[..|s| - 1], g);
    }
  }

  // ---- Comparing with another balanced assignment ----

  /** What the first k groups keep when each ends with its target. */
  function SumMin(last: seq<int>, ord: seq<int>, k: nat): nat
    requires k <= |ord|
  {
    if k == 0 then 0
    else SumMin(last, ord, k - 1) + Min(Count(last, ord[k - 1]), Target(|last|, |ord|, k - 1))
  }

  /** What they keep when each ends with the floor. */
  function SumFloor(last: seq<int>, ord: seq<int>, avg: nat, k: nat): nat
    requires k <= |ord|
  {
    if k == 0 then 0 else SumFloor(last, ord, avg, k - 1) + Min(Count(last, ord[k - 1]), avg)
  }

  /** The groups among the first k that have more than avg. */
  function Larger(s: seq<int>, ord: seq<int>, avg: nat, k: nat): nat
    requires k <= |ord|
  {
    if k == 0 then 0 else Larger(s, ord, avg, k - 1) + if Count(s, ord[k - 1]) > avg then 1 else 0
  }

  lemma {:induction false} TotalLarger(s: seq<int>, ord: seq<int>, avg: nat, k: nat)
    requires k <= |ord| && forall i: nat :: i < |ord| ==> Count(s, ord[i]) == avg || Count(s, ord[i]) == avg + 1
    ensures Total(s, ord[..k]) == k * avg + Larger(s, ord, avg, k)
  {
    if k > 0 {
      TotalLarger(s, ord, avg, k - 1);
      assert ord[..k][..k - 1] == ord[..k - 1];
      assert k * avg == (k - 1) * avg + avg;
    }
  }

  /** Groups that end with the floor or one more keep at most the floor, and one more only where they
      end with it and had it. */
  lemma {:induction false} OtherKeepsAtMost(last: seq<int>, s: seq<int>, ord: seq<int>, avg: nat, k: nat)
    requires |s| == |last| && k <= |ord|
    requires forall i: nat :: i < |ord| ==> Count(s, ord[i]) == avg || Count(s, ord[i]) == avg + 1
    ensures SumKept(last, s, ord[..k]) <= SumFloor(last, ord, avg, k) + Larger(s, ord, avg, k)
    ensures SumKept(last, s, ord[..k]) <= SumFloor(last, ord, avg, k) + Larger(last, ord, avg, k)
  {
    if k > 0 {
      OtherKeepsAtMost(last, s, ord, avg, k - 1);
      assert ord[..k][..k - 1] == ord[..k - 1];
      KeptAtMost(last, s, ord[k - 1]);
    }
  }

  /** In sorted order, the groups that get one more are the ones that had most. */
  lemma {:induction false} TargetsKeep(last: seq<int>, ord: seq<int>, k: nat)
    requires ord != [] && k <= |ord| && InOrder(last, ord)
    ensures var avg, r := |last| / |ord|, |last| % |ord|;
      && SumMin(last, ord, k) == SumFloor(last, ord, avg, k) + Min(Larger(last, ord, avg, k), r)
      && Larger(last, ord, avg, k) <= k
      && (k > 0 && Count(last, ord[k - 1]) > avg ==> Larger(last, ord, avg, k) == k)
  {
    if k > 0 {
      TargetsKeep(last, ord, k - 1);
      if k > 1 { assert Before(last, ord[k - 2], ord[k - 1]); }
    }
  }

  /** Ours keep their targets, or all they had. */
  lemma {:induction false} OursKeep(last: seq<int>, keys: set<int>, ord: seq<int>, k: nat)
    requires Plan(last, keys, ord) && k <= |ord| && 0 !in keys
    ensures SumKept(last, Filled(last, keys, ord, |ord|), ord[..k]) >= SumMin(last, ord, k)
  {
    hide Target, Released, Filled;
    if k > 0 {
      OursKeep(last, keys, ord, k - 1);
      assert ord[..k][..k - 1] == ord[..k - 1];
      OursKeepOne(last, keys, ord, k - 1);
    }
  }

  lemma OursKeepOne(last: seq<int>, keys: set<int>, ord: seq<int>, k: nat)
    requires Plan(last, keys, ord) && k < |ord| && 0 !in keys
    ensures KeptBy(last, Filled(last, keys, ord, |ord|), ord[k]) >= Min(Count(last, ord[k]), Target(|last|, |ord|, k))
  {
    hide Target, Released;
    var thin := Filled(last, keys, ord, 0);
    assert thin == Released(last, keys, ord, |ord|);
    ReleasedThins(last, keys, ord, |ord|);
    ReleasedCount(last, keys, ord, |ord|, k);
    FilledOwners(last, keys, ord, |ord|);
    assert ord[k] in keys;
    KeptAtLeast(last, Filled(last, keys, ord, |ord|), thin, ord[k]);
  }

  lemma BalancedCounts(s: seq<int>, keys: set<int>, ord: seq<int>)
    requires Balanced(s, keys) && AllDistinct(ord) && ord != [] && |ord| == |keys|
    requires forall g :: g in ord <==> g in keys
    ensures forall i: nat :: i < |ord| ==>
      Count(s, ord[i]) == |s| / |ord| || Count(s, ord[i]) == |s| / |ord| + 1
    ensures Larger(s, ord, |s| / |ord|, |ord|) == |s| % |ord|
  {
    hide Count, Total, Larger;
    var avg := |s| / |ord|;
    forall i: nat | i < |ord| ensures Count(s, ord[i]) == avg || Count(s, ord[i]) == avg + 1 {
      assert ord[i] in ord;
      assert ord[i] in keys;
    }
    TotalLarger(s, ord, avg, |ord|);
    assert ord[..|ord|] == ord;
    BalancedOwners(s, keys, ord);
    TotalIsAll(s, ord);
    if 0 !in ord { NoneOf(s, 0); }
    Division(|s|, |ord|);
  }

  lemma BalancedOwners(s: seq<int>, keys: set<int>, ord: seq<int>)
    requires Balanced(s, keys) && forall g :: g in ord <==> g in keys
    ensures forall j: nat :: j < |s| ==> s[j] in ord
  {
    hide Count;
    forall j: nat | j < |s| ensures s[j] in ord {
      var g := s[j];
      assert g in keys;
      assert g in ord;
    }
  }

  lemma Division(n: nat, m: nat)
    requires m > 0
    ensures n == m * (n / m) + n % m
  {
  }

  lemma {:induction false} NoneOf(s: seq<int>, x: int)
    requires forall j: nat :: j < |s| ==> s[j] != x
    ensures Count(s, x) == 0
  {
    if s != [] { NoneOf(s[..|s| - 1], x); }
  }

  /** 0 marks a free shard, so a group 0 can do harm, unless it is the only group or there is nothing to
      choose. */
  predicate ZeroHarmless(n: nat, keys: set<int>) {
    0 !in keys || |keys| == 1 || n <= 1
  }

  /** Minimal: no balanced assignment leaves more shards where they were. */
  lemma RebalancedKeepsMost(last: seq<int>, keys: set<int>, other: seq<int>)
    requires ZeroHarmless(|last|, keys) && |other| == |last| && Balanced(other, keys)
    ensures Kept(last, other, keys) <= Kept(last, Rebalanced(last, keys), keys)
  {
    hide Filled, Sorted, Balanced, Kept, Rebalanced;
    BalancedKeys(other, keys);
    if 0 !in keys {
      PlanOf(last, keys);
      PlanIsRebalanced(last, keys);
      PlanKeepsMost(last, keys, Sorted(last, keys), other);
    } else if |keys| == 1 {
      RebalancedIsBalanced(last, keys);
      OneGroupSame(other, Rebalanced(last, keys), keys);
    } else {
      AtMostOneKept(last, keys, other);
    }
  }

  lemma PlanIsRebalanced(last: seq<int>, keys: set<int>)
    requires keys != {}
    ensures Rebalanced(last, keys) == Filled(last, keys, Sorted(last, keys), |Sorted(last, keys)|)
  {
  }

  lemma OneGroupSame(a: seq<int>, b: seq<int>, keys: set<int>)
    requires |keys| == 1 && |a| == |b| && Balanced(a, keys) && Balanced(b, keys)
    ensures a == b
  {
    hide Count;
    forall j: nat | j < |a| ensures a[j] == b[j] {
      var rest := keys - {a[j]};
      assert |rest| == 0;
      assert b[j] !in rest;
    }
  }

  lemma AtMostOneKept(last: seq<int>, keys: set<int>, other: seq<int>)
    requires keys != {} && |keys| != 1 && |last| <= 1 && |other| == |last|
    ensures Kept(last, other, keys) <= Kept(last, Rebalanced(last, keys), keys)
  {
    hide Rebalanced;
    if |last| == 1 && last[0] in keys {
      assert last[..0] == [] && forall g :: Count(last, g) == if last[0] == g then 1 else 0;
      Division(1, |keys|);
      BalancedStays(last, keys);
    }
  }

  lemma PlanKeepsMost(last: seq<int>, keys: set<int>, ord: seq<int>, other: seq<int>)
    requires 0 !in keys && Plan(last, keys, ord) && |ord| == |keys| && |other| == |last| && Balanced(other, keys)
    ensures Kept(last, other, keys) <= Kept(last, Filled(last, keys, ord, |ord|), keys)
  {
    hide Filled, Kept, SumKept, SumMin, SumFloor, Larger, Balanced, Count, InOrder;
    var ours := Filled(last, keys, ord, |ord|);
    InOrderDistinct(last, ord);
    KeptIsSum(last, other, keys, ord);
    KeptIsSum(last, ours, keys, ord);
    SumsCompare(last, keys, ord, other);
  }

  lemma SumsCompare(last: seq<int>, keys: set<int>, ord: seq<int>, other: seq<int>)
    requires 0 !in keys && Plan(last, keys, ord) && |ord| == |keys| && |other| == |last| && Balanced(other, keys)
      && AllDistinct(ord)
    ensures SumKept(last, other, ord) <= SumKept(last, Filled(last, keys, ord, |ord|), ord)
  {
    hide Filled, SumKept, SumMin, SumFloor, Larger, Balanced, Count, InOrder;
    BalancedCounts(other, keys, ord);
    OtherKeepsAtMost(last, other, ord, |last| / |ord|, |ord|);
    TargetsKeep(last, ord, |ord|);
    OursKeep(last, keys, ord, |ord|);
    assert ord[..|ord|] == ord;
  }

  lemma BalancedKeys(s: seq<int>, keys: set<int>)
    requires Balanced(s, keys)
    ensures keys != {}
  {
  }

  // ---- Staying put ----

  /** Where the counts are right already nothing is released and nothing is taken. */
  lemma {:induction false} NothingToDo(last: seq<int>, keys: set<int>, ord: seq<int>, i: nat)
    requires Plan(last, keys, ord) && i <= |ord| && Cleaned(last, keys) == last
    requires forall k: nat :: k < |ord| ==> Count(last, ord[k]) == Target(|last|, |ord|, k)
    ensures Released(last, keys, ord, i) == last
  {
    if i > 0 {
      NothingToDo(last, keys, ord, i - 1);
    }
  }

  lemma {:induction false} NothingToFill(last: seq<int>, keys: set<int>, ord: seq<int>, i: nat)
    requires Plan(last, keys, ord) && i <= |ord| && Cleaned(last, keys) == last
    requires forall k: nat :: k < |ord| ==> Count(last, ord[k]) == Target(|last|, |ord|, k)
    ensures Filled(last, keys, ord, i) == last
  {
    if i == 0 {
      NothingToDo(last, keys, ord, |ord|);
    } else {
      NothingToFill(last, keys, ord, i - 1);
    }
  }

  /** In sorted order, a balanced assignment has its larger groups first. */
  lemma {:induction false} LargerFirst(last: seq<int>, ord: seq<int>, avg: nat, k: nat)
    requires k <= |ord| && InOrder(last, ord)
    requires forall i: nat :: i < |ord| ==> Count(last, ord[i]) == avg || Count(last, ord[i]) == avg + 1
    ensures forall i: nat :: i < k ==> (Count(last, ord[i]) == avg + 1 <==> i < Larger(last, ord, avg, k))
    ensures Larger(last, ord, avg, k) <= k
  {
    if k > 0 {
      LargerFirst(last, ord, avg, k - 1);
      forall i: nat | i < k - 1 ensures Count(last, ord[i]) >= Count(last, ord[k - 1]) {
        assert Before(last, ord[i], ord[k - 1]);
      }
    }
  }

  /** Stable: a balanced assignment over the same groups stays as it is. */
  lemma BalancedStays(last: seq<int>, keys: set<int>)
    requires Balanced(last, keys)
    ensures Rebalanced(last, keys) == last
  {
    hide Filled, Sorted;
    PlanOf(last, keys);
    var ord := Sorted(last, keys);
    InOrderDistinct(last, ord);
    BalancedCounts(last, keys, ord);
    LargerFirst(last, ord, |last| / |ord|, |ord|);
    assert Cleaned(last, keys) == last;
    NothingToFill(last, keys, ord, |ord|);
  }

  // ---- Where a shard may end ----

  lemma {:induction false} ReleasedHomes(last: seq<int>, keys: set<int>, ord: seq<int>, i: nat)
    requires i <= |ord|
    ensures forall j: nat :: j < |last| ==>
          Released(last, keys, ord, i)[j] == 0 || Released(last, keys, ord, i)[j] in keys
  {
    if i > 0 { ReleasedHomes(last, keys, ord, i - 1); }
  }

  lemma {:induction false} FilledHomes(last: seq<int>, keys: set<int>, ord: seq<int>, i: nat)
    requires i <= |ord| && forall g :: g in ord ==> g in keys
    ensures forall j: nat :: j < |last| ==> Filled(last, keys, ord, i)[j] == 0 || Filled(last, keys, ord, i)[j] in keys
  {
    if i == 0 {
      ReleasedHomes(last, keys, ord, |ord|);
    } else {
      FilledHomes(last, keys, ord, i - 1);
      assert ord[i - 1] in ord;
    }
  }

  /** Whatever the groups are numbered, a shard ends free or in one of them. */
  lemma RebalancedHomes(last: seq<int>, keys: set<int>)
    ensures forall j: nat :: j < |last| ==> Rebalanced(last, keys)[j] == 0 || Rebalanced(last, keys)[j] in keys
  {
    hide Filled, Sorted;
    if keys != {} {
      FilledHomes(last, keys, Sorted(last, keys), |keys|);
    }
  }
}
