/** What rebalancing shards over groups comes to, for any number of shards. Group 0 means none. */
module RebalancePlan {

  function Count(s: seq<int>, x: int): nat {
    if s == [] then 0 else Count(s[..|s| - 1], x) + if s[|s| - 1] == x then 1 else 0
  }

  function Min(a: nat, b: nat): nat { if a < b then a else b }

  /** The first k occurrences of one value are replaced by another. */
  function ReplaceFirst(s: seq<int>, from: int, to: int, k: nat): (r: seq<int>)
    ensures |r| == |s|
  {
    seq(|s|, j requires 0 <= j < |s| => if s[j] == from && Count(s[..j], from) < k then to else s[j])
  }

  lemma ReplacePush(s: seq<int>, x: int, from: int, to: int, k: nat)
    ensures ReplaceFirst(s + [x], from, to, k)
         == ReplaceFirst(s, from, to, k) + [if x == from && Count(s, from) < k then to else x]
  {
    var more := s + [x];
    assert more[..|s|] == s;
    assert forall j: nat :: j < |s| ==> more[..j] == s[..j];
  }

  lemma {:induction false} ReplaceCount(s: seq<int>, from: int, to: int, k: nat, x: int)
    requires from != to
    ensures Count(ReplaceFirst(s, from, to, k), x)
         == if x == from then Count(s, from) - Min(k, Count(s, from))
            else if x == to then Count(s, to) + Min(k, Count(s, from))
            else Count(s, x)
  {
    if s != [] {
      var front, last := s[..|s| - 1], s[|s| - 1];
      ReplaceCount(front, from, to, k, x);
      assert s == front + [last];
      ReplacePush(front, last, from, to, k);
      var r, y := ReplaceFirst(front, from, to, k), if last == from && Count(front, from) < k then to else last;
      assert (r + [y])[..|r|] == r;
    }
  }

  lemma ReplaceSame(s: seq<int>, x: int, k: nat)
    ensures ReplaceFirst(s, x, x, k) == s
  {
  }

  // ---- The order in which groups are served ----

  /** More shards first, and the smaller gid first among equals. */
  predicate Before(last: seq<int>, a: int, b: int) {
    Count(last, a) > Count(last, b) || (Count(last, a) == Count(last, b) && a < b)
  }

  ghost predicate Foremost(last: seq<int>, keys: set<int>, g: int) {
    g in keys && forall h :: h in keys && h != g ==> Before(last, g, h)
  }

  lemma AnyOf(keys: set<int>) returns (x: int)
    requires keys != {}
    ensures x in keys
  {
    assert (forall y :: y !in keys) ==> keys == {};
    x :| x in keys;
  }

  lemma {:induction false} ForemostExists(last: seq<int>, keys: set<int>) returns (g: int)
    requires keys != {}
    ensures Foremost(last, keys, g)
  {
    hide Count;
    var x := AnyOf(keys);
    var rest := keys - {x};
    assert forall h :: h in keys && h != x ==> h in rest;
    g := x;
    if rest != {} {
      var y := ForemostExists(last, rest);
      if Before(last, y, x) { g := y; }
    } else {
      assert forall h :: h !in rest;
    }
  }

  ghost function Sorted(last: seq<int>, keys: set<int>): (r: seq<int>)
    ensures |r| == |keys| && forall g :: g in r <==> g in keys
    decreases |keys|
  {
    if keys == {} then []
    else
      assert exists g :: Foremost(last, keys, g) by { var x := ForemostExists(last, keys); }
      var g :| Foremost(last, keys, g);
      [g] + Sorted(last, keys - {g})
  }

  predicate InOrder(last: seq<int>, ord: seq<int>) {
    forall i: nat, j: nat :: i < j < |ord| ==> Before(last, ord[i], ord[j])
  }

  /** There is one such order, so nothing depends on how the groups were listed. */
  lemma {:induction false} OrderUnique(last: seq<int>, keys: set<int>, ord: seq<int>)
    requires InOrder(last, ord) && (forall g :: g in ord <==> g in keys)
    ensures ord == Sorted(last, keys)
    decreases |keys|
  {
    if keys == {} {
      assert forall g :: g in ord ==> g in keys;
      assert ord == [];
    } else {
      var x := AnyOf(keys);
      assert x in ord;
      var first, rest := ord[0], ord[1..];
      assert ord == [first] + rest;
      assert first in keys;
      assert forall h :: h in keys && h != first ==> Before(last, first, h);
      assert forall h :: Foremost(last, keys, h) ==> h == first;
      assert first !in rest;
      forall g ensures g in rest <==> g in keys - {first} {
        if g in keys && g != first { assert g in ord; }
      }
      OrderUnique(last, keys - {first}, rest);
    }
  }

  lemma {:induction false} SortedInOrder(last: seq<int>, keys: set<int>)
    ensures InOrder(last, Sorted(last, keys))
    decreases |keys|
  {
    if keys != {} {
      var ord := Sorted(last, keys);
      assert exists g :: Foremost(last, keys, g) by { var x := ForemostExists(last, keys); }
      var first := ord[0];
      assert Foremost(last, keys, first) && ord == [first] + Sorted(last, keys - {first});
      SortedInOrder(last, keys - {first});
      forall i: nat, j: nat | i < j < |ord| ensures Before(last, ord[i], ord[j]) {
        assert ord[j] in Sorted(last, keys - {first});
        if i > 0 { assert ord[i] == Sorted(last, keys - {first})[i - 1]; }
      }
    }
  }

  predicate AllDistinct(ord: seq<int>) {
    forall i: nat, j: nat :: i < j < |ord| ==> ord[i] != ord[j]
  }

  lemma InOrderDistinct(last: seq<int>, ord: seq<int>)
    requires InOrder(last, ord)
    ensures AllDistinct(ord)
  {
  }

  // ---- The two passes ----

  /** What the i-th group in the order should end with. */
  function Target(n: nat, m: nat, i: nat): nat
    requires m > 0
  {
    n / m + if i < n % m then 1 else 0
  }

  function Over(last: seq<int>, ord: seq<int>, i: nat): nat
    requires i < |ord|
  {
    var c, t := Count(last, ord[i]), Target(|last|, |ord|, i);
    if c > t then c - t else 0
  }

  function Under(last: seq<int>, ord: seq<int>, i: nat): nat
    requires i < |ord|
  {
    var c, t := Count(last, ord[i]), Target(|last|, |ord|, i);
    if c < t then t - c else 0
  }

  /** Shards of groups that are gone are free. */
  function Cleaned(last: seq<int>, keys: set<int>): (r: seq<int>)
    ensures |r| == |last|
  {
    seq(|last|, j requires 0 <= j < |last| => if last[j] in keys then last[j] else 0)
  }

  /** After the first i groups have released what they have too much. */
  function Released(last: seq<int>, keys: set<int>, ord: seq<int>, i: nat): (r: seq<int>)
    requires i <= |ord|
    ensures |r| == |last|
  {
    if i == 0 then Cleaned(last, keys)
    else ReplaceFirst(Released(last, keys, ord, i - 1), ord[i - 1], 0, Over(last, ord, i - 1))
  }

  /** After the first i groups have taken what they lack. */
  function Filled(last: seq<int>, keys: set<int>, ord: seq<int>, i: nat): (r: seq<int>)
    requires i <= |ord|
    ensures |r| == |last|
  {
    if i == 0 then Released(last, keys, ord, |ord|)
    else ReplaceFirst(Filled(last, keys, ord, i - 1), 0, ord[i - 1], Under(last, ord, i - 1))
  }

  /** The assignment that rebalancing gives. */
  ghost function Rebalanced(last: seq<int>, keys: set<int>): (r: seq<int>)
    ensures |r| == |last|
  {
    if keys == {} then seq(|last|, _ => 0)
    else
      var ord := Sorted(last, keys);
      Filled(last, keys, ord, |ord|)
  }

  // ---- Counting ----

  /** The shards of all groups of the list together. */
  function Total(s: seq<int>, ord: seq<int>): nat {
    if ord == [] then 0 else Total(s, ord[..|ord| - 1]) + Count(s, ord[|ord| - 1])
  }

  function SumTargets(n: nat, m: nat, k: nat): nat
    requires m > 0
  {
    if k == 0 then 0 else SumTargets(n, m, k - 1) + Target(n, m, k - 1)
  }

  lemma {:induction false} SumTargetsIs(n: nat, m: nat, k: nat)
    requires m > 0
    ensures SumTargets(n, m, k) == k * (n / m) + Min(k, n % m)
  {
    if k > 0 {
      SumTargetsIs(n, m, k - 1);
      assert k * (n / m) == (k - 1) * (n / m) + n / m;
    }
  }

  lemma TargetsCover(n: nat, m: nat)
    requires m > 0
    ensures SumTargets(n, m, m) == n
  {
    SumTargetsIs(n, m, m);
    assert n == m * (n / m) + n % m;
  }

  lemma {:induction false} TotalPush(s: seq<int>, x: int, ord: seq<int>)
    requires AllDistinct(ord)
    ensures Total(s + [x], ord) == Total(s, ord) + if x in ord then 1 else 0
  {
    if ord != [] {
      var front, g := ord[..|ord| - 1], ord[|ord| - 1];
      TotalPush(s, x, front);
      assert (s + [x])[..|s|] == s;
      assert ord == front + [g];
      assert g !in front;
    }
  }

  lemma {:induction false} TotalNothing(ord: seq<int>)
    ensures Total([], ord) == 0
  {
    if ord != [] { TotalNothing(ord[..|ord| - 1]); }
  }

  /** Where every shard is free or some group's, the counts add up to all shards; those at 0 are group
      0's, if there is one. */
  lemma {:induction false} TotalIsAll(s: seq<int>, ord: seq<int>)
    requires AllDistinct(ord) && forall j: nat :: j < |s| ==> s[j] == 0 || s[j] in ord
    ensures Total(s, ord) + (if 0 in ord then 0 else Count(s, 0)) == |s|
  {
    if s == [] {
      TotalNothing(ord);
    } else {
      var front, x := s[..|s| - 1], s[|s| - 1];
      TotalIsAll(front, ord);
      TotalPush(front, x, ord);
      assert s == front + [x];
    }
  }
}
