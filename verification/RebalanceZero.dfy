/** When rebalancing moves as few shards as it can although 0, which marks a free shard, may be a group. */
module RebalanceZero {
  import opened RebalancePlan
  import opened RebalanceProof

  /** No balanced assignment keeps more shards than the result. */
  ghost predicate Minimal(last: seq<int>, keys: set<int>) {
    forall other: seq<int> :: |other| == |last| && Balanced(other, keys) ==>
      Kept(last, other, keys) <= Kept(last, Rebalanced(last, keys), keys)
  }

  /** That holds for every assignment of n shards. */
  ghost predicate AlwaysMinimal(n: nat, keys: set<int>) {
    forall last: seq<int> :: |last| == n ==> Minimal(last, keys)
  }

  // ---- An assignment that fails ----

  /** Shard 0 is group 0's, the others were with a group that left. */
  function LoneZero(n: nat, gone: int): seq<int>
    requires n > 0
  {
    [0] + seq(n - 1, _ => gone)
  }

  lemma {:induction false} LoneZeroCount(n: nat, gone: int, g: int)
    requires n > 0 && gone != 0 && g != gone
    ensures Count(LoneZero(n, gone), g) == if g == 0 then 1 else 0
  {
    var s := LoneZero(n, gone);
    if n == 1 {
      assert s[..0] == [];
    } else {
      LoneZeroCount(n - 1, gone, g);
      assert s[..n - 1] == LoneZero(n - 1, gone);
    }
  }

  lemma ZeroFirst(n: nat, gone: int, keys: set<int>, ord: seq<int>)
    requires n >= 2 && 0 in keys && gone !in keys && Plan(LoneZero(n, gone), keys, ord)
    ensures ord[0] == 0
  {
    hide Count;
    var last := LoneZero(n, gone);
    assert 0 in ord;
    if ord[0] != 0 {
      assert ord[0] in keys;
      LoneZeroCount(n, gone, ord[0]);
      LoneZeroCount(n, gone, 0);
      assert false;
    }
  }

  function Zeros(n: nat): seq<int> { seq(n, _ => 0) }

  lemma {:induction false} AllReleased(n: nat, gone: int, keys: set<int>, ord: seq<int>, i: nat)
    requires n >= 2 && 0 in keys && gone !in keys && Plan(LoneZero(n, gone), keys, ord) && i <= |ord|
    ensures Released(LoneZero(n, gone), keys, ord, i) == Zeros(n)
  {
    hide Count, Target, Over;
    if i > 0 {
      AllReleased(n, gone, keys, ord, i - 1);
      NothingReplaced(n, ord[i - 1], Over(LoneZero(n, gone), ord, i - 1));
    }
  }

  lemma NothingReplaced(n: nat, from: int, k: nat)
    ensures ReplaceFirst(Zeros(n), from, 0, k) == Zeros(n)
  {
  }

  /** The second group in the order is given shard 0. */
  lemma {:induction false} ShardZeroMoves(n: nat, gone: int, keys: set<int>, ord: seq<int>, i: nat)
    requires n >= 2 && 0 in keys && gone !in keys && Plan(LoneZero(n, gone), keys, ord) && 2 <= i <= |ord|
    ensures Filled(LoneZero(n, gone), keys, ord, i)[0] == ord[1] != 0
  {
    hide Count, Target, Over, Under, Released;
    var last := LoneZero(n, gone);
    ZeroFirst(n, gone, keys, ord);
    InOrderDistinct(last, ord);
    if i > 2 {
      ShardZeroMoves(n, gone, keys, ord, i - 1);
    } else {
      AllReleased(n, gone, keys, ord, |ord|);
      ReplaceSame(Zeros(n), 0, Under(last, ord, 0));
      assert Filled(last, keys, ord, 1) == Zeros(n);
      SecondLacks(n, gone, keys, ord);
      FirstReplaced(n, ord[1], Under(last, ord, 1));
    }
  }

  lemma SecondLacks(n: nat, gone: int, keys: set<int>, ord: seq<int>)
    requires n >= 2 && 0 in keys && gone !in keys && Plan(LoneZero(n, gone), keys, ord) && |ord| >= 2 && ord[1] != 0
    ensures Under(LoneZero(n, gone), ord, 1) > 0
  {
    hide Count;
    assert ord[1] in keys;
    LoneZeroCount(n, gone, ord[1]);
    if n < |ord| { assert n / |ord| == 0; }
  }

  lemma FirstReplaced(n: nat, to: int, k: nat)
    requires n > 0 && k > 0
    ensures ReplaceFirst(Zeros(n), 0, to, k)[0] == to
  {
    assert Zeros(n)[..0] == [];
  }

  /** Giving shard 0 back, in exchange for another shard of group 0, is balanced and keeps more. */
  lemma SwapKeepsMore(n: nat, gone: int, keys: set<int>, r: seq<int>)
    requires n >= 2 && 0 in keys && gone !in keys && |r| == n && Balanced(r, keys) && r[0] != 0
    requires exists j: nat :: j < n && r[j] == 0
    ensures !(forall other: seq<int> :: |other| == n && Balanced(other, keys) ==>
                Kept(LoneZero(n, gone), other, keys) <= Kept(LoneZero(n, gone), r, keys))
  {
    hide Count, Kept, Balanced;
    var last := LoneZero(n, gone);
    var j: nat :| j < n && r[j] == 0;
    var other := r[0 := 0][j := r[0]];
    SwapBalanced(r, keys, j, other);
    KeptAtZero(last, r, keys);
    KeptAtZero(last, other, keys);
  }

  lemma SwapBalanced(r: seq<int>, keys: set<int>, j: nat, other: seq<int>)
    requires Balanced(r, keys) && 0 < j < |r| && other == r[0 := r[j]][j := r[0]]
    ensures Balanced(other, keys)
  {
    hide Count;
    forall g ensures Count(other, g) == Count(r, g) {
      CountUpdate(r, 0, r[j], g);
      CountUpdate(r[0 := r[j]], j, r[0], g);
    }
  }

  lemma {:induction false} CountUpdate(s: seq<int>, j: nat, x: int, g: int)
    requires j < |s|
    ensures Count(s[j := x], g) == Count(s, g) - (if s[j] == g then 1 else 0) + if x == g then 1 else 0
  {
    var front := s[..|s| - 1];
    if j < |s| - 1 {
      CountUpdate(front, j, x, g);
      assert s[j := x][..|s| - 1] == front[j := x];
    } else {
      assert s[j := x][..|s| - 1] == front;
    }
  }

  /** Where only shard 0 was with a group that is still there, only it can be kept. */
  lemma {:induction false} KeptAtZero(last: seq<int>, s: seq<int>, keys: set<int>)
    requires |s| == |last| > 0 && last[0] in keys && forall j: nat :: 0 < j < |last| ==> last[j] !in keys
    ensures Kept(last, s, keys) == if s[0] == last[0] then 1 else 0
  {
    if |s| > 1 {
      KeptAtZero(last[..|s| - 1], s[..|s| - 1], keys);
    } else {
      assert last[..0] == [] && s[..0] == [];
    }
  }

  lemma {:induction false} SomewhereIn(s: seq<int>, x: int) returns (j: nat)
    requires Count(s, x) > 0
    ensures j < |s| && s[j] == x
  {
    if s[|s| - 1] == x { j := |s| - 1; } else { j := SomewhereIn(s[..|s| - 1], x); }
  }

  lemma LoneZeroFails(n: nat, gone: int, keys: set<int>)
    requires n >= 2 && 0 in keys && |keys| >= 2 && gone !in keys
    ensures !Minimal(LoneZero(n, gone), keys)
  {
    hide Filled, Sorted, Balanced, Count, Target, Kept, Rebalanced;
    var last := LoneZero(n, gone);
    PlanOf(last, keys);
    PlanIsRebalanced(last, keys);
    var ord := Sorted(last, keys);
    var r := Rebalanced(last, keys);
    RebalancedIsBalanced(last, keys);
    ShardZeroMoves(n, gone, keys, ord, |ord|);
    ZeroFirst(n, gone, keys, ord);
    FilledTargets(last, keys, ord, 0);
    FirstTarget(n, |ord|);
    var j := SomewhereIn(r, 0);
    SwapKeepsMore(n, gone, keys, r);
  }

  lemma FirstTarget(n: nat, m: nat)
    requires n > 0 && m > 0
    ensures Target(n, m, 0) > 0
  {
    if n < m { assert n / m == 0 && n % m == n; }
  }

  /** There is always a number that is no group. */
  lemma {:induction false} NoGroup(keys: set<int>) returns (gone: int)
    ensures gone !in keys && forall g :: g in keys ==> g < gone
    decreases |keys|
  {
    if keys == {} {
      gone := 0;
    } else {
      var x := AnyOf(keys);
      var rest := NoGroup(keys - {x});
      gone := if x >= rest then x + 1 else rest;
      forall g | g in keys ensures g < gone {
        if g != x { assert g in keys - {x}; }
      }
    }
  }

  /** Rebalancing n shards over these groups always moves as few as it can exactly when 0 is no group, or the
      only one, or there is at most one shard. */
  lemma MinimalExactly(n: nat, keys: set<int>)
    requires keys != {}
    ensures AlwaysMinimal(n, keys) <==> 0 !in keys || |keys| == 1 || n <= 1
  {
    hide Minimal, Count;
    if ZeroHarmless(n, keys) {
      forall last: seq<int> | |last| == n ensures Minimal(last, keys) {
        HarmlessMinimal(last, keys);
      }
    } else {
      var gone := NoGroup(keys);
      assert |keys| != 0 by { var x := AnyOf(keys); assert x in keys; }
      LoneZeroFails(n, gone, keys);
      assert |LoneZero(n, gone)| == n;
    }
  }

  lemma HarmlessMinimal(last: seq<int>, keys: set<int>)
    requires ZeroHarmless(|last|, keys)
    ensures Minimal(last, keys)
  {
    hide Rebalanced, Balanced, Kept;
    forall other: seq<int> | |other| == |last| && Balanced(other, keys)
      ensures Kept(last, other, keys) <= Kept(last, Rebalanced(last, keys), keys)
    {
      RebalancedKeepsMost(last, keys, other);
    }
  }

  // ---- One input ----

  /** The least such input: with groups 0 and 1, the shard of a group that left and a shard of group 0 look
      the same, and group 1 takes the one that could have stayed. */
  lemma GroupZeroMovesMore()
    ensures Rebalanced([0, 5], {0, 1}) == [1, 0]
    ensures Balanced([0, 1], {0, 1}) && Kept([0, 5], [1, 0], {0, 1}) < Kept([0, 5], [0, 1], {0, 1})
  {
    hide Count, Kept;
    var last, keys, ord := [0, 5], {0, 1}, [0, 1];
    CountTwo(0, 5, 0);
    CountTwo(0, 5, 1);
    CountTwo(0, 1, 0);
    CountTwo(0, 1, 1);
    KeptTwo(0, 5, 1, 0, keys);
    KeptTwo(0, 5, 0, 1, keys);
    OrderUnique(last, keys, ord);
    FilledTwo(last, keys, ord);
  }

  lemma FilledTwo(last: seq<int>, keys: set<int>, ord: seq<int>)
    requires last == [0, 5] && keys == {0, 1} && ord == [0, 1] && Count(last, 0) == 1 && Count(last, 1) == 0
    ensures Filled(last, keys, ord, 2) == [1, 0]
  {
    hide Count;
    var free := [0, 0];
    assert Cleaned(last, keys) == free;
    assert Released(last, keys, ord, 1) == ReplaceFirst(free, 0, 0, 0) == free;
    assert Released(last, keys, ord, 2) == ReplaceFirst(free, 1, 0, 0) == free;
    assert Filled(last, keys, ord, 0) == free;
    assert Filled(last, keys, ord, 1) == ReplaceFirst(free, 0, 0, 0) == free;
    assert Filled(last, keys, ord, 2) == ReplaceFirst(free, 0, 1, 1);
    FirstOfTwo(free);
  }

  lemma FirstOfTwo(free: seq<int>)
    requires free == [0, 0]
    ensures ReplaceFirst(free, 0, 1, 1) == [1, 0]
  {
    assert free[..0] == [] && free[..1] == [0] && free[..1][..0] == [];
    assert Count(free[..1], 0) == Count([], 0) + 1;
  }

  lemma CountTwo(x: int, y: int, g: int)
    ensures Count([x, y], g) == (if x == g then 1 else 0) + if y == g then 1 else 0
  {
    var s := [x, y];
    assert s[..1] == [x] && s[..1][..0] == [];
    assert Count(s, g) == Count(s[..1], g) + if y == g then 1 else 0;
    assert Count(s[..1], g) == Count([], g) + if x == g then 1 else 0;
  }

  lemma KeptTwo(x: int, y: int, a: int, b: int, keys: set<int>)
    ensures Kept([x, y], [a, b], keys)
         == (if x in keys && a == x then 1 else 0) + if y in keys && b == y then 1 else 0
  {
    var last, s := [x, y], [a, b];
    assert last[..1] == [x] && s[..1] == [a] && last[..1][..0] == [] && s[..1][..0] == [];
    assert Kept(last, s, keys) == Kept(last[..1], s[..1], keys) + if y in keys && b == y then 1 else 0;
    assert Kept(last[..1], s[..1], keys) == Kept([], [], keys) + if x in keys && a == x then 1 else 0;
  }
}
