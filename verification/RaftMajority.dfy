/** The commit rule's starting point is exactly what a strict majority has reached. */
module RaftMajority {
  import opened RaftServer

  function Reached(xs: seq<nat>, v: nat): set<nat> {
    set j: nat | j < |xs| && xs[j] >= v
  }

  /** How many elements are at least v. */
  function Count(xs: seq<nat>, v: nat): nat {
    if xs == [] then 0 else (if xs[0] >= v then 1 else 0) + Count(xs[1..], v)
  }

  ghost predicate Ascending(xs: seq<nat>) {
    forall i, j :: 0 <= i < j < |xs| ==> xs[i] <= xs[j]
  }

  lemma {:induction false} InsertAscending(x: nat, xs: seq<nat>)
    requires Ascending(xs)
    ensures Ascending(Insert(x, xs))
    ensures forall v :: v in Insert(x, xs) ==> v == x || v in xs
  {
    if xs == [] || x <= xs[0] {
    } else {
      var rest := Insert(x, xs[1..]);
      InsertAscending(x, xs[1..]);
      forall j | 0 <= j < |rest| ensures xs[0] <= rest[j] {
        assert rest[j] in rest;
      }
    }
  }

  lemma {:induction false} InsertCount(x: nat, xs: seq<nat>, v: nat)
    ensures Count(Insert(x, xs), v) == Count(xs, v) + if x >= v then 1 else 0
  {
    if xs == [] || x <= xs[0] {
      assert ([x] + xs)[1..] == xs;
    } else {
      InsertCount(x, xs[1..], v);
      assert ([xs[0]] + Insert(x, xs[1..]))[1..] == Insert(x, xs[1..]);
    }
  }

  /** Sorting keeps every count and puts the elements in order. */
  lemma {:induction false} SortedCorrect(xs: seq<nat>, v: nat)
    ensures Ascending(Sorted(xs)) && Count(Sorted(xs), v) == Count(xs, v)
  {
    if xs == [] {
    } else {
      SortedCorrect(xs[1..], v);
      InsertAscending(xs[0], Sorted(xs[1..]));
      InsertCount(xs[0], Sorted(xs[1..]), v);
    }
  }

  lemma {:induction false} CountSplit(xs: seq<nat>, p: nat, v: nat)
    requires Ascending(xs) && p < |xs|
    ensures xs[p] >= v ==> Count(xs, v) >= |xs| - p
    ensures xs[p] < v ==> Count(xs, v) < |xs| - p
  {
    CountAtMost(xs, v);
    if p == 0 {
      if xs[0] >= v { CountAll(xs, v); } else { CountAtMost(xs[1..], v); }
    } else {
      CountSplit(xs[1..], p - 1, v);
    }
  }

  lemma {:induction false} CountAtMost(xs: seq<nat>, v: nat)
    ensures Count(xs, v) <= |xs|
  {
    if xs == [] {} else { CountAtMost(xs[1..], v); }
  }

  lemma {:induction false} CountAll(xs: seq<nat>, v: nat)
    requires forall i :: 0 <= i < |xs| ==> xs[i] >= v
    ensures Count(xs, v) == |xs|
  {
    if xs == [] {} else { CountAll(xs[1..], v); }
  }

  lemma {:induction false} CountIsReached(xs: seq<nat>, v: nat)
    ensures |Reached(xs, v)| == Count(xs, v)
  {
    if xs == [] {
      assert Reached(xs, v) == {};
    } else {
      var n := |xs| - 1;
      CountIsReached(xs[..n], v);
      CountSnoc(xs[..n], xs[n], v);
      assert xs == xs[..n] + [xs[n]];
      assert Reached(xs, v) == Reached(xs[..n], v) + if xs[n] >= v then {n as nat} else {};
    }
  }

  lemma {:induction false} CountSnoc(xs: seq<nat>, x: nat, v: nat)
    ensures Count(xs + [x], v) == Count(xs, v) + if x >= v then 1 else 0
  {
    if xs == [] {
    } else {
      assert (xs + [x])[1..] == xs[1..] + [x];
      CountSnoc(xs[1..], x, v);
    }
  }

  /** An index is at most the chosen one exactly when a strict majority has reached it. */
  lemma MajorityIndexExact(matched: seq<nat>, v: nat)
    requires |matched| > 0
    ensures v <= MajorityIndex(matched) <==> |Reached(matched, v)| >= |matched| / 2 + 1
  {
    SortedCorrect(matched, v);
    CountSplit(Sorted(matched), (|matched| - 1) / 2, v);
    CountIsReached(matched, v);
  }

  lemma MajorityIndexReached(matched: seq<nat>) returns (j: nat)
    requires |matched| > 0
    ensures j < |matched| && matched[j] >= MajorityIndex(matched)
  {
    MajorityIndexExact(matched, MajorityIndex(matched));
    j :| j in Reached(matched, MajorityIndex(matched));
  }
}
