/** Histories, and what it means for one to be linearizable. */
module PorcupineHistory {

  /** The sequential specification: the first state, and whether a call with this input
      may return this output in a state, together with the state it leaves. */
  datatype Model<!S, !V> = Model(init: S, step: (S, V, V) -> (bool, S))

  datatype Kind = Call | Return

  datatype Entry<V> = Entry(kind: Kind, value: V, id: nat, time: int)

  /** The first position at or after from that holds this kind of entry of id. */
  function Find<V>(h: seq<Entry<V>>, kind: Kind, id: nat, from: nat): (r: nat)
    requires from <= |h|
    ensures from <= r <= |h|
    ensures r < |h| ==> h[r].kind == kind && h[r].id == id
    ensures forall k: nat :: from <= k < r ==> h[k].kind != kind || h[k].id != id
    decreases |h| - from
  {
    if from == |h| || (h[from].kind == kind && h[from].id == id) then from
    else Find(h, kind, id, from + 1)
  }

  function CallAt<V>(h: seq<Entry<V>>, id: nat): nat { Find(h, Call, id, 0) }

  function ReturnAt<V>(h: seq<Entry<V>>, id: nat): nat { Find(h, Return, id, 0) }

  /** Ids 0..n-1, each with exactly one call before exactly one return. */
  predicate WellFormed<V>(h: seq<Entry<V>>, n: nat) {
    && |h| == 2 * n
    && (forall id: nat :: id < n ==> CallAt(h, id) < ReturnAt(h, id) < |h|)
    && (forall p: nat :: p < |h| ==>
          h[p].id < n && p == if h[p].kind == Call then CallAt(h, h[p].id) else ReturnAt(h, h[p].id))
  }

  predicate InRange(n: nat, path: seq<nat>) {
    forall i: nat :: i < |path| ==> path[i] < n
  }

  function Ids(path: seq<nat>): set<nat> {
    set x | x in path
  }

  /** a returned before b was called. */
  predicate Precedes<V>(h: seq<Entry<V>>, a: nat, b: nat) {
    ReturnAt(h, a) < CallAt(h, b)
  }

  function Apply<S, V>(m: Model<S, V>, h: seq<Entry<V>>, n: nat, state: S, id: nat): (bool, S)
    requires WellFormed(h, n) && id < n
  {
    m.step(state, h[CallAt(h, id)].value, h[ReturnAt(h, id)].value)
  }

  function After<S, V>(m: Model<S, V>, h: seq<Entry<V>>, n: nat, path: seq<nat>): S
    requires WellFormed(h, n) && InRange(n, path)
  {
    if path == [] then m.init
    else Apply(m, h, n, After(m, h, n, path[..|path| - 1]), path[|path| - 1]).1
  }

  /** Every operation of the path is accepted in the state the ones before it leave. */
  predicate Accepted<S, V>(m: Model<S, V>, h: seq<Entry<V>>, n: nat, path: seq<nat>)
    requires WellFormed(h, n)
  {
    && InRange(n, path)
    && (forall i: nat :: i < |path| ==> Apply(m, h, n, After(m, h, n, path[..i]), path[i]).0)
  }

  predicate Distinct(path: seq<nat>) {
    forall i: nat, j: nat :: i < j < |path| ==> path[i] != path[j]
  }

  /** Part of a linearization: distinct operations, accepted one after the other, and nothing
      that returned before one of them was called is missing in front of it. */
  predicate Legal<S, V>(m: Model<S, V>, h: seq<Entry<V>>, n: nat, path: seq<nat>)
    requires WellFormed(h, n)
  {
    && Distinct(path)
    && Accepted(m, h, n, path)
    && (forall i: nat, b: nat :: i < |path| && b < n && Precedes(h, b, path[i]) ==> b in path[..i])
  }

  /** Some order of all operations respects real time and is accepted. */
  ghost predicate Linearizable<S, V>(m: Model<S, V>, h: seq<Entry<V>>, n: nat)
    requires WellFormed(h, n)
  {
    exists order: seq<nat> :: IsLinearization(m, h, n, order)
  }

  ghost predicate IsLinearization<S, V>(m: Model<S, V>, h: seq<Entry<V>>, n: nat, order: seq<nat>)
    requires WellFormed(h, n)
  {
    && Distinct(order)
    && (forall id: nat :: id < n <==> id in order)
    && (forall i: nat, j: nat :: i < j < |order| ==> !Precedes(h, order[j], order[i]))
    && Accepted(m, h, n, order)
  }

  lemma DistinctSize(path: seq<nat>)
    requires Distinct(path)
    ensures |Ids(path)| == |path|
  {
    if path != [] {
      var front := path[..|path| - 1];
      DistinctSize(front);
      assert Ids(path) == Ids(front) + {path[|path| - 1]};
    }
  }

  lemma {:induction false} RangeSize(s: set<nat>, n: nat)
    requires forall x :: x in s ==> x < n
    ensures |s| <= n
    ensures |s| == n ==> forall x: nat :: x < n ==> x in s
  {
    if n > 0 {
      RangeSize(s - {n - 1}, n - 1);
    } else {
      assert s == {};
    }
  }

  function Upto(n: nat): (s: set<nat>)
    ensures |s| == n && forall x: nat :: x in s <==> x < n
  {
    if n == 0 then {} else Upto(n - 1) + {n - 1}
  }

  lemma FullPath(n: nat, path: seq<nat>)
    requires Distinct(path) && InRange(n, path)
    ensures |path| <= n
    ensures |path| == n <==> forall id: nat :: id < n ==> id in path
  {
    DistinctSize(path);
    RangeSize(Ids(path), n);
    if forall id: nat :: id < n ==> id in path {
      assert Ids(path) == Upto(n);
    }
    if |path| == n {
      forall id: nat | id < n ensures id in path { assert id in Ids(path); }
    }
  }

  lemma LinearizationLegal<S, V>(m: Model<S, V>, h: seq<Entry<V>>, n: nat, order: seq<nat>)
    requires WellFormed(h, n) && IsLinearization(m, h, n, order)
    ensures Legal(m, h, n, order)
  {
    hide WellFormed, Accepted;
    forall i: nat, b: nat | i < |order| && b < n && Precedes(h, b, order[i])
      ensures b in order[..i]
    {
      assert b in order;
      var j: nat :| j < |order| && order[j] == b;
      if i == j {
        SelfOrder(h, n, b);
      }
      assert order[..i][j] == b;
    }
  }

  lemma SelfOrder<V>(h: seq<Entry<V>>, n: nat, a: nat)
    requires WellFormed(h, n) && a < n
    ensures !Precedes(h, a, a)
  {
  }

  lemma LegalOrdered<S, V>(m: Model<S, V>, h: seq<Entry<V>>, n: nat, path: seq<nat>, i: nat, j: nat)
    requires WellFormed(h, n) && Legal(m, h, n, path) && i < j < |path|
    ensures !Precedes(h, path[j], path[i])
  {
    hide WellFormed;
    assert path[j] !in path[..i];
  }

  /** A linearization is exactly a legal path through all operations. */
  lemma LinearizationIsLegal<S, V>(m: Model<S, V>, h: seq<Entry<V>>, n: nat, order: seq<nat>)
    requires WellFormed(h, n)
    ensures IsLinearization(m, h, n, order) <==> Legal(m, h, n, order) && |order| == n
  {
    hide WellFormed, Accepted, Precedes;
    if IsLinearization(m, h, n, order) {
      LinearizationLegal(m, h, n, order);
      AcceptedInRange(m, h, n, order);
      FullPath(n, order);
    }
    if Legal(m, h, n, order) && |order| == n {
      AcceptedInRange(m, h, n, order);
      FullPath(n, order);
      forall i: nat, j: nat | i < j < |order| ensures !Precedes(h, order[j], order[i]) {
        LegalOrdered(m, h, n, order, i, j);
      }
    }
  }

  lemma AcceptedInRange<S, V>(m: Model<S, V>, h: seq<Entry<V>>, n: nat, path: seq<nat>)
    requires WellFormed(h, n) && Accepted(m, h, n, path)
    ensures InRange(n, path) && forall id :: id in path ==> id < n
  {
  }
}
