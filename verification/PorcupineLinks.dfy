/** The doubly linked list of entries, lifted and put back in place. */
module PorcupineLinks {
  import opened Options
  import opened PorcupineHistory

  class Node<V> {
    const value: Option<V>
    const pair: Node?<V>
    const id: int
    var next: Node?<V>
    var prev: Node?<V>

    constructor (value: Option<V>, pair: Node?<V>, id: int)
      ensures this.value == value && this.pair == pair && this.id == id
      ensures next == null && prev == null
    {
      this.value, this.pair, this.id := value, pair, id;
      next, prev := null, null;
    }
  }

  // ---- Positions: a list of m places, some of them gone ----

  /** The first place after p that is not gone, m if there is none. */
  function NextLive(gone: set<nat>, p: nat, m: nat): (q: nat)
    requires p < m
    ensures p < q <= m && (q == m || q !in gone)
    ensures forall k: nat :: p < k < q ==> k in gone
    decreases m - p
  {
    if p + 1 == m || p + 1 !in gone then p + 1 else NextLive(gone, p + 1, m)
  }

  /** The last place before p that is not gone; place 0, the head, never is. */
  function PrevLive(gone: set<nat>, p: nat): (q: nat)
    requires p > 0
    ensures q < p && (q !in gone || q == 0)
    ensures forall k: nat :: q < k < p ==> k in gone
  {
    if p == 1 || p - 1 !in gone then p - 1 else PrevLive(gone, p - 1)
  }

  lemma NextIs(gone: set<nat>, p: nat, m: nat, q: nat)
    requires p < q <= m && (q == m || q !in gone) && forall k: nat :: p < k < q ==> k in gone
    ensures NextLive(gone, p, m) == q
  {
  }

  lemma PrevIs(gone: set<nat>, p: nat, q: nat)
    requires q < p && (q == 0 || q !in gone) && forall k: nat :: q < k < p ==> k in gone
    ensures PrevLive(gone, p) == q
  {
  }

  /** Taking x out joins its two neighbours and changes no other link. */
  lemma NextWithout(gone: set<nat>, x: nat, p: nat, m: nat)
    requires 0 < x < m && p < m && p != x && x !in gone && (p == 0 || p !in gone)
    ensures NextLive(gone + {x}, p, m)
         == if PrevLive(gone, x) == p then NextLive(gone, x, m) else NextLive(gone, p, m)
    ensures (PrevLive(gone, x) == p) == (NextLive(gone, p, m) == x)
  {
    if PrevLive(gone, x) == p {
      NextIs(gone, p, m, x);
      NextIs(gone + {x}, p, m, NextLive(gone, x, m));
    } else {
      if NextLive(gone, p, m) == x { PrevIs(gone, x, p); }
      NextIs(gone + {x}, p, m, NextLive(gone, p, m));
    }
  }

  lemma PrevWithout(gone: set<nat>, x: nat, p: nat, m: nat)
    requires 0 < x < m && 0 < p < m && p != x && x !in gone && p !in gone && 0 !in gone
    ensures PrevLive(gone + {x}, p)
         == if NextLive(gone, x, m) == p then PrevLive(gone, x) else PrevLive(gone, p)
    ensures (NextLive(gone, x, m) == p) == (PrevLive(gone, p) == x)
  {
    if NextLive(gone, x, m) == p {
      PrevIs(gone, p, x);
      PrevIs(gone + {x}, p, PrevLive(gone, x));
    } else {
      if PrevLive(gone, p) == x { NextIs(gone, x, m, p); }
      PrevIs(gone + {x}, p, PrevLive(gone, p));
    }
  }

  // ---- Links ----

  function Gone(removed: seq<nat>): set<nat> {
    set x | x in removed
  }

  /** The places taken out, in the order they were, are all different and never the head. */
  predicate Removals(removed: seq<nat>, m: nat) {
    Distinct(removed) && forall i: nat :: i < |removed| ==> 0 < removed[i] < m
  }

  function At<V>(ns: seq<Node<V>>, p: nat): Node?<V> {
    if p < |ns| then ns[p] else null
  }

  predicate DistinctNodes<V>(ns: seq<Node<V>>) {
    forall i: nat, j: nat :: i < j < |ns| ==> ns[i] != ns[j]
  }

  /** The next and prev fields of the nodes, place by place. */
  datatype Links<V> = Links(next: seq<Node?<V>>, prev: seq<Node?<V>>)

  ghost function LinksOf<V>(ns: seq<Node<V>>): (l: Links<V>)
    reads ns
    ensures |l.next| == |l.prev| == |ns|
    ensures forall i: nat :: i < |ns| ==> l.next[i] == ns[i].next && l.prev[i] == ns[i].prev
  {
    Links(seq(|ns|, i requires 0 <= i < |ns| reads ns => ns[i].next),
          seq(|ns|, i requires 0 <= i < |ns| reads ns => ns[i].prev))
  }

  ghost predicate Fits<V>(ns: seq<Node<V>>, l: Links<V>) {
    DistinctNodes(ns) && |ns| > 0 && |l.next| == |l.prev| == |ns|
  }

  /** Node p is linked to its live neighbours. */
  ghost predicate Joined<V>(ns: seq<Node<V>>, l: Links<V>, gone: set<nat>, p: nat)
    requires Fits(ns, l) && p < |ns|
  {
    && l.next[p] == At(ns, NextLive(gone, p, |ns|))
    && (p > 0 ==> l.prev[p] == ns[PrevLive(gone, p)])
  }

  /** The list with some nodes taken out: the ones still in are linked to each other, and each
      one taken out still points to the neighbours it had then. */
  ghost predicate Linked<V>(ns: seq<Node<V>>, l: Links<V>, removed: seq<nat>) {
    && Fits(ns, l)
    && Removals(removed, |ns|)
    && (forall p: nat :: p < |ns| && p !in Gone(removed) ==> Joined(ns, l, Gone(removed), p))
    && (forall i: nat :: i < |removed| ==> Joined(ns, l, Gone(removed[..i]), removed[i]))
  }

  lemma GoneAdd(removed: seq<nat>, x: nat)
    ensures Gone(removed + [x]) == Gone(removed) + {x}
  {
  }

  /** A live node's links lead to its live neighbours. */
  lemma LiveLinks<V>(ns: seq<Node<V>>, l: Links<V>, removed: seq<nat>, x: nat)
    requires Linked(ns, l, removed) && x < |ns| && x !in removed
    ensures Fits(ns, l)
    ensures l.next[x] == At(ns, NextLive(Gone(removed), x, |ns|))
    ensures x > 0 ==> l.prev[x] == ns[PrevLive(Gone(removed), x)]
  {
    assert Joined(ns, l, Gone(removed), x);
  }

  lemma LastLinks<V>(ns: seq<Node<V>>, l: Links<V>, removed: seq<nat>, x: nat)
    requires Linked(ns, l, removed + [x])
    ensures Fits(ns, l) && 0 < x < |ns| && x !in removed && 0 !in removed
    ensures Joined(ns, l, Gone(removed), x)
    ensures l.next[x] == At(ns, NextLive(Gone(removed), x, |ns|))
    ensures l.prev[x] == ns[PrevLive(Gone(removed), x)]
  {
    var was := removed + [x];
    assert was[|removed|] == x && was[..|removed|] == removed;
    assert forall i: nat :: i < |removed| ==> was[i] == removed[i];
    assert Joined(ns, l, Gone(was[..|removed|]), was[|removed|]);
  }

  lemma NextBefore(removed: seq<nat>, x: nat, y: nat, m: nat)
    requires x < y < m && y !in removed
    ensures NextLive(Gone(removed), x, m) <= y
  {
    assert y !in Gone(removed);
  }

  /** The links once the neighbours of x point past it. */
  ghost predicate Bypassed<V>(ns: seq<Node<V>>, l: Links<V>, now: Links<V>, x: nat)
    requires Fits(ns, l) && Fits(ns, now) && x < |ns|
  {
    && (forall i: nat :: i < |ns| ==> now.next[i] == if l.prev[x] == ns[i] then l.next[x] else l.next[i])
    && (forall i: nat :: i < |ns| ==> now.prev[i] == if l.next[x] == ns[i] then l.prev[x] else l.prev[i])
  }

  lemma StillJoined<V>(ns: seq<Node<V>>, l: Links<V>, now: Links<V>, g: set<nat>, x: nat, p: nat)
    requires Fits(ns, l) && Fits(ns, now) && 0 < x < |ns| && p < |ns| && p != x
    requires x !in g && p !in g && 0 !in g
    requires Joined(ns, l, g, x) && Joined(ns, l, g, p) && Bypassed(ns, l, now, x)
    ensures Joined(ns, now, g + {x}, p)
  {
    hide NextLive, PrevLive;
    NextWithout(g, x, p, |ns|);
    if p > 0 { PrevWithout(g, x, p, |ns|); }
  }

  lemma StillPointing<V>(ns: seq<Node<V>>, l: Links<V>, now: Links<V>, g: set<nat>, gk: set<nat>, x: nat, k: nat)
    requires Fits(ns, l) && Fits(ns, now) && 0 < x < |ns| && 0 < k < |ns| && (k in g || k == x)
    requires x !in g && 0 !in g
    requires Joined(ns, l, g, x) && Joined(ns, l, gk, k) && Bypassed(ns, l, now, x)
    ensures Joined(ns, now, gk, k)
  {
    hide NextLive, PrevLive;
  }

  lemma RemovedOne<V>(ns: seq<Node<V>>, l: Links<V>, now: Links<V>, removed: seq<nat>, x: nat)
    requires Linked(ns, l, removed) && Fits(ns, now) && 0 < x < |ns| && x !in removed
    requires Bypassed(ns, l, now, x)
    ensures Linked(ns, now, removed + [x])
  {
    hide Joined, Bypassed;
    var g, after := Gone(removed), removed + [x];
    GoneAdd(removed, x);
    assert Joined(ns, l, g, x);
    forall p: nat | p < |ns| && p !in Gone(after) ensures Joined(ns, now, Gone(after), p) {
      assert Joined(ns, l, g, p);
      StillJoined(ns, l, now, g, x, p);
    }
    forall i: nat | i < |after| ensures Joined(ns, now, Gone(after[..i]), after[i]) {
      if i < |removed| {
        assert after[..i] == removed[..i];
        assert Joined(ns, l, Gone(removed[..i]), removed[i]);
        StillPointing(ns, l, now, g, Gone(removed[..i]), x, removed[i]);
      } else {
        assert after[..i] == removed;
        StillPointing(ns, l, now, g, g, x, x);
      }
    }
  }

  /** The links once the neighbours of x point to it again. */
  ghost predicate Rejoined<V>(ns: seq<Node<V>>, l: Links<V>, now: Links<V>, x: nat)
    requires Fits(ns, l) && Fits(ns, now) && x < |ns|
  {
    && (forall i: nat :: i < |ns| ==> now.next[i] == if l.prev[x] == ns[i] then ns[x] else l.next[i])
    && (forall i: nat :: i < |ns| ==> now.prev[i] == if l.next[x] == ns[i] then ns[x] else l.prev[i])
  }

  lemma JoinedAgain<V>(ns: seq<Node<V>>, l: Links<V>, now: Links<V>, g: set<nat>, x: nat, p: nat)
    requires Fits(ns, l) && Fits(ns, now) && 0 < x < |ns| && p < |ns| && p != x
    requires x !in g && p !in g && 0 !in g
    requires Joined(ns, l, g, x) && Joined(ns, l, g + {x}, p) && Rejoined(ns, l, now, x)
    ensures Joined(ns, now, g, p)
  {
    hide NextLive, PrevLive;
    NextWithout(g, x, p, |ns|);
    if p > 0 { PrevWithout(g, x, p, |ns|); }
  }

  lemma PointingAgain<V>(ns: seq<Node<V>>, l: Links<V>, now: Links<V>, g: set<nat>, gk: set<nat>, x: nat, k: nat)
    requires Fits(ns, l) && Fits(ns, now) && 0 < x < |ns| && 0 < k < |ns| && (k in g || k == x)
    requires x !in g && 0 !in g
    requires Joined(ns, l, g, x) && Joined(ns, l, gk, k) && Rejoined(ns, l, now, x)
    ensures Joined(ns, now, gk, k)
  {
    hide NextLive, PrevLive;
  }

  lemma PutBackOne<V>(ns: seq<Node<V>>, l: Links<V>, now: Links<V>, removed: seq<nat>, x: nat)
    requires Linked(ns, l, removed + [x])
    requires Fits(ns, now) && 0 < x < |ns| && Rejoined(ns, l, now, x)
    ensures Linked(ns, now, removed)
  {
    hide Joined, Rejoined;
    var g := Gone(removed);
    GoneAdd(removed, x);
    LastLinks(ns, l, removed, x);
    assert Removals(removed, |ns|) by {
      assert forall i: nat :: i < |removed| ==> (removed + [x])[i] == removed[i];
    }
    forall p: nat | p < |ns| && p !in g ensures Joined(ns, now, g, p) {
      if p == x {
        PointingAgain(ns, l, now, g, g, x, x);
      } else {
        assert Joined(ns, l, Gone(removed + [x]), p);
        JoinedAgain(ns, l, now, g, x, p);
      }
    }
    forall i: nat | i < |removed| ensures Joined(ns, now, Gone(removed[..i]), removed[i]) {
      OutJoined(ns, l, removed, x, i);
      PointingAgain(ns, l, now, g, Gone(removed[..i]), x, removed[i]);
    }
  }

  lemma OutJoined<V>(ns: seq<Node<V>>, l: Links<V>, removed: seq<nat>, x: nat, i: nat)
    requires Linked(ns, l, removed + [x]) && i < |removed|
    ensures Fits(ns, l) && 0 < removed[i] < |ns| && Joined(ns, l, Gone(removed[..i]), removed[i])
  {
    hide Joined;
    var was := removed + [x];
    assert was[..i] == removed[..i] && was[i] == removed[i];
    assert Joined(ns, l, Gone(was[..i]), was[i]);
  }

  /** The nodes taken out, in order, fix every link (the head's prev is never set), so a list that
      is linked again with the same nodes out is the same list, link by link. */
  lemma LinkedDetermines<V>(ns: seq<Node<V>>, l: Links<V>, l': Links<V>, removed: seq<nat>)
    requires Linked(ns, l, removed) && Linked(ns, l', removed)
    ensures l.next == l'.next && l.prev[1..] == l'.prev[1..]
  {
    hide NextLive, PrevLive;
    forall p: nat | p < |ns| ensures l.next[p] == l'.next[p] && (p > 0 ==> l.prev[p] == l'.prev[p]) {
      if p in Gone(removed) {
        var i: nat :| i < |removed| && removed[i] == p;
        assert Joined(ns, l, Gone(removed[..i]), removed[i]) && Joined(ns, l', Gone(removed[..i]), removed[i]);
      } else {
        assert Joined(ns, l, Gone(removed), p) && Joined(ns, l', Gone(removed), p);
      }
    }
  }

  /** A list with nothing taken out. */
  ghost predicate Chained<V>(ns: seq<Node<V>>, l: Links<V>) {
    && DistinctNodes(ns) && |l.next| == |l.prev| == |ns|
    && (forall k: nat :: k < |ns| ==> l.next[k] == At(ns, k + 1))
    && (forall k: nat :: k < |ns| ==> l.prev[k] == if k == 0 then null else ns[k - 1])
  }

  lemma ChainedIsLinked<V>(ns: seq<Node<V>>, l: Links<V>)
    requires Chained(ns, l) && |ns| > 0
    ensures Linked(ns, l, [])
  {
  }

  /** The nodes stand for the entries from position from on, and a call points to its return. */
  ghost predicate Shaped<V>(ns: seq<Node<V>>, h: seq<Entry<V>>, n: nat, from: nat)
    requires WellFormed(h, n)
  {
    from + |ns| == |h| && forall p: nat :: from <= p < |h| ==> Stands(ns, h, n, from, p)
  }

  ghost predicate Stands<V>(ns: seq<Node<V>>, h: seq<Entry<V>>, n: nat, from: nat, p: nat)
    requires WellFormed(h, n) && from <= p < |h| && from + |ns| == |h|
  {
    && ns[p - from].value == Some(h[p].value) && ns[p - from].id == h[p].id
    && (h[p].kind == Return ==> ns[p - from].pair == null)
    && (h[p].kind == Call ==>
          from <= ReturnAt(h, h[p].id) < |h| && ns[p - from].pair == ns[ReturnAt(h, h[p].id) - from])
  }

  method InsertBefore<V>(n: Node<V>, mark: Node?<V>) returns (r: Node<V>)
    requires n != mark && (mark != null ==> mark.prev != n && mark.prev != mark)
    modifies n
    modifies mark
    modifies if mark == null then null else mark.prev
    ensures r == n
    ensures mark == null ==> n.next == old(n.next) && n.prev == old(n.prev)
    ensures mark != null ==> n.next == mark && mark.prev == n && mark.next == old(mark.next)
    ensures mark != null && old(mark.prev) == null ==> n.prev == old(n.prev)
    ensures mark != null && old(mark.prev) != null ==>
              n.prev == old(mark.prev) && n.prev.next == n && n.prev.prev == old(mark.prev.prev)
  {
    if mark != null {
      var beforeMark := mark.prev;
      mark.prev := n;
      n.next := mark;
      if beforeMark != null {
        n.prev := beforeMark;
        beforeMark.next := n;
      }
    }
    r := n;
  }

  lemma Prepended<V>(node: Node<V>, ns: seq<Node<V>>, l: Links<V>, now: Links<V>)
    requires Chained(ns, l) && node !in ns && |now.next| == |now.prev| == |ns| + 1
    requires now.next[0] == At(ns, 0) && now.prev[0] == null
    requires forall k: nat :: k < |ns| ==> now.next[k + 1] == l.next[k]
    requires forall k: nat :: k < |ns| ==> now.prev[k + 1] == if k == 0 then node else l.prev[k]
    ensures Chained([node] + ns, now)
  {
    var all := [node] + ns;
    forall k: nat | k < |all| ensures now.next[k] == At(all, k + 1) {
      if k > 0 { assert now.next[k - 1 + 1] == l.next[k - 1]; }
    }
    forall k: nat | k < |all| ensures now.prev[k] == if k == 0 then null else all[k - 1] {
      if k > 0 { assert now.prev[k - 1 + 1] == if k - 1 == 0 then node else l.prev[k - 1]; }
    }
  }

  /** Puts a new node in front of a list. */
  method Prepend<V>(node: Node<V>, root: Node?<V>, ghost ns: seq<Node<V>>) returns (r: Node<V>)
    requires Chained(ns, LinksOf(ns)) && root == At(ns, 0)
    requires node !in ns && node.next == null && node.prev == null
    modifies node, ns
    ensures r == node && Chained([node] + ns, LinksOf([node] + ns))
  {
    hide LinksOf;
    ghost var l := LinksOf(ns);
    r := InsertBefore(node, root);
    Prepended(node, ns, l, LinksOf([node] + ns));
  }

  method MakeLinkedEntries<V>(h: seq<Entry<V>>, ghost n: nat) returns (root: Node?<V>, ghost ns: seq<Node<V>>)
    requires WellFormed(h, n)
    ensures Chained(ns, LinksOf(ns)) && root == At(ns, 0)
    ensures |ns| == |h| && Shaped(ns, h, n, 0)
    ensures forall k: nat :: k < |ns| ==> fresh(ns[k])
  {
    hide LinksOf, Chained, Shaped, WellFormed;
    ShapedNone<V>(h, n);
    root, ns := null, [];
    ChainedEmpty(ns, LinksOf(ns));
    var match_: map<nat, Node<V>> := map[];
    var i := |h|;
    while i > 0
      invariant 0 <= i <= |h|
      invariant Chained(ns, LinksOf(ns)) && root == At(ns, 0) && i + |ns| == |h| && Shaped(ns, h, n, i)
      invariant forall p: nat :: i <= p < |h| && h[p].kind == Return ==>
                  h[p].id in match_ && match_[h[p].id] == ns[p - i]
      invariant forall k: nat :: k < |ns| ==> fresh(ns[k])
    {
      i := i - 1;
      var elem := h[i];
      var entry;
      PairAhead(h, n, i);
      if elem.kind == Return {
        entry := new Node(Some(elem.value), null, elem.id);
        match_ := match_[elem.id := entry];
      } else {
        entry := new Node(Some(elem.value), if elem.id in match_ then match_[elem.id] else null, elem.id);
      }
      ghost var was := ns;
      ShapedMore(entry, ns, h, n, i);
      ns := [entry] + ns;
      root := Prepend(entry, root, was);
    }
  }

  lemma ShapedNone<V>(h: seq<Entry<V>>, n: nat)
    requires WellFormed(h, n)
    ensures Shaped([], h, n, |h|)
  {
  }

  lemma PairAhead<V>(h: seq<Entry<V>>, n: nat, p: nat)
    requires WellFormed(h, n) && p < |h|
    ensures h[p].kind == Call ==>
              p < ReturnAt(h, h[p].id) < |h| && h[ReturnAt(h, h[p].id)].kind == Return
              && h[ReturnAt(h, h[p].id)].id == h[p].id
    ensures h[p].kind == Return ==>
              forall q: nat :: q < |h| && h[q].kind == Return && h[q].id == h[p].id ==> q == p
  {
  }

  lemma ShapedMore<V>(entry: Node<V>, ns: seq<Node<V>>, h: seq<Entry<V>>, n: nat, i: nat)
    requires WellFormed(h, n) && i < |h| && Shaped(ns, h, n, i + 1)
    requires entry.value == Some(h[i].value) && entry.id == h[i].id
    requires h[i].kind == Return ==> entry.pair == null
    requires h[i].kind == Call ==> i < ReturnAt(h, h[i].id) < |h| && entry.pair == ns[ReturnAt(h, h[i].id) - (i + 1)]
    ensures Shaped([entry] + ns, h, n, i)
  {
    hide WellFormed;
    forall p: nat | i <= p < |h| ensures Stands([entry] + ns, h, n, i, p) {
      if p > i { assert Stands(ns, h, n, i + 1, p); }
    }
  }

  lemma ChainedEmpty<V>(ns: seq<Node<V>>, l: Links<V>)
    requires ns == [] && l.next == [] && l.prev == []
    ensures Chained(ns, l)
  {
  }

  method Length<V>(n: Node?<V>, ghost ns: seq<Node<V>>) returns (l: nat)
    requires Chained(ns, LinksOf(ns)) && n == At(ns, 0)
    ensures l == |ns|
  {
    hide LinksOf;
    l := 0;
    var at := n;
    while at != null
      invariant l <= |ns| && at == At(ns, l)
      decreases |ns| - l
    {
      assert LinksOf(ns).next[l] == ns[l].next;
      at := at.next;
      l := l + 1;
    }
  }

  /** One half of a lift: the node's neighbours are pointed past it. */
  method Bypass<V>(node: Node<V>, ghost ns: seq<Node<V>>, ghost removed: seq<nat>, ghost x: nat)
    requires Linked(ns, LinksOf(ns), removed) && 0 < x < |ns| && x !in removed && node == ns[x]
    modifies ns
    ensures Linked(ns, LinksOf(ns), removed + [x])
  {
    hide Linked, Joined, LinksOf, Gone, NextLive, PrevLive;
    ghost var l0 := LinksOf(ns);
    LiveLinks(ns, l0, removed, x);
    node.prev.next := node.next;
    if node.next != null {
      node.next.prev := node.prev;
    }
    RemovedOne(ns, l0, LinksOf(ns), removed, x);
  }

  /** One half of an unlift: the neighbours the node still remembers are pointed to it. */
  method Rejoin<V>(node: Node<V>, ghost ns: seq<Node<V>>, ghost removed: seq<nat>, ghost x: nat)
    requires Linked(ns, LinksOf(ns), removed + [x]) && 0 < x < |ns| && node == ns[x]
    modifies ns
    ensures Linked(ns, LinksOf(ns), removed)
  {
    hide Linked, Joined, LinksOf, Gone, NextLive, PrevLive;
    ghost var l0 := LinksOf(ns);
    LastLinks(ns, l0, removed, x);
    node.prev.next := node;
    if node.next != null {
      node.next.prev := node;
    }
    PutBackOne(ns, l0, LinksOf(ns), removed, x);
  }

  /** Takes a call and its return, places x and y, out of the list. The call's own next is
      never nil, the return being after it. */
  method Lift<V>(entry: Node<V>, ghost ns: seq<Node<V>>, ghost removed: seq<nat>, ghost x: nat, ghost y: nat)
    requires Linked(ns, LinksOf(ns), removed) && 0 < x < y < |ns| && x !in removed && y !in removed
    requires entry == ns[x] && entry.pair == ns[y]
    modifies ns
    ensures old(entry.next) != null
    ensures Linked(ns, LinksOf(ns), removed + [x, y])
  {
    hide Linked, Joined, LinksOf, Gone, NextLive, PrevLive;
    LiveLinks(ns, LinksOf(ns), removed, x);
    NextBefore(removed, x, y, |ns|);
    Bypass(entry, ns, removed, x);
    Bypass(entry.pair, ns, removed + [x], y);
    assert removed + [x] + [y] == removed + [x, y];
  }

  /** Puts them back, in the opposite order. */
  method Unlift<V>(entry: Node<V>, ghost ns: seq<Node<V>>, ghost removed: seq<nat>, ghost x: nat, ghost y: nat)
    requires Linked(ns, LinksOf(ns), removed + [x, y]) && 0 < x < y < |ns|
    requires entry == ns[x] && entry.pair == ns[y]
    modifies ns
    ensures entry.next != null
    ensures Linked(ns, LinksOf(ns), removed)
  {
    hide Linked, Joined, LinksOf, Gone, NextLive, PrevLive;
    assert removed + [x] + [y] == removed + [x, y];
    LastLinks(ns, LinksOf(ns), removed + [x], y);
    Rejoin(entry.pair, ns, removed + [x], y);
    LastLinks(ns, LinksOf(ns), removed, x);
    Rejoin(entry, ns, removed, x);
    LiveLinks(ns, LinksOf(ns), removed, x);
    NextBefore(removed, x, y, |ns|);
  }
}
