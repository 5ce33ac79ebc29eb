/** The linearizability check itself: a depth-first search over the list of entries, with a
    cache of pairs already entered. */
module PorcupineChecker {
  import opened Options
  import opened PorcupineHistory
  import opened PorcupineBitset
  import opened PorcupineLinks
  import opened PorcupineSearch

  datatype CacheEntry<S> = CacheEntry(linearized: seq<bv64>, state: S)

  datatype CallsEntry<V, S> = CallsEntry(entry: Node<V>, state: S)

  datatype Key = Key(hash: bv64)

  type Cache<S> = map<Key, seq<CacheEntry<S>>>

  // ---- The cache ----

  function KeyOf<S>(entry: CacheEntry<S>): Key {
    Key(HashOf(entry.linearized))
  }

  predicate InCache<S(==)>(cache: Cache<S>, entry: CacheEntry<S>) {
    KeyOf(entry) in cache && entry in cache[KeyOf(entry)]
  }

  /** The pair is cached under these words. */
  ghost predicate Stores<S>(cache: Cache<S>, words: nat, pair: Pair<S>, w: seq<bv64>) {
    |w| == words && Members(w) == pair.0 && InCache(cache, CacheEntry(w, pair.1))
  }

  /** The cache holds exactly these pairs, each in the bucket of its hash. */
  ghost predicate Holds<S>(cache: Cache<S>, words: nat, cached: set<Pair<S>>) {
    && (forall key, e :: key in cache && e in cache[key] ==>
          |e.linearized| == words && KeyOf(e) == key && (Members(e.linearized), e.state) in cached)
    && (forall pair :: pair in cached ==> exists w: seq<bv64> :: Stores(cache, words, pair, w))
  }

  /** Words of one length hold equal sets only if they are equal, so the bucket is enough. */
  lemma HoldsIffInCache<S>(cache: Cache<S>, words: nat, cached: set<Pair<S>>, entry: CacheEntry<S>)
    requires Holds(cache, words, cached) && |entry.linearized| == words
    ensures InCache(cache, entry) <==> (Members(entry.linearized), entry.state) in cached
  {
    hide Members, KeyOf;
    if (Members(entry.linearized), entry.state) in cached {
      var w: seq<bv64> :| Stores(cache, words, (Members(entry.linearized), entry.state), w);
      SameMembersSameWords(w, entry.linearized);
    }
  }

  method CacheContains<S(==)>(cache: Cache<S>, entry: CacheEntry<S>) returns (r: bool)
    ensures r <==> InCache(cache, entry)
  {
    var hash := Hash(entry.linearized);
    var bucket := if Key(hash) in cache then cache[Key(hash)] else [];
    var i := 0;
    while i < |bucket|
      invariant 0 <= i <= |bucket| && entry !in bucket[..i]
    {
      var same := Equals(entry.linearized, bucket[i].linearized);
      if same && entry.state == bucket[i].state {
        return true;
      }
      i := i + 1;
    }
    r := false;
  }

  /** cache[hash] = append(cache[hash], entry). */
  method CacheAppend<S>(cache: Cache<S>, entry: CacheEntry<S>, ghost words: nat, ghost cached: set<Pair<S>>)
    returns (r: Cache<S>)
    requires Holds(cache, words, cached) && |entry.linearized| == words
    ensures Holds(r, words, cached + {(Members(entry.linearized), entry.state)})
  {
    hide Members, Holds;
    var hash := Hash(entry.linearized);
    var bucket := if Key(hash) in cache then cache[Key(hash)] else [];
    r := cache[Key(hash) := bucket + [entry]];
    Appended(cache, r, entry, bucket, words, cached);
  }

  lemma Appended<S>(cache: Cache<S>, r: Cache<S>, entry: CacheEntry<S>, bucket: seq<CacheEntry<S>>, words: nat,
      cached: set<Pair<S>>)
    requires Holds(cache, words, cached) && |entry.linearized| == words
    requires bucket == if KeyOf(entry) in cache then cache[KeyOf(entry)] else []
    requires r == cache[KeyOf(entry) := bucket + [entry]]
    ensures Holds(r, words, cached + {(Members(entry.linearized), entry.state)})
  {
    hide Members, KeyOf;
    assert forall e :: e in r[KeyOf(entry)] <==> e in bucket || e == entry;
    forall pair | pair in cached + {(Members(entry.linearized), entry.state)}
      ensures exists w: seq<bv64> :: Stores(r, words, pair, w)
    {
      if pair in cached {
        var w: seq<bv64> :| Stores(cache, words, pair, w);
        assert Stores(r, words, pair, w);
      } else {
        assert Stores(r, words, pair, entry.linearized);
      }
    }
  }

  // ---- The stack ----

  /** The places of the nodes the stack has lifted, in the order they were. Place 0 is the head. */
  ghost function Places<V>(h: seq<Entry<V>>, path: seq<nat>): seq<nat> {
    if path == [] then []
    else
      var a := path[|path| - 1];
      Places(h, path[..|path| - 1]) + [CallAt(h, a) + 1, ReturnAt(h, a) + 1]
  }

  lemma {:induction false} PlacesAre<V>(h: seq<Entry<V>>, n: nat, path: seq<nat>)
    requires WellFormed(h, n) && InRange(n, path)
    ensures forall p: nat :: p < |h| ==> (p + 1 in Places(h, path) <==> !Live(h, path, p))
    ensures forall k :: k in Places(h, path) ==> 0 < k <= |h|
  {
    if path != [] {
      hide WellFormed, Live;
      var front, a := path[..|path| - 1], path[|path| - 1];
      PlacesAre(h, n, front);
      CallEntry(h, n, a);
      ReturnEntry(h, n, a);
      var places, call, ret := Places(h, front), CallAt(h, a) + 1, ReturnAt(h, a) + 1;
      assert Places(h, path) == places + [call, ret];
      hide Places, CallAt, ReturnAt;
      InPlaces(places, call, ret);
      forall p: nat | p < |h| ensures p + 1 in Places(h, path) <==> !Live(h, path, p) {
        LiveOneLess(h, n, path, p);
      }
    }
  }

  lemma InPlaces(places: seq<nat>, x: nat, y: nat)
    ensures forall k :: k in places + [x, y] <==> k in places || k == x || k == y
  {
  }

  lemma LiveOneLess<V>(h: seq<Entry<V>>, n: nat, path: seq<nat>, p: nat)
    requires WellFormed(h, n) && path != [] && p < |h| && path[|path| - 1] < n
    ensures var front, a := path[..|path| - 1], path[|path| - 1];
      Live(h, path, p) <==> Live(h, front, p) && p != CallAt(h, a) && p != ReturnAt(h, a)
  {
    hide WellFormed;
    var front, a := path[..|path| - 1], path[|path| - 1];
    EntryRange(h, n, p);
    CallEntry(h, n, a);
    ReturnEntry(h, n, a);
    assert path == front + [a];
  }

  lemma ReturnEntry<V>(h: seq<Entry<V>>, n: nat, a: nat)
    requires WellFormed(h, n) && a < n
    ensures h[ReturnAt(h, a)].id == a && h[ReturnAt(h, a)].kind == Return
  {
  }

  /** Following next from a node leads to the next live entry. */
  lemma NextIsEntry<V>(h: seq<Entry<V>>, n: nat, path: seq<nat>, k: nat)
    requires WellFormed(h, n) && InRange(n, path) && k <= |h|
    ensures NextEntry(h, path, k - 1, NextLive(Gone(Places(h, path)), k, |h| + 1) - 1)
  {
    hide WellFormed;
    PlacesAre(h, n, path);
    var g := Gone(Places(h, path));
    var next: nat := NextLive(g, k, |h| + 1) - 1;
    if next < |h| { assert next + 1 !in g; }
    forall p: nat | k - 1 < p < next ensures !Live(h, path, p) {
      assert p + 1 in g;
    }
  }

  /** The stack holds the nodes of the path and the states before each. */
  ghost predicate StackIs<S, V>(m: Model<S, V>, h: seq<Entry<V>>, n: nat, ns: seq<Node<V>>,
      calls: seq<CallsEntry<V, S>>, path: seq<nat>)
    requires WellFormed(h, n) && InRange(n, path)
  {
    && |calls| == |path| && |ns| == |h| + 1
    && (forall i: nat :: i < |path| ==>
          && CallAt(h, path[i]) < |h|
          && calls[i] == CallsEntry(ns[CallAt(h, path[i]) + 1], After(m, h, n, path[..i])))
  }

  lemma StackPush<S, V>(m: Model<S, V>, h: seq<Entry<V>>, n: nat, ns: seq<Node<V>>, calls: seq<CallsEntry<V, S>>,
      path: seq<nat>, a: nat)
    requires WellFormed(h, n) && InRange(n, path) && a < n && StackIs(m, h, n, ns, calls, path)
    ensures InRange(n, path + [a])
    ensures CallAt(h, a) < |h|
    ensures StackIs(m, h, n, ns, calls + [CallsEntry(ns[CallAt(h, a) + 1], After(m, h, n, path))], path + [a])
  {
    hide WellFormed, After;
    CallEntry(h, n, a);
    var more := path + [a];
    assert more[..|path|] == path;
    forall i: nat | i < |path| ensures more[..i] == path[..i] && more[i] == path[i] {
    }
  }

  lemma PlacesPush<V>(h: seq<Entry<V>>, path: seq<nat>, a: nat)
    ensures Places(h, path + [a]) == Places(h, path) + [CallAt(h, a) + 1, ReturnAt(h, a) + 1]
  {
    assert (path + [a])[..|path|] == path;
  }

  lemma StackPop<S, V>(m: Model<S, V>, h: seq<Entry<V>>, n: nat, ns: seq<Node<V>>, calls: seq<CallsEntry<V, S>>,
      path: seq<nat>)
    requires WellFormed(h, n) && InRange(n, path) && StackIs(m, h, n, ns, calls, path) && path != []
    ensures InRange(n, path[..|path| - 1])
    ensures StackIs(m, h, n, ns, calls[..|calls| - 1], path[..|path| - 1])
    ensures calls[|calls| - 1].state == After(m, h, n, path[..|path| - 1])
  {
    hide WellFormed;
    var front := path[..|path| - 1];
    forall i: nat | i <= |front| ensures front[..i] == path[..i] {
    }
  }

  /** The nodes are a head and one node for every entry. */
  ghost predicate NodesFor<V>(ns: seq<Node<V>>, h: seq<Entry<V>>, n: nat)
    requires WellFormed(h, n)
  {
    |ns| == |h| + 1 && Shaped(ns[1..], h, n, 0)
  }

  lemma NodeFor<V>(ns: seq<Node<V>>, h: seq<Entry<V>>, n: nat, p: nat)
    requires WellFormed(h, n) && NodesFor(ns, h, n) && p < |h|
    ensures ns[p + 1].value == Some(h[p].value) && ns[p + 1].id == h[p].id
    ensures h[p].kind == Return <==> ns[p + 1].pair == null
    ensures h[p].kind == Call ==> ReturnAt(h, h[p].id) < |h| && ns[p + 1].pair == ns[ReturnAt(h, h[p].id) + 1]
  {
    hide WellFormed;
    assert Stands(ns[1..], h, n, 0, p);
  }

  lemma StackIds<S, V>(m: Model<S, V>, h: seq<Entry<V>>, n: nat, ns: seq<Node<V>>, calls: seq<CallsEntry<V, S>>,
      path: seq<nat>)
    requires WellFormed(h, n) && InRange(n, path) && NodesFor(ns, h, n) && StackIs(m, h, n, ns, calls, path)
    ensures forall i: nat :: i < |path| ==> calls[i].entry.id == path[i]
  {
    hide WellFormed, NodesFor, After;
    forall i: nat | i < |path| ensures calls[i].entry.id == path[i] {
      CallEntry(h, n, path[i]);
      NodeFor(ns, h, n, CallAt(h, path[i]));
    }
  }

  /** The ids on the stack. */
  method CallIds<V, S>(calls: seq<CallsEntry<V, S>>, ghost path: seq<nat>) returns (r: seq<nat>)
    requires |calls| == |path| && forall i: nat :: i < |path| ==> calls[i].entry.id == path[i]
    ensures r == path
  {
    r := [];
    var i := 0;
    while i < |calls|
      invariant 0 <= i <= |calls| && r == path[..i]
    {
      r := r + [calls[i].entry.id];
      i := i + 1;
    }
  }

  /** The loop under computePartial: every operation on the stack keeps the longest stack it was on. */
  method RecordLongest<V, S>(calls: seq<CallsEntry<V, S>>, longest: array<Option<seq<nat>>>, ghost path: seq<nat>)
    requires |calls| == |path| && forall i: nat :: i < |path| ==> calls[i].entry.id == path[i] < longest.Length
    modifies longest
    ensures longest[..] == Recorded(old(longest[..]), path)
  {
    var callsLen := |calls|;
    var seq_: Option<seq<nat>> := None;
    var k := 0;
    while k < |calls|
      invariant 0 <= k <= |calls| && (seq_ == None || seq_ == Some(path))
      invariant forall i: nat :: i < longest.Length ==>
        longest[i] == if i in path[..k] && (old(longest[i]).None? || callsLen > |old(longest[i]).value|)
                      then Some(path) else old(longest[i])
    {
      var v := calls[k];
      assert path[..k + 1] == path[..k] + [path[k]];
      if longest[v.entry.id].None? || callsLen > |longest[v.entry.id].value| {
        if seq_.None? {
          var ids := CallIds(calls, path);
          seq_ := Some(ids);
        }
        longest[v.entry.id] := seq_;
      }
      k := k + 1;
    }
    assert path[..|path|] == path;
  }

  // ---- The search ----

  /** The program's variables stand for path, e and cached. */
  ghost predicate Represents<S, V>(m: Model<S, V>, h: seq<Entry<V>>, n: nat, ns: seq<Node<V>>, cached: set<Pair<S>>,
      path: seq<nat>, e: nat, entry: Node?<V>, state: S, bits: seq<bv64>, cache: Cache<S>,
      calls: seq<CallsEntry<V, S>>)
    requires WellFormed(h, n)
  {
    && NodesFor(ns, h, n) && InRange(n, path)
    && SearchInv(m, h, n, cached, path, e)
    && entry == At(ns, e + 1)
    && state == After(m, h, n, path)
    && |bits| == Chunks(n) && Members(bits) == Ids(path)
    && Holds(cache, Chunks(n), cached)
    && StackIs(m, h, n, ns, calls, path)
  }

  /** What the node of a call, and of its return, hold. */
  lemma EntryNode<S, V>(m: Model<S, V>, h: seq<Entry<V>>, n: nat, ns: seq<Node<V>>, e: nat, state: S)
    requires WellFormed(h, n) && NodesFor(ns, h, n) && e < |h|
    ensures h[e].id < n && ns[e + 1].id == h[e].id
    ensures h[e].kind == Return <==> ns[e + 1].pair == null
    ensures h[e].kind == Call ==>
      && e < ReturnAt(h, h[e].id) < |h| && e == CallAt(h, h[e].id)
      && ns[e + 1].pair == ns[ReturnAt(h, h[e].id) + 1]
      && ns[e + 1].value.Some? && ns[e + 1].pair.value.Some?
      && Apply(m, h, n, state, h[e].id) == m.step(state, ns[e + 1].value.value, ns[e + 1].pair.value.value)
  {
    hide WellFormed, NodesFor;
    NodeFor(ns, h, n, e);
    EntryRange(h, n, e);
    if h[e].kind == Call {
      CallEntry(h, n, h[e].id);
      ReturnEntry(h, n, h[e].id);
      NodeFor(ns, h, n, ReturnAt(h, h[e].id));
    }
  }

  /** An empty list is a full stack; otherwise entry is a node of the list. */
  lemma AtEntry<S, V>(m: Model<S, V>, h: seq<Entry<V>>, n: nat, ns: seq<Node<V>>, cached: set<Pair<S>>,
      path: seq<nat>, e: nat, entry: Node?<V>, state: S, bits: seq<bv64>, cache: Cache<S>,
      calls: seq<CallsEntry<V, S>>, l: Links<V>)
    requires WellFormed(h, n) && Represents(m, h, n, ns, cached, path, e, entry, state, bits, cache, calls)
    requires Linked(ns, l, Places(h, path)) && |l.next| > 0
    ensures l.next[0] == null <==> |path| == n
    ensures l.next[0] != null ==> e < |h| && entry == ns[e + 1]
  {
    hide WellFormed, After, Holds, Members, StackIs, Scanned, LevelsScanned, PathCached, OthersExpanded, AllReachable,
         Accepted, Live, NextLive, Linked, Places, Chunks, NodesFor;
    NodesCount(ns, h, n);
    PlacesAre(h, n, path);
    LiveLinks(ns, l, Places(h, path), 0);
    NextIsEntry(h, n, path, 0);
    LegalRange(m, h, n, path);
    var next: nat := NextLive(Gone(Places(h, path)), 0, |h| + 1) - 1;
    if next == |h| {
      AllGone(h, n, path);
    } else if |path| == n {
      FullPath(n, path);
      EntryRange(h, n, next);
      FullGone(h, path, next);
      assert false;
    }
  }

  lemma NodesCount<V>(ns: seq<Node<V>>, h: seq<Entry<V>>, n: nat)
    requires WellFormed(h, n) && NodesFor(ns, h, n)
    ensures |ns| == |h| + 1
  {
  }

  lemma FullGone<V>(h: seq<Entry<V>>, path: seq<nat>, p: nat)
    requires p < |h| && h[p].id in path
    ensures !Live(h, path, p)
  {
  }

  /** Where entry.next leads from a live place, and from the head. */
  lemma NextNode<V>(h: seq<Entry<V>>, n: nat, ns: seq<Node<V>>, path: seq<nat>, l: Links<V>, k: nat) returns (next: nat)
    requires WellFormed(h, n) && InRange(n, path) && Linked(ns, l, Places(h, path)) && |ns| == |h| + 1 && k <= |h|
    requires k > 0 ==> Live(h, path, k - 1)
    ensures NextEntry(h, path, k - 1, next)
    ensures |l.next| == |ns| && l.next[k] == At(ns, next + 1)
  {
    hide WellFormed, Live, NextLive, Linked, Places;
    PlacesAre(h, n, path);
    LiveLinks(ns, l, Places(h, path), k);
    NextIsEntry(h, n, path, k);
    next := NextLive(Gone(Places(h, path)), k, |h| + 1) - 1;
  }

  lemma RepresentsSkip<S, V>(m: Model<S, V>, h: seq<Entry<V>>, n: nat, ns: seq<Node<V>>, cached: set<Pair<S>>,
      path: seq<nat>, e: nat, entry: Node?<V>, state: S, bits: seq<bv64>, cache: Cache<S>,
      calls: seq<CallsEntry<V, S>>, next: nat)
    requires WellFormed(h, n) && Represents(m, h, n, ns, cached, path, e, entry, state, bits, cache, calls)
    requires e < |h| && h[e].kind == Call && h[e].id < n && NextEntry(h, path, e, next)
    requires Apply(m, h, n, state, h[e].id).0 ==> (Ids(path) + {h[e].id}, Apply(m, h, n, state, h[e].id).1) in cached
    ensures Represents(m, h, n, ns, cached, path, next, At(ns, next + 1), state, bits, cache, calls)
  {
    hide WellFormed, After, Holds, Members, StackIs, SearchInv, Apply, NextEntry, NodesFor;
    SkipKeeps(m, h, n, cached, path, e, next);
  }

  lemma Skipped<S, V>(m: Model<S, V>, h: seq<Entry<V>>, n: nat, ns: seq<Node<V>>, cached: set<Pair<S>>,
      path: seq<nat>, e: nat, entry: Node?<V>, state: S, bits: seq<bv64>, cache: Cache<S>,
      calls: seq<CallsEntry<V, S>>, l: Links<V>)
    returns (next: nat)
    requires WellFormed(h, n) && Represents(m, h, n, ns, cached, path, e, entry, state, bits, cache, calls)
    requires InRange(n, path) && Linked(ns, l, Places(h, path)) && |ns| == |h| + 1
    requires e < |h| && h[e].kind == Call && h[e].id < n
    requires Apply(m, h, n, state, h[e].id).0 ==> (Ids(path) + {h[e].id}, Apply(m, h, n, state, h[e].id).1) in cached
    ensures Represents(m, h, n, ns, cached, path, next, At(ns, next + 1), state, bits, cache, calls)
    ensures |l.next| == |ns| && l.next[e + 1] == At(ns, next + 1) && e < next <= |h|
  {
    hide WellFormed, After, Holds, Members, StackIs, SearchInv, Apply, Linked, Places, Live;
    RepresentsParts(m, h, n, ns, cached, path, e, entry, state, bits, cache, calls);
    next := NextNode(h, n, ns, path, l, e + 1);
    RepresentsSkip(m, h, n, ns, cached, path, e, entry, state, bits, cache, calls, next);
  }

  lemma RepresentsPush<S, V>(m: Model<S, V>, h: seq<Entry<V>>, n: nat, ns: seq<Node<V>>, cached: set<Pair<S>>,
      path: seq<nat>, e: nat, entry: Node?<V>, state: S, bits: seq<bv64>, cache: Cache<S>,
      calls: seq<CallsEntry<V, S>>, next: nat, state': S, bits': seq<bv64>, cache': Cache<S>, cached': set<Pair<S>>)
    requires WellFormed(h, n) && Represents(m, h, n, ns, cached, path, e, entry, state, bits, cache, calls)
    requires e < |h| && h[e].kind == Call && h[e].id < n && e == CallAt(h, h[e].id) && |ns| == |h| + 1
    requires Apply(m, h, n, state, h[e].id) == (true, state')
    requires NextEntry(h, path + [h[e].id], -1, next)
    requires |bits'| == Chunks(n) && Members(bits') == Members(bits) + {h[e].id}
    requires Holds(cache', Chunks(n), cached') && cached' == cached + {(Members(bits'), state')}
    ensures Represents(m, h, n, ns, cached', path + [h[e].id], next, At(ns, next + 1), state', bits', cache',
                       calls + [CallsEntry(ns[e + 1], state)])
  {
    hide WellFormed, After, Holds, Members, StackIs, SearchInv, Apply, NextEntry, NodesFor, Chunks;
    PushKeeps(m, h, n, cached, path, e, next);
    PushReached(m, h, n, cached, path, e);
    StackPush(m, h, n, ns, calls, path, h[e].id);
  }

  lemma PushReached<S, V>(m: Model<S, V>, h: seq<Entry<V>>, n: nat, cached: set<Pair<S>>, path: seq<nat>, e: nat)
    requires WellFormed(h, n) && SearchInv(m, h, n, cached, path, e) && e < |h| && h[e].kind == Call && h[e].id < n
    requires InRange(n, path) && Apply(m, h, n, After(m, h, n, path), h[e].id).0
    ensures InRange(n, path + [h[e].id]) && Distinct(path + [h[e].id])
    ensures Reached(m, h, n, path + [h[e].id]) ==
            (Ids(path) + {h[e].id}, Apply(m, h, n, After(m, h, n, path), h[e].id).1)
    ensures Reached(m, h, n, path + [h[e].id]) in Reach(m, h, n)
    ensures h[e].id !in path && cached <= Reach(m, h, n)
  {
    hide WellFormed, After, LevelsScanned, PathCached, OthersExpanded, Scanned, Apply;
    ScannedMinimal(m, h, n, cached, path, e);
    LegalPush(m, h, n, path, h[e].id);
    LegalRange(m, h, n, path + [h[e].id]);
    ReachedInReach(m, h, n, path + [h[e].id]);
  }

  lemma RepresentsPop<S, V>(m: Model<S, V>, h: seq<Entry<V>>, n: nat, ns: seq<Node<V>>, cached: set<Pair<S>>,
      path: seq<nat>, e: nat, entry: Node?<V>, state: S, bits: seq<bv64>, cache: Cache<S>,
      calls: seq<CallsEntry<V, S>>, next: nat, state': S, bits': seq<bv64>)
    requires WellFormed(h, n) && Represents(m, h, n, ns, cached, path, e, entry, state, bits, cache, calls)
    requires e < |h| && h[e].kind == Return && path != [] && path[|path| - 1] < n && |calls| == |path|
    requires NextEntry(h, path[..|path| - 1], CallAt(h, path[|path| - 1]), next)
    requires |bits'| == Chunks(n) && Members(bits') == Members(bits) - {path[|path| - 1]}
    requires state' == calls[|calls| - 1].state
    ensures Represents(m, h, n, ns, cached, path[..|path| - 1], next, At(ns, next + 1), state', bits', cache,
        calls[..|calls| - 1])
  {
    hide WellFormed, After, Holds, Members, StackIs, SearchInv, NextEntry, NodesFor, Chunks;
    PopKeeps(m, h, n, cached, path, e, next);
    StackPop(m, h, n, ns, calls, path);
    SearchLegal(m, h, n, cached, path, e);
    LegalRange(m, h, n, path);
    PopIds(path);
  }

  lemma SearchLegal<S, V>(m: Model<S, V>, h: seq<Entry<V>>, n: nat, cached: set<Pair<S>>, path: seq<nat>, e: nat)
    requires WellFormed(h, n) && SearchInv(m, h, n, cached, path, e)
    ensures Legal(m, h, n, path)
  {
  }

  lemma PopIds(path: seq<nat>)
    requires Distinct(path) && path != []
    ensures Ids(path[..|path| - 1]) == Ids(path) - {path[|path| - 1]}
    ensures path[|path| - 1] !in path[..|path| - 1]
  {
    var front, a := path[..|path| - 1], path[|path| - 1];
    assert path == front + [a];
  }

  lemma RepresentsStart<S, V>(m: Model<S, V>, h: seq<Entry<V>>, n: nat, headNode: Node<V>, body: seq<Node<V>>,
      bits: seq<bv64>, partial: bool, longest: seq<Option<seq<nat>>>, l: Links<V>)
    requires WellFormed(h, n) && |body| == |h| && Shaped(body, h, n, 0)
    requires |bits| == Chunks(n) && Members(bits) == {}
    requires |longest| == n && forall i: nat :: i < n ==> longest[i] == None
    requires Chained([headNode] + body, l)
    ensures Represents(m, h, n, [headNode] + body, {}, [], 0, At(body, 0), m.init, bits, map[], [])
    ensures LongestInv(m, h, n, {}, [], partial, longest)
    ensures Linked([headNode] + body, l, Places(h, []))
  {
    hide WellFormed, Members, Shaped, SearchInv;
    SearchStarts(m, h, n);
    ChainedIsLinked([headNode] + body, l);
    assert ([headNode] + body)[1..] == body;
  }

  lemma LongestKept<S, V>(m: Model<S, V>, h: seq<Entry<V>>, n: nat, cached: set<Pair<S>>, path: seq<nat>,
      partial: bool, longest: seq<Option<seq<nat>>>)
    requires WellFormed(h, n) && InRange(n, path) && LongestInv(m, h, n, cached, path, partial, longest)
    ensures LongestLegal(m, h, n, longest) && |longest| == n
  {
  }

  lemma AllFull<S, V>(m: Model<S, V>, h: seq<Entry<V>>, n: nat, longest: seq<Option<seq<nat>>>, order: seq<nat>)
    requires WellFormed(h, n) && IsLinearization(m, h, n, order) && |longest| == n
    requires forall k: nat :: k < n ==> longest[k] == Some(order)
    ensures LongestLegal(m, h, n, longest)
    ensures forall i: nat :: i < n ==> Maximal(m, h, n, longest, i)
  {
    hide WellFormed, IsLinearization, Legal, Maximal;
    LinearizationIsLegal(m, h, n, order);
    LegalRange(m, h, n, order);
    FullPath(n, order);
    forall i: nat | i < n ensures Maximal(m, h, n, longest, i) {
      FullMaximal(m, h, n, longest, order, i);
    }
  }

  lemma Longests<S, V>(m: Model<S, V>, h: seq<Entry<V>>, n: nat, cached: set<Pair<S>>, e: nat, partial: bool,
      longest: seq<Option<seq<nat>>>)
    requires WellFormed(h, n) && SearchInv(m, h, n, cached, [], e) && e < |h| && h[e].kind == Return
    requires LongestInv(m, h, n, cached, [], partial, longest) && |longest| == n
    ensures partial ==> forall i: nat :: i < n ==> Maximal(m, h, n, longest, i)
  {
    hide WellFormed, SearchInv, LongestInv, Maximal;
    if partial {
      forall i: nat | i < n ensures Maximal(m, h, n, longest, i) {
        LongestMaximal(m, h, n, cached, e, longest, i);
      }
    }
  }

  lemma Shrinks<T>(all: set<T>, some: set<T>, more: set<T>, x: T)
    requires x in all && x !in some && more == some + {x}
    ensures |all - more| < |all - some|
  {
    assert all - more == all - some - {x};
  }

  lemma LiftPlaces<V>(h: seq<Entry<V>>, n: nat, path: seq<nat>, e: nat)
    requires WellFormed(h, n) && InRange(n, path) && e < |h| && Live(h, path, e) && h[e].kind == Call
    ensures h[e].id < n && CallAt(h, h[e].id) == e && e < ReturnAt(h, h[e].id) < |h|
    ensures e + 1 !in Places(h, path) && ReturnAt(h, h[e].id) + 1 !in Places(h, path)
    ensures Places(h, path + [h[e].id]) == Places(h, path) + [e + 1, ReturnAt(h, h[e].id) + 1]
  {
    hide WellFormed, Places;
    EntryRange(h, n, e);
    CallEntry(h, n, h[e].id);
    ReturnEntry(h, n, h[e].id);
    PlacesAre(h, n, path);
    PlacesPush(h, path, h[e].id);
    assert Live(h, path, ReturnAt(h, h[e].id));
  }

  /** The node and places of the call on top of the stack. */
  lemma PopTop<S, V>(m: Model<S, V>, h: seq<Entry<V>>, n: nat, ns: seq<Node<V>>, calls: seq<CallsEntry<V, S>>,
      path: seq<nat>)
    requires WellFormed(h, n) && InRange(n, path) && path != [] && NodesFor(ns, h, n) && |ns| == |h| + 1
    requires StackIs(m, h, n, ns, calls, path) && |calls| == |path| && Distinct(path)
    ensures var front, a := path[..|path| - 1], path[|path| - 1];
      && a < n && CallAt(h, a) < ReturnAt(h, a) < |h| && InRange(n, front)
      && calls[|calls| - 1].entry == ns[CallAt(h, a) + 1] && ns[CallAt(h, a) + 1].id == a
      && ns[CallAt(h, a) + 1].pair == ns[ReturnAt(h, a) + 1]
      && Places(h, path) == Places(h, front) + [CallAt(h, a) + 1, ReturnAt(h, a) + 1]
      && Live(h, front, CallAt(h, a))
  {
    hide WellFormed, NodesFor, After;
    var front, a := path[..|path| - 1], path[|path| - 1];
    CallEntry(h, n, a);
    NodeFor(ns, h, n, CallAt(h, a));
    assert a !in front;
  }

  lemma BitsFit(n: nat, id: nat)
    requires id < n
    ensures id < WORD * Chunks(n)
  {
  }

  /** What the search knows of its variables. */
  lemma RepresentsParts<S, V>(m: Model<S, V>, h: seq<Entry<V>>, n: nat, ns: seq<Node<V>>, cached: set<Pair<S>>,
      path: seq<nat>, e: nat, entry: Node?<V>, state: S, bits: seq<bv64>, cache: Cache<S>,
      calls: seq<CallsEntry<V, S>>)
    requires WellFormed(h, n) && Represents(m, h, n, ns, cached, path, e, entry, state, bits, cache, calls)
    ensures NodesFor(ns, h, n) && |ns| == |h| + 1 && InRange(n, path) && SearchInv(m, h, n, cached, path, e)
    ensures state == After(m, h, n, path)
    ensures |bits| == Chunks(n) && Members(bits) == Ids(path)
    ensures Holds(cache, Chunks(n), cached)
    ensures |calls| == |path| && StackIs(m, h, n, ns, calls, path)
    ensures e <= |h| && (e < |h| ==> Live(h, path, e)) && Legal(m, h, n, path) && Distinct(path)
  {
    hide WellFormed, Members, Holds, After, Accepted;
  }

  /** What holds whenever the loop looks at the list. */
  lemma AtLoop<S, V>(m: Model<S, V>, h: seq<Entry<V>>, n: nat, ns: seq<Node<V>>, cached: set<Pair<S>>, path: seq<nat>,
      e: nat, entry: Node?<V>, state: S, bits: seq<bv64>, cache: Cache<S>, calls: seq<CallsEntry<V, S>>, l: Links<V>,
      partial: bool, longest: seq<Option<seq<nat>>>)
    requires WellFormed(h, n) && InRange(n, path)
    requires Represents(m, h, n, ns, cached, path, e, entry, state, bits, cache, calls)
    requires Linked(ns, l, Places(h, path)) && LongestInv(m, h, n, cached, path, partial, longest)
    ensures |ns| == |h| + 1 == |l.next| && e <= |h| && LongestLegal(m, h, n, longest) && |longest| == n
    ensures l.next[0] != null ==> e < |h| && entry == ns[e + 1] && (h[e].kind == Return <==> ns[e + 1].pair == null)
    ensures l.next[0] != null && |calls| == 0 && h[e].kind == Return ==>
              !Linearizable(m, h, n) && (partial ==> forall i: nat :: i < n ==> Maximal(m, h, n, longest, i))
    ensures l.next[0] == null ==>
              SearchInv(m, h, n, cached, path, e) && |path| == n && NodesFor(ns, h, n)
              && StackIs(m, h, n, ns, calls, path) && |calls| == |path|
  {
    hide WellFormed, SearchInv, LongestInv, LongestLegal, Maximal, Linearizable, After, Holds, Members, StackIs,
         Places, Linked, LinksOf, Shaped, Apply, Recorded, Reach, Live, Tried, NextEntry, Represents, Chained, Chunks,
         NextLive, Legal, Gone, NodesFor, HashOf, IsLinearization;
    RepresentsParts(m, h, n, ns, cached, path, e, entry, state, bits, cache, calls);
    LiveLinks0(ns, l, Places(h, path));
    AtEntry(m, h, n, ns, cached, path, e, entry, state, bits, cache, calls, l);
    LongestKept(m, h, n, cached, path, partial, longest);
    if l.next[0] != null {
      EntryNode(m, h, n, ns, e, state);
      if |calls| == 0 && h[e].kind == Return {
        StuckNotLinearizable(m, h, n, cached, e);
        Longests(m, h, n, cached, e, partial, longest);
      }
    }
  }

  lemma LiveLinks0<V>(ns: seq<Node<V>>, l: Links<V>, removed: seq<nat>)
    requires Linked(ns, l, removed)
    ensures |l.next| == |ns| > 0
  {
  }

  /** The branch that enters a pair not seen before: the call and its return are lifted, and the
      scan starts again at the front. */
  method Enter<S(==), V>(m: Model<S, V>, h: seq<Entry<V>>, n: nat, headEntry: Node<V>, entry: Node<V>, state: S,
      newState: S, linearized: array<bv64>, cache: Cache<S>, calls: seq<CallsEntry<V, S>>,
      newCacheEntry: CacheEntry<S>, ghost ns: seq<Node<V>>, ghost cached: set<Pair<S>>, ghost path: seq<nat>,
      ghost e: nat, ghost partial: bool, ghost longest: seq<Option<seq<nat>>>)
    returns (entry': Node?<V>, cache': Cache<S>, calls': seq<CallsEntry<V, S>>,
             ghost cached': set<Pair<S>>, ghost path': seq<nat>, ghost e': nat)
    requires WellFormed(h, n) && InRange(n, path)
    requires Represents(m, h, n, ns, cached, path, e, entry, state, linearized[..], cache, calls)
    requires Linked(ns, LinksOf(ns), Places(h, path)) && LongestInv(m, h, n, cached, path, partial, longest)
    requires |ns| == |h| + 1 && headEntry == ns[0]
    requires e < |h| && entry == ns[e + 1] && h[e].kind == Call && h[e].id < n
    requires Apply(m, h, n, state, h[e].id) == (true, newState)
    requires |newCacheEntry.linearized| == Chunks(n) && newCacheEntry.state == newState
    requires Members(newCacheEntry.linearized) == Members(linearized[..]) + {h[e].id}
    requires (Members(newCacheEntry.linearized), newState) !in cached
    modifies ns, linearized
    ensures InRange(n, path')
      && Represents(m, h, n, ns, cached', path', e', entry', newState, linearized[..], cache', calls')
    ensures Linked(ns, LinksOf(ns), Places(h, path')) && LongestInv(m, h, n, cached', path', partial, longest)
    ensures |Reach(m, h, n) - cached'| < |Reach(m, h, n) - cached|
  {
    hide WellFormed, SearchInv, LongestInv, LongestLegal, Maximal, Linearizable, After, Holds, Members, StackIs,
         Places, Linked, LinksOf, Shaped, Apply, Recorded, Reach, Live, Tried, NextEntry, Represents, Chained, Chunks,
         NextLive, Legal, Gone, NodesFor, HashOf, IsLinearization;
    RepresentsParts(m, h, n, ns, cached, path, e, entry, state, linearized[..], cache, calls);
    EntryNode(m, h, n, ns, e, state);
    PushReached(m, h, n, cached, path, e);
    LiftPlaces(h, n, path, e);
    BitsFit(n, entry.id);
    ghost var bits, pair := linearized[..], (Members(newCacheEntry.linearized), newState);
    cache' := CacheAppend(cache, newCacheEntry, Chunks(n), cached);
    calls' := calls + [CallsEntry(entry, state)];
    Set(linearized, entry.id);
    Lift(entry, ns, Places(h, path), e + 1, ReturnAt(h, h[e].id) + 1);
    path', cached' := path + [h[e].id], cached + {pair};
    e' := NextNode(h, n, ns, path', LinksOf(ns), 0);
    entry' := headEntry.next;
    LongestMoreCached(m, h, n, cached, path, h[e].id, partial, longest);
    RepresentsPush(m, h, n, ns, cached, path, e, ns[e + 1], state, bits, cache, calls,
                   e', newState, linearized[..], cache', cached');
    Shrinks(Reach(m, h, n), cached, cached', pair);
  }

  /** The branch at a return: the last call is put back, and the scan goes on behind it. */
  method Backtrack<S(==), V>(m: Model<S, V>, h: seq<Entry<V>>, n: nat, computePartial: bool, linearized: array<bv64>,
      longest: array<Option<seq<nat>>>, calls: seq<CallsEntry<V, S>>, ghost entry: Node<V>, ghost state: S,
      ghost cache: Cache<S>, ghost ns: seq<Node<V>>, ghost cached: set<Pair<S>>, ghost path: seq<nat>, ghost e: nat)
    returns (entry': Node?<V>, state': S, calls': seq<CallsEntry<V, S>>, ghost path': seq<nat>, ghost e': nat)
    requires WellFormed(h, n) && InRange(n, path) && longest.Length == n && linearized as object != longest as object
    requires Represents(m, h, n, ns, cached, path, e, entry, state, linearized[..], cache, calls)
    requires Linked(ns, LinksOf(ns), Places(h, path)) && LongestInv(m, h, n, cached, path, computePartial, longest[..])
    requires |ns| == |h| + 1 && e < |h| && entry == ns[e + 1] && h[e].kind == Return && |calls| > 0
    modifies ns, linearized, longest
    ensures InRange(n, path')
      && Represents(m, h, n, ns, cached, path', e', entry', state', linearized[..], cache, calls')
    ensures Linked(ns, LinksOf(ns), Places(h, path')) && LongestInv(m, h, n, cached, path', computePartial, longest[..])
    ensures |path'| < |path|
  {
    hide WellFormed, SearchInv, LongestInv, LongestLegal, Maximal, Linearizable, After, Holds, Members, StackIs,
         Places, Linked, LinksOf, Shaped, Apply, Recorded, Reach, Live, Tried, NextEntry, Represents, Chained, Chunks,
         NextLive, Legal, Gone, NodesFor, HashOf, IsLinearization;
    RepresentsParts(m, h, n, ns, cached, path, e, entry, state, linearized[..], cache, calls);
    StackIds(m, h, n, ns, calls, path);
    RecordKeeps(m, h, n, cached, path, computePartial, longest[..]);
    PopIds(path);
    PopTop(m, h, n, ns, calls, path);
    ghost var bits, a := linearized[..], path[|path| - 1];
    if computePartial {
      RecordLongest(calls, longest, path);
    }
    assert linearized[..] == bits;
    ghost var recorded := longest[..];
    var callsTop := calls[|calls| - 1];
    entry' := callsTop.entry;
    state' := callsTop.state;
    BitsFit(n, entry'.id);
    Clear(linearized, entry'.id);
    assert Members(linearized[..]) == Members(bits) - {a};
    calls' := calls[..|calls| - 1];
    path' := path[..|path| - 1];
    Unlift(entry', ns, Places(h, path'), CallAt(h, a) + 1, ReturnAt(h, a) + 1);
    e' := NextNode(h, n, ns, path', LinksOf(ns), CallAt(h, a) + 1);
    entry' := entry'.next;
    assert longest[..] == recorded;
    RepresentsPop(m, h, n, ns, cached, path, e, entry, state, bits, cache, calls, e', state', linearized[..]);
  }

  /** The branch at a call: step it here, and enter, skip a pair seen before, or skip a refusal. */
  method TryCall<S(==), V>(m: Model<S, V>, h: seq<Entry<V>>, n: nat, headEntry: Node<V>, entry: Node<V>, state: S,
      linearized: array<bv64>, cache: Cache<S>, calls: seq<CallsEntry<V, S>>, ghost ns: seq<Node<V>>,
      ghost cached: set<Pair<S>>, ghost path: seq<nat>, ghost e: nat, ghost partial: bool,
      ghost longest: seq<Option<seq<nat>>>)
    returns (entry': Node?<V>, state': S, cache': Cache<S>, calls': seq<CallsEntry<V, S>>,
             ghost cached': set<Pair<S>>, ghost path': seq<nat>, ghost e': nat)
    requires WellFormed(h, n) && InRange(n, path)
    requires Represents(m, h, n, ns, cached, path, e, entry, state, linearized[..], cache, calls)
    requires Linked(ns, LinksOf(ns), Places(h, path)) && LongestInv(m, h, n, cached, path, partial, longest)
    requires |ns| == |h| + 1 && headEntry == ns[0] && e < |h| && entry == ns[e + 1] && entry.pair != null
    modifies ns, linearized
    ensures InRange(n, path')
      && Represents(m, h, n, ns, cached', path', e', entry', state', linearized[..], cache', calls')
    ensures Linked(ns, LinksOf(ns), Places(h, path')) && LongestInv(m, h, n, cached', path', partial, longest)
    ensures || |Reach(m, h, n) - cached'| < |Reach(m, h, n) - cached|
            || (cached' == cached && path' == path && e < e' <= |h|)
  {
    hide WellFormed, SearchInv, LongestInv, LongestLegal, Maximal, Linearizable, After, Holds, Members, StackIs,
         Places, Linked, LinksOf, Shaped, Apply, Recorded, Reach, Live, Tried, NextEntry, Represents, Chained, Chunks,
         NextLive, Legal, Gone, NodesFor, HashOf, IsLinearization;
    RepresentsParts(m, h, n, ns, cached, path, e, entry, state, linearized[..], cache, calls);
    EntryNode(m, h, n, ns, e, state);
    cached', path', cache', calls', state' := cached, path, cache, calls, state;
    var matching := entry.pair;
    var (accepted, newState) := m.step(state, entry.value.value, matching.value.value);
    if accepted {
      BitsFit(n, entry.id);
      var newLinearized := Clone(linearized);
      Set(newLinearized, entry.id);
      var newCacheEntry := CacheEntry(newLinearized[..], newState);
      var known := CacheContains(cache, newCacheEntry);
      HoldsIffInCache(cache, Chunks(n), cached, newCacheEntry);
      if !known {
        entry', cache', calls', cached', path', e' :=
          Enter(m, h, n, headEntry, entry, state, newState, linearized, cache, calls, newCacheEntry,
                ns, cached, path, e, partial, longest);
        state' := newState;
      } else {
        e' := Skipped(m, h, n, ns, cached, path, e, entry, state, linearized[..], cache, calls, LinksOf(ns));
        entry' := entry.next;
      }
    } else {
      e' := Skipped(m, h, n, ns, cached, path, e, entry, state, linearized[..], cache, calls, LinksOf(ns));
      entry' := entry.next;
    }
  }

  /** The list of the history behind a head node, no operation linearized, and none on a longest path. */
  method StartSearch<S, V>(m: Model<S, V>, h: seq<Entry<V>>, ghost partial: bool)
    returns (headEntry: Node<V>, entry: Node?<V>, n: nat, linearized: array<bv64>, longest: array<Option<seq<nat>>>,
             ghost ns: seq<Node<V>>)
    requires WellFormed(h, |h| / 2)
    ensures n == |h| / 2 && |ns| == |h| + 1 && headEntry == ns[0] && longest.Length == n
    ensures Represents(m, h, n, ns, {}, [], 0, entry, m.init, linearized[..], map[], [])
    ensures Linked(ns, LinksOf(ns), Places(h, [])) && LongestInv(m, h, n, {}, [], partial, longest[..])
    ensures fresh(ns) && fresh(linearized) && fresh(longest) && linearized as object != longest as object
  {
    hide WellFormed, SearchInv, LongestInv, LongestLegal, Maximal, Linearizable, After, Holds, Members, StackIs,
         Places, Linked, LinksOf, Shaped, Apply, Recorded, Reach, Live, Tried, NextEntry, Represents, Chained, Chunks,
         NextLive, Legal, Gone, NodesFor, HashOf, IsLinearization;
    var root: Node?<V>;
    ghost var body: seq<Node<V>>;
    root, body := MakeLinkedEntries(h, |h| / 2);
    var count := Length(root, body);
    n := count / 2;
    linearized := NewBitset(n);
    longest := new Option<seq<nat>>[n](_ => None);
    var headNode := new Node(None, null, -1);
    headEntry := Prepend(headNode, root, body);
    entry := root;
    ns := [headEntry] + body;
    RepresentsStart(m, h, n, headEntry, body, linearized[..], partial, longest[..], LinksOf(ns));
  }

  /** On success the stack is a linearization, and the longest for every operation. */
  method FillLongest<S(==), V>(m: Model<S, V>, h: seq<Entry<V>>, n: nat, longest: array<Option<seq<nat>>>,
      calls: seq<CallsEntry<V, S>>, ghost ns: seq<Node<V>>, ghost cached: set<Pair<S>>, ghost path: seq<nat>,
      ghost e: nat)
    requires WellFormed(h, n) && InRange(n, path) && SearchInv(m, h, n, cached, path, e) && |path| == n
      && longest.Length == n
    requires NodesFor(ns, h, n) && StackIs(m, h, n, ns, calls, path) && |calls| == |path|
    modifies longest
    ensures Linearizable(m, h, n) && LongestLegal(m, h, n, longest[..])
    ensures forall i: nat :: i < n ==> Maximal(m, h, n, longest[..], i)
  {
    hide WellFormed, SearchInv, StackIs, NodesFor, Maximal, LongestLegal, Linearizable, IsLinearization;
    EmptyLinearizes(m, h, n, cached, path, e);
    StackIds(m, h, n, ns, calls, path);
    var order := CallIds(calls, path);
    var i := 0;
    while i < longest.Length
      invariant 0 <= i <= longest.Length && forall k: nat :: k < i ==> longest[k] == Some(order)
    {
      longest[i] := Some(order);
      i := i + 1;
    }
    AllFull(m, h, n, longest[..], order);
  }

  /** Decides whether the history has a linearization, by depth-first search over the order of its
      operations; kill(t) is what the t-th look at the kill flag sees. */
  method CheckSingle<S(==), V>(m: Model<S, V>, h: seq<Entry<V>>, computePartial: bool, kill: nat -> bool)
    returns (ok: bool, longest: array<Option<seq<nat>>>)
    requires WellFormed(h, |h| / 2)
    ensures fresh(longest) && LongestLegal(m, h, |h| / 2, longest[..])
    ensures ok ==> Linearizable(m, h, |h| / 2)
    ensures (forall t :: !kill(t)) ==> (ok <==> Linearizable(m, h, |h| / 2))
    ensures ok || (computePartial && forall t :: !kill(t)) ==>
              longest.Length == |h| / 2 && forall i: nat :: i < |h| / 2 ==> Maximal(m, h, |h| / 2, longest[..], i)
  {
    hide WellFormed, SearchInv, LongestInv, LongestLegal, Maximal, Linearizable, After, Holds, Members, StackIs,
         Places, Linked, LinksOf, Shaped, Apply, Recorded, Reach, Live, Tried, NextEntry, Represents, Chained, Chunks,
         NextLive, Legal, Gone, NodesFor, HashOf, IsLinearization;
    var headEntry, entry, n, linearized, longest', ns := StartSearch(m, h, computePartial);
    longest := longest';
    var cache: Cache<S> := map[];
    var calls: seq<CallsEntry<V, S>> := [];
    var state := m.init;
    var looks := 0;
    ghost var path: seq<nat>, e: nat, cached: set<Pair<S>> := [], 0, {};
    while headEntry.next != null
      invariant Represents(m, h, n, ns, cached, path, e, entry, state, linearized[..], cache, calls)
      invariant Linked(ns, LinksOf(ns), Places(h, path))
      invariant InRange(n, path) && LongestInv(m, h, n, cached, path, computePartial, longest[..])
      invariant fresh(ns) && fresh(linearized) && fresh(longest)
      decreases |Reach(m, h, n) - cached|, |path|, |h| - e
    {
      AtLoop(m, h, n, ns, cached, path, e, entry, state, linearized[..], cache, calls, LinksOf(ns), computePartial,
          longest[..]);
      if kill(looks) {
        return false, longest;
      }
      looks := looks + 1;
      if entry.pair != null {
        entry, state, cache, calls, cached, path, e :=
          TryCall(m, h, n, headEntry, entry, state, linearized, cache, calls, ns, cached, path, e, computePartial,
              longest[..]);
      } else {
        if |calls| == 0 {
          return false, longest;
        }
        entry, state, calls, path, e :=
          Backtrack(m, h, n, computePartial, linearized, longest, calls, entry, state, cache, ns, cached, path, e);
      }
    }
    AtLoop(m, h, n, ns, cached, path, e, entry, state, linearized[..], cache, calls, LinksOf(ns), computePartial,
        longest[..]);
    FillLongest(m, h, n, longest, calls, ns, cached, path, e);
    ok := true;
  }
}
