/** What the backtracking search keeps true, apart from how its list, bits and cache are stored. */
module PorcupineSearch {
  import opened Options
  import opened PorcupineHistory

  /** A set of operations already linearized, and the state they left. */
  type Pair<S> = (set<nat>, S)

  /** Nothing outside done returned before a was called. */
  predicate Minimal<V>(h: seq<Entry<V>>, n: nat, done: set<nat>, a: nat) {
    && a < n && a !in done
    && (forall b: nat :: b < n && Precedes(h, b, a) ==> b in done)
  }

  /** Trying a next either fails or leads to a pair that is cached. */
  predicate Tried<S(==), V>(m: Model<S, V>, h: seq<Entry<V>>, n: nat, cached: set<Pair<S>>, done: set<nat>, state: S,
      a: nat)
    requires WellFormed(h, n) && a < n
  {
    Apply(m, h, n, state, a).0 ==> (done + {a}, Apply(m, h, n, state, a).1) in cached
  }

  /** Everything that can come next was tried, and something is left. */
  predicate Expanded<S(==), V>(m: Model<S, V>, h: seq<Entry<V>>, n: nat, cached: set<Pair<S>>, pair: Pair<S>)
    requires WellFormed(h, n)
  {
    && |pair.0| < n
    && (forall a: nat :: a < n && Minimal(h, n, pair.0, a) ==> Tried(m, h, n, cached, pair.0, pair.1, a))
  }

  predicate Live<V>(h: seq<Entry<V>>, path: seq<nat>, p: nat)
    requires p < |h|
  {
    h[p].id !in path
  }

  /** The live entries before place e are calls, and all were tried. */
  predicate Scanned<S(==), V>(m: Model<S, V>, h: seq<Entry<V>>, n: nat, cached: set<Pair<S>>, path: seq<nat>, e: nat)
    requires WellFormed(h, n) && InRange(n, path)
  {
    forall p: nat :: p < e && p < |h| && Live(h, path, p) ==>
      h[p].kind == Call && Tried(m, h, n, cached, Ids(path), After(m, h, n, path), h[p].id)
  }

  /** The pair is where the first |pair.0| operations of the path lead. */
  predicate OnPath<S(==), V>(m: Model<S, V>, h: seq<Entry<V>>, n: nat, path: seq<nat>, pair: Pair<S>)
    requires WellFormed(h, n) && InRange(n, path)
  {
    |pair.0| <= |path| && pair == Reached(m, h, n, path[..|pair.0|])
  }

  function Reached<S, V>(m: Model<S, V>, h: seq<Entry<V>>, n: nat, path: seq<nat>): Pair<S>
    requires WellFormed(h, n) && InRange(n, path)
  {
    (Ids(path), After(m, h, n, path))
  }

  /** The invariant of the search: path is the stack of calls, e the place of entry. */
  ghost predicate SearchInv<S, V>(m: Model<S, V>, h: seq<Entry<V>>, n: nat, cached: set<Pair<S>>, path: seq<nat>,
      e: nat)
    requires WellFormed(h, n)
  {
    && Legal(m, h, n, path)
    && e <= |h| && (e < |h| ==> Live(h, path, e)) && (e == |h| ==> |path| == n)
    && Scanned(m, h, n, cached, path, e)
    && LevelsScanned(m, h, n, cached, path)
    && PathCached(m, h, n, cached, path)
    && OthersExpanded(m, h, n, cached, path)
    && AllReachable(m, h, n, cached)
  }

  ghost predicate LevelsScanned<S, V>(m: Model<S, V>, h: seq<Entry<V>>, n: nat, cached: set<Pair<S>>, path: seq<nat>)
    requires WellFormed(h, n) && InRange(n, path)
  {
    forall i: nat :: i < |path| ==> Scanned(m, h, n, cached, path[..i], CallAt(h, path[i]))
  }

  ghost predicate PathCached<S, V>(m: Model<S, V>, h: seq<Entry<V>>, n: nat, cached: set<Pair<S>>, path: seq<nat>)
    requires WellFormed(h, n) && InRange(n, path)
  {
    forall i: nat :: 0 < i <= |path| ==> Reached(m, h, n, path[..i]) in cached
  }

  ghost predicate OthersExpanded<S, V>(m: Model<S, V>, h: seq<Entry<V>>, n: nat, cached: set<Pair<S>>, path: seq<nat>)
    requires WellFormed(h, n) && InRange(n, path)
  {
    forall pair :: pair in cached && !OnPath(m, h, n, path, pair) ==> Expanded(m, h, n, cached, pair)
  }

  /** Every cached pair is where some sequence of at most n operations leads. */
  ghost predicate AllReachable<S, V>(m: Model<S, V>, h: seq<Entry<V>>, n: nat, cached: set<Pair<S>>)
    requires WellFormed(h, n)
  {
    cached <= Reach(m, h, n)
  }

  // ---- The pairs there can be ----

  /** All sequences of at most k ids. */
  ghost function Paths(n: nat, k: nat): set<seq<nat>> {
    if k == 0 then {[]}
    else Paths(n, k - 1) + set path, x | path in Paths(n, k - 1) && x in Upto(n) :: path + [x]
  }

  lemma {:induction false} PathsHas(n: nat, k: nat, path: seq<nat>)
    requires |path| <= k && InRange(n, path)
    ensures path in Paths(n, k)
  {
    if k > 0 {
      if |path| < k {
        PathsHas(n, k - 1, path);
      } else {
        PathsHas(n, k - 1, path[..k - 1]);
        assert path == path[..k - 1] + [path[k - 1]];
      }
    }
  }

  ghost function Reach<S, V>(m: Model<S, V>, h: seq<Entry<V>>, n: nat): set<Pair<S>>
    requires WellFormed(h, n)
  {
    set path | path in Paths(n, n) && InRange(n, path) :: Reached(m, h, n, path)
  }

  lemma ReachedInReach<S, V>(m: Model<S, V>, h: seq<Entry<V>>, n: nat, path: seq<nat>)
    requires WellFormed(h, n) && Distinct(path) && InRange(n, path)
    ensures Reached(m, h, n, path) in Reach(m, h, n)
  {
    FullPath(n, path);
    PathsHas(n, n, path);
  }

  // ---- Starting, skipping, going down, going back ----

  lemma SearchStarts<S, V>(m: Model<S, V>, h: seq<Entry<V>>, n: nat)
    requires WellFormed(h, n)
    ensures SearchInv(m, h, n, {}, [], 0)
  {
  }

  /** Nothing between e and the next live entry is live. */
  predicate NextEntry<V>(h: seq<Entry<V>>, path: seq<nat>, e: int, next: nat) {
    && -1 <= e < next <= |h|
    && (next < |h| ==> Live(h, path, next))
    && (forall p: nat :: e < p < next ==> !Live(h, path, p))
  }

  lemma ScannedSkip<S, V>(m: Model<S, V>, h: seq<Entry<V>>, n: nat, cached: set<Pair<S>>, path: seq<nat>, e: nat,
      next: nat)
    requires WellFormed(h, n) && Legal(m, h, n, path) && Scanned(m, h, n, cached, path, e)
    requires e < |h| && NextEntry(h, path, e, next)
    requires Live(h, path, e) ==> h[e].kind == Call
    requires Live(h, path, e) ==> Tried(m, h, n, cached, Ids(path), After(m, h, n, path), h[e].id)
    ensures Scanned(m, h, n, cached, path, next)
  {
    hide WellFormed, Legal, Tried, After;
  }

  /** After a live call there is a live return. */
  lemma NextExists<V>(h: seq<Entry<V>>, n: nat, path: seq<nat>, e: nat, next: nat)
    requires WellFormed(h, n) && e < |h| && Live(h, path, e) && h[e].kind == Call && NextEntry(h, path, e, next)
    ensures next < |h|
  {
    var r := ReturnAt(h, h[e].id);
    assert Live(h, path, r);
  }

  /** entry = entry.next, when its operation is refused here or leads to a cached pair. */
  lemma SkipKeeps<S, V>(m: Model<S, V>, h: seq<Entry<V>>, n: nat, cached: set<Pair<S>>, path: seq<nat>, e: nat,
      next: nat)
    requires WellFormed(h, n) && SearchInv(m, h, n, cached, path, e)
    requires e < |h| && h[e].kind == Call && NextEntry(h, path, e, next)
    requires Tried(m, h, n, cached, Ids(path), After(m, h, n, path), h[e].id)
    ensures SearchInv(m, h, n, cached, path, next)
  {
    hide WellFormed, Legal, Tried, After, Scanned, LevelsScanned, PathCached, OthersExpanded, AllReachable;
    ScannedSkip(m, h, n, cached, path, e, next);
    NextExists(h, n, path, e, next);
  }

  lemma TriedMore<S, V>(m: Model<S, V>, h: seq<Entry<V>>, n: nat, cached: set<Pair<S>>, more: set<Pair<S>>,
      path: seq<nat>, e: nat)
    requires WellFormed(h, n) && InRange(n, path) && cached <= more && Scanned(m, h, n, cached, path, e)
    ensures Scanned(m, h, n, more, path, e)
  {
    hide WellFormed, After;
  }

  /** Where the scan stands on a call, that call may come next. */
  lemma ScannedMinimal<S, V>(m: Model<S, V>, h: seq<Entry<V>>, n: nat, cached: set<Pair<S>>, path: seq<nat>, e: nat)
    requires WellFormed(h, n) && InRange(n, path) && Scanned(m, h, n, cached, path, e)
    requires e < |h| && Live(h, path, e) && h[e].kind == Call
    ensures Minimal(h, n, Ids(path), h[e].id)
  {
    hide Tried, After;
    forall b: nat | b < n && Precedes(h, b, h[e].id) ensures b in path {
      var r := ReturnAt(h, b);
      assert r < e && h[r].kind == Return;
    }
  }

  lemma LegalPush<S, V>(m: Model<S, V>, h: seq<Entry<V>>, n: nat, path: seq<nat>, a: nat)
    requires WellFormed(h, n) && Legal(m, h, n, path) && Minimal(h, n, Ids(path), a)
    requires Apply(m, h, n, After(m, h, n, path), a).0
    ensures Legal(m, h, n, path + [a])
    ensures Reached(m, h, n, path + [a]) == (Ids(path) + {a}, Apply(m, h, n, After(m, h, n, path), a).1)
  {
    hide WellFormed, Precedes, Apply, Accepted;
    AcceptedPush(m, h, n, path, a);
    var more := path + [a];
    assert more[..|path|] == path && Ids(more) == Ids(path) + {a};
    forall i: nat, b: nat | i < |more| && b < n && Precedes(h, b, more[i]) ensures b in more[..i] {
      if i < |path| { assert more[..i] == path[..i]; }
    }
  }

  lemma AcceptedPush<S, V>(m: Model<S, V>, h: seq<Entry<V>>, n: nat, path: seq<nat>, a: nat)
    requires WellFormed(h, n) && Accepted(m, h, n, path) && a < n
    requires Apply(m, h, n, After(m, h, n, path), a).0
    ensures Accepted(m, h, n, path + [a])
    ensures After(m, h, n, path + [a]) == Apply(m, h, n, After(m, h, n, path), a).1
  {
    hide WellFormed, Apply;
    var more := path + [a];
    assert more[..|path|] == path;
    forall i: nat | i < |more| ensures Apply(m, h, n, After(m, h, n, more[..i]), more[i]).0 {
      if i < |path| { assert more[..i] == path[..i]; }
    }
  }

  /** calls = append(calls, ...): a pair that is not cached is cached and entered. */
  lemma PushKeeps<S, V>(m: Model<S, V>, h: seq<Entry<V>>, n: nat, cached: set<Pair<S>>, path: seq<nat>, e: nat,
      next: nat)
    requires WellFormed(h, n) && SearchInv(m, h, n, cached, path, e)
    requires e < |h| && h[e].kind == Call && Apply(m, h, n, After(m, h, n, path), h[e].id).0
    requires NextEntry(h, path + [h[e].id], -1, next)
    ensures InRange(n, path + [h[e].id])
    ensures SearchInv(m, h, n, cached + {Reached(m, h, n, path + [h[e].id])}, path + [h[e].id], next)
  {
    hide WellFormed, Legal, After, Scanned, LevelsScanned, PathCached, OthersExpanded, AllReachable, Apply, Minimal;
    var a := h[e].id;
    var more := path + [a];
    EntryRange(h, n, e);
    LegalRange(m, h, n, path);
    ScannedMinimal(m, h, n, cached, path, e);
    LegalPush(m, h, n, path, a);
    LegalRange(m, h, n, more);
    var cached' := cached + {Reached(m, h, n, more)};
    PushScanned(m, h, n, cached, path, e, next);
    PushOthers(m, h, n, cached, path, a);
    PushReach(m, h, n, cached, path, a);
    if next == |h| { AllGone(h, n, more); }
  }

  lemma EntryRange<V>(h: seq<Entry<V>>, n: nat, e: nat)
    requires WellFormed(h, n) && e < |h|
    ensures h[e].id < n
    ensures h[e].kind == Call ==> CallAt(h, h[e].id) == e
    ensures h[e].kind == Return ==> ReturnAt(h, h[e].id) == e
  {
  }

  lemma LegalRange<S, V>(m: Model<S, V>, h: seq<Entry<V>>, n: nat, path: seq<nat>)
    requires WellFormed(h, n) && Legal(m, h, n, path)
    ensures InRange(n, path) && Distinct(path) && |Ids(path)| == |path| <= n
  {
    DistinctSize(path);
    FullPath(n, path);
  }

  lemma AllGone<V>(h: seq<Entry<V>>, n: nat, path: seq<nat>)
    requires WellFormed(h, n) && InRange(n, path) && Distinct(path)
    requires forall p: nat :: p < |h| ==> !Live(h, path, p)
    ensures |path| == n
  {
    forall id: nat | id < n ensures id in path { assert !Live(h, path, CallAt(h, id)); }
    FullPath(n, path);
  }

  lemma PushScanned<S, V>(m: Model<S, V>, h: seq<Entry<V>>, n: nat, cached: set<Pair<S>>, path: seq<nat>, e: nat,
      next: nat)
    requires WellFormed(h, n) && InRange(n, path) && e < |h| && h[e].id < n && CallAt(h, h[e].id) == e
    requires Scanned(m, h, n, cached, path, e) && LevelsScanned(m, h, n, cached, path)
      && PathCached(m, h, n, cached, path)
    requires NextEntry(h, path + [h[e].id], -1, next)
    ensures var more := path + [h[e].id];
      var cached' := cached + {Reached(m, h, n, more)};
      Scanned(m, h, n, cached', more, next) && LevelsScanned(m, h, n, cached', more)
        && PathCached(m, h, n, cached', more)
  {
    hide WellFormed, After, Tried;
    var more := path + [h[e].id];
    var cached' := cached + {Reached(m, h, n, more)};
    forall i: nat | i < |more| ensures Scanned(m, h, n, cached', more[..i], CallAt(h, more[i])) {
      if i < |path| {
        assert more[..i] == path[..i];
        TriedMore(m, h, n, cached, cached', path[..i], CallAt(h, path[i]));
      } else {
        assert more[..i] == path;
        TriedMore(m, h, n, cached, cached', path, e);
      }
    }
    forall i: nat | 0 < i <= |more| ensures Reached(m, h, n, more[..i]) in cached' {
      if i <= |path| { assert more[..i] == path[..i]; } else { assert more[..i] == more; }
    }
  }

  lemma OnPathPush<S, V>(m: Model<S, V>, h: seq<Entry<V>>, n: nat, path: seq<nat>, a: nat, pair: Pair<S>)
    requires WellFormed(h, n) && InRange(n, path) && a < n && OnPath(m, h, n, path, pair)
    ensures OnPath(m, h, n, path + [a], pair)
  {
    assert (path + [a])[..|pair.0|] == path[..|pair.0|];
  }

  lemma ExpandedMore<S, V>(m: Model<S, V>, h: seq<Entry<V>>, n: nat, cached: set<Pair<S>>, more: set<Pair<S>>,
      pair: Pair<S>)
    requires WellFormed(h, n) && cached <= more && Expanded(m, h, n, cached, pair)
    ensures Expanded(m, h, n, more, pair)
  {
    hide WellFormed, Minimal;
  }

  lemma PushOthers<S, V>(m: Model<S, V>, h: seq<Entry<V>>, n: nat, cached: set<Pair<S>>, path: seq<nat>, a: nat)
    requires WellFormed(h, n) && InRange(n, path + [a]) && Distinct(path + [a]) && InRange(n, path)
    requires OthersExpanded(m, h, n, cached, path)
    ensures OthersExpanded(m, h, n, cached + {Reached(m, h, n, path + [a])}, path + [a])
  {
    hide WellFormed, After, Expanded;
    var more := path + [a];
    var cached' := cached + {Reached(m, h, n, more)};
    DistinctSize(more);
    assert more[..|more|] == more && more[|path|] == a;
    forall pair | pair in cached' && !OnPath(m, h, n, more, pair) ensures Expanded(m, h, n, cached', pair) {
      if OnPath(m, h, n, path, pair) { OnPathPush(m, h, n, path, a, pair); }
      ExpandedMore(m, h, n, cached, cached', pair);
    }
  }

  lemma PushReach<S, V>(m: Model<S, V>, h: seq<Entry<V>>, n: nat, cached: set<Pair<S>>, path: seq<nat>, a: nat)
    requires WellFormed(h, n) && InRange(n, path + [a]) && Distinct(path + [a])
    requires AllReachable(m, h, n, cached)
    ensures AllReachable(m, h, n, cached + {Reached(m, h, n, path + [a])})
  {
    ReachedInReach(m, h, n, path + [a]);
  }

  /** On a return nothing is left to try from here. */
  lemma ReturnExpands<S, V>(m: Model<S, V>, h: seq<Entry<V>>, n: nat, cached: set<Pair<S>>, path: seq<nat>, e: nat)
    requires WellFormed(h, n) && SearchInv(m, h, n, cached, path, e) && e < |h| && h[e].kind == Return
    ensures InRange(n, path) && Expanded(m, h, n, cached, Reached(m, h, n, path))
  {
    hide After, Tried, LevelsScanned, PathCached, OthersExpanded, AllReachable;
    LegalRange(m, h, n, path);
    var b := h[e].id;
    assert b !in path;
    if |path| == n { FullPath(n, path); }
    forall a: nat | a < n && Minimal(h, n, Ids(path), a)
      ensures Tried(m, h, n, cached, Ids(path), After(m, h, n, path), a)
    {
      var c := CallAt(h, a);
      assert !Precedes(h, b, a);
      assert h[c].kind == Call && c != e && c < e;
      assert Live(h, path, c);
    }
  }

  /** calls = calls[:len-1]: the search goes back to the entry after the last call. */
  lemma PopKeeps<S, V>(m: Model<S, V>, h: seq<Entry<V>>, n: nat, cached: set<Pair<S>>, path: seq<nat>, e: nat,
      next: nat)
    requires WellFormed(h, n) && SearchInv(m, h, n, cached, path, e) && e < |h| && h[e].kind == Return && path != []
    requires path[|path| - 1] < n && NextEntry(h, path[..|path| - 1], CallAt(h, path[|path| - 1]), next)
    ensures SearchInv(m, h, n, cached, path[..|path| - 1], next)
  {
    hide WellFormed, Legal, After, Tried, Scanned, LevelsScanned, PathCached, OthersExpanded, AllReachable, Expanded;
    LegalRange(m, h, n, path);
    var d := |path| - 1;
    var front, a := path[..d], path[d];
    ReturnExpands(m, h, n, cached, path, e);
    PopLegal(m, h, n, path);
    PopOthers(m, h, n, cached, path);
    PopLevels(m, h, n, cached, path);
    PopTried(m, h, n, cached, path);
    CallEntry(h, n, a);
    assert a !in front;
    ScannedSkip(m, h, n, cached, front, CallAt(h, a), next);
    NextExists(h, n, front, CallAt(h, a), next);
  }

  lemma CallEntry<V>(h: seq<Entry<V>>, n: nat, a: nat)
    requires WellFormed(h, n) && a < n
    ensures CallAt(h, a) < ReturnAt(h, a) < |h|
    ensures h[CallAt(h, a)].id == a && h[CallAt(h, a)].kind == Call
  {
  }

  lemma PopLegal<S, V>(m: Model<S, V>, h: seq<Entry<V>>, n: nat, path: seq<nat>)
    requires WellFormed(h, n) && Legal(m, h, n, path) && path != []
    ensures Legal(m, h, n, path[..|path| - 1])
  {
    hide WellFormed, Precedes, Apply;
    var front := path[..|path| - 1];
    forall i: nat | i < |front| ensures front[..i] == path[..i] {
    }
  }

  lemma PopLevels<S, V>(m: Model<S, V>, h: seq<Entry<V>>, n: nat, cached: set<Pair<S>>, path: seq<nat>)
    requires WellFormed(h, n) && InRange(n, path) && path != []
    requires LevelsScanned(m, h, n, cached, path) && PathCached(m, h, n, cached, path)
    ensures LevelsScanned(m, h, n, cached, path[..|path| - 1]) && PathCached(m, h, n, cached, path[..|path| - 1])
    ensures Scanned(m, h, n, cached, path[..|path| - 1], CallAt(h, path[|path| - 1]))
  {
    hide WellFormed, Scanned, After;
    var front := path[..|path| - 1];
    forall i: nat | i <= |front| ensures front[..i] == path[..i] {
    }
  }

  lemma PopTried<S, V>(m: Model<S, V>, h: seq<Entry<V>>, n: nat, cached: set<Pair<S>>, path: seq<nat>)
    requires WellFormed(h, n) && InRange(n, path) && path != [] && PathCached(m, h, n, cached, path)
    ensures var front, a := path[..|path| - 1], path[|path| - 1];
      Tried(m, h, n, cached, Ids(front), After(m, h, n, front), a)
  {
    hide WellFormed, Apply;
    var front, a := path[..|path| - 1], path[|path| - 1];
    assert path[..|path|] == path;
    assert Reached(m, h, n, path[..|path|]) in cached;
    assert Ids(path) == Ids(front) + {a};
  }

  lemma OnPathPop<S, V>(m: Model<S, V>, h: seq<Entry<V>>, n: nat, path: seq<nat>, pair: Pair<S>)
    requires WellFormed(h, n) && InRange(n, path) && path != []
    ensures OnPath(m, h, n, path, pair) ==>
              OnPath(m, h, n, path[..|path| - 1], pair) || pair == Reached(m, h, n, path)
  {
    hide WellFormed, After;
    if |pair.0| < |path| {
      assert path[..|path| - 1][..|pair.0|] == path[..|pair.0|];
    } else {
      assert path[..|path|] == path;
    }
  }

  lemma PopOthers<S, V>(m: Model<S, V>, h: seq<Entry<V>>, n: nat, cached: set<Pair<S>>, path: seq<nat>)
    requires WellFormed(h, n) && InRange(n, path) && path != [] && OthersExpanded(m, h, n, cached, path)
    requires Distinct(path) && Expanded(m, h, n, cached, Reached(m, h, n, path))
    ensures OthersExpanded(m, h, n, cached, path[..|path| - 1])
  {
    hide WellFormed, Expanded, After;
    var front := path[..|path| - 1];
    forall pair | pair in cached && !OnPath(m, h, n, front, pair) ensures Expanded(m, h, n, cached, pair) {
      OnPathPop(m, h, n, path, pair);
    }
  }

  // ---- The verdict ----

  /** Where a search with nothing on the stack stops on a return, every legal path is cached. */
  lemma {:induction false} LegalCached<S, V>(m: Model<S, V>, h: seq<Entry<V>>, n: nat, cached: set<Pair<S>>, e: nat,
      path: seq<nat>)
    requires WellFormed(h, n) && SearchInv(m, h, n, cached, [], e) && e < |h| && h[e].kind == Return
    requires Legal(m, h, n, path) && path != []
    ensures InRange(n, path) && Reached(m, h, n, path) in cached && |path| < n
  {
    hide WellFormed, After, Apply, Scanned, Minimal;
    var front, a := path[..|path| - 1], path[|path| - 1];
    LegalRange(m, h, n, path);
    PopLegal(m, h, n, path);
    LegalRange(m, h, n, front);
    if front == [] {
      ReturnExpands(m, h, n, cached, [], e);
    } else {
      LegalCached(m, h, n, cached, e, front);
      CachedOffPath(m, h, n, cached, Reached(m, h, n, front));
    }
    LegalStep(m, h, n, path);
    CachedOffPath(m, h, n, cached, Reached(m, h, n, path));
  }

  lemma CachedOffPath<S, V>(m: Model<S, V>, h: seq<Entry<V>>, n: nat, cached: set<Pair<S>>, pair: Pair<S>)
    requires WellFormed(h, n) && OthersExpanded(m, h, n, cached, []) && pair in cached && |pair.0| > 0
    ensures Expanded(m, h, n, cached, pair)
  {
    hide WellFormed, Expanded;
  }

  /** The last operation of a legal path could be tried after the ones before it. */
  lemma LegalStep<S, V>(m: Model<S, V>, h: seq<Entry<V>>, n: nat, path: seq<nat>)
    requires WellFormed(h, n) && Legal(m, h, n, path) && path != []
    ensures var front, a := path[..|path| - 1], path[|path| - 1];
      && Legal(m, h, n, front) && a < n && Minimal(h, n, Ids(front), a)
      && Apply(m, h, n, After(m, h, n, front), a).0
      && Reached(m, h, n, path) == (Ids(front) + {a}, Apply(m, h, n, After(m, h, n, front), a).1)
  {
    hide WellFormed, Precedes, Apply;
    PopLegal(m, h, n, path);
    var front, a := path[..|path| - 1], path[|path| - 1];
    assert forall b: nat :: b < n && Precedes(h, b, a) ==> b in front;
    assert Ids(path) == Ids(front) + {a};
  }

  // ---- The longest partial linearizations ----

  /** The longest entries are legal and hold their operation, and every pair the search has
      left is no longer than what its operations have. */
  ghost predicate LongestInv<S, V>(m: Model<S, V>, h: seq<Entry<V>>, n: nat, cached: set<Pair<S>>, path: seq<nat>,
      partial: bool, longest: seq<Option<seq<nat>>>)
    requires WellFormed(h, n) && InRange(n, path)
  {
    && LongestLegal(m, h, n, longest)
    && (partial ==> forall pair, x :: pair in cached && !OnPath(m, h, n, path, pair) && x in pair.0 ==>
          AtLeast(n, longest, x, |pair.0|))
  }

  ghost predicate LongestLegal<S, V>(m: Model<S, V>, h: seq<Entry<V>>, n: nat, longest: seq<Option<seq<nat>>>)
    requires WellFormed(h, n)
  {
    |longest| == n && forall i: nat :: i < n && longest[i].Some? ==>
      Legal(m, h, n, longest[i].value) && i in longest[i].value
  }

  ghost predicate AtLeast(n: nat, longest: seq<Option<seq<nat>>>, x: nat, size: nat)
    requires |longest| == n
  {
    x < n && longest[x].Some? && |longest[x].value| >= size
  }

  /** What the loop over calls writes: the stack, wherever it is longer. */
  function Recorded(longest: seq<Option<seq<nat>>>, path: seq<nat>): seq<Option<seq<nat>>> {
    seq(|longest|, i requires 0 <= i < |longest| =>
      if i in path && (longest[i].None? || |path| > |longest[i].value|) then Some(path) else longest[i])
  }

  lemma RecordKeeps<S, V>(m: Model<S, V>, h: seq<Entry<V>>, n: nat, cached: set<Pair<S>>, path: seq<nat>,
      partial: bool, longest: seq<Option<seq<nat>>>)
    requires WellFormed(h, n) && Legal(m, h, n, path) && InRange(n, path) && path != []
    requires LongestInv(m, h, n, cached, path, partial, longest)
    ensures LongestInv(m, h, n, cached, path[..|path| - 1], partial,
                       if partial then Recorded(longest, path) else longest)
  {
    hide WellFormed, Legal, After;
    if partial {
      var front, now := path[..|path| - 1], Recorded(longest, path);
      LegalRange(m, h, n, path);
      forall pair, x | pair in cached && !OnPath(m, h, n, front, pair) && x in pair.0
        ensures AtLeast(n, now, x, |pair.0|)
      {
        OnPathPop(m, h, n, path, pair);
        if pair == Reached(m, h, n, path) {
          assert x in path;
        } else {
          assert AtLeast(n, longest, x, |pair.0|);
        }
      }
    }
  }

  lemma LongestMoreCached<S, V>(m: Model<S, V>, h: seq<Entry<V>>, n: nat, cached: set<Pair<S>>, path: seq<nat>,
      a: nat, partial: bool, longest: seq<Option<seq<nat>>>)
    requires WellFormed(h, n) && InRange(n, path) && InRange(n, path + [a]) && Distinct(path + [a])
    requires LongestInv(m, h, n, cached, path, partial, longest)
    ensures LongestInv(m, h, n, cached + {Reached(m, h, n, path + [a])}, path + [a], partial, longest)
  {
    hide WellFormed, After, AtLeast, LongestLegal;
    var more := path + [a];
    DistinctSize(more);
    assert more[..|more|] == more && more[|path|] == a;
    var cached' := cached + {Reached(m, h, n, more)};
    forall pair | pair in cached' && !OnPath(m, h, n, more, pair)
      ensures pair in cached && !OnPath(m, h, n, path, pair)
    {
      if OnPath(m, h, n, path, pair) { OnPathPush(m, h, n, path, a, pair); }
    }
  }

  /** longest[i] is a longest legal path through operation i, missing if there is none. */
  ghost predicate Maximal<S, V>(m: Model<S, V>, h: seq<Entry<V>>, n: nat, longest: seq<Option<seq<nat>>>, i: nat)
    requires WellFormed(h, n) && |longest| == n && i < n
  {
    && (longest[i].Some? ==> Legal(m, h, n, longest[i].value) && i in longest[i].value)
    && (forall q: seq<nat> :: Legal(m, h, n, q) && i in q ==>
          longest[i].Some? && |q| <= |longest[i].value|)
  }

  /** After a false verdict every longest entry is maximal. */
  lemma LongestMaximal<S, V>(m: Model<S, V>, h: seq<Entry<V>>, n: nat, cached: set<Pair<S>>, e: nat,
      longest: seq<Option<seq<nat>>>, i: nat)
    requires WellFormed(h, n) && SearchInv(m, h, n, cached, [], e) && e < |h| && h[e].kind == Return
    requires LongestInv(m, h, n, cached, [], true, longest) && i < n
    ensures Maximal(m, h, n, longest, i)
  {
    hide WellFormed, SearchInv, After, Legal;
    forall q: seq<nat> | Legal(m, h, n, q) && i in q ensures longest[i].Some? && |q| <= |longest[i].value| {
      LegalCached(m, h, n, cached, e, q);
      LegalRange(m, h, n, q);
      var pair := Reached(m, h, n, q);
      assert !OnPath(m, h, n, [], pair) && i in pair.0;
      assert AtLeast(n, longest, i, |pair.0|);
    }
  }

  lemma FullMaximal<S, V>(m: Model<S, V>, h: seq<Entry<V>>, n: nat, longest: seq<Option<seq<nat>>>, order: seq<nat>,
      i: nat)
    requires WellFormed(h, n) && IsLinearization(m, h, n, order) && |longest| == n && i < n && longest[i] == Some(order)
    ensures Maximal(m, h, n, longest, i)
  {
    hide WellFormed, IsLinearization, Legal;
    LinearizationIsLegal(m, h, n, order);
    LegalRange(m, h, n, order);
    FullPath(n, order);
    forall q: seq<nat> | Legal(m, h, n, q) ensures |q| <= n { LegalRange(m, h, n, q); }
  }

  // ---- The answers ----

  /** Stopping there is the right answer. */
  lemma StuckNotLinearizable<S, V>(m: Model<S, V>, h: seq<Entry<V>>, n: nat, cached: set<Pair<S>>, e: nat)
    requires WellFormed(h, n) && SearchInv(m, h, n, cached, [], e) && e < |h| && h[e].kind == Return
    ensures !Linearizable(m, h, n)
  {
    hide SearchInv;
    forall order: seq<nat> ensures !IsLinearization(m, h, n, order) {
      if IsLinearization(m, h, n, order) {
        LinearizationIsLegal(m, h, n, order);
        LegalCached(m, h, n, cached, e, order);
        assert false;
      }
    }
  }

  /** An empty list means the stack is a linearization. */
  lemma EmptyLinearizes<S, V>(m: Model<S, V>, h: seq<Entry<V>>, n: nat, cached: set<Pair<S>>, path: seq<nat>, e: nat)
    requires WellFormed(h, n) && SearchInv(m, h, n, cached, path, e) && |path| == n
    ensures IsLinearization(m, h, n, path) && Linearizable(m, h, n)
  {
    LinearizationIsLegal(m, h, n, path);
  }
}
