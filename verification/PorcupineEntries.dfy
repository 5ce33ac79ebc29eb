/** From a history of operations to the list of entries that is checked. */
module PorcupineEntries {
  import opened PorcupineHistory

  datatype Operation<V> = Operation(input: V, call: int, output: V, ret: int)

  // ---- Linearizability of operations, without entries ----

  function Step<S, V>(m: Model<S, V>, ops: seq<Operation<V>>, state: S, id: nat): (bool, S)
    requires id < |ops|
  {
    m.step(state, ops[id].input, ops[id].output)
  }

  function AfterOps<S, V>(m: Model<S, V>, ops: seq<Operation<V>>, path: seq<nat>): S
    requires InRange(|ops|, path)
  {
    if path == [] then m.init
    else Step(m, ops, AfterOps(m, ops, path[..|path| - 1]), path[|path| - 1]).1
  }

  predicate AcceptedOps<S, V>(m: Model<S, V>, ops: seq<Operation<V>>, path: seq<nat>)
    requires InRange(|ops|, path)
  {
    forall i: nat :: i < |path| ==> Step(m, ops, AfterOps(m, ops, path[..i]), path[i]).0
  }

  lemma AfterPush<S, V>(m: Model<S, V>, ops: seq<Operation<V>>, path: seq<nat>, x: nat)
    requires InRange(|ops|, path) && x < |ops|
    ensures InRange(|ops|, path + [x])
    ensures AfterOps(m, ops, path + [x]) == Step(m, ops, AfterOps(m, ops, path), x).1
  {
    assert (path + [x])[..|path|] == path;
  }

  lemma AcceptedPush<S, V>(m: Model<S, V>, ops: seq<Operation<V>>, path: seq<nat>, x: nat)
    requires InRange(|ops|, path) && x < |ops|
    ensures InRange(|ops|, path + [x])
    ensures AcceptedOps(m, ops, path + [x])
       <==> AcceptedOps(m, ops, path) && Step(m, ops, AfterOps(m, ops, path), x).0
  {
    hide Step, AfterOps;
    var more := path + [x];
    forall i: nat | i < |path| ensures more[..i] == path[..i] && more[i] == path[i] {
    }
    assert more[..|path|] == path && more[|path|] == x;
    if AcceptedOps(m, ops, more) {
      forall i: nat | i < |path| ensures Step(m, ops, AfterOps(m, ops, path[..i]), path[i]).0 {
        assert Step(m, ops, AfterOps(m, ops, more[..i]), more[i]).0;
      }
      assert Step(m, ops, AfterOps(m, ops, more[..|path|]), more[|path|]).0;
    }
  }

  predicate RealTime<V>(ops: seq<Operation<V>>, path: seq<nat>)
    requires InRange(|ops|, path)
  {
    forall i: nat, j: nat :: i < j < |path| ==> !(ops[path[j]].ret < ops[path[i]].call)
  }

  /** The path is all operations, once each, in an order that respects real time and is accepted. */
  ghost predicate IsOrder<S, V>(m: Model<S, V>, ops: seq<Operation<V>>, path: seq<nat>) {
    && InRange(|ops|, path) && Distinct(path) && |path| == |ops|
    && RealTime(ops, path) && AcceptedOps(m, ops, path)
  }

  ghost predicate LinearizableOps<S, V>(m: Model<S, V>, ops: seq<Operation<V>>) {
    exists path: seq<nat> :: IsOrder(m, ops, path)
  }

  /** Every call is before its return, and no two events share a timestamp. */
  predicate Timed<V>(ops: seq<Operation<V>>) {
    && (forall a: nat :: a < |ops| ==> ops[a].call < ops[a].ret)
    && (forall a: nat, b: nat :: a < |ops| && b < |ops| ==> ops[a].call != ops[b].ret)
    && (forall a: nat, b: nat :: a < b < |ops| ==> ops[a].call != ops[b].call && ops[a].ret != ops[b].ret)
  }

  // ---- Making the entries ----

  function CallEntryOf<V>(ops: seq<Operation<V>>, id: nat): Entry<V>
    requires id < |ops|
  {
    Entry(Call, ops[id].input, id, ops[id].call)
  }

  function ReturnEntryOf<V>(ops: seq<Operation<V>>, id: nat): Entry<V>
    requires id < |ops|
  {
    Entry(Return, ops[id].output, id, ops[id].ret)
  }

  /** The entries of the first k operations, in the order they are appended. */
  function EntriesOf<V>(ops: seq<Operation<V>>, k: nat): (r: seq<Entry<V>>)
    requires k <= |ops|
    ensures |r| == 2 * k
  {
    if k == 0 then [] else EntriesOf(ops, k - 1) + [CallEntryOf(ops, k - 1), ReturnEntryOf(ops, k - 1)]
  }

  predicate SortedByTime<V>(h: seq<Entry<V>>) {
    forall p: nat, q: nat :: p < q < |h| ==> h[p].time <= h[q].time
  }

  /** Puts one more entry into its place. */
  method InsertByTime<V>(h: seq<Entry<V>>, e: Entry<V>) returns (r: seq<Entry<V>>)
    requires SortedByTime(h)
    ensures SortedByTime(r) && multiset(r) == multiset(h) + multiset{e}
  {
    var i := |h|;
    while 0 < i && e.time < h[i - 1].time
      invariant 0 <= i <= |h| && forall k: nat :: i <= k < |h| ==> e.time < h[k].time
    {
      i := i - 1;
    }
    r := h[..i] + [e] + h[i..];
    InsertedSorted(h, i, e);
    assert h == h[..i] + h[i..];
  }

  lemma InsertedSorted<V>(h: seq<Entry<V>>, i: nat, e: Entry<V>)
    requires SortedByTime(h) && i <= |h|
    requires i > 0 ==> h[i - 1].time <= e.time
    requires forall k: nat :: i <= k < |h| ==> e.time < h[k].time
    ensures SortedByTime(h[..i] + [e] + h[i..])
  {
    var r := h[..i] + [e] + h[i..];
    forall p: nat | p < |r|
      ensures r[p] == if p < i then h[p] else if p == i then e else h[p - 1]
    {
    }
  }

  /** sort.Sort(byTime(entries)): some permutation in time order. */
  method SortByTime<V>(entries: seq<Entry<V>>) returns (h: seq<Entry<V>>)
    ensures SortedByTime(h) && multiset(h) == multiset(entries)
  {
    h := [];
    var i := 0;
    while i < |entries|
      invariant 0 <= i <= |entries| && SortedByTime(h) && multiset(h) == multiset(entries[..i])
    {
      h := InsertByTime(h, entries[i]);
      assert entries[..i + 1] == entries[..i] + [entries[i]];
      i := i + 1;
    }
    assert entries[..|entries|] == entries;
  }

  method MakeEntries<V>(history: seq<Operation<V>>) returns (h: seq<Entry<V>>)
    ensures SortedByTime(h) && multiset(h) == multiset(EntriesOf(history, |history|))
  {
    var entries: seq<Entry<V>> := [];
    var id := 0;
    while id < |history|
      invariant 0 <= id <= |history| && entries == EntriesOf(history, id)
    {
      var elem := history[id];
      entries := entries + [Entry(Call, elem.input, id, elem.call)];
      entries := entries + [Entry(Return, elem.output, id, elem.ret)];
      id := id + 1;
    }
    h := SortByTime(entries);
  }

  ghost predicate IsEntryOf<V>(ops: seq<Operation<V>>, k: nat, e: Entry<V>)
    requires k <= |ops|
  {
    e.id < k && e == if e.kind == Call then CallEntryOf(ops, e.id) else ReturnEntryOf(ops, e.id)
  }

  lemma TwoMore<T>(s: seq<T>, x: T, y: T, e: T)
    ensures multiset(s + [x, y])[e] == multiset(s)[e] + (if x == e then 1 else 0) + (if y == e then 1 else 0)
  {
    assert multiset(s + [x, y]) == multiset(s) + multiset{x} + multiset{y};
  }

  lemma EntryOfNext<V>(ops: seq<Operation<V>>, k: nat, e: Entry<V>)
    requires k < |ops|
    ensures IsEntryOf(ops, k + 1, e) <==> IsEntryOf(ops, k, e) || e == CallEntryOf(ops, k) || e == ReturnEntryOf(ops, k)
    ensures !IsEntryOf(ops, k, CallEntryOf(ops, k)) && !IsEntryOf(ops, k, ReturnEntryOf(ops, k))
    ensures CallEntryOf(ops, k) != ReturnEntryOf(ops, k)
  {
  }

  lemma EntriesStep<V>(ops: seq<Operation<V>>, k: nat)
    requires k <= |ops|
    ensures k == 0 ==> EntriesOf(ops, k) == []
    ensures k > 0 ==> EntriesOf(ops, k) == EntriesOf(ops, k - 1) + [CallEntryOf(ops, k - 1), ReturnEntryOf(ops, k - 1)]
  {
  }

  lemma NoEntry<V>(ops: seq<Operation<V>>, e: Entry<V>)
    ensures !IsEntryOf(ops, 0, e)
  {
  }

  lemma InMultiset<T>(s: seq<T>, e: T)
    ensures e in s <==> multiset(s)[e] > 0
  {
    assert e in s <==> e in multiset(s);
  }

  lemma {:induction false} EntriesAre<V>(ops: seq<Operation<V>>, k: nat, e: Entry<V>)
    requires k <= |ops|
    ensures multiset(EntriesOf(ops, k))[e] == if IsEntryOf(ops, k, e) then 1 else 0
    ensures e in EntriesOf(ops, k) <==> IsEntryOf(ops, k, e)
  {
    hide IsEntryOf, CallEntryOf, ReturnEntryOf, EntriesOf;
    EntriesStep(ops, k);
    if k > 0 {
      EntriesAre(ops, k - 1, e);
      EntryOfNext(ops, k - 1, e);
      TwoMore(EntriesOf(ops, k - 1), CallEntryOf(ops, k - 1), ReturnEntryOf(ops, k - 1), e);
    } else {
      NoEntry(ops, e);
    }
    InMultiset(EntriesOf(ops, k), e);
  }

  lemma TwicePresent<T>(s: seq<T>, p: nat, q: nat)
    requires p < q < |s| && s[p] == s[q]
    ensures multiset(s)[s[p]] >= 2
  {
    assert s == s[..p] + [s[p]] + s[p + 1..q] + [s[q]] + s[q + 1..];
  }

  ghost predicate EntriesFor<V>(h: seq<Entry<V>>, ops: seq<Operation<V>>) {
    SortedByTime(h) && multiset(h) == multiset(EntriesOf(ops, |ops|))
  }

  /** An entry of the list is one operation's call or return, and only there. */
  lemma EntryIs<V>(h: seq<Entry<V>>, ops: seq<Operation<V>>, p: nat)
    requires EntriesFor(h, ops) && p < |h|
    ensures h[p].id < |ops|
    ensures h[p] == if h[p].kind == Call then CallEntryOf(ops, h[p].id) else ReturnEntryOf(ops, h[p].id)
  {
    assert h[p] in multiset(h);
    assert h[p] in EntriesOf(ops, |ops|);
    EntriesAre(ops, |ops|, h[p]);
  }

  lemma EntryOnce<V>(h: seq<Entry<V>>, ops: seq<Operation<V>>, p: nat, q: nat)
    requires EntriesFor(h, ops) && p < q < |h|
    ensures !(h[p].kind == h[q].kind && h[p].id == h[q].id)
  {
    EntryIs(h, ops, p);
    EntryIs(h, ops, q);
    if h[p] == h[q] {
      TwicePresent(h, p, q);
      EntriesAre(ops, |ops|, h[p]);
    }
  }

  lemma EntryThere<V>(h: seq<Entry<V>>, ops: seq<Operation<V>>, kind: Kind, id: nat) returns (p: nat)
    requires EntriesFor(h, ops) && id < |ops|
    ensures p == Find(h, kind, id, 0) < |h| && h[p].kind == kind && h[p].id == id
    ensures h[p] == if kind == Call then CallEntryOf(ops, id) else ReturnEntryOf(ops, id)
  {
    var e := if kind == Call then CallEntryOf(ops, id) else ReturnEntryOf(ops, id);
    EntriesAre(ops, |ops|, e);
    assert e in multiset(h);
    var q: nat :| q < |h| && h[q] == e;
    p := Find(h, kind, id, 0);
    EntryIs(h, ops, p);
  }

  lemma TimeOrder<V>(h: seq<Entry<V>>, p: nat, q: nat)
    requires SortedByTime(h) && p < |h| && q < |h| && h[p].time != h[q].time
    ensures p < q <==> h[p].time < h[q].time
  {
  }

  /** The list made from operations with distinct times is well formed, and one operation precedes
      another in it exactly when it returned before the other was called. */
  lemma EntriesWellFormed<V>(h: seq<Entry<V>>, ops: seq<Operation<V>>)
    requires EntriesFor(h, ops) && Timed(ops)
    ensures WellFormed(h, |ops|)
  {
    hide EntriesFor, Find;
    assert |h| == 2 * |ops| by { EntriesCount(h, ops); }
    forall id: nat | id < |ops| ensures CallAt(h, id) < ReturnAt(h, id) < |h| {
      OperationEntries(h, ops, id);
    }
    forall p: nat | p < |h|
      ensures h[p].id < |ops| && p == if h[p].kind == Call then CallAt(h, h[p].id) else ReturnAt(h, h[p].id)
    {
      EntryIs(h, ops, p);
      var q := EntryThere(h, ops, h[p].kind, h[p].id);
      if q < p { EntryOnce(h, ops, q, p); }
    }
  }

  lemma EntriesCount<V>(h: seq<Entry<V>>, ops: seq<Operation<V>>)
    requires EntriesFor(h, ops)
    ensures |h| == 2 * |ops|
  {
    assert |multiset(h)| == |h|;
    assert |multiset(EntriesOf(ops, |ops|))| == |EntriesOf(ops, |ops|)|;
  }

  lemma OperationEntries<V>(h: seq<Entry<V>>, ops: seq<Operation<V>>, id: nat)
    requires EntriesFor(h, ops) && Timed(ops) && id < |ops|
    ensures CallAt(h, id) < ReturnAt(h, id) < |h|
    ensures h[CallAt(h, id)] == CallEntryOf(ops, id) && h[ReturnAt(h, id)] == ReturnEntryOf(ops, id)
  {
    hide Find;
    var p := EntryThere(h, ops, Call, id);
    var q := EntryThere(h, ops, Return, id);
    TimeOrder(h, p, q);
  }

  lemma PrecedesInTime<V>(h: seq<Entry<V>>, ops: seq<Operation<V>>, a: nat, b: nat)
    requires EntriesFor(h, ops) && Timed(ops) && a < |ops| && b < |ops|
    ensures Precedes(h, a, b) <==> ops[a].ret < ops[b].call
  {
    hide Find;
    OperationEntries(h, ops, a);
    OperationEntries(h, ops, b);
    TimeOrder(h, ReturnAt(h, a), CallAt(h, b));
  }

  lemma {:induction false} AfterSame<S, V>(m: Model<S, V>, h: seq<Entry<V>>, ops: seq<Operation<V>>, path: seq<nat>)
    requires EntriesFor(h, ops) && Timed(ops) && WellFormed(h, |ops|) && InRange(|ops|, path)
    ensures After(m, h, |ops|, path) == AfterOps(m, ops, path)
  {
    hide EntriesFor, Timed, WellFormed, Find;
    if path != [] {
      AfterSame(m, h, ops, path[..|path| - 1]);
      OperationEntries(h, ops, path[|path| - 1]);
    }
  }

  lemma AcceptedSame<S, V>(m: Model<S, V>, h: seq<Entry<V>>, ops: seq<Operation<V>>, path: seq<nat>)
    requires EntriesFor(h, ops) && Timed(ops) && WellFormed(h, |ops|) && InRange(|ops|, path)
    ensures Accepted(m, h, |ops|, path) <==> AcceptedOps(m, ops, path)
  {
    hide EntriesFor, Timed, WellFormed, Find, After, AfterOps;
    forall i: nat | i < |path|
      ensures Apply(m, h, |ops|, After(m, h, |ops|, path[..i]), path[i])
         == Step(m, ops, AfterOps(m, ops, path[..i]), path[i])
    {
      AfterSame(m, h, ops, path[..i]);
      OperationEntries(h, ops, path[i]);
    }
  }

  /** The list is linearizable exactly when the operations are. */
  lemma SameVerdict<S, V>(m: Model<S, V>, h: seq<Entry<V>>, ops: seq<Operation<V>>)
    requires EntriesFor(h, ops) && Timed(ops) && WellFormed(h, |ops|)
    ensures Linearizable(m, h, |ops|) <==> LinearizableOps(m, ops)
  {
    hide EntriesFor, Timed, WellFormed, Find, Accepted, AcceptedOps;
    forall path: seq<nat> ensures IsLinearization(m, h, |ops|, path) <==> IsOrder(m, ops, path) {
      SameOrder(m, h, ops, path);
    }
    if Linearizable(m, h, |ops|) {
      var path: seq<nat> :| IsLinearization(m, h, |ops|, path);
      assert IsOrder(m, ops, path);
    }
    if LinearizableOps(m, ops) {
      var path: seq<nat> :| IsOrder(m, ops, path);
      assert IsLinearization(m, h, |ops|, path);
    }
  }

  lemma SameRealTime<V>(h: seq<Entry<V>>, ops: seq<Operation<V>>, path: seq<nat>)
    requires EntriesFor(h, ops) && Timed(ops) && InRange(|ops|, path)
    ensures RealTime(ops, path) <==> forall i: nat, j: nat :: i < j < |path| ==> !Precedes(h, path[j], path[i])
  {
    hide EntriesFor, Timed, Precedes;
    forall i: nat, j: nat | i < j < |path|
      ensures Precedes(h, path[j], path[i]) <==> ops[path[j]].ret < ops[path[i]].call
    {
      PrecedesInTime(h, ops, path[j], path[i]);
    }
  }

  lemma SameOrder<S, V>(m: Model<S, V>, h: seq<Entry<V>>, ops: seq<Operation<V>>, path: seq<nat>)
    requires EntriesFor(h, ops) && Timed(ops) && WellFormed(h, |ops|)
    ensures IsLinearization(m, h, |ops|, path) <==> IsOrder(m, ops, path)
  {
    hide EntriesFor, Timed, WellFormed, AcceptedOps, Precedes, RealTime;
    if InRange(|ops|, path) && Distinct(path) {
      InRangeIds(|ops|, path);
      FullPath(|ops|, path);
      AcceptedSame(m, h, ops, path);
      SameRealTime(h, ops, path);
    }
  }

  lemma InRangeIds(n: nat, path: seq<nat>)
    requires InRange(n, path)
    ensures forall id: nat :: id in path ==> id < n
  {
  }

  // ---- Renumbering events ----

  datatype Event<V> = Event(kind: Kind, value: V, id: int)

  ghost predicate Seen<V>(e: seq<Event<V>>, id: int) {
    exists j: nat :: j < |e| && e[j].id == id
  }

  /** Every id below k has appeared. */
  ghost predicate AllSeen<V>(e: seq<Event<V>>, k: int) {
    forall id: int :: 0 <= id < k ==> Seen(e, id)
  }

  /** Ids are replaced by 0, 1, 2, ... in the order they first appear; what was equal stays equal,
      and what was different stays different. */
  method Renumber<V>(events: seq<Event<V>>) returns (e: seq<Event<V>>)
    ensures |e| == |events|
    ensures forall i: nat :: i < |e| ==> e[i].kind == events[i].kind && e[i].value == events[i].value
    ensures forall i: nat, j: nat :: i < |e| && j < |e| ==> (e[i].id == e[j].id <==> events[i].id == events[j].id)
    ensures forall i: nat :: i < |e| ==> 0 <= e[i].id && AllSeen(e[..i], e[i].id)
  {
    e := [];
    var m: map<int, int> := map[];
    var id := 0;
    var i := 0;
    while i < |events|
      invariant 0 <= i <= |events| && |e| == i && 0 <= id
      invariant forall k: nat :: k < i ==>
        events[k].id in m && e[k] == events[k].(id := m[events[k].id]) && AllSeen(e[..k], e[k].id)
      invariant forall x :: x in m ==> 0 <= m[x] < id && exists k: nat :: k < i && events[k].id == x
      invariant forall x, y :: x in m && y in m && m[x] == m[y] ==> x == y
      invariant AllSeen(e, id)
    {
      var v := events[i];
      ghost var before := e;
      if v.id in m {
        e := e + [v.(id := m[v.id])];
      } else {
        e := e + [v.(id := id)];
        m := m[v.id := id];
        id := id + 1;
      }
      SeenMore(before, e, i, id);
      i := i + 1;
    }
  }

  lemma SeenMore<V>(before: seq<Event<V>>, e: seq<Event<V>>, i: nat, id: int)
    requires |before| == i && |e| == i + 1 && e[..i] == before && 0 <= e[i].id < id
    requires AllSeen(before, id) || (e[i].id == id - 1 && AllSeen(before, id - 1))
    ensures AllSeen(e, id) && AllSeen(e[..i], e[i].id)
    ensures forall k: nat :: k < i ==> e[..k] == before[..k]
  {
    assert e[i].id != id - 1 ==> AllSeen(before, id);
    forall x: int | 0 <= x < id ensures Seen(e, x) {
      if x == e[i].id {
        assert e[i].id == x;
      } else {
        assert Seen(before, x);
        var j: nat :| j < |before| && before[j].id == x;
        assert e[j].id == x;
      }
    }
    forall k: nat | k < i ensures e[..k] == before[..k] {
      assert e[..k] == e[..i][..k];
    }
  }
}
