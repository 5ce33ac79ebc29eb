/** The key-value model, checked one key at a time: splitting a history by key loses nothing. */
module PorcupineKv {
  import opened Options
  import opened PorcupineHistory
  import opened PorcupineEntries
  import opened PorcupineChecker

  datatype KvValue = KvInput(op: nat, key: string, value: string) | KvOutput(value: string)

  type KvOperation = Operation<KvValue>

  /** One key's value. Anything but a get or a put is an append. */
  function KvStep(state: string, input: KvValue, output: KvValue): (bool, string) {
    if !input.KvInput? || !output.KvOutput? then (false, state)
    else if input.op == 0 then (output.value == state, state)
    else if input.op == 1 then (true, input.value)
    else (true, state + input.value)
  }

  function KvModel(): Model<string, KvValue> {
    Model("", KvStep)
  }

  type Store = map<string, string>

  function Lookup(store: Store, key: string): string {
    if key in store then store[key] else ""
  }

  /** The store the operations are really about: the same step, on the value of the operation's key. */
  function StoreStep(store: Store, input: KvValue, output: KvValue): (bool, Store) {
    if !input.KvInput? then (false, store)
    else
      var (ok, value) := KvStep(Lookup(store, input.key), input, output);
      (ok, store[input.key := value])
  }

  function StoreModel(): Model<Store, KvValue> {
    Model(map[], StoreStep)
  }

  predicate Typed(ops: seq<KvOperation>) {
    forall id: nat :: id < |ops| ==> ops[id].input.KvInput? && ops[id].output.KvOutput?
  }

  // ---- The operations of one key ----

  /** Where the operations of one key are in the history. */
  function IdsOf(ops: seq<KvOperation>, key: string): (r: seq<nat>)
    requires Typed(ops)
    ensures forall i: nat :: i < |r| ==> r[i] < |ops| && ops[r[i]].input.key == key
  {
    if ops == [] then []
    else IdsOf(ops[..|ops| - 1], key) + if ops[|ops| - 1].input.key == key then [|ops| - 1] else []
  }

  /** The list a key has after the history was split. */
  function OpsOf(ops: seq<KvOperation>, key: string): seq<KvOperation>
    requires Typed(ops)
  {
    if ops == [] then []
    else OpsOf(ops[..|ops| - 1], key) + if ops[|ops| - 1].input.key == key then [ops[|ops| - 1]] else []
  }

  lemma {:induction false} IdsComplete(ops: seq<KvOperation>, key: string, id: nat)
    requires Typed(ops) && id < |ops| && ops[id].input.key == key
    ensures id in IdsOf(ops, key)
  {
    if id < |ops| - 1 { IdsComplete(ops[..|ops| - 1], key, id); }
  }

  lemma {:induction false} IdsIncrease(ops: seq<KvOperation>, key: string)
    requires Typed(ops)
    ensures forall i: nat, j: nat :: i < j < |IdsOf(ops, key)| ==> IdsOf(ops, key)[i] < IdsOf(ops, key)[j]
  {
    if ops != [] {
      IdsIncrease(ops[..|ops| - 1], key);
    }
  }

  lemma {:induction false} OpsAtIds(ops: seq<KvOperation>, key: string)
    requires Typed(ops)
    ensures |OpsOf(ops, key)| == |IdsOf(ops, key)|
    ensures forall i: nat :: i < |IdsOf(ops, key)| ==> OpsOf(ops, key)[i] == ops[IdsOf(ops, key)[i]]
  {
    if ops != [] {
      OpsAtIds(ops[..|ops| - 1], key);
    }
  }

  /** The part of a path that is about one key. */
  function Filter(ops: seq<KvOperation>, key: string, path: seq<nat>): (r: seq<nat>)
    requires Typed(ops) && InRange(|ops|, path)
    ensures InRange(|ops|, r) && forall id :: id in r <==> id in path && ops[id].input.key == key
  {
    if path == [] then []
    else
      Filter(ops, key, path[..|path| - 1])
      + if ops[path[|path| - 1]].input.key == key then [path[|path| - 1]] else []
  }

  lemma FilterPush(ops: seq<KvOperation>, key: string, path: seq<nat>, x: nat)
    requires Typed(ops) && InRange(|ops|, path) && x < |ops|
    ensures InRange(|ops|, path + [x])
    ensures Filter(ops, key, path + [x])
         == if ops[x].input.key == key then Filter(ops, key, path) + [x] else Filter(ops, key, path)
  {
    assert (path + [x])[..|path|] == path;
  }

  lemma StoreStepAt(ops: seq<KvOperation>, store: Store, x: nat, key: string)
    requires Typed(ops) && x < |ops|
    ensures var (ok, after) := Step(StoreModel(), ops, store, x);
      && (ops[x].input.key == key ==> (ok, Lookup(after, key)) == Step(KvModel(), ops, Lookup(store, key), x))
      && (ops[x].input.key != key ==> Lookup(after, key) == Lookup(store, key))
  {
  }

  lemma NothingYet(ops: seq<KvOperation>, key: string)
    requires Typed(ops)
    ensures Filter(ops, key, []) == [] && AcceptedOps(KvModel(), ops, [])
    ensures Lookup(AfterOps(StoreModel(), ops, []), key) == AfterOps(KvModel(), ops, [])
  {
  }

  /** After a path, the store has under a key what that key's own operations leave. */
  lemma {:induction false} StoreFollowsKeys(ops: seq<KvOperation>, path: seq<nat>, key: string)
    requires Typed(ops) && InRange(|ops|, path)
    ensures Lookup(AfterOps(StoreModel(), ops, path), key) == AfterOps(KvModel(), ops, Filter(ops, key, path))
  {
    hide AfterOps, Filter, StoreModel, KvModel, Step, Lookup;
    if path == [] {
      NothingYet(ops, key);
    } else {
      var front, x := path[..|path| - 1], path[|path| - 1];
      assert path == front + [x];
      StoreFollowsKeys(ops, front, key);
      AfterPush(StoreModel(), ops, front, x);
      StoreStepAt(ops, AfterOps(StoreModel(), ops, front), x, key);
      FilterPush(ops, key, front, x);
      if ops[x].input.key == key { AfterPush(KvModel(), ops, Filter(ops, key, front), x); }
    }
  }

  /** The store accepts an operation exactly when its key does. */
  lemma StepAgrees(ops: seq<KvOperation>, path: seq<nat>, x: nat)
    requires Typed(ops) && InRange(|ops|, path) && x < |ops|
    ensures Step(StoreModel(), ops, AfterOps(StoreModel(), ops, path), x).0
         == Step(KvModel(), ops, AfterOps(KvModel(), ops, Filter(ops, ops[x].input.key, path)), x).0
  {
    hide AfterOps, Filter, StoreModel, KvModel, Step, Lookup;
    StoreFollowsKeys(ops, path, ops[x].input.key);
    StoreStepAt(ops, AfterOps(StoreModel(), ops, path), x, ops[x].input.key);
  }

  // ---- Orders of one key's operations, by their ids in the whole history ----

  /** The operations of the key, once each, in an order that respects real time and the key accepts. */
  ghost predicate IsKeyOrder(ops: seq<KvOperation>, key: string, path: seq<nat>)
    requires Typed(ops)
  {
    && InRange(|ops|, path) && Distinct(path)
    && (forall id: nat :: id in path <==> id < |ops| && ops[id].input.key == key)
    && RealTime(ops, path) && AcceptedOps(KvModel(), ops, path)
  }

  // ---- From the whole to the keys ----

  lemma PushDistinct(ops: seq<KvOperation>, path: seq<nat>, x: nat)
    requires InRange(|ops|, path) && x < |ops| && Distinct(path) && RealTime(ops, path)
    requires forall y :: y in path ==> y != x && !(ops[x].ret < ops[y].call)
    ensures InRange(|ops|, path + [x]) && Distinct(path + [x]) && RealTime(ops, path + [x])
  {
  }

  lemma BeforeLast(ops: seq<KvOperation>, path: seq<nat>)
    requires path != [] && InRange(|ops|, path) && Distinct(path) && RealTime(ops, path)
    ensures var front, x := path[..|path| - 1], path[|path| - 1];
      && InRange(|ops|, front) && Distinct(front) && RealTime(ops, front)
      && forall y :: y in front ==> y != x && !(ops[x].ret < ops[y].call)
  {
  }

  lemma {:induction false} FilterDistinct(ops: seq<KvOperation>, key: string, path: seq<nat>)
    requires Typed(ops) && InRange(|ops|, path) && Distinct(path) && RealTime(ops, path)
    ensures Distinct(Filter(ops, key, path)) && RealTime(ops, Filter(ops, key, path))
  {
    hide Distinct, RealTime, Typed;
    if path == [] {
      NothingDistinct(ops);
    } else {
      var front, x := path[..|path| - 1], path[|path| - 1];
      BeforeLast(ops, path);
      FilterDistinct(ops, key, front);
      PushDistinct(ops, Filter(ops, key, front), x);
      assert Filter(ops, key, front) + [] == Filter(ops, key, front);
    }
  }

  lemma NothingDistinct(ops: seq<KvOperation>)
    ensures Distinct([]) && RealTime(ops, [])
  {
  }

  lemma {:induction false} FilterAccepted(ops: seq<KvOperation>, key: string, path: seq<nat>)
    requires Typed(ops) && InRange(|ops|, path) && AcceptedOps(StoreModel(), ops, path)
    ensures AcceptedOps(KvModel(), ops, Filter(ops, key, path))
  {
    hide AfterOps, Filter, StoreModel, KvModel, Step, AcceptedOps;
    if path == [] {
      NothingYet(ops, key);
    } else {
      var front, x := path[..|path| - 1], path[|path| - 1];
      assert path == front + [x];
      AcceptedPush(StoreModel(), ops, front, x);
      FilterAccepted(ops, key, front);
      FilterPush(ops, key, front, x);
      StepAgrees(ops, front, x);
      if ops[x].input.key == key { AcceptedPush(KvModel(), ops, Filter(ops, key, front), x); }
    }
  }

  lemma OrderSplits(ops: seq<KvOperation>, path: seq<nat>, key: string)
    requires Typed(ops) && IsOrder(StoreModel(), ops, path)
    ensures IsKeyOrder(ops, key, Filter(ops, key, path))
  {
    hide AcceptedOps, RealTime;
    FilterDistinct(ops, key, path);
    FilterAccepted(ops, key, path);
    FullPath(|ops|, path);
  }

  // ---- From the keys to the whole ----

  /** One order for every key in the history. */
  ghost predicate KeyOrders(ops: seq<KvOperation>, orders: map<string, seq<nat>>)
    requires Typed(ops)
  {
    && (forall id: nat :: id < |ops| ==> ops[id].input.key in orders)
    && (forall key :: key in orders ==> IsKeyOrder(ops, key, orders[key]))
  }

  /** A partial merge: each key's part is a prefix of its order, and nothing that returned before
      one of its operations was called is missing in front of it. */
  ghost predicate Merged(ops: seq<KvOperation>, orders: map<string, seq<nat>>, path: seq<nat>)
    requires Typed(ops)
  {
    && InRange(|ops|, path) && Distinct(path)
    && (forall key :: key in orders ==> Filter(ops, key, path) <= orders[key])
    && (forall i: nat, b: nat :: i < |path| && b < |ops| && ops[b].ret < ops[path[i]].call ==> b in path[..i])
  }

  /** Among the operations not yet placed, one that returns first. */
  lemma {:induction false} FirstReturn(ops: seq<KvOperation>, path: seq<nat>, k: nat) returns (y: nat)
    requires k <= |ops| && exists id: nat :: id < k && id !in path
    ensures y < k && y !in path && forall z: nat :: z < k && z !in path ==> ops[y].ret <= ops[z].ret
  {
    if exists id: nat :: id < k - 1 && id !in path {
      y := FirstReturn(ops, path, k - 1);
      if k - 1 !in path && ops[k - 1].ret < ops[y].ret { y := k - 1; }
    } else {
      y := k - 1;
    }
  }

  /** The key of the operation that returns first has a next operation that nothing left precedes. */
  lemma NextToMerge(ops: seq<KvOperation>, orders: map<string, seq<nat>>, path: seq<nat>) returns (x: nat)
    requires Typed(ops) && Timed(ops) && KeyOrders(ops, orders) && Merged(ops, orders, path) && |path| < |ops|
    ensures x < |ops| && x !in path
    ensures forall z: nat :: z < |ops| && z !in path ==> !(ops[z].ret < ops[x].call)
    ensures var key := ops[x].input.key;
      key in orders && |Filter(ops, key, path)| < |orders[key]| && orders[key][|Filter(ops, key, path)|] == x
  {
    hide AcceptedOps, Filter, RealTime, IsKeyOrder;
    FullPath(|ops|, path);
    var y := FirstReturn(ops, path, |ops|);
    var key := ops[y].input.key;
    var own, order := Filter(ops, key, path), orders[key];
    KeyOrderHas(ops, key, order);
    assert y in order && y !in own;
    x := NextInOrder(own, order, y);
    NextNotBefore(ops, key, order, |own|, y);
  }

  lemma KeyOrderHas(ops: seq<KvOperation>, key: string, order: seq<nat>)
    requires Typed(ops) && IsKeyOrder(ops, key, order)
    ensures InRange(|ops|, order) && Distinct(order)
    ensures forall id: nat :: id in order <==> id < |ops| && ops[id].input.key == key
  {
    hide AcceptedOps, RealTime;
  }

  /** Where a prefix lacks an element, there is a next one, and it is not in the prefix either. */
  lemma NextInOrder(own: seq<nat>, order: seq<nat>, y: nat) returns (x: nat)
    requires own <= order && Distinct(order) && y in order && y !in own
    ensures |own| < |order| && x == order[|own|] && x !in own && x in order
    ensures exists j: nat :: |own| <= j < |order| && order[j] == y
  {
    var j: nat :| j < |order| && order[j] == y;
    assert forall i: nat :: i < |own| ==> order[i] == own[i] && own[i] in own;
    assert j >= |own|;
    x := order[|own|];
  }

  lemma NextNotBefore(ops: seq<KvOperation>, key: string, order: seq<nat>, i: nat, y: nat)
    requires Typed(ops) && Timed(ops) && IsKeyOrder(ops, key, order) && i < |order| && y < |ops|
    requires exists j: nat :: i <= j < |order| && order[j] == y
    ensures order[i] < |ops| && !(ops[y].ret < ops[order[i]].call)
  {
    hide AcceptedOps;
    var j: nat :| i <= j < |order| && order[j] == y;
  }

  lemma MergePush(ops: seq<KvOperation>, orders: map<string, seq<nat>>, path: seq<nat>, x: nat)
    requires Typed(ops) && KeyOrders(ops, orders) && Merged(ops, orders, path) && x < |ops| && x !in path
    requires forall z: nat :: z < |ops| && z !in path ==> !(ops[z].ret < ops[x].call)
    requires var key := ops[x].input.key;
      key in orders && |Filter(ops, key, path)| < |orders[key]| && orders[key][|Filter(ops, key, path)|] == x
    ensures Merged(ops, orders, path + [x])
  {
    hide IsKeyOrder, Filter, KeyOrders;
    var more := path + [x];
    forall key | key in orders ensures Filter(ops, key, more) <= orders[key] {
      FilterPush(ops, key, path, x);
    }
    MergeFront(ops, path, x);
  }

  lemma MergeFront(ops: seq<KvOperation>, path: seq<nat>, x: nat)
    requires InRange(|ops|, path) && x < |ops|
    requires forall i: nat, b: nat :: i < |path| && b < |ops| && ops[b].ret < ops[path[i]].call ==> b in path[..i]
    requires forall z: nat :: z < |ops| && z !in path ==> !(ops[z].ret < ops[x].call)
    ensures forall i: nat, b: nat ::
      i <= |path| && b < |ops| && ops[b].ret < ops[(path + [x])[i]].call ==> b in (path + [x])[..i]
  {
    var more := path + [x];
    forall i: nat, b: nat | i < |more| && b < |ops| && ops[b].ret < ops[more[i]].call ensures b in more[..i] {
      if i < |path| { assert more[..i] == path[..i]; } else { assert more[..i] == path; }
    }
  }

  lemma {:induction false} MergeAll(ops: seq<KvOperation>, orders: map<string, seq<nat>>, path: seq<nat>)
    returns (full: seq<nat>)
    requires Typed(ops) && Timed(ops) && KeyOrders(ops, orders) && Merged(ops, orders, path)
    ensures Merged(ops, orders, full) && |full| == |ops|
    decreases |ops| - |path|
  {
    hide KeyOrders;
    FullPath(|ops|, path);
    if |path| == |ops| {
      full := path;
    } else {
      var x := NextToMerge(ops, orders, path);
      MergePush(ops, orders, path, x);
      full := MergeAll(ops, orders, path + [x]);
    }
  }

  lemma MergedRealTime(ops: seq<KvOperation>, orders: map<string, seq<nat>>, path: seq<nat>)
    requires Typed(ops) && Merged(ops, orders, path)
    ensures RealTime(ops, path)
  {
    forall i: nat, j: nat | i < j < |path| ensures !(ops[path[j]].ret < ops[path[i]].call) {
      assert path[j] !in path[..i];
    }
  }

  lemma {:induction false} FilterPrefix(ops: seq<KvOperation>, key: string, path: seq<nat>, i: nat)
    requires Typed(ops) && InRange(|ops|, path) && i <= |path|
    ensures Filter(ops, key, path[..i]) <= Filter(ops, key, path)
  {
    if i < |path| {
      var front := path[..|path| - 1];
      FilterPrefix(ops, key, front, i);
      assert front[..i] == path[..i];
    } else {
      assert path[..i] == path;
    }
  }

  /** Each key accepts its own part, so the store accepts the merge. */
  lemma MergedAccepted(ops: seq<KvOperation>, orders: map<string, seq<nat>>, path: seq<nat>)
    requires Typed(ops) && KeyOrders(ops, orders) && Merged(ops, orders, path)
    ensures AcceptedOps(StoreModel(), ops, path)
  {
    hide Merged, KeyOrders, Step, AfterOps, StoreModel;
    MergedRange(ops, orders, path);
    forall i: nat | i < |path| ensures Step(StoreModel(), ops, AfterOps(StoreModel(), ops, path[..i]), path[i]).0 {
      MergedStep(ops, orders, path, i);
    }
  }

  lemma MergedRange(ops: seq<KvOperation>, orders: map<string, seq<nat>>, path: seq<nat>)
    requires Typed(ops) && Merged(ops, orders, path)
    ensures InRange(|ops|, path)
  {
  }

  lemma MergedStep(ops: seq<KvOperation>, orders: map<string, seq<nat>>, path: seq<nat>, i: nat)
    requires Typed(ops) && KeyOrders(ops, orders) && Merged(ops, orders, path) && i < |path|
    ensures Step(StoreModel(), ops, AfterOps(StoreModel(), ops, path[..i]), path[i]).0
  {
    hide AfterOps, Step, RealTime, Filter, StoreModel, KvModel, IsKeyOrder;
    var x := path[i];
    var key := ops[x].input.key;
    StepAgrees(ops, path[..i], x);
    FilterPush(ops, key, path[..i], x);
    assert path[..i] + [x] == path[..i + 1];
    FilterPrefix(ops, key, path, i + 1);
    KeyStep(ops, key, orders[key], Filter(ops, key, path[..i]), x);
  }

  lemma KeyStep(ops: seq<KvOperation>, key: string, order: seq<nat>, own: seq<nat>, x: nat)
    requires Typed(ops) && IsKeyOrder(ops, key, order) && own + [x] <= order
    ensures InRange(|ops|, own) && x < |ops| && Step(KvModel(), ops, AfterOps(KvModel(), ops, own), x).0
  {
    hide AfterOps, Step, RealTime;
    assert order[..|own|] == own && order[|own|] == x;
  }

  lemma OrdersMerge(ops: seq<KvOperation>, orders: map<string, seq<nat>>)
    requires Typed(ops) && Timed(ops) && KeyOrders(ops, orders)
    ensures LinearizableOps(StoreModel(), ops)
  {
    hide KeyOrders, AcceptedOps, RealTime;
    assert Merged(ops, orders, []);
    var full := MergeAll(ops, orders, []);
    MergedRealTime(ops, orders, full);
    MergedAccepted(ops, orders, full);
    assert IsOrder(StoreModel(), ops, full);
  }

  // ---- The same orders, by the positions in a key's own list ----

  function ToWhole(ids: seq<nat>, local: seq<nat>): (r: seq<nat>)
    requires InRange(|ids|, local)
  {
    seq(|local|, i requires 0 <= i < |local| => ids[local[i]])
  }

  /** A key's list is linearizable on its own exactly when the history has an order for the key. */
  lemma ListOrder(ops: seq<KvOperation>, key: string, local: seq<nat>)
    requires Typed(ops) && IsOrder(KvModel(), OpsOf(ops, key), local)
    ensures InRange(|IdsOf(ops, key)|, local) && IsKeyOrder(ops, key, ToWhole(IdsOf(ops, key), local))
  {
    hide AcceptedOps, KvModel;
    OpsAtIds(ops, key);
    IdsIncrease(ops, key);
    var ids := IdsOf(ops, key);
    var whole := ToWhole(ids, local);
    FullPath(|ids|, local);
    forall id: nat | id < |ops| && ops[id].input.key == key ensures id in whole {
      IdsComplete(ops, key, id);
      var i: nat :| i < |ids| && ids[i] == id;
      assert i in local;
      var j: nat :| j < |local| && local[j] == i;
      assert whole[j] == id;
    }
    AcceptedWhole(ops, key, local);
  }

  lemma {:induction false} AfterWhole(ops: seq<KvOperation>, key: string, local: seq<nat>)
    requires Typed(ops) && |OpsOf(ops, key)| == |IdsOf(ops, key)| && InRange(|IdsOf(ops, key)|, local)
    ensures InRange(|ops|, ToWhole(IdsOf(ops, key), local))
    ensures AfterOps(KvModel(), OpsOf(ops, key), local) == AfterOps(KvModel(), ops, ToWhole(IdsOf(ops, key), local))
  {
    hide KvModel, Step, IdsOf, OpsOf;
    var ids := IdsOf(ops, key);
    if local != [] {
      var front, x := local[..|local| - 1], local[|local| - 1];
      AfterWhole(ops, key, front);
      assert local == front + [x] && ToWhole(ids, local) == ToWhole(ids, front) + [ids[x]];
      AfterPush(KvModel(), OpsOf(ops, key), front, x);
      AfterPush(KvModel(), ops, ToWhole(ids, front), ids[x]);
      SameStep(ops, key, x, AfterOps(KvModel(), OpsOf(ops, key), front));
    }
  }

  lemma {:induction false} AcceptedWhole(ops: seq<KvOperation>, key: string, local: seq<nat>)
    requires Typed(ops) && |OpsOf(ops, key)| == |IdsOf(ops, key)| && InRange(|IdsOf(ops, key)|, local)
    ensures InRange(|ops|, ToWhole(IdsOf(ops, key), local))
    ensures AcceptedOps(KvModel(), OpsOf(ops, key), local) <==>
        AcceptedOps(KvModel(), ops, ToWhole(IdsOf(ops, key), local))
  {
    hide AfterOps, KvModel, AcceptedOps, Step, IdsOf, OpsOf;
    var ids := IdsOf(ops, key);
    if local == [] {
      NothingAccepted(ops, key);
      assert ToWhole(ids, local) == [];
    } else {
      var front, x := local[..|local| - 1], local[|local| - 1];
      AcceptedWhole(ops, key, front);
      AfterWhole(ops, key, front);
      assert local == front + [x] && ToWhole(ids, local) == ToWhole(ids, front) + [ids[x]];
      AcceptedPush(KvModel(), OpsOf(ops, key), front, x);
      AcceptedPush(KvModel(), ops, ToWhole(ids, front), ids[x]);
      SameStep(ops, key, x, AfterOps(KvModel(), OpsOf(ops, key), front));
    }
  }

  lemma NothingAccepted(ops: seq<KvOperation>, key: string)
    requires Typed(ops)
    ensures AcceptedOps(KvModel(), OpsOf(ops, key), []) && AcceptedOps(KvModel(), ops, [])
  {
  }

  lemma SameStep(ops: seq<KvOperation>, key: string, x: nat, state: string)
    requires Typed(ops) && x < |IdsOf(ops, key)| == |OpsOf(ops, key)|
    ensures Step(KvModel(), OpsOf(ops, key), state, x) == Step(KvModel(), ops, state, IdsOf(ops, key)[x])
  {
    OpsAtIds(ops, key);
  }

  lemma {:induction false} ToLocal(ids: seq<nat>, whole: seq<nat>) returns (local: seq<nat>)
    requires forall i: nat :: i < |whole| ==> whole[i] in ids
    ensures InRange(|ids|, local) && ToWhole(ids, local) == whole
  {
    if whole == [] {
      local := [];
    } else {
      var front := ToLocal(ids, whole[..|whole| - 1]);
      var j: nat :| j < |ids| && ids[j] == whole[|whole| - 1];
      local := front + [j];
    }
  }

  lemma WholeOrder(ops: seq<KvOperation>, key: string, whole: seq<nat>)
    requires Typed(ops) && IsKeyOrder(ops, key, whole)
    ensures LinearizableOps(KvModel(), OpsOf(ops, key))
  {
    hide AcceptedOps, KvModel;
    var ids := IdsOf(ops, key);
    OpsAtIds(ops, key);
    IdsIncrease(ops, key);
    forall i: nat | i < |whole| ensures whole[i] in ids { IdsComplete(ops, key, whole[i]); }
    var local := ToLocal(ids, whole);
    AcceptedWhole(ops, key, local);
    LocalOrder(ops, key, local);
  }

  lemma LocalOrder(ops: seq<KvOperation>, key: string, local: seq<nat>)
    requires Typed(ops) && InRange(|IdsOf(ops, key)|, local) && IsKeyOrder(ops, key, ToWhole(IdsOf(ops, key), local))
    requires |OpsOf(ops, key)| == |IdsOf(ops, key)| && AcceptedOps(KvModel(), OpsOf(ops, key), local)
    ensures IsOrder(KvModel(), OpsOf(ops, key), local)
  {
    hide AcceptedOps, KvModel;
    var ids := IdsOf(ops, key);
    var whole := ToWhole(ids, local);
    OpsAtIds(ops, key);
    IdsIncrease(ops, key);
    forall i: nat, j: nat | i < j < |local| ensures local[i] != local[j] {
      assert whole[i] != whole[j];
    }
    forall x: nat | x < |ids| ensures x in local {
      assert ids[x] in whole;
      var j: nat :| j < |whole| && whole[j] == ids[x];
      assert local[j] == x;
    }
    FullPath(|ids|, local);
    forall i: nat, j: nat | i < j < |local|
      ensures !(OpsOf(ops, key)[local[j]].ret < OpsOf(ops, key)[local[i]].call)
    {
      assert !(ops[whole[j]].ret < ops[whole[i]].call);
    }
  }

  /** Locality: the history is linearizable as one store exactly when each key's list is linearizable
      as one value. */
  lemma Locality(ops: seq<KvOperation>)
    requires Typed(ops) && Timed(ops)
    ensures LinearizableOps(StoreModel(), ops)
       <==> forall id: nat :: id < |ops| ==> LinearizableOps(KvModel(), OpsOf(ops, ops[id].input.key))
  {
    hide LinearizableOps, IsKeyOrder;
    if LinearizableOps(StoreModel(), ops) {
      forall id: nat | id < |ops| ensures LinearizableOps(KvModel(), OpsOf(ops, ops[id].input.key)) {
        WholeSplits(ops, ops[id].input.key);
      }
    }
    if forall id: nat :: id < |ops| ==> LinearizableOps(KvModel(), OpsOf(ops, ops[id].input.key)) {
      var orders := OrdersUpto(ops, |ops|);
      OrdersMerge(ops, orders);
    }
  }

  lemma WholeSplits(ops: seq<KvOperation>, key: string)
    requires Typed(ops) && LinearizableOps(StoreModel(), ops)
    ensures LinearizableOps(KvModel(), OpsOf(ops, key))
  {
    hide IsOrder, IsKeyOrder;
    var path: seq<nat> :| IsOrder(StoreModel(), ops, path);
    OrderRange(ops, path);
    OrderSplits(ops, path, key);
    WholeOrder(ops, key, Filter(ops, key, path));
  }

  lemma OrderRange(ops: seq<KvOperation>, path: seq<nat>)
    requires IsOrder(StoreModel(), ops, path)
    ensures InRange(|ops|, path)
  {
  }

  lemma {:induction false} OrdersUpto(ops: seq<KvOperation>, k: nat) returns (orders: map<string, seq<nat>>)
    requires Typed(ops) && k <= |ops|
    requires forall id: nat :: id < |ops| ==> LinearizableOps(KvModel(), OpsOf(ops, ops[id].input.key))
    ensures forall id: nat :: id < k ==> ops[id].input.key in orders
    ensures forall key :: key in orders ==> IsKeyOrder(ops, key, orders[key])
  {
    hide IsOrder, IsKeyOrder, KvModel;
    if k == 0 {
      orders := map[];
    } else {
      orders := OrdersUpto(ops, k - 1);
      var key := ops[k - 1].input.key;
      assert LinearizableOps(KvModel(), OpsOf(ops, key));
      var local: seq<nat> :| IsOrder(KvModel(), OpsOf(ops, key), local);
      ListOrder(ops, key, local);
      orders := orders[key := ToWhole(IdsOf(ops, key), local)];
    }
  }

  // ---- Checking a key-value history ----

  ghost predicate HasKey(history: seq<KvOperation>, key: string)
    requires Typed(history)
  {
    exists id: nat :: id < |history| && history[id].input.key == key
  }

  lemma HasKeyPush(history: seq<KvOperation>, v: KvOperation, key: string)
    requires Typed(history) && v.input.KvInput? && v.output.KvOutput?
    ensures Typed(history + [v])
    ensures HasKey(history + [v], key) <==> HasKey(history, key) || v.input.key == key
    ensures OpsOf(history + [v], key) == if v.input.key == key then OpsOf(history, key) + [v] else OpsOf(history, key)
    ensures !HasKey(history, key) ==> OpsOf(history, key) == []
  {
    var more := history + [v];
    assert forall id: nat :: id < |history| ==> more[id] == history[id];
    assert more[|history|] == v && more[..|history|] == history;
    NoKeyNoOps(history, key);
  }

  lemma {:induction false} NoKeyNoOps(history: seq<KvOperation>, key: string)
    requires Typed(history)
    ensures !HasKey(history, key) ==> OpsOf(history, key) == []
  {
    if history != [] && !HasKey(history, key) {
      NoKeyNoOps(history[..|history| - 1], key);
      assert history[|history| - 1].input.key != key;
      assert forall id: nat :: id < |history| - 1 ==> history[..|history| - 1][id] == history[id];
    }
  }

  /** The map from keys to their operations. */
  method SplitByKey(history: seq<KvOperation>) returns (m: map<string, seq<KvOperation>>)
    requires Typed(history)
    ensures forall key :: key in m <==> HasKey(history, key)
    ensures forall key :: key in m ==> m[key] == OpsOf(history, key)
  {
    hide HasKey, OpsOf;
    m := map[];
    var i := 0;
    NoKeys();
    assert history[..0] == [];
    while i < |history|
      invariant 0 <= i <= |history|
      invariant forall key :: key in m <==> HasKey(history[..i], key)
      invariant forall key :: key in m ==> m[key] == OpsOf(history[..i], key)
    {
      var v := history[i];
      var key := v.input.key;
      assert history[..i + 1] == history[..i] + [v];
      forall k: string
        ensures HasKey(history[..i + 1], k) <==> HasKey(history[..i], k) || v.input.key == k
        ensures OpsOf(history[..i + 1], k)
             == if v.input.key == k then OpsOf(history[..i], k) + [v] else OpsOf(history[..i], k)
        ensures !HasKey(history[..i], k) ==> OpsOf(history[..i], k) == []
      {
        HasKeyPush(history[..i], v, k);
      }
      m := m[key := (if key in m then m[key] else []) + [v]];
      i := i + 1;
    }
    assert history[..|history|] == history;
  }

  lemma NoKeys()
    ensures forall key: string :: !HasKey([], key)
  {
  }

  /** The order of strings, character by character. */
  predicate Less(a: string, b: string) {
    b != [] && (a == [] || a[0] < b[0] || (a[0] == b[0] && Less(a[1..], b[1..])))
  }

  lemma {:induction false} LessTotal(a: string, b: string)
    ensures a == b || Less(a, b) || Less(b, a)
    ensures !(Less(a, b) && Less(b, a)) && !Less(a, a)
  {
    if a != [] && b != [] {
      LessTotal(a[1..], b[1..]);
      assert a == [a[0]] + a[1..] && b == [b[0]] + b[1..];
    }
    if a != [] { LessTotal(a[1..], a[1..]); }
  }

  lemma {:induction false} LessTransitive(a: string, b: string, c: string)
    requires Less(a, b) && Less(b, c)
    ensures Less(a, c)
  {
    if a != [] && a[0] == b[0] == c[0] { LessTransitive(a[1..], b[1..], c[1..]); }
  }

  predicate Ascending(keys: seq<string>) {
    forall i: nat, j: nat :: i < j < |keys| ==> Less(keys[i], keys[j])
  }

  lemma InsertKeeps(keys: seq<string>, at: nat, key: string)
    requires Ascending(keys) && at <= |keys|
    requires forall i: nat :: i < at ==> Less(keys[i], key)
    requires forall i: nat :: at <= i < |keys| ==> Less(key, keys[i])
    ensures Ascending(keys[..at] + [key] + keys[at..])
    ensures forall k :: k in keys[..at] + [key] + keys[at..] <==> k == key || k in keys
  {
    hide Less;
    assert forall k :: k in keys <==> k in keys[..at] || k in keys[at..] by { assert keys == keys[..at] + keys[at..]; }
  }

  /** Where a key belongs in an ascending list. */
  method PlaceOf(keys: seq<string>, key: string) returns (at: nat)
    requires Ascending(keys) && key !in keys
    ensures at <= |keys|
    ensures forall i: nat :: i < at ==> Less(keys[i], key)
    ensures forall i: nat :: at <= i < |keys| ==> Less(key, keys[i])
  {
    at := 0;
    while at < |keys| && Less(keys[at], key)
      invariant at <= |keys| && forall i: nat :: i < at ==> Less(keys[i], key)
    {
      at := at + 1;
    }
    forall i: nat | at <= i < |keys| ensures Less(key, keys[i]) {
      LessTotal(keys[at], key);
      if i > at { LessTransitive(key, keys[at], keys[i]); }
    }
  }

  /** Puts distinct keys in order. */
  method SortKeys(keys: set<string>) returns (r: seq<string>)
    ensures Ascending(r) && forall key :: key in r <==> key in keys
  {
    hide Less;
    r := [];
    var left := keys;
    while left != {}
      invariant left <= keys && Ascending(r)
      invariant forall key :: key in r <==> key in keys && key !in left
      decreases |left|
    {
      var k :| k in left;
      var at := PlaceOf(r, k);
      InsertKeeps(r, at, k);
      r := r[..at] + [k] + r[at..];
      left := left - {k};
    }
  }

  /** Splits a history by key, one list for every key, in the order of the keys. */
  method Partition(history: seq<KvOperation>) returns (ret: seq<seq<KvOperation>>, keys: seq<string>)
    requires Typed(history)
    ensures |ret| == |keys| && forall j: nat :: j < |keys| ==> ret[j] == OpsOf(history, keys[j])
    ensures Ascending(keys) && forall i: nat, j: nat :: i < j < |keys| ==> keys[i] != keys[j]
    ensures forall key :: key in keys <==> HasKey(history, key)
  {
    hide HasKey, OpsOf, Less;
    var m := SplitByKey(history);
    keys := SortKeys(m.Keys);
    forall i: nat, j: nat | i < j < |keys| ensures keys[i] != keys[j] {
      LessTotal(keys[i], keys[j]);
    }
    ret := [];
    while |ret| < |keys|
      invariant |ret| <= |keys| && forall j: nat :: j < |ret| ==> ret[j] == OpsOf(history, keys[j])
    {
      assert keys[|ret|] in keys;
      ret := ret + [m[keys[|ret|]]];
    }
  }

  lemma ListTimed(ops: seq<KvOperation>, key: string)
    requires Typed(ops) && Timed(ops)
    ensures Timed(OpsOf(ops, key))
  {
    OpsAtIds(ops, key);
    IdsIncrease(ops, key);
  }
}
