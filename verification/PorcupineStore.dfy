/** What it means for a history to be that of a key-value store, in terms of what was written: every get
    returns what the writes before it left. */
module PorcupineStore {
  import opened Options
  import opened KvWrites
  import opened PorcupineHistory
  import opened PorcupineEntries
  import opened PorcupineChecker
  import opened PorcupineKv

  const GET: nat := 0
  const PUT: nat := 1

  /** The writes on the key along a path of operations. */
  function WritesTo(ops: seq<KvOperation>, path: seq<nat>, key: string): seq<Write>
    requires Typed(ops) && InRange(|ops|, path)
  {
    if path == [] then []
    else
      var input := ops[path[|path| - 1]].input;
      WritesTo(ops, path[..|path| - 1], key)
      + if input.key != key || input.op == GET then []
        else if input.op == PUT then [Putting(input.value)] else [Appending(input.value)]
  }

  /** Every get on the path returned what the writes on its key before it left. */
  predicate GetsRight(ops: seq<KvOperation>, path: seq<nat>)
    requires Typed(ops) && InRange(|ops|, path)
  {
    forall i: nat :: i < |path| && ops[path[i]].input.op == GET ==>
      ops[path[i]].output.value == Text(WritesTo(ops, path[..i], ops[path[i]].input.key))
  }

  /** All operations can be put in an order that respects real time and in which every get is right. */
  ghost predicate Explains(ops: seq<KvOperation>, path: seq<nat>)
    requires Typed(ops)
  {
    && InRange(|ops|, path) && Distinct(path) && |path| == |ops|
    && (forall i: nat, j: nat :: i < j < |path| ==> !(ops[path[j]].ret < ops[path[i]].call))
    && GetsRight(ops, path)
  }

  ghost predicate Explained(ops: seq<KvOperation>)
    requires Typed(ops)
  {
    exists path: seq<nat> :: Explains(ops, path)
  }

  lemma {:induction false} StoreHolds(ops: seq<KvOperation>, path: seq<nat>, key: string)
    requires Typed(ops) && InRange(|ops|, path)
    ensures Lookup(AfterOps(StoreModel(), ops, path), key) == Text(WritesTo(ops, path, key))
  {
    hide Text;
    if path == [] {
      NothingWritten();
    } else {
      var front, x := path[..|path| - 1], path[|path| - 1];
      StoreHolds(ops, front, key);
      StoreHolds(ops, front, ops[x].input.key);
      var ws := WritesTo(ops, front, key);
      TextPush(ws, Putting(ops[x].input.value));
      TextPush(ws, Appending(ops[x].input.value));
      assert ws + [] == ws;
    }
  }

  lemma NothingWritten()
    ensures Text([]) == ""
  {
  }

  /** The store accepts exactly the paths on which every get is right. */
  lemma {:induction false} AcceptedExactly(ops: seq<KvOperation>, path: seq<nat>)
    requires Typed(ops) && InRange(|ops|, path)
    ensures AcceptedOps(StoreModel(), ops, path) <==> GetsRight(ops, path)
  {
    hide Text, WritesTo, AfterOps;
    forall i: nat | i < |path|
      ensures Step(StoreModel(), ops, AfterOps(StoreModel(), ops, path[..i]), path[i]).0
         <==> (ops[path[i]].input.op == GET ==>
                 ops[path[i]].output.value == Text(WritesTo(ops, path[..i], ops[path[i]].input.key)))
    {
      StoreHolds(ops, path[..i], ops[path[i]].input.key);
    }
  }

  lemma LinearizableExactly(ops: seq<KvOperation>)
    requires Typed(ops)
    ensures LinearizableOps(StoreModel(), ops) <==> Explained(ops)
  {
    hide AcceptedOps, GetsRight;
    if path :| IsOrder(StoreModel(), ops, path) {
      AcceptedExactly(ops, path);
      assert Explains(ops, path);
    }
    if path :| Explains(ops, path) {
      AcceptedExactly(ops, path);
      assert IsOrder(StoreModel(), ops, path);
    }
  }

  /** The whole check: split by key, make each list's entries, search each list, stop at the first
      failure. It answers yes exactly when the history is linearizable as one store, which is when an
      order of its operations explains what every get returned. With nothing to search, no result ever
      comes, and there is no answer. */
  method CheckHistory(history: seq<KvOperation>) returns (ok: Option<bool>)
    requires Typed(history) && Timed(history)
    ensures ok == None <==> history == []
    ensures ok.Some? ==> (ok.value <==> LinearizableOps(StoreModel(), history))
    ensures ok.Some? ==> (ok.value <==> Explained(history))
  {
    hide LinearizableOps, Explained, Timed, KvModel, StoreModel, WellFormed, EntriesFor, OpsOf;
    Locality(history);
    LinearizableExactly(history);
    var partitions, keys := Partition(history);
    if |partitions| == 0 {
      assert |history| > 0 ==> HasKey(history, history[0].input.key);
      return None;
    }
    assert keys[0] in keys;
    ok := Some(true);
    var i := 0;
    while i < |partitions|
      invariant 0 <= i <= |partitions| && ok == Some(true)
      invariant forall j: nat :: j < i ==> LinearizableOps(KvModel(), OpsOf(history, keys[j]))
    {
      var result := CheckList(history, keys[i], partitions[i]);
      if !result {
        assert keys[i] in keys;
        return Some(false);
      }
      i := i + 1;
    }
    forall id: nat | id < |history| ensures LinearizableOps(KvModel(), OpsOf(history, history[id].input.key)) {
      assert history[id].input.key in keys;
    }
  }

  method CheckList(ghost history: seq<KvOperation>, ghost key: string, list: seq<KvOperation>) returns (ok: bool)
    requires Typed(history) && Timed(history) && list == OpsOf(history, key)
    ensures ok <==> LinearizableOps(KvModel(), list)
  {
    hide LinearizableOps, Timed, KvModel, WellFormed, OpsOf, Linearizable;
    ListTimed(history, key);
    var h := MakeEntries(list);
    EntriesWellFormed(h, list);
    EntriesCount(h, list);
    SameVerdict(KvModel(), h, list);
    var longest;
    ok, longest := CheckSingle(KvModel(), h, false, t => false);
  }

  // ---- Stale reads ----

  lemma {:induction false} NoWritesBetween(ops: seq<KvOperation>, path: seq<nat>, key: string, i: nat, j: nat)
    requires Typed(ops) && InRange(|ops|, path) && i <= j <= |path|
    requires forall k: nat :: i <= k < j ==> ops[path[k]].input.key != key || ops[path[k]].input.op == GET
    ensures WritesTo(ops, path[..j], key) == WritesTo(ops, path[..i], key)
  {
    if i < j {
      NoWritesBetween(ops, path, key, i, j - 1);
      assert path[..j][..j - 1] == path[..j - 1];
    }
  }

  /** A get that was called after a put returned, with no other write on the key since that put was called,
      can only have returned what was put. */
  lemma StaleReadRejected(ops: seq<KvOperation>, p: nat, g: nat)
    requires Typed(ops) && p < |ops| && g < |ops| && ops[p].input.op == PUT && ops[g].input.op == GET
    requires ops[p].input.key == ops[g].input.key && ops[p].ret < ops[g].call
    requires forall w: nat :: w < |ops| && w != p && ops[w].input.key == ops[p].input.key && ops[w].input.op != GET ==>
               ops[w].ret < ops[p].call
    requires ops[g].output.value != ops[p].input.value
    ensures !Explained(ops)
  {
    hide Text;
    if path :| Explains(ops, path) {
      FullPath(|ops|, path);
      assert p in path && g in path;
      var ip: nat :| ip < |path| && path[ip] == p;
      var ig: nat :| ig < |path| && path[ig] == g;
      var key := ops[p].input.key;
      assert ip < ig;
      NoWritesBetween(ops, path, key, ip + 1, ig);
      assert path[..ip + 1][..ip] == path[..ip];
      TextPush(WritesTo(ops, path[..ip], key), Putting(ops[p].input.value));
      assert false;
    }
  }
}
