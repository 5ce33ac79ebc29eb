/** The loops of a worker, and of the sequential program: splitting into buckets, sorting by key,
    and calling reduce once for every run of equal keys. */
module MapReduceWorker {
  import opened MapReducePlan

  // ---- Sorting by key ----

  /** String comparison, character by character. */
  predicate Below(a: string, b: string) {
    if b == [] then false
    else if a == [] then true
    else a[0] < b[0] || (a[0] == b[0] && Below(a[1..], b[1..]))
  }

  lemma {:induction false} BelowTotal(a: string, b: string)
    ensures Below(a, b) || a == b || Below(b, a)
    ensures !(Below(a, b) && Below(b, a))
    ensures a == b ==> !Below(a, b)
  {
    if a != [] && b != [] {
      BelowTotal(a[1..], b[1..]);
      assert a == [a[0]] + a[1..] && b == [b[0]] + b[1..];
    }
  }

  lemma {:induction false} BelowTransitive(a: string, b: string, c: string)
    requires Below(a, b) && Below(b, c)
    ensures Below(a, c)
  {
    if a != [] && a[0] == b[0] == c[0] { BelowTransitive(a[1..], b[1..], c[1..]); }
  }

  predicate SortedByKey(s: seq<KeyValue>) {
    forall i: nat, j: nat :: i < j < |s| ==> !Below(s[j].key, s[i].key)
  }

  /** Puts one more pair into its place. */
  method InsertByKey(s: seq<KeyValue>, kv: KeyValue) returns (r: seq<KeyValue>)
    requires SortedByKey(s)
    ensures SortedByKey(r) && multiset(r) == multiset(s) + multiset{kv}
  {
    hide Below;
    var i := |s|;
    while 0 < i && Below(kv.key, s[i - 1].key)
      invariant 0 <= i <= |s| && forall k: nat :: i <= k < |s| ==> Below(kv.key, s[k].key)
    {
      i := i - 1;
    }
    r := s[..i] + [kv] + s[i..];
    InsertedSorted(s, i, kv);
    assert s == s[..i] + s[i..];
  }

  lemma InsertedSorted(s: seq<KeyValue>, i: nat, kv: KeyValue)
    requires SortedByKey(s) && i <= |s| && (i > 0 ==> !Below(kv.key, s[i - 1].key))
    requires forall k: nat :: i <= k < |s| ==> Below(kv.key, s[k].key)
    ensures SortedByKey(s[..i] + [kv] + s[i..])
  {
    hide Below;
    var r := s[..i] + [kv] + s[i..];
    forall a: nat, b: nat | a < b < |r| ensures !Below(r[b].key, r[a].key) {
      var x := if a < i then s[a] else if a == i then kv else s[a - 1];
      var y := if b < i then s[b] else if b == i then kv else s[b - 1];
      assert r[a] == x && r[b] == y;
      if b == i {
        NotAbove(x.key, s[i - 1].key, kv.key);
      } else if a == i {
        BelowTotal(kv.key, y.key);
      }
    }
  }

  lemma NotAbove(a: string, b: string, c: string)
    requires (a == b || !Below(b, a)) && !Below(c, b)
    ensures !Below(c, a)
  {
    hide Below;
    BelowTotal(a, b);
    BelowTotal(b, c);
    if Below(c, a) {
      if Below(a, b) { BelowTransitive(c, a, b); }
    }
  }

  /** sort.Sort(ByKey(...)): some permutation in key order. */
  method SortByKey(s: seq<KeyValue>) returns (r: seq<KeyValue>)
    ensures SortedByKey(r) && multiset(r) == multiset(s)
  {
    hide Below;
    r := [];
    var i := 0;
    while i < |s|
      invariant 0 <= i <= |s| && SortedByKey(r) && multiset(r) == multiset(s[..i])
    {
      r := InsertByKey(r, s[i]);
      assert s[..i + 1] == s[..i] + [s[i]];
      i := i + 1;
    }
    assert s[..|s|] == s;
  }

  // ---- One reduce call for each key ----

  /** In key order, equal keys are next to each other. */
  lemma BetweenEqual(s: seq<KeyValue>, i: nat, j: nat, k: nat)
    requires SortedByKey(s) && i <= j <= k < |s| && s[i].key == s[k].key
    ensures s[j].key == s[i].key
  {
    hide Below;
    if i < j < k { BelowTotal(s[j].key, s[i].key); }
  }

  lemma {:induction false} GroupValues(g: seq<KeyValue>, key: string, other: string)
    requires forall k: nat :: k < |g| ==> g[k].key == key
    ensures |Values(g, other)| == if other == key then |g| else 0
  {
    if g != [] { GroupValues(g[..|g| - 1], key, other); }
  }

  lemma {:induction false} NoValues(s: seq<KeyValue>, key: string)
    requires forall k: nat :: k < |s| ==> s[k].key != key
    ensures Values(s, key) == []
  {
    if s != [] { NoValues(s[..|s| - 1], key); }
  }

  /** A group of equal keys behind pairs with other keys. */
  lemma GroupBehind(s: seq<KeyValue>, g: seq<KeyValue>, key: string, other: string)
    requires forall k: nat :: k < |g| ==> g[k].key == key
    requires forall k: nat :: k < |s| ==> s[k].key != key
    ensures Values(s + g, other) == if other == key then Values(g, key) else Values(s, other)
    ensures |Values(g, key)| == |g| && Values(s, key) == []
  {
    hide Values;
    ValuesAppend(s, g, other);
    NoValues(s, key);
    GroupValues(g, key, other);
    GroupValues(g, key, key);
  }

  lemma SameOutput(reducef: (string, seq<string>) -> string, s: seq<KeyValue>, t: seq<KeyValue>, key: string)
    requires Values(s, key) == Values(t, key)
    ensures Output(reducef, s, key) == Output(reducef, t, key)
  {
    hide Values;
  }

  /** One more group adds one line. */
  lemma OneMoreLine(reducef: (string, seq<string>) -> string, s: seq<KeyValue>, g: seq<KeyValue>, lines: seq<Line>,
      line: Line)
    requires Correct(reducef, s, lines) && g != []
    requires forall k: nat :: k < |g| ==> g[k].key == line.key
    requires forall k: nat :: k < |s| ==> s[k].key != line.key
    requires line.output == Output(reducef, g, line.key)
    ensures Correct(reducef, s + g, lines + [line])
  {
    hide Values, Output;
    var all, more := s + g, lines + [line];
    forall key: string
      ensures Values(all, key) == if key == line.key then Values(g, line.key) else Values(s, key)
      ensures |Values(g, line.key)| == |g| && Values(s, line.key) == []
      ensures Output(reducef, all, key) == if key == line.key then Output(reducef, g, key) else Output(reducef, s, key)
    {
      GroupBehind(s, g, line.key, key);
      SameOutput(reducef, all, if key == line.key then g else s, key);
    }
    assert forall i: nat :: i < |lines| ==> lines[i] in lines;
    assert forall l :: l in lines ==> l.key != line.key;
    assert forall l :: l in more <==> l in lines || l == line;
    assert forall i: nat :: i < |lines| ==> more[i] == lines[i];
    assert more[|lines|] == line;
  }

  /** The pairs from i on whose key is that of pair i. */
  method RunOfKey(s: seq<KeyValue>, i: nat) returns (j: nat, values: seq<string>)
    requires i < |s|
    ensures i < j <= |s| && (forall k: nat :: i <= k < j ==> s[k].key == s[i].key)
    ensures j < |s| ==> s[j].key != s[i].key
    ensures values == Values(s[i..j], s[i].key)
  {
    j := i + 1;
    while j < |s| && s[j].key == s[i].key
      invariant i < j <= |s| && forall k: nat :: i <= k < j ==> s[k].key == s[i].key
    {
      j := j + 1;
    }
    values := [];
    assert s[i..i] == [];
    hide Values;
    NoValues([], s[i].key);
    var k := i;
    while k < j
      invariant i <= k <= j && values == Values(s[i..k], s[i].key)
    {
      assert s[i..k + 1] == s[i..k] + [s[k]];
      ValuesPush(s[i..k], s[k], s[i].key);
      values := values + [s[k].value];
      k := k + 1;
    }
  }

  /** Calls reduce on every distinct key of sorted pairs, and writes one line for each. */
  method ReduceSorted(reducef: (string, seq<string>) -> string, s: seq<KeyValue>) returns (lines: seq<Line>)
    requires SortedByKey(s)
    ensures Correct(reducef, s, lines)
  {
    hide Correct, Below, SortedByKey, Values;
    lines := [];
    NoLines(reducef);
    var i := 0;
    assert s[..0] == [];
    while i < |s|
      invariant 0 <= i <= |s| && Correct(reducef, s[..i], lines)
      invariant 0 < i < |s| ==> s[i - 1].key != s[i].key
    {
      var j, values := RunOfKey(s, i);
      var line := Line(s[i].key, reducef(s[i].key, values));
      KeysDiffer(s, i);
      OneMoreLine(reducef, s[..i], s[i..j], lines, line);
      assert s[..i] + s[i..j] == s[..j];
      lines := lines + [line];
      i := j;
    }
    assert s[..|s|] == s;
  }

  lemma NoLines(reducef: (string, seq<string>) -> string)
    ensures Correct(reducef, [], [])
  {
  }

  lemma KeysDiffer(s: seq<KeyValue>, i: nat)
    requires SortedByKey(s) && i < |s| && (0 < i ==> s[i - 1].key != s[i].key)
    ensures forall k: nat :: k < i ==> s[k].key != s[i].key
  {
    hide SortedByKey;
    forall k: nat | k < i ensures s[k].key != s[i].key {
      if s[k].key == s[i].key { BetweenEqual(s, k, i - 1, i); }
    }
  }

  /** What a reduce task, and the sequential program, do with the pairs they have read. */
  method SortAndReduce(reducef: (string, seq<string>) -> string, intermediate: seq<KeyValue>) returns (lines: seq<Line>)
    requires Insensitive(reducef)
    ensures Correct(reducef, intermediate, lines)
  {
    hide Correct, SortedByKey, Insensitive;
    var sorted := SortByKey(intermediate);
    lines := ReduceSorted(reducef, sorted);
    CorrectPermutes(reducef, sorted, intermediate, lines);
  }

  // ---- Buckets ----

  /** A map task puts every pair into the bucket of its key. */
  method SplitIntoBuckets(hash: string -> nat, kva: seq<KeyValue>, nReduce: nat) returns (buckets: seq<seq<KeyValue>>)
    requires nReduce > 0
    ensures |buckets| == nReduce && forall b: nat :: b < nReduce ==> buckets[b] == Bucket(hash, kva, nReduce, b)
  {
    hide Bucket;
    var intermediate := new seq<KeyValue>[nReduce](_ => []);
    assert kva[..0] == [];
    EmptyBuckets(hash, nReduce);
    var i := 0;
    while i < |kva|
      invariant 0 <= i <= |kva|
      invariant forall b: nat :: b < nReduce ==> intermediate[b] == Bucket(hash, kva[..i], nReduce, b)
    {
      var kv := kva[i];
      var bucket := hash(kv.key) % nReduce;
      assert kva[..i + 1] == kva[..i] + [kv];
      forall b: nat | b < nReduce
        ensures Bucket(hash, kva[..i + 1], nReduce, b)
             == if bucket == b then Bucket(hash, kva[..i], nReduce, b) + [kv] else Bucket(hash, kva[..i], nReduce, b)
      {
        BucketPush(hash, kva[..i], kv, nReduce, b);
      }
      intermediate[bucket] := intermediate[bucket] + [kv];
      i := i + 1;
    }
    assert kva[..|kva|] == kva;
    buckets := intermediate[..];
  }

  lemma EmptyBuckets(hash: string -> nat, n: nat)
    requires n > 0
    ensures forall b: nat :: Bucket(hash, [], n, b) == []
  {
  }

  /** The sequential program: all pairs of all files, sorted and reduced in one place. */
  method RunSequential(reducef: (string, seq<string>) -> string, maps: seq<seq<KeyValue>>) returns (lines: seq<Line>)
    requires Insensitive(reducef)
    ensures Correct(reducef, Concat(maps), lines)
  {
    hide Correct, Insensitive;
    var intermediate: seq<KeyValue> := [];
    var i := 0;
    while i < |maps|
      invariant 0 <= i <= |maps| && intermediate == Concat(maps[..i])
    {
      assert maps[..i + 1][..i] == maps[..i];
      intermediate := intermediate + maps[i];
      i := i + 1;
    }
    assert maps[..|maps|] == maps;
    lines := SortAndReduce(reducef, intermediate);
  }
}
