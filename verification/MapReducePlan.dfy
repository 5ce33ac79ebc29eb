/** What a MapReduce job computes: the output of the sequential program, and why it can be split
    into buckets by the hash of the key. */
module MapReducePlan {

  datatype KeyValue = KeyValue(key: string, value: string)

  datatype Line = Line(key: string, output: string)

  /** The values of a key, in the order they are found. */
  function Values(s: seq<KeyValue>, key: string): seq<string> {
    if s == [] then []
    else Values(s[..|s| - 1], key) + if s[|s| - 1].key == key then [s[|s| - 1].value] else []
  }

  /** The pairs whose key the hash sends to bucket b of n. */
  function Bucket(hash: string -> nat, s: seq<KeyValue>, n: nat, b: nat): seq<KeyValue>
    requires n > 0
  {
    if s == [] then []
    else Bucket(hash, s[..|s| - 1], n, b) + if hash(s[|s| - 1].key) % n == b then [s[|s| - 1]] else []
  }

  function Concat<T>(parts: seq<seq<T>>): seq<T> {
    if parts == [] then [] else Concat(parts[..|parts| - 1]) + parts[|parts| - 1]
  }

  /** The reduce function does not look at the order of the values. */
  ghost predicate Insensitive(reducef: (string, seq<string>) -> string) {
    forall key: string, vs: seq<string>, ws: seq<string> :: multiset(vs) == multiset(ws) ==>
      reducef(key, vs) == reducef(key, ws)
  }

  /** What reduce makes of a key's values. */
  function Output(reducef: (string, seq<string>) -> string, s: seq<KeyValue>, key: string): string {
    reducef(key, Values(s, key))
  }

  /** The line of one of the keys. */
  predicate IsLine(reducef: (string, seq<string>) -> string, s: seq<KeyValue>, line: Line) {
    Values(s, line.key) != [] && line.output == Output(reducef, s, line.key)
  }

  predicate DistinctKeys(lines: seq<Line>) {
    forall i: nat, j: nat :: i < j < |lines| ==> lines[i].key != lines[j].key
  }

  /** One line for every key, and no other line. */
  ghost predicate Correct(reducef: (string, seq<string>) -> string, s: seq<KeyValue>, lines: seq<Line>) {
    && DistinctKeys(lines)
    && (forall line :: line in lines ==> IsLine(reducef, s, line))
    && (forall key: string :: Values(s, key) != [] ==> exists i: nat :: i < |lines| && lines[i].key == key)
  }

  // ---- Order does not matter ----

  lemma ValuesPush(s: seq<KeyValue>, kv: KeyValue, key: string)
    ensures Values(s + [kv], key) == if kv.key == key then Values(s, key) + [kv.value] else Values(s, key)
  {
    assert (s + [kv])[..|s|] == s;
  }

  lemma {:induction false} ValuesAppend(s: seq<KeyValue>, t: seq<KeyValue>, key: string)
    ensures Values(s + t, key) == Values(s, key) + Values(t, key)
  {
    if t == [] {
      assert s + t == s;
    } else {
      var front, last := t[..|t| - 1], t[|t| - 1];
      ValuesAppend(s, front, key);
      assert s + t == (s + front) + [last];
      ValuesPush(s + front, last, key);
    }
  }

  lemma CountPush<T>(s: seq<T>, x: T, y: T)
    ensures multiset(s + [x])[y] == multiset(s)[y] + if x == y then 1 else 0
  {
  }

  lemma {:induction false} ValuesCount(s: seq<KeyValue>, key: string, v: string)
    ensures multiset(Values(s, key))[v] == multiset(s)[KeyValue(key, v)]
  {
    if s != [] {
      var front, kv := s[..|s| - 1], s[|s| - 1];
      ValuesCount(front, key, v);
      assert s == front + [kv];
      CountPush(front, kv, KeyValue(key, v));
      CountPush(Values(front, key), kv.value, v);
    }
  }

  lemma ValuesPermute(s: seq<KeyValue>, t: seq<KeyValue>, key: string)
    requires multiset(s) == multiset(t)
    ensures multiset(Values(s, key)) == multiset(Values(t, key))
    ensures Values(s, key) == [] <==> Values(t, key) == []
  {
    forall v: string ensures multiset(Values(s, key))[v] == multiset(Values(t, key))[v] {
      ValuesCount(s, key, v);
      ValuesCount(t, key, v);
    }
    assert multiset(Values(s, key)) == multiset(Values(t, key));
    assert |multiset(Values(s, key))| == |Values(s, key)| && |multiset(Values(t, key))| == |Values(t, key)|;
  }

  lemma BucketPush(hash: string -> nat, s: seq<KeyValue>, kv: KeyValue, n: nat, b: nat)
    requires n > 0
    ensures Bucket(hash, s + [kv], n, b)
         == if hash(kv.key) % n == b then Bucket(hash, s, n, b) + [kv] else Bucket(hash, s, n, b)
  {
    assert (s + [kv])[..|s|] == s;
  }

  lemma {:induction false} BucketCount(hash: string -> nat, s: seq<KeyValue>, n: nat, b: nat, kv: KeyValue)
    requires n > 0
    ensures multiset(Bucket(hash, s, n, b))[kv] == if hash(kv.key) % n == b then multiset(s)[kv] else 0
  {
    if s != [] {
      var front, last := s[..|s| - 1], s[|s| - 1];
      BucketCount(hash, front, n, b, kv);
      assert s == front + [last];
      CountPush(front, last, kv);
      CountPush(Bucket(hash, front, n, b), last, kv);
    }
  }

  lemma BucketPermutes(hash: string -> nat, s: seq<KeyValue>, t: seq<KeyValue>, n: nat, b: nat)
    requires n > 0 && multiset(s) == multiset(t)
    ensures multiset(Bucket(hash, s, n, b)) == multiset(Bucket(hash, t, n, b))
  {
    forall kv ensures multiset(Bucket(hash, s, n, b))[kv] == multiset(Bucket(hash, t, n, b))[kv] {
      BucketCount(hash, s, n, b, kv);
      BucketCount(hash, t, n, b, kv);
    }
  }

  lemma NothingInBucket(hash: string -> nat, n: nat, b: nat, key: string)
    requires n > 0
    ensures Bucket(hash, [], n, b) == [] && Values([], key) == []
  {
  }

  lemma {:induction false} BucketValues(hash: string -> nat, s: seq<KeyValue>, n: nat, b: nat, key: string)
    requires n > 0
    ensures Values(Bucket(hash, s, n, b), key) == if hash(key) % n == b then Values(s, key) else []
  {
    hide Values, Bucket;
    if s == [] {
      NothingInBucket(hash, n, b, key);
    } else {
      var front, last := s[..|s| - 1], s[|s| - 1];
      BucketValues(hash, front, n, b, key);
      assert s == front + [last];
      BucketPush(hash, front, last, n, b);
      ValuesPush(front, last, key);
      ValuesPush(Bucket(hash, front, n, b), last, key);
    }
  }

  lemma {:induction false} ConcatPermutes<T>(a: seq<seq<T>>, b: seq<seq<T>>)
    requires |a| == |b| && forall i: nat :: i < |a| ==> multiset(a[i]) == multiset(b[i])
    ensures multiset(Concat(a)) == multiset(Concat(b))
  {
    if a != [] {
      ConcatPermutes(a[..|a| - 1], b[..|b| - 1]);
    }
  }

  /** The output for some pairs is an output for the same pairs in any other order. */
  lemma CorrectPermutes(reducef: (string, seq<string>) -> string, s: seq<KeyValue>, t: seq<KeyValue>, lines: seq<Line>)
    requires Insensitive(reducef) && multiset(s) == multiset(t) && Correct(reducef, s, lines)
    ensures Correct(reducef, t, lines)
  {
    hide Values, DistinctKeys;
    forall key: string
      ensures multiset(Values(s, key)) == multiset(Values(t, key)) && (Values(s, key) == [] <==> Values(t, key) == [])
    {
      ValuesPermute(s, t, key);
    }
    forall line | line in lines ensures IsLine(reducef, t, line) {
      assert IsLine(reducef, s, line);
    }
  }

  // ---- Splitting by bucket ----

  /** Bucket b of every map task. */
  function BucketParts(hash: string -> nat, maps: seq<seq<KeyValue>>, n: nat, b: nat): (r: seq<seq<KeyValue>>)
    requires n > 0
    ensures |r| == |maps| && forall i: nat :: i < |maps| ==> r[i] == Bucket(hash, maps[i], n, b)
  {
    seq(|maps|, i requires 0 <= i < |maps| => Bucket(hash, maps[i], n, b))
  }

  /** The pairs of all map tasks that go to bucket b, in a reference order. */
  function BucketInput(hash: string -> nat, maps: seq<seq<KeyValue>>, n: nat, b: nat): seq<KeyValue>
    requires n > 0
  {
    Concat(BucketParts(hash, maps, n, b))
  }

  lemma {:induction false} BucketInputValues(hash: string -> nat, maps: seq<seq<KeyValue>>, n: nat, b: nat, key: string)
    requires n > 0
    ensures Values(BucketInput(hash, maps, n, b), key) == if hash(key) % n == b then Values(Concat(maps), key) else []
  {
    if maps != [] {
      var front, last := maps[..|maps| - 1], maps[|maps| - 1];
      BucketInputValues(hash, front, n, b, key);
      assert BucketParts(hash, maps, n, b)[..|maps| - 1] == BucketParts(hash, front, n, b);
      ValuesAppend(BucketInput(hash, front, n, b), Bucket(hash, last, n, b), key);
      ValuesAppend(Concat(front), last, key);
      BucketValues(hash, last, n, b, key);
    }
  }

  lemma {:induction false} LineOnce(lines: seq<Line>, line: Line)
    requires DistinctKeys(lines)
    ensures multiset(lines)[line] == if line in lines then 1 else 0
  {
    if lines != [] {
      var front, last := lines[..|lines| - 1], lines[|lines| - 1];
      LineOnce(front, line);
      assert lines == front + [last];
      CountPush(front, last, line);
      assert forall i: nat :: i < |front| ==> front[i] == lines[i] && front[i].key != last.key;
    }
  }

  /** A correct output has each of its lines exactly once. */
  lemma CorrectCount(reducef: (string, seq<string>) -> string, s: seq<KeyValue>, lines: seq<Line>, line: Line)
    requires Correct(reducef, s, lines)
    ensures multiset(lines)[line] == if IsLine(reducef, s, line) then 1 else 0
  {
    hide Values;
    LineOnce(lines, line);
    if IsLine(reducef, s, line) {
      var i: nat :| i < |lines| && lines[i].key == line.key;
      assert lines[i] in lines;
      assert IsLine(reducef, s, lines[i]);
    }
  }

  lemma {:induction false} ConcatCount<T>(parts: seq<seq<T>>, x: T, at: nat)
    requires forall i: nat :: i < |parts| && i != at ==> multiset(parts[i])[x] == 0
    ensures multiset(Concat(parts))[x] == if at < |parts| then multiset(parts[at])[x] else 0
  {
    if parts != [] {
      var front, last := parts[..|parts| - 1], parts[|parts| - 1];
      ConcatCount(front, x, at);
      assert multiset(Concat(front) + last)[x] == multiset(Concat(front))[x] + multiset(last)[x];
    }
  }

  /** The outputs of all reduce tasks together are the lines of the sequential output. */
  lemma BucketsGiveWhole(hash: string -> nat, reducef: (string, seq<string>) -> string, maps: seq<seq<KeyValue>>,
      outs: seq<seq<Line>>, whole: seq<Line>)
    requires |outs| > 0 && Correct(reducef, Concat(maps), whole)
    requires forall b: nat :: b < |outs| ==> Correct(reducef, BucketInput(hash, maps, |outs|, b), outs[b])
    ensures multiset(Concat(outs)) == multiset(whole)
  {
    hide Correct, Values, BucketInput;
    var n := |outs|;
    forall line: Line ensures multiset(Concat(outs))[line] == multiset(whole)[line] {
      var at := hash(line.key) % n;
      forall b: nat | b < n
        ensures multiset(outs[b])[line] == if b == at && IsLine(reducef, Concat(maps), line) then 1 else 0
      {
        CorrectCount(reducef, BucketInput(hash, maps, n, b), outs[b], line);
        BucketInputValues(hash, maps, n, b, line.key);
      }
      ConcatCount(outs, line, at);
      CorrectCount(reducef, Concat(maps), whole, line);
    }
  }
}
