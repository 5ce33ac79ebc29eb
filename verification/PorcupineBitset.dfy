/** The checker's bitsets: words updated in place, standing for a finite set of numbers. */
module PorcupineBitset {

  const WORD := 64

  // The word operations, named so that a proof can leave the bits alone.

  function And(x: bv64, y: bv64): bv64 { x & y }

  function Or(x: bv64, y: bv64): bv64 { x | y }

  function AndNot(x: bv64, y: bv64): bv64 { x & !y }

  function Xor(x: bv64, y: bv64): bv64 { x ^ y }

  /** 1 << minor, one place at a time. */
  function Mask(minor: nat): bv64
    requires minor < WORD
  {
    if minor == 0 then 1 else Mask(minor - 1) << 1
  }

  predicate Bit(w: bv64, minor: nat)
    requires minor < WORD
  {
    And(w, Mask(minor)) != 0
  }

  /** At most one bit is set. */
  predicate Single(m: bv64) {
    m & (m - 1) == 0
  }

  lemma Shifted(m: bv64)
    requires Single(m)
    ensures Single(m << 1) && Or(m - 1, m) == (m << 1) - 1
  {
  }

  lemma ShiftDisjoint(m: bv64, k: bv64)
    requires And(m, k) == 0
    ensures And(m << 1, k << 1) == 0
  {
  }

  lemma ShiftEven(m: bv64)
    ensures And(m << 1, 1) == 0 && And(1, m << 1) == 0
  {
  }

  lemma AndNotOther(w: bv64, m: bv64, k: bv64)
    requires And(m, k) == 0
    ensures And(AndNot(w, m), k) == And(w, k)
  {
    assert (w & !m) & k == (w & k) & !(m & k);
  }

  lemma OrOther(w: bv64, m: bv64, k: bv64)
    requires m & k == 0
    ensures (w | m) & k == w & k
  {
  }

  lemma AndOrOther(w: bv64, m: bv64, k: bv64)
    requires And(m, k) == 0
    ensures And(Or(w, m), k) == And(w, k)
  {
    OrOther(w, m, k);
  }

  lemma AndOrSame(w: bv64, m: bv64)
    ensures m != 0 ==> And(Or(w, m), m) != 0
    ensures And(AndNot(w, m), m) == 0
  {
  }

  lemma AndSingle(x: bv64, y: bv64, m: bv64)
    requires Single(m) && (And(x, m) != 0) == (And(y, m) != 0)
    ensures And(x, m) == And(y, m)
  {
  }

  lemma AndJoin(x: bv64, y: bv64, low: bv64, m: bv64)
    requires And(x, low) == And(y, low) && And(x, m) == And(y, m)
    ensures And(x, Or(low, m)) == And(y, Or(low, m))
  {
  }

  lemma AndEnds(x: bv64)
    ensures And(x, 0) == 0 && And(x, 0xFFFF_FFFF_FFFF_FFFF) == x
  {
  }

  lemma TopMask()
    ensures Mask(63) == 0x8000_0000_0000_0000
  {
    assert Mask(8) == 0x100;
    assert Mask(16) == 0x1_0000;
    assert Mask(24) == 0x100_0000;
    assert Mask(32) == 0x1_0000_0000;
    assert Mask(40) == 0x100_0000_0000;
    assert Mask(48) == 0x1_0000_0000_0000;
    assert Mask(56) == 0x100_0000_0000_0000;
  }

  lemma {:induction false} MaskNonZero(n: nat)
    requires n < WORD
    ensures Mask(n) != 0
    decreases WORD - n
  {
    if n == WORD - 1 { TopMask(); } else { MaskNonZero(n + 1); }
  }

  lemma {:induction false} MasksDisjoint(m: nat, k: nat)
    requires m < WORD && k < WORD && m != k
    ensures And(Mask(m), Mask(k)) == 0
  {
    hide And;
    if m == 0 {
      ShiftEven(Mask(k - 1));
    } else if k == 0 {
      ShiftEven(Mask(m - 1));
    } else {
      MasksDisjoint(m - 1, k - 1);
      ShiftDisjoint(Mask(m - 1), Mask(k - 1));
    }
  }

  lemma SetBit(w: bv64, m: nat, k: nat)
    requires m < WORD && k < WORD
    ensures Bit(Or(w, Mask(m)), k) == (k == m || Bit(w, k))
  {
    hide And, Or, Mask;
    if k == m {
      MaskNonZero(m);
      AndOrSame(w, Mask(m));
    } else {
      MasksDisjoint(m, k);
      AndOrOther(w, Mask(m), Mask(k));
    }
  }

  lemma ClearBit(w: bv64, m: nat, k: nat)
    requires m < WORD && k < WORD
    ensures Bit(AndNot(w, Mask(m)), k) == (k != m && Bit(w, k))
  {
    hide And, AndNot, Mask;
    if k == m {
      AndOrSame(w, Mask(m));
    } else {
      MasksDisjoint(m, k);
      AndNotOther(w, Mask(m), Mask(k));
    }
  }

  /** The lowest n bits. */
  function LowMask(n: nat): bv64
    requires n <= WORD
  {
    if n == 0 then 0 else Or(LowMask(n - 1), Mask(n - 1))
  }

  lemma {:induction false} LowMaskIs(n: nat)
    requires n < WORD
    ensures Single(Mask(n)) && LowMask(n) == Mask(n) - 1
  {
    if n > 0 {
      LowMaskIs(n - 1);
      Shifted(Mask(n - 1));
    }
  }

  lemma AllBits()
    ensures LowMask(WORD) == 0xFFFF_FFFF_FFFF_FFFF
  {
    LowMaskIs(WORD - 1);
    TopMask();
  }

  lemma {:induction false} LowBitsEqual(x: bv64, y: bv64, n: nat)
    requires n <= WORD && forall k: nat :: k < n ==> Bit(x, k) == Bit(y, k)
    ensures And(x, LowMask(n)) == And(y, LowMask(n))
  {
    hide And, Or, Mask, Single;
    if n == 0 {
      AndEnds(x);
      AndEnds(y);
    } else {
      LowBitsEqual(x, y, n - 1);
      LowMaskIs(n - 1);
      assert Bit(x, n - 1) == Bit(y, n - 1);
      AndSingle(x, y, Mask(n - 1));
      AndJoin(x, y, LowMask(n - 1), Mask(n - 1));
    }
  }

  /** A word is its bits. */
  lemma SameBits(x: bv64, y: bv64)
    requires forall k: nat :: k < WORD ==> Bit(x, k) == Bit(y, k)
    ensures x == y
  {
    hide And, Bit, LowMask;
    LowBitsEqual(x, y, WORD);
    AllBits();
    AndEnds(x);
    AndEnds(y);
  }

  predicate Has(b: seq<bv64>, pos: nat) {
    pos / WORD < |b| && Bit(b[pos / WORD], pos % WORD)
  }

  /** The set of numbers whose bits are set. */
  function Members(b: seq<bv64>): set<nat> {
    set pos: nat | pos < WORD * |b| && Has(b, pos)
  }

  function Chunks(bits: nat): nat {
    bits / WORD + if bits % WORD != 0 then 1 else 0
  }

  /** Changing one word changes what it has at its own positions only. */
  lemma UpdateHas(b: seq<bv64>, at: nat, w: bv64, k: nat)
    requires at < |b|
    ensures Has(b[at := w], k) <==> if k / WORD == at then Bit(w, k % WORD) else Has(b, k)
  {
  }

  method NewBitset(bits: nat) returns (b: array<bv64>)
    ensures fresh(b) && b.Length == Chunks(bits) && Members(b[..]) == {}
    ensures bits <= WORD * b.Length
  {
    var extra := 0;
    if bits % WORD != 0 {
      extra := 1;
    }
    b := new bv64[bits / WORD + extra](_ => 0);
    forall pos: nat ensures !Has(b[..], pos) {
      if pos / WORD < b.Length { assert b[..][pos / WORD] == 0; }
    }
  }

  method Clone(b: array<bv64>) returns (c: array<bv64>)
    ensures fresh(c) && c[..] == b[..]
  {
    c := new bv64[b.Length](i requires 0 <= i < b.Length reads b => b[i]);
  }

  method Set(b: array<bv64>, pos: nat)
    requires pos < WORD * b.Length
    modifies b
    ensures Members(b[..]) == old(Members(b[..])) + {pos}
  {
    hide Mask, Bit, Or, AndNot;
    var major, minor := pos / WORD, pos % WORD;
    ghost var before, w := b[..], Or(b[major], Mask(minor));
    b[major] := Or(b[major], Mask(minor));
    assert b[..] == before[major := w];
    forall k: nat ensures Has(b[..], k) <==> k == pos || Has(before, k) {
      UpdateHas(before, major, w, k);
      SetBit(before[major], minor, k % WORD);
    }
  }

  method Clear(b: array<bv64>, pos: nat)
    requires pos < WORD * b.Length
    modifies b
    ensures Members(b[..]) == old(Members(b[..])) - {pos}
  {
    hide Mask, Bit, Or, AndNot;
    var major, minor := pos / WORD, pos % WORD;
    ghost var before, w := b[..], AndNot(b[major], Mask(minor));
    b[major] := AndNot(b[major], Mask(minor));
    assert b[..] == before[major := w];
    forall k: nat ensures Has(b[..], k) <==> k != pos && Has(before, k) {
      UpdateHas(before, major, w, k);
      ClearBit(before[major], minor, k % WORD);
    }
  }

  method Get(b: array<bv64>, pos: nat) returns (r: bool)
    requires pos < WORD * b.Length
    ensures r <==> pos in Members(b[..])
  {
    r := And(b[pos / WORD], Mask(pos % WORD)) != 0;
  }

  // ---- Equality and hashing ----

  /** Two bitsets of one length hold the same numbers only if they are the same words. */
  lemma SameMembersSameWords(a: seq<bv64>, b: seq<bv64>)
    requires |a| == |b| && Members(a) == Members(b)
    ensures a == b
  {
    hide Bit;
    forall i | 0 <= i < |a| ensures a[i] == b[i] {
      forall k: nat | k < WORD ensures Bit(a[i], k) == Bit(b[i], k) {
        var pos: nat := WORD * i + k;
        assert pos / WORD == i && pos % WORD == k;
        assert Has(a, pos) <==> pos in Members(a);
        assert Has(b, pos) <==> pos in Members(b);
      }
      SameBits(a[i], b[i]);
    }
  }

  method Equals(b: seq<bv64>, b2: seq<bv64>) returns (r: bool)
    ensures r <==> b == b2
    ensures r ==> Members(b) == Members(b2)
    ensures |b| == |b2| && Members(b) == Members(b2) ==> r
  {
    if |b| == |b2| && Members(b) == Members(b2) { SameMembersSameWords(b, b2); }
    if |b| != |b2| {
      return false;
    }
    var i := 0;
    while i < |b|
      invariant 0 <= i <= |b| && b[..i] == b2[..i]
    {
      if b[i] != b2[i] {
        return false;
      }
      i := i + 1;
    }
    r := true;
  }

  function OnesCount(w: bv64, from: nat := 0): nat
    requires from <= WORD
    decreases WORD - from
  {
    if from == WORD then 0 else (if Bit(w, from) then 1 else 0) + OnesCount(w, from + 1)
  }

  function PopCount(b: seq<bv64>): nat {
    if b == [] then 0 else PopCount(b[..|b| - 1]) + OnesCount(b[|b| - 1])
  }

  function Seed(total: nat): bv64 {
    (total % 0x1_0000_0000_0000_0000) as bv64
  }

  function XorAll(b: seq<bv64>, seed: bv64): bv64 {
    if b == [] then seed else Xor(XorAll(b[..|b| - 1], seed), b[|b| - 1])
  }

  /** A function of the words alone, so equal bitsets are found in one bucket. */
  function HashOf(b: seq<bv64>): bv64 {
    XorAll(b, Seed(PopCount(b)))
  }

  method PopCnt(b: seq<bv64>) returns (total: nat)
    ensures total == PopCount(b)
  {
    total := 0;
    var i := 0;
    while i < |b|
      invariant 0 <= i <= |b| && total == PopCount(b[..i])
    {
      total := total + OnesCount(b[i]);
      assert b[..i + 1][..i] == b[..i];
      i := i + 1;
    }
    assert b[..|b|] == b;
  }

  method Hash(b: seq<bv64>) returns (hash: bv64)
    ensures hash == HashOf(b)
  {
    hide Seed, Xor;
    var total := PopCnt(b);
    hash := Seed(total);
    var i := 0;
    while i < |b|
      invariant 0 <= i <= |b| && hash == XorAll(b[..i], Seed(total))
    {
      hash := Xor(hash, b[i]);
      assert b[..i + 1][..i] == b[..i];
      i := i + 1;
    }
    assert b[..|b|] == b;
  }
}
