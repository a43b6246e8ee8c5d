/** Sets of small naturals packed into 64-bit words. */
module Bitset {

  type Word = w: int | 0 <= w < 0x1_0000_0000_0000_0000

  function Pow2(n: nat): nat {
    if n == 0 then 1 else 2 * Pow2(n - 1)
  }

  // ---- the word operators, digit by digit ----

  function Or(a: nat, b: nat): nat {
    if a == 0 && b == 0 then 0 else 2 * Or(a / 2, b / 2) + if a % 2 == 1 || b % 2 == 1 then 1 else 0
  }

  function And(a: nat, b: nat): nat {
    if a == 0 then 0 else 2 * And(a / 2, b / 2) + if a % 2 == 1 && b % 2 == 1 then 1 else 0
  }

  /** Go's `a &^ b`. */
  function AndNot(a: nat, b: nat): nat {
    if a == 0 then 0 else 2 * AndNot(a / 2, b / 2) + if a % 2 == 1 && b % 2 == 0 then 1 else 0
  }

  function Xor(a: nat, b: nat): nat {
    if a == 0 && b == 0 then 0 else 2 * Xor(a / 2, b / 2) + (a + b) % 2
  }

  /** Binary digit k of w. */
  predicate Bit(w: nat, k: nat) {
    if k == 0 then w % 2 == 1 else Bit(w / 2, k - 1)
  }

  lemma {:induction false} BitOfZero(k: nat)
    ensures !Bit(0, k)
  {
    if k > 0 { BitOfZero(k - 1); }
  }

  lemma {:induction false} BitOfMask(k: nat, j: nat)
    ensures Bit(Pow2(k), j) <==> j == k
  {
    if k == 0 {
      if j > 0 { BitOfZero(j - 1); }
    } else if j > 0 {
      BitOfMask(k - 1, j - 1);
    }
  }

  lemma DivMod2(x: nat, d: nat)
    requires d <= 1
    ensures (2 * x + d) % 2 == d && (2 * x + d) / 2 == x
  {
  }

  /** The operators act on the lowest digit and on the rest separately. */
  lemma LowDigitOr(a: nat, b: nat)
    ensures Or(a, b) % 2 == (if a % 2 == 1 || b % 2 == 1 then 1 else 0) && Or(a, b) / 2 == Or(a / 2, b / 2)
  {
    if a > 0 || b > 0 {
      DivMod2(Or(a / 2, b / 2), if a % 2 == 1 || b % 2 == 1 then 1 else 0);
    }
  }

  lemma LowDigitXor(a: nat, b: nat)
    ensures Xor(a, b) % 2 == (a + b) % 2 && Xor(a, b) / 2 == Xor(a / 2, b / 2)
  {
    if a > 0 || b > 0 {
      DivMod2(Xor(a / 2, b / 2), (a + b) % 2);
    }
  }

  lemma LowDigitAnd(a: nat, b: nat)
    ensures And(a, b) % 2 == (if a % 2 == 1 && b % 2 == 1 then 1 else 0) && And(a, b) / 2 == And(a / 2, b / 2)
    ensures AndNot(a, b) % 2 == (if a % 2 == 1 && b % 2 == 0 then 1 else 0) && AndNot(a, b) / 2 == AndNot(a / 2, b / 2)
  {
    DivMod2(And(a / 2, b / 2), if a % 2 == 1 && b % 2 == 1 then 1 else 0);
    DivMod2(AndNot(a / 2, b / 2), if a % 2 == 1 && b % 2 == 0 then 1 else 0);
  }

  /** The operators act on each digit separately. */
  lemma {:induction false} BitOfOperators(a: nat, b: nat, k: nat)
    ensures Bit(Or(a, b), k) <==> Bit(a, k) || Bit(b, k)
    ensures Bit(And(a, b), k) <==> Bit(a, k) && Bit(b, k)
    ensures Bit(AndNot(a, b), k) <==> Bit(a, k) && !Bit(b, k)
    ensures Bit(Xor(a, b), k) <==> Bit(a, k) != Bit(b, k)
  {
    hide Or, And, AndNot, Xor;
    LowDigitOr(a, b);
    LowDigitXor(a, b);
    LowDigitAnd(a, b);
    if k > 0 {
      BitOfOperators(a / 2, b / 2, k - 1);
    }
  }

  lemma {:induction false} OperatorsFit(a: nat, b: nat, n: nat)
    requires a < Pow2(n) && b < Pow2(n)
    ensures Or(a, b) < Pow2(n) && And(a, b) < Pow2(n) && AndNot(a, b) < Pow2(n) && Xor(a, b) < Pow2(n)
  {
    if n > 0 {
      OperatorsFit(a / 2, b / 2, n - 1);
    }
  }

  lemma {:induction false} BitsDetermine(a: nat, b: nat, n: nat)
    requires a < Pow2(n) && b < Pow2(n)
    requires forall k: nat :: k < n ==> (Bit(a, k) <==> Bit(b, k))
    ensures a == b
  {
    if n > 0 {
      assert Bit(a, 0) <==> Bit(b, 0);
      forall k: nat | k < n - 1 ensures Bit(a / 2, k) <==> Bit(b / 2, k) {
        assert Bit(a, k + 1) <==> Bit(b, k + 1);
      }
      BitsDetermine(a / 2, b / 2, n - 1);
    }
  }

  lemma {:induction false} MaskMonotone(k: nat, n: nat)
    requires k < n
    ensures Pow2(k) < Pow2(n)
    decreases n
  {
    if k > 0 { MaskMonotone(k - 1, n - 1); } else if n > 1 { MaskMonotone(0, n - 1); }
  }

  /** Testing a word against the mask `1 << k` reads digit k. */
  lemma AndMaskIsBit(w: nat, k: nat)
    ensures And(w, Pow2(k)) != 0 <==> Bit(w, k)
  {
    BitOfOperators(w, Pow2(k), k);
    BitOfMask(k, k);
    if And(w, Pow2(k)) != 0 {
      var v := And(w, Pow2(k));
      var n := SomeBit(v);
      BitOfOperators(w, Pow2(k), n);
      BitOfMask(k, n);
    } else {
      BitOfZero(k);
    }
  }

  lemma {:induction false} SomeBit(w: nat) returns (k: nat)
    requires w != 0
    ensures Bit(w, k)
  {
    if w % 2 == 1 {
      k := 0;
    } else {
      var j := SomeBit(w / 2);
      k := j + 1;
    }
  }

  lemma WordWidth()
    ensures Pow2(64) == 0x1_0000_0000_0000_0000
  {
    assert Pow2(8) == 256;
    Pow2Add(8, 8);
    Pow2Add(16, 16);
    Pow2Add(32, 32);
  }

  lemma {:induction false} Pow2Add(m: nat, n: nat)
    ensures Pow2(m + n) == Pow2(m) * Pow2(n)
  {
    if n > 0 { Pow2Add(m, n - 1); }
  }

  function WordOr(a: Word, b: Word): Word {
    WordWidth(); OperatorsFit(a, b, 64); Or(a, b)
  }

  function WordAndNot(a: Word, b: Word): Word {
    WordWidth(); OperatorsFit(a, b, 64); AndNot(a, b)
  }

  function WordXor(a: Word, b: Word): Word {
    WordWidth(); OperatorsFit(a, b, 64); Xor(a, b)
  }

  function Mask(minor: nat): Word
    requires minor < 64
  {
    WordWidth(); MaskMonotone(minor, 64); Pow2(minor)
  }

  // ---- bitsets ----

  predicate Get(b: seq<Word>, pos: nat)
    requires pos < 64 * |b|
  {
    And(b[pos / 64], Mask(pos % 64)) != 0
  }

  /** The set a bitset stands for. */
  ghost function Members(b: seq<Word>): set<nat> {
    set pos: nat | pos < 64 * |b| && Get(b, pos)
  }

  function Words(bits: nat): nat {
    bits / 64 + if bits % 64 != 0 then 1 else 0
  }

  method NewBitset(bits: nat) returns (b: array<Word>)
    ensures fresh(b) && b.Length == Words(bits) && bits <= 64 * b.Length
    ensures Members(b[..]) == {}
  {
    b := new Word[Words(bits)](i => 0);
  }

  method Clone(b: array<Word>) returns (c: array<Word>)
    ensures fresh(c) && c[..] == b[..]
  {
    c := new Word[b.Length];
    for i := 0 to b.Length
      invariant c[..i] == b[..i]
    {
      c[i] := b[i];
    }
  }

  method Set(b: array<Word>, pos: nat)
    requires pos < 64 * b.Length
    modifies b
    ensures Members(b[..]) == old(Members(b[..])) + {pos}
  {
    var major, minor := pos / 64, pos % 64;
    SetWord(b[..], pos);
    b[major] := WordOr(b[major], Mask(minor));
  }

  method Clear(b: array<Word>, pos: nat)
    requires pos < 64 * b.Length
    modifies b
    ensures Members(b[..]) == old(Members(b[..])) - {pos}
  {
    var major, minor := pos / 64, pos % 64;
    ClearWord(b[..], pos);
    b[major] := WordAndNot(b[major], Mask(minor));
  }

  lemma SetWord(b: seq<Word>, pos: nat)
    requires pos < 64 * |b|
    ensures Members(b[pos / 64 := WordOr(b[pos / 64], Mask(pos % 64))]) == Members(b) + {pos}
  {
    var b' := b[pos / 64 := WordOr(b[pos / 64], Mask(pos % 64))];
    forall p: nat | p < 64 * |b| ensures Get(b', p) <==> p == pos || Get(b, p) {
      AndMaskIsBit(b[p / 64], p % 64);
      AndMaskIsBit(b'[p / 64], p % 64);
      BitOfOperators(b[pos / 64], Pow2(pos % 64), p % 64);
      BitOfMask(pos % 64, p % 64);
    }
  }

  lemma ClearWord(b: seq<Word>, pos: nat)
    requires pos < 64 * |b|
    ensures Members(b[pos / 64 := WordAndNot(b[pos / 64], Mask(pos % 64))]) == Members(b) - {pos}
  {
    var b' := b[pos / 64 := WordAndNot(b[pos / 64], Mask(pos % 64))];
    forall p: nat | p < 64 * |b| ensures Get(b', p) <==> p != pos && Get(b, p) {
      AndMaskIsBit(b[p / 64], p % 64);
      AndMaskIsBit(b'[p / 64], p % 64);
      BitOfOperators(b[pos / 64], Pow2(pos % 64), p % 64);
      BitOfMask(pos % 64, p % 64);
    }
  }

  /** Bitsets of one length are equal words exactly when they stand for the same set. */
  lemma EqualIffSameMembers(a: seq<Word>, b: seq<Word>)
    requires |a| == |b|
    ensures a == b <==> Members(a) == Members(b)
  {
    if Members(a) == Members(b) {
      WordWidth();
      forall i | 0 <= i < |a| ensures a[i] == b[i] {
        forall j: nat | j < 64 ensures Bit(a[i], j) <==> Bit(b[i], j) {
          var pos := 64 * i + j;
          assert pos / 64 == i && pos % 64 == j;
          assert pos in Members(a) <==> pos in Members(b);
          AndMaskIsBit(a[i], j);
          AndMaskIsBit(b[i], j);
        }
        BitsDetermine(a[i], b[i], 64);
      }
    }
  }

  method Equals(b: seq<Word>, b2: seq<Word>) returns (eq: bool)
    ensures |b| == |b2| ==> (eq <==> Members(b) == Members(b2))
    ensures |b| != |b2| ==> !eq
  {
    if |b| != |b2| {
      return false;
    }
    EqualIffSameMembers(b, b2);
    for i := 0 to |b|
      invariant b[..i] == b2[..i]
    {
      if b[i] != b2[i] {
        return false;
      }
    }
    assert b == b[..|b|] == b2[..|b2|] == b2;
    return true;
  }

  // ---- population count and hash ----

  /** `bits.OnesCount64`. */
  function OnesCount(w: nat): nat {
    if w == 0 then 0 else w % 2 + OnesCount(w / 2)
  }

  ghost function BitsOf(w: nat, n: nat): set<nat> {
    set j: nat | j < n && Bit(w, j)
  }

  lemma {:induction false} OnesCountIsCardinality(w: nat, n: nat)
    requires w < Pow2(n)
    ensures OnesCount(w) == |BitsOf(w, n)|
  {
    if n > 0 {
      OnesCountIsCardinality(w / 2, n - 1);
      var high := Shifted(BitsOf(w / 2, n - 1), 1);
      ShiftedCardinality(BitsOf(w / 2, n - 1), 1);
      SplitBits(w, n);
      assert w % 2 == 1 ==> |high + {0}| == |high| + 1;
    } else {
      assert BitsOf(w, 0) == {};
    }
  }

  /** The lowest digit and the digits above it. */
  lemma SplitBits(w: nat, n: nat)
    requires n > 0
    ensures BitsOf(w, n) == Shifted(BitsOf(w / 2, n - 1), 1) + (if w % 2 == 1 then {0} else {})
  {
    var high := Shifted(BitsOf(w / 2, n - 1), 1);
    forall j: nat ensures j in BitsOf(w, n) <==> j in high + (if w % 2 == 1 then {0} else {}) {
      if j > 0 { assert j in high <==> j - 1 in BitsOf(w / 2, n - 1); }
    }
  }

  ghost function Shifted(s: set<nat>, d: nat): (r: set<nat>)
    ensures forall y :: y in r <==> y >= d && y - d in s
  {
    var r := set x | x in s :: x + d;
    assert forall y :: y >= d && y - d in s ==> y == (y - d) + d && y in r;
    r
  }

  lemma {:induction false} ShiftedCardinality(s: set<nat>, d: nat)
    ensures |Shifted(s, d)| == |s|
  {
    if s != {} {
      var y :| y in s;
      ShiftedCardinality(s - {y}, d);
      assert Shifted(s, d) == Shifted(s - {y}, d) + {y + d};
    }
  }

  lemma GetSnoc(b: seq<Word>, w: Word, p: nat)
    requires p < 64 * |b| + 64
    ensures Get(b + [w], p) <==> if p < 64 * |b| then Get(b, p) else Bit(w, p - 64 * |b|)
  {
    AndMaskIsBit((b + [w])[p / 64], p % 64);
    hide And, Bit, Mask;
    if p < 64 * |b| {
      assert (b + [w])[p / 64] == b[p / 64];
    } else {
      assert p / 64 == |b| && p % 64 == p - 64 * |b|;
    }
  }

  lemma MembersSnoc(b: seq<Word>, w: Word)
    ensures |Members(b + [w])| == |Members(b)| + OnesCount(w)
  {
    hide Get, OnesCount, Bit;
    var high := Shifted(BitsOf(w, 64), 64 * |b|);
    WordWidth();
    OnesCountIsCardinality(w, 64);
    ShiftedCardinality(BitsOf(w, 64), 64 * |b|);
    forall p: nat ensures p in Members(b + [w]) <==> p in Members(b) + high {
      if p < 64 * |b| + 64 {
        GetSnoc(b, w, p);
      }
    }
    assert Members(b + [w]) == Members(b) + high;
  }

  method Popcnt(b: seq<Word>) returns (total: nat)
    ensures total == |Members(b)|
  {
    total := 0;
    for i := 0 to |b|
      invariant total == |Members(b[..i])|
    {
      MembersSnoc(b[..i], b[i]);
      assert b[..i + 1] == b[..i] + [b[i]];
      total := total + OnesCount(b[i]);
    }
    assert b[..|b|] == b;
  }

  function XorAll(seed: Word, b: seq<Word>): Word {
    if b == [] then seed else WordXor(XorAll(seed, b[..|b| - 1]), b[|b| - 1])
  }

  /** The hash depends on the words alone, so equal bitsets always hash alike. */
  ghost function HashOf(b: seq<Word>): Word {
    XorAll(|Members(b)| % 0x1_0000_0000_0000_0000, b)
  }

  method Hash(b: seq<Word>) returns (hash: Word)
    ensures hash == HashOf(b)
  {
    var count := Popcnt(b);
    var seed: Word := count % 0x1_0000_0000_0000_0000;
    hash := seed;
    for i := 0 to |b|
      invariant hash == XorAll(seed, b[..i])
    {
      assert b[..i + 1][..i] == b[..i];
      hash := WordXor(hash, b[i]);
    }
    assert b[..|b|] == b;
  }
}
