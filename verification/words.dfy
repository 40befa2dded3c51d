/** Go's unsigned machine words, modelled as the set of positions of their
    one bits: `a & b`, `a | b`, `a &^ b` and `^a` are intersection, union,
    difference and complement within the word's width. A 64-bit word is a
    set of positions below 64; the map from words to such sets is a
    bijection, so nothing is lost. */
module Words {

  type Word = set<nat>

  /** A Go `byte`. */
  type Byte = b: nat | b < 256

  /** The bit positions `lo` up to, not including, `hi`. */
  function Range(lo: nat, hi: nat): (r: Word)
    ensures forall b :: b in r <==> lo <= b < hi
    decreases hi - lo
  {
    if lo >= hi then {} else {lo} + Range(lo + 1, hi)
  }

  /** All 64 bits of a `uint64` (or, as a bit pattern, an `int64`). */
  function Full64(): Word {
    Range(0, 64)
  }

  /** All 32 bits of a `uint32`. */
  function Full32(): Word {
    Range(0, 32)
  }

  /** Go's `^w` on a 64-bit operand. */
  function Not64(w: Word): Word {
    Full64() - w
  }

  /** Go's `^w` on a 32-bit operand. */
  function Not32(w: Word): Word {
    Full32() - w
  }

  /** A 32-bit word and its complement split the word between them. */
  lemma Not32Splits(w: Word)
    requires FitsIn(w, 32)
    ensures Disjoint(Not32(w), w) && Not32(w) + w == Full32()
  {
    assert forall b :: b in w ==> b in Full32();
  }

  /** The word fits in `width` bits. */
  predicate FitsIn(w: Word, width: nat) {
    forall b :: b in w ==> b < width
  }

  /** No bit of `g` is set in `w`. */
  predicate Disjoint(w: Word, g: Word) {
    w * g == {}
  }

  /** Every bit of `m` is also set in `w`. */
  predicate Includes(w: Word, m: Word) {
    m <= w
  }

  /** `a` and `b` agree on every bit outside the group `g`. */
  predicate SameOutside(a: Word, b: Word, g: Word) {
    a - g == b - g
  }

  /** The bits of `w` inside the group `g` are exactly `v`. */
  predicate GroupIs(w: Word, g: Word, v: Word) {
    w * g == v
  }

  /** `w &^ g`: every bit of the group `g` cleared. */
  function Clear(w: Word, g: Word): (r: Word)
    ensures Disjoint(r, g) && SameOutside(r, w, g)
  {
    w - g
  }

  /** `w &^ g | v`: the group `g` cleared, then the bits `v` set. */
  function Put(w: Word, g: Word, v: Word): (r: Word)
    ensures Includes(r, v)
    ensures SameOutside(r, w, g + v)
    ensures Includes(g, v) ==> GroupIs(r, g, v) && SameOutside(r, w, g)
  {
    Clear(w, g) + v
  }

  /** The group `g` all set (`on`) or all clear, every other bit kept. */
  function Switch(w: Word, g: Word, on: bool): (r: Word)
    ensures on ==> Includes(r, g)
    ensures !on ==> Disjoint(r, g)
    ensures SameOutside(r, w, g)
  {
    if on then Put(w, g, g) else Clear(w, g)
  }

  /** Writing a group twice: the second write wins, provided the first
      write stayed inside the group. */
  lemma PutAfterPut(w: Word, g: Word, v1: Word, v2: Word)
    requires Includes(g, v1)
    ensures Put(Put(w, g, v1), g, v2) == Put(w, g, v2)
  {
  }

  /** Switching a group twice: the second switch wins. */
  lemma SwitchAfterSwitch(w: Word, g: Word, a: bool, b: bool)
    ensures Switch(Switch(w, g, a), g, b) == Switch(w, g, b)
  {
  }

  /** Bitwise OR of all the words of `s`. */
  function OrAll(s: seq<Word>): Word {
    if |s| == 0 then {} else s[0] + OrAll(s[1..])
  }

  /** Every word of `s` is covered by the OR of `s`. */
  lemma {:induction false} OrAllCovers(s: seq<Word>, i: nat)
    requires i < |s|
    ensures Includes(OrAll(s), s[i])
  {
    if i > 0 {
      OrAllCovers(s[1..], i - 1);
    }
  }

  /** A group disjoint from every word of `s` is disjoint from their OR:
      the OR sets no bit that no word of `s` sets. */
  lemma {:induction false} OrAllMinimal(s: seq<Word>, g: Word)
    requires forall i :: 0 <= i < |s| ==> Disjoint(s[i], g)
    ensures Disjoint(OrAll(s), g)
  {
    if |s| > 0 {
      OrAllMinimal(s[1..], g);
      assert Disjoint(s[0], g);
    }
  }

  /** The word of the number `n` with its lowest bit at position `from`. */
  function BitsFrom(n: nat, from: nat): Word
    decreases n
  {
    if n == 0 then {}
    else (if n % 2 == 1 then {from} else {}) + BitsFrom(n / 2, from + 1)
  }

  /** Go's conversion of a non-negative constant to an unsigned word. */
  function WordOf(n: nat): Word {
    BitsFrom(n, 0)
  }

  function Pow2(k: nat): (r: nat)
    ensures r >= 1
  {
    if k == 0 then 1 else 2 * Pow2(k - 1)
  }

  /** The number held in the low `width` bits of `w`: Go's conversion of a
      word to a `width`-bit unsigned integer, which keeps only those bits. */
  function ValueOf(w: Word, width: nat): (r: nat)
    ensures r < Pow2(width)
  {
    if width == 0 then 0
    else ValueOf(w, width - 1) + (if width - 1 in w then Pow2(width - 1) else 0)
  }

  // Division facts behind `ValueOfWordOf`.

  lemma MulMonotone(x: int, y: int, m: nat)
    ensures x <= y ==> x * m <= y * m
  {
  }

  /** A quotient and remainder that fit are the quotient and remainder. */
  lemma DivModUnique(n: int, m: int, a: int, b: int)
    requires m > 0 && 0 <= b < m && n == a * m + b
    ensures n / m == a && n % m == b
  {
    var q := n / m;
    MulMonotone(a, q - 1, m);
    MulMonotone(q + 1, a, m);
  }

  /** The remainder modulo 2^(k+1) adds bit k to the remainder modulo 2^k. */
  lemma ModStep(n: nat, k: nat)
    ensures n % Pow2(k + 1) == n % Pow2(k) + (n / Pow2(k)) % 2 * Pow2(k)
  {
    var m := Pow2(k);
    assert Pow2(k + 1) == 2 * m;
    var q := n / (2 * m);
    var r := n % (2 * m);
    assert n == q * (2 * m) + r;
    var h := r / m;
    var l := r % m;
    assert r == h * m + l;
    MulMonotone(2, h, m);
    assert n == (2 * q + h) * m + l;
    DivModUnique(n, m, 2 * q + h, l);
    DivModUnique(2 * q + h, 2, q, h);
  }

  /** Halving, then dividing by 2^k, is dividing by 2^(k+1). */
  lemma DivTwice(n: nat, k: nat)
    ensures n / 2 / Pow2(k) == n / Pow2(k + 1)
  {
    var m := Pow2(k);
    assert Pow2(k + 1) == 2 * m;
    var q := n / (2 * m);
    var r := n % (2 * m);
    assert n == q * (2 * m) + r;
    var h := r / 2;
    assert r == h * 2 + r % 2;
    MulMonotone(m, h, 2);
    assert n == (m * q + h) * 2 + r % 2;
    DivModUnique(n, 2, m * q + h, r % 2);
    DivModUnique(m * q + h, m, q, h);
  }

  /** Bit `b` is set in `BitsFrom(n, from)` exactly when bit `b - from`
      of `n` is one. */
  lemma {:induction false} BitsFromMember(n: nat, from: nat, b: nat)
    ensures b in BitsFrom(n, from) <==> from <= b && (n / Pow2(b - from)) % 2 == 1
    decreases n
  {
    if n > 0 {
      BitsFromMember(n / 2, from + 1, b);
      if b > from {
        DivTwice(n, b - from - 1);
      }
    }
  }

  /** Reading `width` bits of the word of `n` gives `n` modulo 2^width: the
      conversion keeps the low bits, and keeps a number that fits. */
  lemma {:induction false} ValueOfWordOf(n: nat, width: nat)
    ensures ValueOf(WordOf(n), width) == n % Pow2(width)
    ensures n < Pow2(width) ==> ValueOf(WordOf(n), width) == n
  {
    if n < Pow2(width) {
      DivModUnique(n, Pow2(width), 0, n);
    }
    if width > 0 {
      ValueOfWordOf(n, width - 1);
      BitsFromMember(n, 0, width - 1);
      ModStep(n, width - 1);
    }
  }
}
