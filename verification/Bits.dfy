/** The queue's bit tricks on 64-bit words: the thread-id hash and rounding up to a power of two. */
module Bits {
  import opened Words
  import opened Powers

  function Xor(a: nat, b: nat): nat {
    if a == 0 && b == 0 then 0 else 2 * Xor(a / 2, b / 2) + (a + b) % 2
  }

  function Or(a: nat, b: nat): nat {
    if a == 0 && b == 0 then 0 else 2 * Or(a / 2, b / 2) + (if a % 2 == 1 || b % 2 == 1 then 1 else 0)
  }

  lemma {:induction false} XorTwice(a: nat, b: nat)
    ensures Xor(Xor(a, b), b) == a
  {
    if a != 0 || b != 0 {
      XorTwice(a / 2, b / 2);
      var c := Xor(a, b);
      assert c / 2 == Xor(a / 2, b / 2) && c % 2 == (a + b) % 2;
    }
  }

  lemma {:induction false} XorZero(a: nat)
    ensures Xor(a, 0) == a
  {
    if a != 0 {
      XorZero(a / 2);
    }
  }

  lemma {:induction false} XorBelow(a: nat, b: nat, n: nat)
    requires a < Pow2(n) && b < Pow2(n)
    ensures Xor(a, b) < Pow2(n)
  {
    if n > 0 {
      XorBelow(a / 2, b / 2, n - 1);
    }
  }

  /** `a >> n`. */
  function Shr(a: nat, n: nat): nat {
    if n == 0 then a else Shr(a / 2, n - 1)
  }

  lemma Double(s: int, p: int)
    ensures s * (2 * p) == 2 * (s * p)
  {}

  lemma TimesLess(a: int, b: int, p: nat)
    requires a * p < b * p
    ensures a < b
  {
    Distribute(a, b, p);
    assert a >= b ==> (a - b) * p >= 0;
  }

  lemma Distribute(a: int, b: int, p: int)
    ensures (a - b) * p == a * p - b * p
  {}

  /** A quotient is at least any number whose multiple the dividend reaches. */
  lemma QuotientAtLeast(s: int, q: int, p: nat, y: int)
    requires q * p <= y < (s + 1) * p
    ensures q <= s && q * p <= s * p
  {
    TimesLess(q, s + 1, p);
    Distribute(s, q, p);
    assert (s - q) * p >= 0;
  }

  /** A shift divides by a power of two. */
  lemma {:induction false} ShrBounds(a: nat, n: nat)
    ensures Shr(a, n) * Pow2(n) <= a < (Shr(a, n) + 1) * Pow2(n)
  {
    if n > 0 {
      ShrBounds(a / 2, n - 1);
      Double(Shr(a, n), Pow2(n - 1));
      Double(Shr(a, n) + 1, Pow2(n - 1));
    }
  }

  lemma {:induction false} ShrXor(a: nat, b: nat, n: nat)
    ensures Shr(Xor(a, b), n) == Xor(Shr(a, n), Shr(b, n))
  {
    if n > 0 {
      ShrXor(a / 2, b / 2, n - 1);
      assert Xor(a, b) / 2 == Xor(a / 2, b / 2);
    }
  }

  lemma {:induction false} OrBelow(a: nat, b: nat, n: nat)
    requires a < Pow2(n) && b < Pow2(n)
    ensures Or(a, b) < Pow2(n)
  {
    if n > 0 {
      OrBelow(a / 2, b / 2, n - 1);
    }
  }

  /** The low `n` bits of an or with a number of `n` bits are at least that number, and the high bits
      stay. */
  lemma {:induction false} OrHigh(a: nat, b: nat, n: nat)
    requires b < Pow2(n)
    ensures Or(a, b) >= Shr(a, n) * Pow2(n) + b
  {
    if n > 0 {
      OrHigh(a / 2, b / 2, n - 1);
      Double(Shr(a, n), Pow2(n - 1));
      assert Or(a, b) >= 2 * Or(a / 2, b / 2) + b % 2;
    } else {
      OrAtLeast(a, 0);
    }
  }

  lemma {:induction false} OrAtLeast(a: nat, b: nat)
    ensures Or(a, b) >= a
  {
    if a != 0 || b != 0 {
      OrAtLeast(a / 2, b / 2);
    }
  }

  /* ---------- The thread-id hash ---------- */

  const FIRST_FACTOR: int := 0xff51afd7ed558ccd
  const SECOND_FACTOR: int := 0xc4ceb9fe1a85ec53
  const FIRST_INVERSE: int := 0x4f74430c22a54005
  const SECOND_INVERSE: int := 0x9cb4b2f8129337db

  lemma MixFits(h: Word)
    ensures Xor(h, Shr(h, 33)) < WORD
  {
    WordPowers();
    ShrAtMost(h, 33);
    XorBelow(h, Shr(h, 33), 64);
  }

  lemma {:induction false} ShrAtMost(a: nat, n: nat)
    ensures Shr(a, n) <= a
  {
    if n > 0 {
      ShrAtMost(a / 2, n - 1);
    }
  }

  lemma {:induction false} ShrTwice(a: nat, m: nat, n: nat)
    ensures Shr(Shr(a, m), n) == Shr(a, m + n)
  {
    if m > 0 {
      ShrTwice(a / 2, m - 1, n);
    }
  }

  lemma ShrOut(a: nat, n: nat)
    requires a < Pow2(n)
    ensures Shr(a, n) == 0
  {
    ShrBounds(a, n);
    TimesLess(Shr(a, n), 1, Pow2(n));
  }

  /** `h ^ (h >> 33)`. */
  function Mix(h: Word): Word {
    MixFits(h);
    Xor(h, Shr(h, 33))
  }

  /** A shift by more than half the width makes the step its own inverse. */
  lemma MixTwice(h: Word)
    ensures Mix(Mix(h)) == h
  {
    var shifted := Shr(h, 33);
    WordPowers();
    ShrTwice(h, 33, 33);
    Pow2Monotone(64, 66);
    ShrOut(h, 66);
    ShrXor(h, shifted, 33);
    XorZero(shifted);
    XorTwice(h, shifted);
  }

  function Times(h: Word, factor: Word): Word {
    h * factor % WORD
  }

  /** Multiplying by a factor and then by its inverse modulo the word size gives the word back. */
  lemma TimesBack(h: Word, factor: Word, inverse: Word)
    requires factor * inverse % WORD == 1
    ensures Times(Times(h, factor), inverse) == h
  {
    var q := h * factor / WORD;
    var turns := factor * inverse / WORD;
    var low := Times(h, factor);
    assert h * factor == q * WORD + low;
    assert factor * inverse == turns * WORD + 1;
    assert low * inverse == h + (h * turns - q * inverse) * WORD by {
      assert low * inverse == (h * factor - q * WORD) * inverse;
      Expand(h, factor, inverse, q, WORD);
      assert h * (turns * WORD + 1) == h * turns * WORD + h;
      assert (h * turns - q * inverse) * WORD == h * turns * WORD - q * inverse * WORD;
    }
    DivModUnique(low * inverse, h * turns - q * inverse, h, WORD);
  }

  lemma Expand(h: int, f: int, i: int, q: int, w: int)
    ensures (h * f - q * w) * i == h * (f * i) - q * i * w
  {
    assert (h * f - q * w) * i == h * f * i - q * w * i;
  }

  /** `hash_thread_id` for 64-bit identifiers. */
  function Hash(id: Word): Word {
    Mix(Times(Mix(Times(Mix(id), FIRST_FACTOR)), SECOND_FACTOR))
  }

  /** The inverse of the hash: its steps undone in reverse order. */
  function Unhash(h: Word): Word {
    Mix(Times(Mix(Times(Mix(h), SECOND_INVERSE)), FIRST_INVERSE))
  }

  lemma InverseFactors()
    ensures FIRST_FACTOR * FIRST_INVERSE % WORD == 1
    ensures SECOND_FACTOR * SECOND_INVERSE % WORD == 1
  {}

  /** The hash loses nothing. */
  lemma UnhashHash(id: Word)
    ensures Unhash(Hash(id)) == id
  {
    InverseFactors();
    var b := Times(Mix(id), FIRST_FACTOR);
    var d := Times(Mix(b), SECOND_FACTOR);
    MixTwice(d);
    TimesBack(Mix(b), SECOND_FACTOR, SECOND_INVERSE);
    MixTwice(b);
    TimesBack(Mix(id), FIRST_FACTOR, FIRST_INVERSE);
    MixTwice(id);
  }

  /** Every word is the hash of some identifier. */
  lemma HashUnhash(h: Word)
    ensures Hash(Unhash(h)) == h
  {
    InverseFactors();
    var b := Times(Mix(h), SECOND_INVERSE);
    var d := Times(Mix(b), FIRST_INVERSE);
    MixTwice(d);
    TimesBack(Mix(b), FIRST_INVERSE, FIRST_FACTOR);
    MixTwice(b);
    TimesBack(Mix(h), SECOND_INVERSE, SECOND_FACTOR);
    MixTwice(h);
  }

  /** Distinct thread ids have distinct full hashes. */
  lemma HashInjective(a: Word, b: Word)
    requires Hash(a) == Hash(b)
    ensures a == b
  {
    UnhashHash(a);
    UnhashHash(b);
  }

  /* ---------- Rounding up to a power of two ---------- */

  /** The position just below the top `w` of the `k + 1` low bits. */
  function Below(k: nat, w: nat): nat {
    if w <= k + 1 then k + 1 - w else 0
  }

  /** The word has `k + 1` bits, the top `w` of them ones. */
  predicate Smeared(y: nat, k: nat, w: nat) {
    Pow2(k + 1) - Pow2(Below(k, w)) <= y < Pow2(k + 1)
  }

  lemma {:induction false} TopBit(y: nat) returns (k: nat)
    requires y > 0
    ensures Pow2(k) <= y < Pow2(k + 1)
  {
    if y == 1 {
      k := 0;
    } else {
      k := TopBit(y / 2);
      k := k + 1;
    }
  }

  /** Or-ing in the word shifted by the number of known ones doubles it. */
  lemma SmearMore(y: nat, k: nat, w: nat)
    requires Smeared(y, k, w)
    ensures Smeared(Or(y, Shr(y, w)), k, 2 * w)
  {
    ShrAtMost(y, w);
    OrBelow(y, Shr(y, w), k + 1);
    if w > k {
      OrAtLeast(y, Shr(y, w));
    } else {
      ShiftedOnes(y, k, w);
      OrHigh(y, Shr(y, w), k + 1 - w);
      TopOnes(y, k, w);
    }
  }

  /** The ones stay in place. */
  lemma TopOnes(y: nat, k: nat, w: nat)
    requires Smeared(y, k, w) && w <= k + 1
    ensures Shr(y, k + 1 - w) * Pow2(k + 1 - w) >= Pow2(k + 1) - Pow2(k + 1 - w)
  {
    var m := k + 1 - w;
    ShrBounds(y, m);
    Pow2Sum(w, m);
    Distribute(Pow2(w), 1, Pow2(m));
    QuotientAtLeast(Shr(y, m), Pow2(w) - 1, Pow2(m), y);
  }

  /** The shifted ones come right below them. */
  lemma ShiftedOnes(y: nat, k: nat, w: nat)
    requires Smeared(y, k, w) && w <= k + 1
    ensures Pow2(k + 1 - w) - Pow2(Below(k, 2 * w)) <= Shr(y, w) < Pow2(k + 1 - w)
  {
    var m, low := k + 1 - w, Pow2(Below(k, 2 * w));
    ShrBounds(y, w);
    Pow2Sum(m, w);
    TimesLess(Shr(y, w), Pow2(m), Pow2(w));
    if 2 * w <= k + 1 {
      Pow2Sum(Below(k, 2 * w), w);
    } else {
      Pow2Monotone(m, w);
    }
    Distribute(Pow2(m), low, Pow2(w));
    QuotientAtLeast(Shr(y, w), Pow2(m) - low, Pow2(w), y);
  }

  /** The first three steps together. */
  lemma SmearEight(y: nat, k: nat)
    requires Pow2(k) <= y < Pow2(k + 1)
    ensures var a := Or(y, Shr(y, 1));
      var b := Or(a, Shr(a, 2));
      Smeared(Or(b, Shr(b, 4)), k, 8)
  {
    var a := Or(y, Shr(y, 1));
    var b := Or(a, Shr(a, 2));
    SmearMore(y, k, 1);
    SmearMore(a, k, 2);
    SmearMore(b, k, 4);
  }

  /** The smallest of the powers of two that are at least `x`. */
  ghost predicate LeastPower(r: nat, x: nat) {
    IsPower(r) && x <= r && forall n: nat :: x <= Pow2(n) ==> r <= Pow2(n)
  }

  ghost predicate IsPower(r: nat) {
    exists n: nat :: r == Pow2(n)
  }

  lemma RoundedUp(x: nat, k: nat)
    requires Pow2(k) < x <= Pow2(k + 1)
    ensures LeastPower(Pow2(k + 1), x)
  {
    forall n: nat | x <= Pow2(n) ensures Pow2(k + 1) <= Pow2(n) {
      if n <= k {
        Pow2Monotone(n, k);
      } else {
        Pow2Monotone(k + 1, n);
      }
    }
  }

  /** Whether the rounded word fits. */
  lemma TopOfWord(y: nat, k: nat)
    requires Pow2(k) <= y < Pow2(k + 1) && y < WORD
    ensures k <= 63 && (y < HALF ==> Pow2(k + 1) <= HALF) && (y >= HALF ==> Pow2(k + 1) == WORD)
  {
    WordPowers();
    if k >= 64 {
      Pow2Monotone(64, k);
    } else if k < 63 {
      Pow2Monotone(k + 1, 63);
    }
  }

  lemma AllOnes(y: nat, k: nat)
    requires k <= 63 && Smeared(y, k, 64)
    ensures y + 1 == Pow2(k + 1)
  {
    assert Pow2(0) == 1;
  }

  /** `x |= x >> 1` up to `x |= x >> 32`: every bit below the top one gets set. */
  method SmearRight(x: Word) returns (y: nat)
    ensures x == 0 ==> y == 0
    ensures forall k: nat :: Pow2(k) <= x < Pow2(k + 1) ==> y + 1 == Pow2(k + 1)
  {
    y := x;
    ghost var k := 0;
    if x > 0 {
      k := TopBit(x);
      TopOfWord(x, k);
      SmearEight(x, k);
    }
    y := Or(y, Shr(y, 1));
    y := Or(y, Shr(y, 2));
    y := Or(y, Shr(y, 4));
    var i := 1;
    while i < 8
      invariant i == 1 || i == 2 || i == 4 || i == 8
      invariant if x == 0 then y == 0 else Smeared(y, k, 8 * i)
    {
      if x > 0 {
        SmearMore(y, k, 8 * i);
      } else {
        ShrAtMost(0, 8 * i);
      }
      y := Or(y, Shr(y, 8 * i));
      i := 2 * i;
    }
    if x > 0 {
      AllOnes(y, k);
      forall other: nat | Pow2(other) <= x < Pow2(other + 1) ensures other == k {
        SameTopBit(x, k, other);
      }
    }
  }

  lemma SameTopBit(x: nat, j: nat, k: nat)
    requires Pow2(j) <= x < Pow2(j + 1) && Pow2(k) <= x < Pow2(k + 1)
    ensures j == k
  {
    if j < k {
      Pow2Monotone(j + 1, k);
    } else if k < j {
      Pow2Monotone(k + 1, j);
    }
  }

  /** `ceil_to_pow_2`: the least power of two at or above `x`; 0 when there is none in a word, and for 0. */
  method CeilToPow2(x: Word) returns (r: Word)
    ensures if 1 <= x <= HALF then LeastPower(r, x) else r == 0
  {
    var y := SmearRight((x - 1) % WORD);
    if x == 1 {
      assert LeastPower(Pow2(0), 1);
    } else {
      var below := (x - 1) % WORD;
      ghost var k := TopBit(below);
      TopOfWord(below, k);
      if x > 1 {
        RoundedUp(x, k);
      }
    }
    r := (y + 1) % WORD;
  }
}
