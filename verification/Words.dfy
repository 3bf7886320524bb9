/** Machine words: the queue's 64-bit index arithmetic and how it relates to the integers. */
module Words {
  const HALF: int := 0x8000_0000_0000_0000
  const WORD: int := 0x1_0000_0000_0000_0000

  /** Elements per block, `Traits::BLOCK_SIZE`. */
  const BLOCK_SIZE: int := 32

  /** The number of distinct block-aligned index words. */
  const BLOCK_WORDS: int := WORD / BLOCK_SIZE

  /** The number of blocks that `n` elements occupy. */
  function BlocksFor(n: nat): nat {
    (n + (BLOCK_SIZE - 1)) / BLOCK_SIZE
  }

  type Word = x: int | 0 <= x < WORD

  function Wrap(x: int): Word {
    x % WORD
  }

  /** `circular_less_than` on 64-bit unsigned words. */
  predicate CircularLess(a: Word, b: Word) {
    (a - b) % WORD > HALF
  }

  /** The block-aligned part of an index word: `index & ~(BLOCK_SIZE - 1)`. */
  function BlockBase(index: Word): Word {
    index - index % BLOCK_SIZE
  }

  /** The ring position computed from a position whose key is known. The difference is cast to a
      signed type and then divided by the unsigned `BLOCK_SIZE`, so the division is unsigned. */
  function SlotFrom(position: nat, key: Word, index: Word, capacity: nat): nat
    requires capacity > 0
  {
    (position + (BlockBase(index) - key) % WORD / BLOCK_SIZE) % capacity
  }

  /* ---------- Integer division ---------- */

  lemma MultipleInGap(d: int, c: int)
    requires -c < d * c < c
    ensures d == 0
  {
    assert d >= 1 ==> d * c >= c;
    assert d <= -1 ==> d * c <= -c;
  }

  lemma DivModUnique(x: int, q: int, r: int, c: int)
    requires 0 <= r < c && x == q * c + r
    ensures x / c == q && x % c == r
  {
    var p := x / c;
    assert x == p * c + x % c;
    assert (p - q) * c == p * c - q * c;
    MultipleInGap(p - q, c);
  }

  /** Shifting by a multiple of the modulus does not change the residue. */
  lemma ModShift(x: int, k: int, c: int)
    requires c > 0
    ensures (x + k * c) % c == x % c
  {
    assert x + k * c == (x / c + k) * c + x % c by {
      assert x == x / c * c + x % c;
      assert (x / c + k) * c == x / c * c + k * c;
    }
    DivModUnique(x + k * c, x / c + k, x % c, c);
  }

  lemma ModAdd(x: int, y: int, c: int)
    requires c > 0
    ensures (x % c + y) % c == (x + y) % c
  {
    assert x + y == x % c + y + x / c * c;
    ModShift(x % c + y, x / c, c);
  }

  /** Equal residues stay equal after adding the same amount. */
  lemma ModCongruent(x: int, y: int, z: int, c: int)
    requires c > 0 && x % c == y % c
    ensures (x + z) % c == (y + z) % c
  {
    ModAdd(x, z, c);
    ModAdd(y, z, c);
  }

  /** A residue modulo a multiple of `c` has the same residue modulo `c`. */
  lemma ModOfMultiple(x: int, c: int, m: int)
    requires c > 0 && m > 0
    ensures m * c > 0 && x % (m * c) % c == x % c
  {
    assert m * c >= c;
    var n := m * c;
    assert x == x % n + x / n * m * c by {
      assert x == x / n * n + x % n;
      assert x / n * n == x / n * m * c;
    }
    ModShift(x % n, x / n * m, c);
  }

  /** Numbers a multiple of `m * c` apart keep equal residues modulo `c` after any shift. */
  lemma ModApart(x: int, y: int, z: int, c: int, m: int)
    requires c > 0 && m > 0 && m * c > 0 && (x - y) % (m * c) == 0
    ensures (x + z) % c == (y + z) % c
  {
    var q := (x - y) / (m * c);
    assert x - y == q * (m * c);
    assert q * (m * c) == q * m * c;
    ModShift(y + z, q * m, c);
  }

  /** Two integers with the same residue that are less than the modulus apart are equal. */
  lemma ModInjective(x: int, y: int, c: int)
    requires c > 0 && x % c == y % c && -c < x - y < c
    ensures x == y
  {
    var p, q := x / c, y / c;
    assert x == p * c + x % c && y == q * c + y % c;
    assert (p - q) * c == p * c - q * c;
    MultipleInGap(p - q, c);
  }

  /* ---------- Wrapped comparisons and slots ---------- */

  /** For indices less than a full turn apart, the wrapped comparison is the integer comparison
      exactly when the distance fits the signed half-range. */
  lemma CircularLessExact(a: int, b: int)
    requires b - a < WORD && a - b < WORD
    ensures (CircularLess(Wrap(a), Wrap(b)) == (a < b)) <==> -HALF <= b - a < HALF
  {
    assert (Wrap(a) - Wrap(b)) % WORD == (a - b) % WORD;
  }

  /** The wrapped difference of two indices at most one turn apart is their integer difference. */
  lemma WrapDifference(a: int, b: int)
    requires 0 <= a - b < WORD
    ensures (Wrap(a) - Wrap(b)) % WORD == a - b
  {}

  /** The unsigned offset division is right for every signed block distance and across index
      wrap-around, as long as the ring's capacity divides the number of block-aligned words. */
  lemma SlotFromExact(position: nat, keyBlock: int, index: int, capacity: nat, multiple: nat)
    requires capacity > 0 && multiple * capacity == BLOCK_WORDS
    ensures SlotFrom(position, Wrap(keyBlock * BLOCK_SIZE), Wrap(index), capacity)
         == (position + index / BLOCK_SIZE - keyBlock) % capacity
  {
    var block := index / BLOCK_SIZE;
    var d := block - keyBlock;
    var offset := BlockOffset(index, keyBlock);
    assert multiple > 0;
    ModOfMultiple(d, capacity, multiple);
    assert offset % capacity == d % capacity;
    ModCongruent(offset, d, position, capacity);
  }

  lemma BlockOffset(index: int, keyBlock: int) returns (offset: nat)
    ensures offset == (BlockBase(Wrap(index)) - Wrap(keyBlock * BLOCK_SIZE)) % WORD / BLOCK_SIZE
    ensures offset == (index / BLOCK_SIZE - keyBlock) % BLOCK_WORDS
  {
    var block, d := index / BLOCK_SIZE, index / BLOCK_SIZE - keyBlock;
    var p, q := index / WORD, keyBlock * BLOCK_SIZE / WORD;
    DivModUnique(Wrap(index), block - p * BLOCK_WORDS, index % BLOCK_SIZE, BLOCK_SIZE);
    var turns, r := d / BLOCK_WORDS, d % BLOCK_WORDS;
    var difference := BlockBase(Wrap(index)) - Wrap(keyBlock * BLOCK_SIZE);
    assert difference == (turns - p + q) * WORD + r * BLOCK_SIZE;
    DivModUnique(difference, turns - p + q, r * BLOCK_SIZE, WORD);
    offset := r;
  }
}
