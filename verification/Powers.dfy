/** Powers of two. */
module Powers {
  import opened Words

  function Pow2(n: nat): nat {
    if n == 0 then 1 else 2 * Pow2(n - 1)
  }

  lemma {:induction false} Pow2Positive(n: nat)
    ensures Pow2(n) > 0
  {
    if n > 0 {
      Pow2Positive(n - 1);
    }
  }

  lemma {:induction false} Pow2Sum(a: nat, b: nat)
    ensures Pow2(a + b) == Pow2(a) * Pow2(b)
  {
    if a > 0 {
      Pow2Sum(a - 1, b);
      assert Pow2(a + b) == 2 * Pow2(a - 1 + b) && Pow2(a) == 2 * Pow2(a - 1);
    }
  }

  lemma {:induction false} Pow2Bounded(a: nat, b: nat)
    requires Pow2(a) <= Pow2(b)
    ensures a <= b
  {
    if a > 0 {
      Pow2Positive(a - 1);
      if b > 0 {
        Pow2Bounded(a - 1, b - 1);
      }
    }
  }

  lemma {:induction false} Pow2Monotone(a: nat, b: nat)
    requires a <= b
    ensures 0 < Pow2(a) <= Pow2(b)
  {
    Pow2Positive(a);
    if a < b {
      Pow2Monotone(a, b - 1);
    }
  }

  lemma BigPower()
    ensures Pow2(56) == 0x100_0000_0000_0000
  {
    assert Pow2(7) == 128;
    Pow2Sum(7, 7);
    Pow2Sum(14, 14);
    Pow2Sum(28, 28);
  }

  lemma WordPowers()
    ensures Pow2(54) == BLOCK_WORDS / 32 && Pow2(58) == BLOCK_WORDS / 2 && Pow2(59) == BLOCK_WORDS
    ensures Pow2(63) == HALF && Pow2(64) == WORD
  {
    BigPower();
    assert Pow2(56) == 2 * Pow2(55) && Pow2(55) == 2 * Pow2(54);
    assert Pow2(57) == 2 * Pow2(56) && Pow2(58) == 2 * Pow2(57) && Pow2(59) == 2 * Pow2(58);
    assert Pow2(60) == 2 * Pow2(59) && Pow2(61) == 2 * Pow2(60) && Pow2(62) == 2 * Pow2(61);
  }
}
