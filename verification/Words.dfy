/** Powers of two and the wrap-around of 64-bit signed integers. */
module Words {

  function Pow2(n: nat): nat {
    if n == 0 then 1 else 2 * Pow2(n - 1)
  }

  const INT64_LIMIT: int := 0x8000_0000_0000_0000

  /** The value of n in two's complement with 64 bits. */
  function Wrap64(n: int): (w: int)
    ensures -INT64_LIMIT <= w < INT64_LIMIT
    ensures -INT64_LIMIT <= n < INT64_LIMIT ==> w == n
  {
    (n + INT64_LIMIT) % (2 * INT64_LIMIT) - INT64_LIMIT
  }

  /** `n << bits` on 64-bit signed integers. */
  function ShiftLeft(n: int, bits: nat): int {
    Wrap64(n * Pow2(bits))
  }

  /** Multiples of 2^64 wrap to zero. */
  lemma WrapMultiple(k: int)
    ensures Wrap64(k * (2 * INT64_LIMIT)) == 0
  {
  }

  /** Wrapping early does not change a wrapped product. */
  lemma WrapProduct(n: int, c: int)
    ensures Wrap64(Wrap64(n) * c) == Wrap64(n * c)
  {
    var q := (n + INT64_LIMIT) / (2 * INT64_LIMIT);
    assert Wrap64(n) == n - q * (2 * INT64_LIMIT);
    assert Wrap64(n) * c == n * c - (q * c) * (2 * INT64_LIMIT);
    WrapShift(n * c, -(q * c));
  }

  lemma WrapShift(n: int, k: int)
    ensures Wrap64(n + k * (2 * INT64_LIMIT)) == Wrap64(n)
  {
  }

  lemma {:induction false} Pow2Rises(m: nat, n: nat)
    requires m <= n
    ensures 1 <= Pow2(m) <= Pow2(n)
    decreases n
  {
    if m < n {
      Pow2Rises(m, n - 1);
    } else if n > 0 {
      Pow2Rises(m - 1, n - 1);
    }
  }

  lemma Pow2Values()
    ensures Pow2(3) == 8 && Pow2(4) == 16 && Pow2(8) == 256 && Pow2(9) == 512
    ensures Pow2(38) == 0x40_0000_0000 && Pow2(39) == 0x80_0000_0000
    ensures Pow2(57) == 0x200_0000_0000_0000
    ensures Pow2(56) == 0x100_0000_0000_0000 && Pow2(64) == 0x1_0000_0000_0000_0000
  {
    hide Pow2;
    FirstPowers();
    Pow2Adds(4, 4);
    Pow2Adds(8, 8);
    Pow2Adds(8, 1);
    Pow2Adds(16, 16);
    Pow2Adds(32, 3);
    Pow2Adds(35, 3);
    Pow2Adds(38, 1);
    Pow2Adds(39, 16);
    Pow2Adds(55, 1);
    Pow2Adds(55, 2);
    Pow2Adds(56, 8);
  }

  lemma FirstPowers()
    ensures Pow2(1) == 2 && Pow2(2) == 4 && Pow2(3) == 8 && Pow2(4) == 16
  {
  }

  lemma {:induction false} Pow2Adds(m: nat, n: nat)
    ensures Pow2(m + n) == Pow2(m) * Pow2(n)
    decreases n
  {
    if n > 0 {
      Pow2Adds(m, n - 1);
      assert Pow2(m + n) == 2 * Pow2(m + n - 1);
      assert m + n - 1 == m + (n - 1);
      calc {
        Pow2(m + n);
        2 * (Pow2(m) * Pow2(n - 1));
        Pow2(m) * (2 * Pow2(n - 1));
        Pow2(m) * Pow2(n);
      }
    }
  }
}
