/** The range of IEEE 754 binary64 floats, as far as Python's `float` and
    `int` conversions of JSON numbers depend on it. */
module FloatRange {
  /** 2^n. */
  function Pow2(n: nat): nat {
    if n == 0 then 1 else 2 * Pow2(n - 1)
  }

  lemma {:induction false} Pow2Add(a: nat, b: nat)
    ensures Pow2(a + b) == Pow2(a) * Pow2(b)
  {
    if a > 0 {
      Pow2Add(a - 1, b);
      assert Pow2(a + b) == 2 * Pow2(a - 1 + b);
    }
  }

  /** The largest finite float64, (2^53 - 1) * 2^971: a 53-bit significand
      of all ones at the top exponent. */
  const MaxFloat: int := 0xFFFFFFFFFFFFF800000000000000000000000000000000000000000000000000000000000000000000000000000000000000000000000000000000000000000000000000000000000000000000000000000000000000000000000000000000000000000000000000000000000000000000000000000000000000000000000000

  /** The smallest magnitude at which `float` overflows, 2^1024 - 2^970.
      Python's `float(n)` raises `OverflowError` from this magnitude on, and
      a decimal literal this large reads as infinity. */
  const FloatOverflow: int := 0xFFFFFFFFFFFFFC00000000000000000000000000000000000000000000000000000000000000000000000000000000000000000000000000000000000000000000000000000000000000000000000000000000000000000000000000000000000000000000000000000000000000000000000000000000000000000000000000

  /** The powers of two the float64 range is made of, each reached from
      smaller ones by `Pow2Add`. */
  lemma PowersUpTo1024()
    ensures Pow2(16) == 0x10000
    ensures Pow2(32) == 0x100000000
    ensures Pow2(64) == 0x10000000000000000
    ensures Pow2(128) == 0x100000000000000000000000000000000
    ensures Pow2(256) == 0x10000000000000000000000000000000000000000000000000000000000000000
    ensures Pow2(512) == 0x100000000000000000000000000000000000000000000000000000000000000000000000000000000000000000000000000000000000000000000000000000000
    ensures Pow2(1024) == 0x10000000000000000000000000000000000000000000000000000000000000000000000000000000000000000000000000000000000000000000000000000000000000000000000000000000000000000000000000000000000000000000000000000000000000000000000000000000000000000000000000000000000000000
  {
    assert Pow2(8) == 256;
    Pow2Add(8, 8);
    assert Pow2(16) == 0x10000;
    Pow2Add(16, 16);
    assert Pow2(32) == 0x100000000;
    Pow2Add(32, 32);
    assert Pow2(64) == 0x10000000000000000;
    Pow2Add(64, 64);
    assert Pow2(128) == 0x100000000000000000000000000000000;
    Pow2Add(128, 128);
    assert Pow2(256) == 0x10000000000000000000000000000000000000000000000000000000000000000;
    Pow2Add(256, 256);
    assert Pow2(512) == 0x100000000000000000000000000000000000000000000000000000000000000000000000000000000000000000000000000000000000000000000000000000000;
    Pow2Add(512, 512);
    assert Pow2(1024) == 0x10000000000000000000000000000000000000000000000000000000000000000000000000000000000000000000000000000000000000000000000000000000000000000000000000000000000000000000000000000000000000000000000000000000000000000000000000000000000000000000000000000000000000000;
  }

  lemma PowersBelow1024()
    ensures Pow2(53) == 0x20000000000000
    ensures Pow2(970) == 0x400000000000000000000000000000000000000000000000000000000000000000000000000000000000000000000000000000000000000000000000000000000000000000000000000000000000000000000000000000000000000000000000000000000000000000000000000000000000000000000000000
    ensures Pow2(971) == 0x800000000000000000000000000000000000000000000000000000000000000000000000000000000000000000000000000000000000000000000000000000000000000000000000000000000000000000000000000000000000000000000000000000000000000000000000000000000000000000000000000
  {
    PowersUpTo1024();
    Pow2Add(32, 16);
    assert Pow2(48) == 0x1000000000000;
    assert Pow2(5) == 32;
    Pow2Add(48, 5);
    assert Pow2(53) == 0x20000000000000;
    Pow2Add(512, 256);
    assert Pow2(768) == 0x1000000000000000000000000000000000000000000000000000000000000000000000000000000000000000000000000000000000000000000000000000000000000000000000000000000000000000000000000000000000000000000000000;
    Pow2Add(768, 128);
    assert Pow2(896) == 0x100000000000000000000000000000000000000000000000000000000000000000000000000000000000000000000000000000000000000000000000000000000000000000000000000000000000000000000000000000000000000000000000000000000000000000000000000000000;
    Pow2Add(896, 64);
    assert Pow2(960) == 0x1000000000000000000000000000000000000000000000000000000000000000000000000000000000000000000000000000000000000000000000000000000000000000000000000000000000000000000000000000000000000000000000000000000000000000000000000000000000000000000000000;
    Pow2Add(960, 8);
    assert Pow2(968) == 0x100000000000000000000000000000000000000000000000000000000000000000000000000000000000000000000000000000000000000000000000000000000000000000000000000000000000000000000000000000000000000000000000000000000000000000000000000000000000000000000000000;
    assert Pow2(2) == 4;
    Pow2Add(968, 2);
    assert Pow2(970) == 0x400000000000000000000000000000000000000000000000000000000000000000000000000000000000000000000000000000000000000000000000000000000000000000000000000000000000000000000000000000000000000000000000000000000000000000000000000000000000000000000000000;
    Pow2Add(970, 1);
    assert Pow2(971) == 0x800000000000000000000000000000000000000000000000000000000000000000000000000000000000000000000000000000000000000000000000000000000000000000000000000000000000000000000000000000000000000000000000000000000000000000000000000000000000000000000000000;
  }

  /** The two constants are what their comments say, and `FloatOverflow` is
      the midpoint between the largest float64 and the next step up, 2^1024:
      since the largest float64 has an odd significand, half-to-even rounding
      sends the midpoint, and everything above it, to 2^1024. Each step
      doubles or adds exponents and names the power it reaches. */
  lemma FloatOverflowIsRoundingMidpoint()
    ensures MaxFloat == (Pow2(53) - 1) * Pow2(971)
    ensures MaxFloat + Pow2(971) == Pow2(1024)
    ensures FloatOverflow == Pow2(1024) - Pow2(970)
    ensures 2 * FloatOverflow == MaxFloat + Pow2(1024)
    ensures MaxFloat < FloatOverflow < Pow2(1024)
  {
    PowersUpTo1024();
    PowersBelow1024();
  }

  /** A number of smaller magnitude than `FloatOverflow`: it rounds to a finite float64. */
  predicate FiniteFloat(x: real) {
    -(FloatOverflow as real) < x < FloatOverflow as real
  }
}
