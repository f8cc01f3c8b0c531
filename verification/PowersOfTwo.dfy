/** The powers of two that sizes, masks and word values are made of. */
module PowersOfTwo {
  function Two(e: nat): nat {
    if e == 0 then 1 else 2 * Two(e - 1)
  }

  lemma TwoPositive(e: nat)
    ensures Two(e) > 0
  {
  }

  lemma Regroup(x: nat, y: nat)
    ensures 2 * (x * y) == (2 * x) * y
  {
  }

  lemma {:induction false} TwoPlus(a: nat, b: nat)
    ensures Two(a + b) == Two(a) * Two(b)
    decreases a
  {
    if a > 0 {
      TwoPlus(a - 1, b);
      Regroup(Two(a - 1), Two(b));
      assert a + b - 1 == a - 1 + b;
    }
  }

  lemma SmallPowers()
    ensures Two(8) == 0x100 && Two(31) == 0x8000_0000 && Two(32) == 0x1_0000_0000
  {
    assert Two(4) == 0x10 && Two(8) == 0x100 && Two(16) == 0x10000 && Two(24) == 0x1000000;
  }
}
