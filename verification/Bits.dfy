/** Bitwise operators on 32-bit words as the page-table code uses them. */
module Bits {
  import opened Words

  function Pow2(k: nat): nat {
    if k == 0 then 1 else 2 * Pow2(k - 1)
  }

  /** `x | y`, bit by bit. */
  function Or(x: nat, y: nat): nat
    decreases x + y
  {
    if x == 0 && y == 0 then 0
    else 2 * Or(x / 2, y / 2) + if x % 2 == 1 || y % 2 == 1 then 1 else 0
  }

  /** `x & y`, bit by bit. */
  function And(x: nat, y: nat): nat
    decreases x + y
  {
    if x == 0 && y == 0 then 0
    else 2 * And(x / 2, y / 2) + if x % 2 == 1 && y % 2 == 1 then 1 else 0
  }

  /** `x << k` in 32 bits, for a literal power `p` of two. */
  function Shl(x: nat, p: nat): u32 {
    (x * p) % 0x1_0000_0000
  }

  lemma {:induction false} OrZero(x: nat)
    ensures Or(x, 0) == x
  {
    if x > 0 {
      OrZero(x / 2);
    }
  }

  /** Or of a field and the bits below it is addition. */
  lemma {:induction false} OrFields(h: nat, l: nat, k: nat)
    requires l < Pow2(k)
    ensures Or(h * Pow2(k), l) == h * Pow2(k) + l
    decreases k
  {
    if k == 0 {
      OrZero(h);
    } else {
      TimesPow2(h, k);
      OrFields(h, l / 2, k - 1);
      OrDouble(h * Pow2(k - 1), l);
    }
  }

  lemma OrDouble(z: nat, l: nat)
    requires Or(z, l / 2) == z + l / 2
    ensures Or(2 * z, l) == 2 * z + l
  {
  }

  lemma {:induction false} AndZero(x: nat)
    ensures And(0, x) == 0
  {
    if x > 0 {
      AndZero(x / 2);
    }
  }

  /** And with a mask of the low `k` bits keeps the low field. */
  lemma {:induction false} AndLow(h: nat, l: nat, k: nat)
    requires l < Pow2(k)
    ensures And(h * Pow2(k) + l, Pow2(k) - 1) == l
  {
    DoubledIs(h, k);
    AndLowDoubled(h, l, k);
  }

  lemma {:induction false} AndLowDoubled(h: nat, l: nat, k: nat)
    requires l < Pow2(k)
    ensures And(Doubled(h, k) + l, Pow2(k) - 1) == l
    decreases k
  {
    if k == 0 {
      AndZeroRight(h);
    } else {
      AndLowDoubled(h, l / 2, k - 1);
      var z, q := Doubled(h, k - 1), Pow2(k - 1) - 1;
      AndLowDouble(z, l, q);
      assert Doubled(h, k) + l == 2 * z + l && Pow2(k) - 1 == 2 * q + 1;
    }
  }

  lemma {:induction false} AndZeroRight(x: nat)
    ensures And(x, 0) == 0
  {
    if x > 0 {
      AndZeroRight(x / 2);
    }
  }

  /** One bit of `&`. */
  lemma {:induction false} AndStep(x: nat, y: nat)
    ensures And(x, y) == 2 * And(x / 2, y / 2) + if x % 2 == 1 && y % 2 == 1 then 1 else 0
  {
  }

  lemma Halves(z: nat, l: nat)
    ensures (2 * z + l) / 2 == z + l / 2 && (2 * z + l) % 2 == l % 2
  {
  }

  lemma {:induction false} AndLowDouble(z: nat, l: nat, q: nat)
    requires And(z + l / 2, q) == l / 2
    ensures And(2 * z + l, 2 * q + 1) == l
  {
    Halves(z, l);
    Halves(q, 1);
    var x, y := 2 * z + l, 2 * q + 1;
    AndStep(x, y);
    assert x / 2 == z + l / 2 && y / 2 == q && y % 2 == 1 && x % 2 == l % 2;
    assert l == 2 * (l / 2) + l % 2;
  }

  /** `x << k` as doublings. */
  function Doubled(x: nat, k: nat): nat {
    if k == 0 then x else 2 * Doubled(x, k - 1)
  }

  lemma {:induction false} DoubledIs(x: nat, k: nat)
    ensures Doubled(x, k) == x * Pow2(k)
  {
    if k > 0 {
      DoubledIs(x, k - 1);
      TimesPow2(x, k);
    }
  }

  /** And with a mask of the field above bit `k` clears the bits below. */
  lemma {:induction false} AndHigh(h: nat, l: nat, mask: nat, k: nat)
    requires l < Pow2(k)
    ensures And(Doubled(h, k) + l, Doubled(mask, k)) == Doubled(And(h, mask), k)
    decreases k
  {
    if k > 0 {
      AndHigh(h, l / 2, mask, k - 1);
      AndHighDouble(Doubled(h, k - 1), l, Doubled(mask, k - 1));
    }
  }

  lemma {:induction false} TimesPow2(a: nat, k: nat)
    requires k > 0
    ensures a * Pow2(k) == 2 * (a * Pow2(k - 1))
  {
    var p := Pow2(k - 1);
    assert a * (2 * p) == 2 * (a * p);
  }

  lemma {:induction false} AndHighDouble(z: nat, l: nat, w: nat)
    ensures And(2 * z + l, 2 * w) == 2 * And(z + l / 2, w)
  {
    Halves(z, l);
    Halves(w, 0);
    AndStep(2 * z + l, 2 * w);
  }

  lemma Powers()
    ensures Pow2(10) == 1024 && Pow2(12) == 4096 && Pow2(20) == 0x10_0000
  {
    assert Pow2(4) == 16;
    assert Pow2(8) == 256;
    assert Pow2(10) == 1024;
    assert Pow2(12) == 4096;
    assert Pow2(16) == 0x1_0000;
    assert Pow2(20) == 0x10_0000;
  }

  /** `x & ~0xfff` on a 32-bit word. */
  lemma AndPageMask(x: u32)
    ensures And(x, 0xffff_f000) == x - x % 4096
  {
    Powers();
    var h, l := x / 4096, x % 4096;
    AndHigh(h, l, 0xf_ffff, 12);
    DoubledIs(h, 12);
    DoubledIs(0xf_ffff, 12);
    DoubledIs(And(h, 0xf_ffff), 12);
    AndLow(0, h, 20);
  }

  /** `x & 0xfff`. */
  lemma AndOffset(x: u32)
    ensures And(x, 0xfff) == x % 4096
  {
    Powers();
    AndLow(x / 4096, x % 4096, 12);
  }

  /** `x & 1`. */
  lemma AndOne(x: nat)
    ensures And(x, 1) == x % 2
  {
    AndZeroRight(x / 2);
  }

  /** A page address or'ed with an offset. */
  lemma OrOffset(page: nat, offset: nat)
    requires offset < 4096
    ensures Or(page * 4096, offset) == page * 4096 + offset
  {
    Powers();
    OrFields(page, offset, 12);
  }

  /** A page number in bits 10 and up or'ed with ten flag bits. */
  lemma OrFlags(page: nat, flags: nat)
    requires flags < 1024
    ensures Or(page * 1024, flags) == page * 1024 + flags
  {
    Powers();
    OrFields(page, flags, 10);
  }
}
