/**
 * Python's integer bit operators on non-negative integers: `<<` (Shl), `|` (Or) and `&` (And),
 * defined bit by bit, with the facts the driver relies on: an OR of disjoint fields is their
 * sum, and AND with a contiguous mask extracts a field.
 */
module Bits {

  function Pow2(k: nat): (r: nat)
    ensures r >= 1
  {
    if k == 0 then 1 else 2 * Pow2(k - 1)
  }

  /** Python `x << k`. */
  function Shl(x: nat, k: nat): nat
  {
    x * Pow2(k)
  }

  /** Python `a | b`. */
  function Or(a: nat, b: nat): nat
    decreases a
  {
    if a == 0 then b
    else if b == 0 then a
    else 2 * Or(a / 2, b / 2) + (if a % 2 == 1 || b % 2 == 1 then 1 else 0)
  }

  /** Python `a & b`. */
  function And(a: nat, b: nat): nat
    decreases a
  {
    if a == 0 || b == 0 then 0
    else 2 * And(a / 2, b / 2) + (if a % 2 == 1 && b % 2 == 1 then 1 else 0)
  }

  /** The `width`-bit field of `v` that starts at bit `shift`. */
  function Field(v: nat, shift: nat, width: nat): nat
  {
    v / Pow2(shift) % Pow2(width)
  }

  /** A mask of `width` one-bits starting at bit `shift`. */
  function Mask(shift: nat, width: nat): nat
  {
    Shl(Pow2(width) - 1, shift)
  }

  lemma MulAssoc(x: int, y: int, z: int)
    ensures x * y * z == x * (y * z)
  {
  }

  lemma {:induction false} Pow2Add(j: nat, k: nat)
    ensures Pow2(j + k) == Pow2(j) * Pow2(k)
  {
    if j > 0 {
      Pow2Add(j - 1, k);
      MulAssoc(2, Pow2(j - 1), Pow2(k));
    }
  }

  lemma ShlShl(x: nat, j: nat, k: nat)
    ensures Shl(Shl(x, j), k) == Shl(x, j + k)
  {
    Pow2Add(j, k);
    MulAssoc(x, Pow2(j), Pow2(k));
  }

  lemma ShlAdd(x: nat, y: nat, k: nat)
    ensures Shl(x + y, k) == Shl(x, k) + Shl(y, k)
  {
    assert (x + y) * Pow2(k) == x * Pow2(k) + y * Pow2(k);
  }

  /** Shifting left by one more bit doubles. */
  lemma ShlSucc(x: nat, k: nat)
    requires k > 0
    ensures Shl(x, k) == 2 * Shl(x, k - 1)
  {
    assert x * (2 * Pow2(k - 1)) == 2 * (x * Pow2(k - 1));
  }

  /** Disjoint fields: OR-ing a value into the free low bits of a shifted value adds it. */
  lemma {:induction false} OrDisjoint(hi: nat, lo: nat, k: nat)
    requires lo < Pow2(k)
    ensures Or(Shl(hi, k), lo) == Shl(hi, k) + lo
  {
    if k == 0 {
      assert lo == 0;
    } else {
      ShlSucc(hi, k);
      var a := Shl(hi, k);
      if a != 0 && lo != 0 {
        assert a / 2 == Shl(hi, k - 1) && a % 2 == 0;
        OrDisjoint(hi, lo / 2, k - 1);
      }
    }
  }

  /** OR commutes with a common left shift. */
  lemma {:induction false} OrShl(a: nat, b: nat, k: nat)
    ensures Or(Shl(a, k), Shl(b, k)) == Shl(Or(a, b), k)
  {
    if k > 0 {
      ShlSucc(a, k);
      ShlSucc(b, k);
      ShlSucc(Or(a, b), k);
      var x, y := Shl(a, k), Shl(b, k);
      if x != 0 && y != 0 {
        assert x / 2 == Shl(a, k - 1) && x % 2 == 0;
        assert y / 2 == Shl(b, k - 1) && y % 2 == 0;
        OrShl(a, b, k - 1);
      } else if x == 0 {
        assert a == 0;
      } else {
        assert b == 0;
      }
    }
  }

  lemma DivMulUnique(v: nat, d: nat, q: nat, r: nat)
    requires d > 0 && v == d * q + r && r < d
    ensures v / d == q && v % d == r
  {
    var q', r' := v / d, v % d;
    assert d * q + r == d * q' + r';
    if q' < q {
      assert d * (q - q') == r' - r;
      MulAtLeast(d, q - q');
    } else if q < q' {
      assert d * (q' - q) == r - r';
      MulAtLeast(d, q' - q);
    }
  }

  lemma MulAtLeast(d: nat, x: nat)
    requires x >= 1
    ensures d * x >= d
  {
    assert d * x == d + d * (x - 1);
  }

  /** Splitting off the lowest bit: v mod 2p in terms of (v / 2) mod p. */
  lemma ModDouble(v: nat, p: nat)
    requires p > 0
    ensures v % (2 * p) == 2 * (v / 2 % p) + v % 2
    ensures v / (2 * p) == v / 2 / p
  {
    var h := v / 2;
    var q, r := h / p, h % p;
    assert h == p * q + r;
    assert v == 2 * h + v % 2;
    assert 2 * (p * q) == (2 * p) * q;
    DivMulUnique(v, 2 * p, q, 2 * r + v % 2);
  }

  /** AND with a run of `width` low one-bits keeps the value modulo 2^width. */
  lemma {:induction false} AndLowMask(v: nat, width: nat)
    ensures And(v, Pow2(width) - 1) == v % Pow2(width)
  {
    if width == 0 {
      assert Pow2(0) - 1 == 0;
    } else if v == 0 {
      assert 0 % Pow2(width) == 0;
    } else {
      AndLowMask(v / 2, width - 1);
      AndLowMaskStep(v, Pow2(width - 1));
    }
  }

  /** One bit of AndLowMask: the lowest bit of v survives the mask, the rest are ANDed with half of it. */
  lemma AndLowMaskStep(v: nat, p: nat)
    requires v > 0 && p > 0 && And(v / 2, p - 1) == v / 2 % p
    ensures And(v, 2 * p - 1) == v % (2 * p)
  {
    var m := 2 * p - 1;
    var half, low := v / 2, v % 2;
    assert And(v, m) == 2 * And(half, p - 1) + low by {
      assert m / 2 == p - 1 && m % 2 == 1;
    }
    assert v % (2 * p) == 2 * (half % p) + low by {
      ModDouble(v, p);
    }
    SameSplit(And(v, m), And(half, p - 1), half % p, low, v % (2 * p));
  }

  /** Two values split the same way into a doubled part and a low bit are equal. */
  lemma SameSplit(a: int, b: int, c: int, low: int, d: int)
    requires a == 2 * b + low && b == c && d == 2 * c + low
    ensures a == d
  {
  }

  /** AND with a contiguous mask extracts the field, left in place. */
  lemma {:induction false} AndMask(v: nat, shift: nat, width: nat)
    ensures And(v, Mask(shift, width)) == Shl(Field(v, shift, width), shift)
  {
    if shift == 0 {
      assert Mask(0, width) == Pow2(width) - 1 && Field(v, 0, width) == v % Pow2(width);
      AndLowMask(v, width);
    } else {
      var m, lower := Mask(shift, width), Mask(shift - 1, width);
      var f := Field(v, shift, width);
      assert m == 2 * lower by {
        ShlSucc(Pow2(width) - 1, shift);
      }
      assert Shl(f, shift) == 2 * Shl(f, shift - 1) by {
        ShlSucc(f, shift);
      }
      assert Field(v / 2, shift - 1, width) == f by {
        ModDouble(v, Pow2(shift - 1));
      }
      if v == 0 {
        assert f == 0 by {
          assert 0 / Pow2(shift) == 0;
        }
      } else if width == 0 {
        assert m == 0 && f == 0 by {
          assert Pow2(0) - 1 == 0;
        }
      } else {
        assert m != 0 by {
          MulAtLeast(Pow2(width) - 1, Pow2(shift));
        }
        assert And(v, m) == 2 * And(v / 2, lower) by {
          assert m / 2 == lower && m % 2 == 0;
        }
        AndMask(v / 2, shift - 1, width);
      }
    }
  }
}
