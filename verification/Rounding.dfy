/** Rounding to 28 digits as a function on numbers in one unit, and the laws
    that make decimal sums and products computable with it.  */
module Rounding {
  import opened Decimals

  /** The number left of x when the context rounds it to 28 digits. */
  function Rounded(x: nat): nat {
    RoundHalfEven(x, Pow10(Excess(x))) * Pow10(Excess(x))
  }

  /** Whether the remainder r rounds the quotient q up. */
  predicate RoundsUp(q: nat, r: nat, p: nat) {
    2 * r > p || (2 * r == p && q % 2 == 1)
  }

  /** Numbers are ordered by quotient first, then by remainder. */
  lemma QuotientOrder(q: nat, r: nat, s: nat, t: nat, p: nat)
    requires r < p && t < p && q * p + r <= s * p + t
    ensures q <= s && (q == s ==> r <= t)
  {
    if q > s {
      var d := q - s;
      assert q * p == s * p + d * p;
      assert d * p >= p by { MulOrder(p, p, d); }
    }
  }

  lemma DivMod(q: nat, p: nat, r: nat)
    requires r < p
    ensures (q * p + r) / p == q && (q * p + r) % p == r
  {
    var x := q * p + r;
    var a, b := x / p, x % p;
    assert x == a * p + b;
    QuotientOrder(q, r, a, b, p);
    QuotientOrder(a, b, q, r, p);
  }

  lemma RoundSplit(q: nat, p: nat, r: nat)
    requires r < p
    ensures RoundHalfEven(q * p + r, p) == if RoundsUp(q, r, p) then q + 1 else q
  {
    DivMod(q, p, r);
  }

  // ---------------------------------------------------------------- leading digits

  /** The 28 leading digits of a longer number, and the rest. */
  lemma {:induction false} LeadingDigits(x: nat) returns (q: nat, r: nat)
    requires x >= LIMIT
    ensures x == q * Pow10(Excess(x)) + r && r < Pow10(Excess(x))
    ensures LIMIT / 10 <= q < LIMIT && Excess(x) > 0
    decreases x
  {
    if x / 10 < LIMIT {
      q, r := x / 10, x % 10;
      assert Excess(x / 10) == 0;
      assert Pow10(0) == 1 && Pow10(1) == 10;
    } else {
      var s;
      q, s := LeadingDigits(x / 10);
      r := 10 * s + x % 10;
      var p := Pow10(Excess(x / 10));
      TimesTen(q, p, s);
    }
  }

  lemma TimesTen(q: nat, p: nat, s: nat)
    ensures 10 * (q * p + s) == q * (10 * p) + 10 * s
  {
    assert q * (10 * p) == 10 * (q * p);
  }

  /** A number with those leading digits has that many digits too many. */
  lemma {:induction false} ExcessOf(q: nat, k: nat, r: nat)
    requires LIMIT / 10 <= q < LIMIT && r < Pow10(k)
    ensures Excess(q * Pow10(k) + r) == k
  {
    if k > 0 {
      var p := Pow10(k - 1);
      var x := q * Pow10(k) + r;
      assert Pow10(k) == 10 * p;
      TimesTen(q, p, r / 10);
      assert x / 10 == q * p + r / 10;
      ExcessOf(q, k - 1, r / 10);
      assert q * p >= q by { MulOrder(q, q, p); }
      assert x >= LIMIT;
    }
  }

  /** How a number is rounded, by its leading digits. */
  lemma RoundedSplit(q: nat, k: nat, r: nat)
    requires LIMIT / 10 <= q < LIMIT && r < Pow10(k)
    ensures Rounded(q * Pow10(k) + r) == (if RoundsUp(q, r, Pow10(k)) then q + 1 else q) * Pow10(k)
  {
    ExcessOf(q, k, r);
    RoundSplit(q, Pow10(k), r);
  }

  lemma RoundedSmall(x: nat)
    requires x < LIMIT
    ensures Rounded(x) == x
  {
    assert Pow10(0) == 1;
    RoundSplit(x, 1, 0);
  }

  /** Rounding never brings a number below 28 digits again. */
  lemma RoundedLarge(x: nat)
    requires x >= LIMIT
    ensures Rounded(x) >= LIMIT
  {
    var q, r := LeadingDigits(x);
    var k := Excess(x);
    RoundedSplit(q, k, r);
    var p := Pow10(k - 1);
    assert Pow10(k) == 10 * p;
    Scaling(LIMIT / 10, q, 10 * p);
    Scaling(LIMIT / 10, if RoundsUp(q, r, Pow10(k)) then q + 1 else q, 10 * p);
    TimesTen(LIMIT / 10, p, 0);
    MulOrder(LIMIT, LIMIT, p);
    assert LIMIT / 10 * (10 * p) == LIMIT * p by { assert LIMIT == 10 * (LIMIT / 10); }
  }

  lemma Scaling(x: nat, y: nat, p: nat)
    requires x <= y
    ensures x * p <= y * p
  {
    assert (y - x) * p >= 0;
  }

  // ---------------------------------------------------------------- scaling

  lemma RoundedTimesTen(x: nat)
    ensures Rounded(10 * x) == 10 * Rounded(x)
  {
    if 10 * x < LIMIT {
      RoundedSmall(x);
      RoundedSmall(10 * x);
    } else if x < LIMIT {
      RoundedSmall(x);
      assert Pow10(0) == 1 && Pow10(1) == 10;
      RoundedSplit(x, 1, 0);
    } else {
      var q, r := LeadingDigits(x);
      var k := Excess(x);
      var p := Pow10(k);
      assert Pow10(k + 1) == 10 * p;
      TimesTen(q, p, r);
      RoundedSplit(q, k, r);
      RoundedSplit(q, k + 1, 10 * r);
      TimesTen(if RoundsUp(q, r, p) then q + 1 else q, p, 0);
    }
  }

  /** Rounding does not depend on the unit. */
  lemma {:induction false} RoundedShift(x: nat, j: nat)
    ensures Rounded(x * Pow10(j)) == Rounded(x) * Pow10(j)
  {
    if j == 0 {
      assert Pow10(0) == 1;
    } else {
      var p := Pow10(j - 1);
      RoundedShift(x, j - 1);
      RoundedTimesTen(x * p);
      TimesTen(x, p, 0);
      TimesTen(Rounded(x), p, 0);
    }
  }

  /** At most 28 digits, up to trailing zeros. */
  predicate FewDigits(x: nat) {
    x % Pow10(Excess(x)) == 0
  }

  /** Nothing is lost exactly on numbers of few digits. */
  lemma RoundedExactIff(x: nat)
    ensures Rounded(x) == x <==> FewDigits(x)
    ensures x < LIMIT ==> FewDigits(x)
  {
    if x < LIMIT {
      assert Pow10(0) == 1;
      RoundedSmall(x);
    } else {
      var q, r := LeadingDigits(x);
      var k := Excess(x);
      RoundedSplit(q, k, r);
      DivMod(q, Pow10(k), r);
      assert (q + 1) * Pow10(k) == q * Pow10(k) + Pow10(k);
    }
  }

  predicate IsShifted(x: nat, c: nat, j: nat) {
    c < LIMIT && x == c * Pow10(j)
  }

  /** They are the multiples of a power of ten by at most 28 digits. */
  lemma FewDigitsIff(x: nat)
    ensures FewDigits(x) <==> exists c: nat, j: nat :: IsShifted(x, c, j)
  {
    RoundedExactIff(x);
    if FewDigits(x) {
      if x < LIMIT {
        assert Pow10(0) == 1;
        assert IsShifted(x, x, 0);
      } else {
        var q, r := LeadingDigits(x);
        DivMod(q, Pow10(Excess(x)), r);
        assert IsShifted(x, q, Excess(x));
      }
    }
    if c: nat, j: nat :| IsShifted(x, c, j) {
      RoundedShift(c, j);
      RoundedSmall(c);
    }
  }

  // ---------------------------------------------------------------- order

  lemma {:induction false} ExcessMonotone(x: nat, y: nat)
    requires x <= y
    ensures Excess(x) <= Excess(y)
    decreases y
  {
    if x >= LIMIT { ExcessMonotone(x / 10, y / 10); }
  }

  lemma RoundedCeiling(x: nat)
    requires x >= LIMIT
    ensures LIMIT / 10 * Pow10(Excess(x)) <= Rounded(x) <= LIMIT * Pow10(Excess(x))
  {
    var q, r := LeadingDigits(x);
    var k := Excess(x);
    RoundedSplit(q, k, r);
    var up := if RoundsUp(q, r, Pow10(k)) then q + 1 else q;
    Scaling(LIMIT / 10, up, Pow10(k));
    Scaling(up, LIMIT, Pow10(k));
  }

  lemma RoundHalfEvenMonotone(q: nat, r: nat, s: nat, t: nat, p: nat)
    requires r < p && t < p && q * p + r <= s * p + t
    ensures (if RoundsUp(q, r, p) then q + 1 else q) <= (if RoundsUp(s, t, p) then s + 1 else s)
  {
    QuotientOrder(q, r, s, t, p);
  }

  lemma RoundedMonotone(x: nat, y: nat)
    requires x <= y
    ensures Rounded(x) <= Rounded(y)
  {
    ExcessMonotone(x, y);
    if x < LIMIT {
      RoundedSmall(x);
      if y < LIMIT { RoundedSmall(y); } else { RoundedLarge(y); }
    } else if Excess(x) == Excess(y) {
      var q, r := LeadingDigits(x);
      var s, t := LeadingDigits(y);
      var k := Excess(x);
      RoundedSplit(q, k, r);
      RoundedSplit(s, k, t);
      RoundHalfEvenMonotone(q, r, s, t, Pow10(k));
      Scaling(if RoundsUp(q, r, Pow10(k)) then q + 1 else q, if RoundsUp(s, t, Pow10(k)) then s + 1 else s, Pow10(k));
    } else {
      RoundedCeiling(x);
      RoundedCeiling(y);
      PowerStep(Excess(x), Excess(y));
    }
  }

  lemma PowerStep(k: nat, l: nat)
    requires k < l
    ensures LIMIT * Pow10(k) <= LIMIT / 10 * Pow10(l)
  {
    Pow10Add(l - 1 - k, k);
    assert Pow10(l) == 10 * Pow10(l - 1);
    TimesTen(LIMIT / 10, Pow10(l - 1), 0);
    assert LIMIT / 10 * (10 * Pow10(l - 1)) == LIMIT * Pow10(l - 1) by { assert LIMIT == 10 * (LIMIT / 10); }
    MulOrder(Pow10(k), Pow10(k), Pow10(l - 1 - k));
    assert Pow10(k) <= Pow10(l - 1);
    assert LIMIT * Pow10(k) <= LIMIT * Pow10(l - 1) by { Scaling(Pow10(k), Pow10(l - 1), LIMIT); }
  }

  // ---------------------------------------------------------------- decimals

  /** The value of a rounded decimal, in any unit that is fine enough. */
  lemma ValueOfFix(c: nat, m: int, e: int)
    requires e <= m
    ensures Fix(c, m).exp >= m && Fix(c, m).coef < LIMIT
    ensures Scaled(Fix(c, m), e) == Rounded(c) * Pow10(m - e)
  {
    if c < LIMIT {
      RoundedSmall(c);
    } else {
      var q, r := LeadingDigits(c);
      var k := Excess(c);
      RoundSplit(q, Pow10(k), r);
      var up := RoundHalfEven(c, Pow10(k));
      assert up <= LIMIT;
      Pow10Add(k, m - e);
      Regrouped(up, Pow10(k), Pow10(m - e));
      if up == LIMIT {
        assert Pow10(k + 1 + (m - e)) == 10 * Pow10(k + (m - e));
        assert LIMIT / 10 * (10 * Pow10(k + (m - e))) == LIMIT * Pow10(k + (m - e)) by {
          TimesTen(LIMIT / 10, Pow10(k + (m - e)), 0);
          assert LIMIT == 10 * (LIMIT / 10);
        }
      }
    }
  }

  lemma Regrouped(x: nat, y: nat, z: nat)
    ensures x * (y * z) == x * y * z
  {}

  /** A decimal sum, in any common unit, is the rounded sum; up to 28 digits
      it is exact.  */
  lemma AddAt(a: Dec, b: Dec, e: int)
    requires e <= a.exp && e <= b.exp
    ensures Add(a, b).exp >= e && Scaled(Add(a, b), e) == Rounded(Scaled(a, e) + Scaled(b, e))
    ensures Scaled(a, e) + Scaled(b, e) < LIMIT ==> Scaled(Add(a, b), e) == Scaled(a, e) + Scaled(b, e)
  {
    if Scaled(a, e) + Scaled(b, e) < LIMIT { RoundedSmall(Scaled(a, e) + Scaled(b, e)); }
    var m := Min(a.exp, b.exp);
    var x, y := Scaled(a, m), Scaled(b, m);
    ScaledFiner(a, m, e);
    ScaledFiner(b, m, e);
    ValueOfFix(x + y, m, e);
    RoundedSumShift(x, y, m - e);
  }

  lemma RoundedSumShift(x: nat, y: nat, j: nat)
    ensures Rounded(x + y) * Pow10(j) == Rounded(x * Pow10(j) + y * Pow10(j))
  {
    RoundedShift(x + y, j);
    Distributed(x, y, Pow10(j));
  }

  lemma Distributed(x: nat, y: nat, p: nat)
    ensures (x + y) * p == x * p + y * p
  {}

  /** A decimal product, in any unit that is fine enough, is the rounded product. */
  lemma MulAt(a: Dec, b: Dec, e: int)
    requires e <= a.exp + b.exp
    ensures Mul(a, b).exp >= e && Mul(a, b).coef < LIMIT
    ensures Scaled(Mul(a, b), e) == Rounded(a.coef * b.coef * Pow10(a.exp + b.exp - e))
  {
    ValueOfFix(a.coef * b.coef, a.exp + b.exp, e);
    RoundedShift(a.coef * b.coef, a.exp + b.exp - e);
  }
}
