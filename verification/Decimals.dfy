/** Python's `Decimal` on non-negative values in the default context: exact
    comparison, and arithmetic rounded half-even to 28 significant digits.  */
module Decimals {
  import opened Json
  import opened Text

  /** coef * 10^exp */
  datatype Dec = Dec(coef: nat, exp: int)

  /** The first coefficient with more than 28 digits: 10^28. */
  const LIMIT: nat := 10_000_000_000_000_000_000_000_000_000

  function Pow10(n: nat): (p: nat)
    ensures p > 0
  {
    if n == 0 then 1 else 10 * Pow10(n - 1)
  }

  /** How many digits a coefficient has beyond 28. */
  function Excess(c: nat): (k: nat)
    ensures k == 0 <==> c < LIMIT
  {
    if c < LIMIT then 0 else 1 + Excess(c / 10)
  }

  /** c / p, rounded half to even. */
  function RoundHalfEven(c: nat, p: nat): nat
    requires p > 0
  {
    var q, r := c / p, c % p;
    if 2 * r > p || (2 * r == p && q % 2 == 1) then q + 1 else q
  }

  /** Rounds an exact result into the context. */
  function Fix(c: nat, e: int): Dec {
    if c < LIMIT then Dec(c, e)
    else
      var k := Excess(c);
      var q := RoundHalfEven(c, Pow10(k));
      if q < LIMIT then Dec(q, e + k) else Dec(q / 10, e + k + 1)
  }

  /** The value in units of 10^e. */
  function Scaled(d: Dec, e: int): nat
    requires e <= d.exp
  {
    d.coef * Pow10(d.exp - e)
  }

  function Min(a: int, b: int): int {
    if a < b then a else b
  }

  function Add(a: Dec, b: Dec): Dec {
    var e := Min(a.exp, b.exp);
    Fix(Scaled(a, e) + Scaled(b, e), e)
  }

  function Mul(a: Dec, b: Dec): Dec {
    Fix(a.coef * b.coef, a.exp + b.exp)
  }

  predicate Less(a: Dec, b: Dec) {
    var e := Min(a.exp, b.exp);
    Scaled(a, e) < Scaled(b, e)
  }

  predicate Equal(a: Dec, b: Dec) {
    var e := Min(a.exp, b.exp);
    Scaled(a, e) == Scaled(b, e)
  }

  lemma {:induction false} Pow10Add(m: nat, n: nat)
    ensures Pow10(m + n) == Pow10(m) * Pow10(n)
  {
    if m > 0 {
      Pow10Add(m - 1, n);
      assert Pow10(m + n) == 10 * Pow10(m - 1 + n);
    }
  }

  /** A value in finer units is a multiple of itself in coarser ones. */
  lemma ScaledFiner(d: Dec, e: int, f: int)
    requires f <= e <= d.exp
    ensures Scaled(d, f) == Scaled(d, e) * Pow10(e - f)
  {
    Pow10Add(d.exp - e, e - f);
    assert d.coef * (Pow10(d.exp - e) * Pow10(e - f)) == d.coef * Pow10(d.exp - e) * Pow10(e - f);
  }

  lemma MulOrder(x: nat, y: nat, p: nat)
    requires p > 0
    ensures x < y <==> x * p < y * p
    ensures x == y <==> x * p == y * p
    ensures x <= x * p
  {
    if x < y { assert (y - x) * p > 0; }
    if y < x { assert (x - y) * p > 0; }
    assert x * p == x + x * (p - 1);
  }

  /** Comparison does not depend on the units it is made in. */
  lemma CompareAt(a: Dec, b: Dec, e: int)
    requires e <= a.exp && e <= b.exp
    ensures Less(a, b) <==> Scaled(a, e) < Scaled(b, e)
    ensures Equal(a, b) <==> Scaled(a, e) == Scaled(b, e)
  {
    var m := Min(a.exp, b.exp);
    ScaledFiner(a, m, e);
    ScaledFiner(b, m, e);
    MulOrder(Scaled(a, m), Scaled(b, m), Pow10(m - e));
  }

  /** The position of the decimal point, or the length. */
  function Point(s: string): (k: nat)
    ensures k <= |s|
    ensures k < |s| ==> s[k] == '.'
    ensures '.' !in s[..k]
  {
    if s == "" || s[0] == '.' then 0 else 1 + Point(s[1..])
  }

  /** `CANONICAL_MONEY_VALUE_RE`, and the decimal the text denotes. */
  function MoneyText(s: string): Option<Dec> {
    var k := Point(s);
    if !IsCanonical(s[..k]) then None
    else if k == |s| then Some(Dec(NatOf(s), 0))
    else if IsDigits(s[k + 1..]) then Some(Dec(NatOf(s[..k] + s[k + 1..]), -|s[k + 1..]|))
    else None
  }

  /** What `decimal_amount_failures` accepts, as a decimal.  `floatText` is
      `Decimal(str(x))` on a float, refused when negative.  */
  function AmountOf(value: Json, floatText: real -> Option<Dec>): Option<Dec> {
    match value
    case Str(s) => MoneyText(s)
    case Int(i) => if i >= 0 then Some(Dec(i, 0)) else None
    case Float(r) => floatText(r)
    case _ => None
  }
}
