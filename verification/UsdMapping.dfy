/** `independent_mapping_expectations` and `classify_eligible_source`: amounts
    in USD to minor and atomic units, and the validity window.  */
module UsdMapping {
  import opened Json
  import opened Text
  import opened Decimals
  import opened Rounding
  import DecimalText

  const UINT256_BOUND: nat := 0x1_0000000000000000_0000000000000000_0000000000000000_0000000000000000

  /** `parse_usd_decimal`: at most two fraction digits. */
  function Usd(text: string): Option<Dec> {
    match MoneyText(text)
    case None => None
    case Some(d) => if d.exp >= -2 then Some(d) else None
  }

  /** `exact_integral_decimal`; None stands for the raised `CheckFailure`. */
  function ExactInteger(d: Dec): Option<nat> {
    if !Integral(d) || IntegerValue(d) >= UINT256_BOUND then None else Some(IntegerValue(d))
  }

  predicate Divides(p: nat, c: nat)
    requires p > 0
  {
    c % p == 0
  }

  predicate Integral(d: Dec) {
    d.exp >= 0 || Divides(Pow10(-d.exp), d.coef)
  }

  function Times(c: nat, p: nat): nat { c * p }

  function Quotient(c: nat, p: nat): nat
    requires p > 0
  {
    c / p
  }

  function IntegerValue(d: Dec): nat {
    if d.exp >= 0 then Times(d.coef, Pow10(d.exp)) else Quotient(d.coef, Pow10(-d.exp))
  }

  /** Python's `min(a, b)`. */
  function MinDec(a: Dec, b: Dec): Dec {
    if Less(b, a) then b else a
  }

  const HUNDRED := Dec(100, 0)

  function Minor(amount: Dec): Option<nat> {
    ExactInteger(Mul(amount, HUNDRED))
  }

  /** `Decimal(10) ** decimals`. */
  function Scale(decimals: nat): Dec {
    Fix(Pow10(decimals), 0)
  }

  function Atomic(amount: Dec, units: Dec, decimals: nat): Option<nat> {
    ExactInteger(Mul(Mul(amount, units), Scale(decimals)))
  }

  datatype Class = Allow | Overrun | Stale

  /** The fields read from the admission request, the mandate and the worksheet. */
  datatype Source = Source(
    requestCurrency: Json, limitCurrency: Json,
    request: string, limit: string,
    unitsPerUsd: string, decimals: nat, timeout: int,
    issuedAt: int, requestExpiry: int, mandateExpiry: int, windowEnd: int)

  /** `classify_eligible_source`. */
  function Classify(s: Source): Option<Class> {
    match (Usd(s.request), Usd(s.limit))
    case (Some(request), Some(limit)) =>
      var overrun, stale := Less(limit, request), s.issuedAt > s.windowEnd;
      if overrun && stale then None
      else Some(if overrun then Overrun else if stale then Stale else Allow)
    case _ => None
  }

  datatype Expectations = Expectations(
    now: int, validBefore: int, limitMinor: nat, permittedMinor: nat, requestedAtomic: nat, permittedAtomic: nat)

  function Min3(a: int, b: int, c: int): int {
    Min(Min(a, b), c)
  }

  /** `independent_mapping_expectations`. */
  function Expect(s: Source): Option<(Expectations, Class)> {
    if !(PyEq(s.requestCurrency, Str("USD")) && PyEq(s.limitCurrency, Str("USD"))) then None
    else match (Usd(s.request), Usd(s.limit), MoneyText(s.unitsPerUsd))
      case (Some(request), Some(limit), Some(units)) =>
        var permitted := MinDec(request, limit);
        if s.decimals > 36 || units.coef == 0 || s.timeout <= 0 then None
        else (
          match (Minor(request), Minor(limit), Minor(permitted),
                 Atomic(request, units, s.decimals), Atomic(permitted, units, s.decimals), Classify(s))
          case (Some(_), Some(limitMinor), Some(permittedMinor), Some(requestedAtomic), Some(permittedAtomic), Some(class_)) =>
            Some((Expectations(s.issuedAt,
              Min(Min3(s.requestExpiry, s.mandateExpiry, s.windowEnd), s.issuedAt + s.timeout),
              limitMinor, permittedMinor, requestedAtomic, permittedAtomic), class_))
          case _ => None)
      case _ => None
  }

  // ---------------------------------------------------------------- minor units

  lemma ExcessOfHundreds(c: nat)
    ensures Excess(c * 100) == if c < LIMIT / 100 then 0 else if c < LIMIT / 10 then 1 else 2 + Excess(c)
  {
    if c >= LIMIT / 100 {
      assert c * 100 / 10 == c * 10;
      if c >= LIMIT / 10 { assert c * 10 / 10 == c; }
    }
  }

  lemma SmallPowers()
    ensures Pow10(0) == 1 && Pow10(1) == 10 && Pow10(2) == 100
  {
    assert Pow10(1) == 10 * Pow10(0);
    assert Pow10(2) == 10 * Pow10(1);
  }

  lemma IntegralFrom(c: nat, e: int)
    requires e >= 0 || (e == -1 && c % 10 == 0) || (e == -2 && c % 100 == 0)
    ensures Integral(Dec(c, e))
    ensures IntegerValue(Dec(c, e)) == if e >= 0 then c * Pow10(e) else if e == -1 then c / 10 else c / 100
  {
    SmallPowers();
  }

  lemma OneDigitLess(c: nat)
    ensures RoundHalfEven(c * 100, 10) == c * 10 && RoundHalfEven(c * 100, 100) == c
  {}

  /** What rounding leaves of a hundredfold. */
  lemma FixHundreds(c: nat, e: int)
    requires -2 <= e <= 0
    ensures c < LIMIT / 100 ==> Fix(c * 100, e) == Dec(c * 100, e)
    ensures LIMIT / 100 <= c < LIMIT / 10 ==> Fix(c * 100, e) == Dec(c * 10, e + 1)
    ensures LIMIT / 10 <= c < LIMIT ==> Fix(c * 100, e) == Dec(c, e + 2)
    ensures c >= LIMIT ==> Fix(c * 100, e).exp >= 0
  {
    SmallPowers();
    ExcessOfHundreds(c);
    OneDigitLess(c);
  }

  lemma HundredRead(c: nat, e: int, d: Dec)
    requires -2 <= e <= 0
    requires c < LIMIT / 100 ==> d == Dec(c * 100, e)
    requires LIMIT / 100 <= c < LIMIT / 10 ==> d == Dec(c * 10, e + 1)
    requires LIMIT / 10 <= c < LIMIT ==> d == Dec(c, e + 2)
    requires c >= LIMIT ==> d.exp >= 0
    ensures Integral(d)
    ensures c < LIMIT ==> IntegerValue(d) == if e == 0 then c * 100 else if e == -1 then c * 10 else c
  {
    SmallPowers();
    if c < LIMIT / 100 {
      IntegralFrom(c * 100, e);
    } else if c < LIMIT / 10 {
      IntegralFrom(c * 10, e + 1);
      assert (e == 0 ==> Pow10(e + 1) == 10) && (e == -1 ==> Pow10(e + 1) == 1);
    } else if c < LIMIT {
      IntegralFrom(c, e + 2);
    } else {
      IntegralFrom(d.coef, d.exp);
    }
  }

  /** A hundredfold, rounded: exact while the amount has at most 28 digits. */
  lemma HundredFold(c: nat, e: int)
    requires -2 <= e <= 0
    ensures Integral(Fix(c * 100, e))
    ensures c < LIMIT ==> IntegerValue(Fix(c * 100, e)) == if e == 0 then c * 100 else if e == -1 then c * 10 else c
  {
    FixHundreds(c, e);
    HundredRead(c, e, Fix(c * 100, e));
  }

  /** The conversion to minor units is never refused as fractional: it fails
      only at the uint256 bound.  */
  lemma MinorNeverFractional(amount: Dec)
    requires -2 <= amount.exp <= 0
    ensures Minor(amount).None? <==> IntegerValue(Mul(amount, HUNDRED)) >= UINT256_BOUND
    ensures amount.coef < LIMIT ==> Minor(amount) == Some(Cents(amount))
  {
    HundredFold(amount.coef, amount.exp);
    SmallPowers();
  }

  /** An amount with at most two fraction digits, in cents. */
  function Cents(amount: Dec): nat
    requires -2 <= amount.exp
  {
    Scaled(amount, -2)
  }

  lemma UsdExponent(text: string)
    requires Usd(text).Some?
    ensures -2 <= Usd(text).value.exp <= 0
  {}

  /** The expected minor amounts: the limit, and the smaller of request and
      limit, both to the cent.  */
  lemma MinorAmounts(s: Source)
    requires Expect(s).Some? && Usd(s.request).value.coef < LIMIT && Usd(s.limit).value.coef < LIMIT
    ensures var x := Expect(s).value.0;
      && x.limitMinor == Cents(Usd(s.limit).value)
      && x.permittedMinor == Min(Cents(Usd(s.request).value), Cents(Usd(s.limit).value))
  {
    var request, limit := Usd(s.request).value, Usd(s.limit).value;
    UsdExponent(s.request);
    UsdExponent(s.limit);
    MinorNeverFractional(request);
    MinorNeverFractional(limit);
    CompareAt(limit, request, -2);
    ExpectFields(s);
  }

  lemma ExpectFields(s: Source)
    requires Expect(s).Some?
    ensures Usd(s.request).Some? && Usd(s.limit).Some? && MoneyText(s.unitsPerUsd).Some?
    ensures var request, limit, units := Usd(s.request).value, Usd(s.limit).value, MoneyText(s.unitsPerUsd).value;
      var (x, class_) := Expect(s).value;
      && Minor(request).Some? && Minor(limit) == Some(x.limitMinor)
      && Minor(MinDec(request, limit)) == Some(x.permittedMinor)
      && Atomic(request, units, s.decimals) == Some(x.requestedAtomic)
      && Atomic(MinDec(request, limit), units, s.decimals) == Some(x.permittedAtomic)
      && Classify(s) == Some(class_) && units.coef > 0
  {}

  // ---------------------------------------------------------------- atomic units

  /** amount * units * 10^decimals without rounding. */
  function ExactProduct(amount: Dec, factor: nat, exp: int): Dec {
    Dec(amount.coef * factor, amount.exp + exp)
  }

  /** The two rounded products and the rounded power lost nothing. */
  predicate ConversionExact(amount: Dec, units: Dec, decimals: nat) {
    Equal(Mul(Mul(amount, units), Scale(decimals)), ExactProduct(amount, units.coef * Pow10(decimals), units.exp))
  }

  lemma IntegerIsValue(d: Dec)
    requires Integral(d)
    ensures Equal(d, Dec(IntegerValue(d), 0))
  {
    var v := IntegerValue(d);
    if d.exp >= 0 {
      CompareAt(d, Dec(v, 0), 0);
      assert Pow10(0) == 1;
    } else {
      var p := Pow10(-d.exp);
      assert d.coef == d.coef / p * p;
      CompareAt(d, Dec(v, 0), d.exp);
      assert Pow10(0) == 1;
    }
  }

  lemma LessCongruent(a: Dec, b: Dec, c: Dec, d: Dec)
    requires Equal(a, b) && Equal(c, d)
    ensures Less(a, c) <==> Less(b, d)
  {
    var e := Min(Min(a.exp, b.exp), Min(c.exp, d.exp));
    CompareAt(a, b, e);
    CompareAt(c, d, e);
    CompareAt(a, c, e);
    CompareAt(b, d, e);
  }

  lemma LimitIsPower()
    ensures Pow10(27) == LIMIT / 10
  {
    assert Pow10(9) == 1_000_000_000 by {
      SmallPowers();
      assert Pow10(3) == 1000;
      Pow10Add(3, 3);
      Pow10Add(6, 3);
    }
    Pow10Add(9, 9);
    Pow10Add(18, 9);
  }

  /** `Decimal(10) ** decimals` is exact, as a power of ten times another. */
  lemma ScaleIsPower(decimals: nat) returns (j: nat, n: nat)
    ensures Scale(decimals) == Dec(Pow10(j), n) && j + n == decimals
  {
    if decimals <= 27 {
      j, n := decimals, 0;
      LimitIsPower();
      Pow10Add(decimals, 27 - decimals);
      MulOrder(Pow10(decimals), Pow10(decimals), Pow10(27 - decimals));
    } else {
      j, n := 27, decimals - 27;
      LimitIsPower();
      Pow10Add(27, n);
      ExcessOf(LIMIT / 10, n, 0);
      RoundSplit(LIMIT / 10, Pow10(n), 0);
    }
  }

  /** The second product never rounds: what it multiplies has at most 28
      digits already, and the factor is a power of ten.  */
  lemma ScaledByPower(d: Dec, decimals: nat, e: int)
    requires d.coef < LIMIT && e <= d.exp
    ensures Mul(d, Scale(decimals)).exp >= e
    ensures Scaled(Mul(d, Scale(decimals)), e) == Scaled(d, e) * Pow10(decimals)
  {
    var j, n := ScaleIsPower(decimals);
    var m := d.exp - e;
    MulAt(d, Dec(Pow10(j), n), e);
    PowersOf(d.coef, j, n + m);
    PowersOf(d.coef, m, decimals);
    assert d.exp + n - e == n + m && j + (n + m) == m + decimals;
    RoundedShift(d.coef, m + decimals);
    RoundedSmall(d.coef);
  }

  lemma PowersOf(c: nat, j: nat, n: nat)
    ensures c * Pow10(j) * Pow10(n) == c * Pow10(j + n)
  {
    Pow10Add(j, n);
    Regrouped(c, Pow10(j), Pow10(n));
  }

  /** The exact digits of amount * units. */
  function Digits(amount: Dec, units: Dec): nat {
    amount.coef * units.coef
  }

  /** The atomic amount is the once rounded product, scaled exactly. */
  lemma AtomicValue(amount: Dec, units: Dec, decimals: nat)
    ensures Equal(Mul(Mul(amount, units), Scale(decimals)),
                  Dec(Rounded(Digits(amount, units)) * Pow10(decimals), amount.exp + units.exp))
  {
    var e := amount.exp + units.exp;
    var x := Mul(amount, units);
    MulAt(amount, units, e);
    assert Pow10(0) == 1;
    ScaledByPower(x, decimals, e);
    CompareAt(Mul(x, Scale(decimals)), Dec(Rounded(Digits(amount, units)) * Pow10(decimals), e), e);
  }

  /** The conversion is exact if and only if the digits of amount and units
      multiply to at most 28 digits, up to trailing zeros.  */
  lemma ConversionExactIff(amount: Dec, units: Dec, decimals: nat)
    ensures ConversionExact(amount, units, decimals) <==> FewDigits(Digits(amount, units))
    ensures Digits(amount, units) < LIMIT ==> ConversionExact(amount, units, decimals)
  {
    var e, p := amount.exp + units.exp, Pow10(decimals);
    var x := Mul(Mul(amount, units), Scale(decimals));
    AtomicValue(amount, units, decimals);
    Regrouped(amount.coef, units.coef, p);
    EqualCongruent(x, Dec(Rounded(Digits(amount, units)) * p, e), Dec(Digits(amount, units) * p, e));
    CompareAt(Dec(Rounded(Digits(amount, units)) * p, e), Dec(Digits(amount, units) * p, e), e);
    assert Pow10(0) == 1;
    MulOrder(Rounded(Digits(amount, units)), Digits(amount, units), p);
    RoundedExactIff(Digits(amount, units));
  }

  lemma EqualCongruent(a: Dec, b: Dec, c: Dec)
    requires Equal(a, b)
    ensures Equal(a, c) <==> Equal(b, c)
  {
    var e := Min(Min(a.exp, b.exp), c.exp);
    CompareAt(a, b, e);
    CompareAt(a, c, e);
    CompareAt(b, c, e);
  }

  // ---------------------------------------------------------------- order

  /** Scaling by a power of ten keeps order. */
  lemma ScaleOrder(x: Dec, y: Dec, decimals: nat)
    requires x.coef < LIMIT && y.coef < LIMIT
    ensures Less(Mul(x, Scale(decimals)), Mul(y, Scale(decimals))) <==> Less(x, y)
  {
    var e := Min(x.exp, y.exp);
    ScaledByPower(x, decimals, e);
    ScaledByPower(y, decimals, e);
    CompareAt(Mul(x, Scale(decimals)), Mul(y, Scale(decimals)), e);
    MulOrder(Scaled(x, e), Scaled(y, e), Pow10(decimals));
  }

  /** Atomic amounts are ordered as the once rounded products are. */
  lemma AtomicOrder(a: Dec, b: Dec, units: Dec, decimals: nat)
    requires Atomic(a, units, decimals).Some? && Atomic(b, units, decimals).Some?
    ensures Atomic(a, units, decimals).value < Atomic(b, units, decimals).value <==> Less(Mul(a, units), Mul(b, units))
  {
    var x, y := Mul(Mul(a, units), Scale(decimals)), Mul(Mul(b, units), Scale(decimals));
    MulAt(a, units, a.exp + units.exp);
    MulAt(b, units, b.exp + units.exp);
    ScaleOrder(Mul(a, units), Mul(b, units), decimals);
    IntegerIsValue(x);
    IntegerIsValue(y);
    LessCongruent(x, Dec(IntegerValue(x), 0), y, Dec(IntegerValue(y), 0));
    assert Pow10(0) == 1;
  }

  /** And as the amounts themselves when the conversions are exact. */
  lemma ExactAtomicOrder(a: Dec, b: Dec, units: Dec, decimals: nat)
    requires Atomic(a, units, decimals).Some? && Atomic(b, units, decimals).Some? && units.coef > 0
    requires FewDigits(Digits(a, units)) && FewDigits(Digits(b, units))
    ensures Atomic(a, units, decimals).value < Atomic(b, units, decimals).value <==> Less(a, b)
  {
    AtomicOrder(a, b, units, decimals);
    if Less(a, b) { ProductOrder(a, b, units); } else { ProductMonotone(b, a, units); }
  }

  lemma ProductUnits(a: Dec, units: Dec, e: int)
    requires e <= a.exp
    ensures Mul(a, units).exp >= e + units.exp
    ensures Scaled(Mul(a, units), e + units.exp) == Rounded(Scaled(a, e) * units.coef)
  {
    MulAt(a, units, e + units.exp);
    assert a.exp + units.exp - (e + units.exp) == a.exp - e;
    Rearranged(a.coef, units.coef, Pow10(a.exp - e));
  }

  /** Rounding may make products equal, but never swaps them. */
  lemma ProductMonotone(a: Dec, b: Dec, units: Dec)
    requires !Less(b, a)
    ensures !Less(Mul(b, units), Mul(a, units))
  {
    var e := Min(a.exp, b.exp);
    ProductUnits(a, units, e);
    ProductUnits(b, units, e);
    Scaling(Scaled(a, e), Scaled(b, e), units.coef);
    RoundedMonotone(Scaled(a, e) * units.coef, Scaled(b, e) * units.coef);
    CompareAt(Mul(b, units), Mul(a, units), e + units.exp);
  }

  /** Products of few digits keep strict order. */
  lemma ProductOrder(a: Dec, b: Dec, units: Dec)
    requires units.coef > 0 && FewDigits(Digits(a, units)) && FewDigits(Digits(b, units)) && Less(a, b)
    ensures Less(Mul(a, units), Mul(b, units))
  {
    var e := Min(a.exp, b.exp);
    ProductUnits(a, units, e);
    ProductUnits(b, units, e);
    ExactUnits(a, units, e);
    ExactUnits(b, units, e);
    MulOrder(Scaled(a, e), Scaled(b, e), units.coef);
    CompareAt(Mul(a, units), Mul(b, units), e + units.exp);
  }

  lemma ExactUnits(a: Dec, units: Dec, e: int)
    requires e <= a.exp && FewDigits(Digits(a, units))
    ensures Rounded(Scaled(a, e) * units.coef) == Scaled(a, e) * units.coef
  {
    RoundedExactIff(Digits(a, units));
    RoundedShift(Digits(a, units), a.exp - e);
    Rearranged(a.coef, units.coef, Pow10(a.exp - e));
  }

  lemma Rearranged(x: nat, y: nat, z: nat)
    ensures x * y * z == x * z * y
  {}

  lemma LessIrreflexive(a: Dec)
    ensures !Less(a, a)
  {}

  /** For every accepted source: the permitted atomic amount falls short of
      the requested one if and only if the class is overrun and the two once
      rounded products differ.  In particular it never falls short otherwise,
      and never exceeds it.  */
  lemma ShortfallExactly(s: Source)
    requires Expect(s).Some?
    ensures var (x, class_) := Expect(s).value;
      var request, limit, units := Usd(s.request).value, Usd(s.limit).value, MoneyText(s.unitsPerUsd).value;
      && (x.permittedAtomic < x.requestedAtomic <==> class_ == Overrun && Less(Mul(limit, units), Mul(request, units)))
      && (x.permittedAtomic < x.requestedAtomic ==> class_ == Overrun)
      && x.permittedAtomic <= x.requestedAtomic
  {
    ExpectFields(s);
    var request, limit, units := Usd(s.request).value, Usd(s.limit).value, MoneyText(s.unitsPerUsd).value;
    var permitted := MinDec(request, limit);
    AtomicOrder(permitted, request, units, s.decimals);
    AtomicOrder(request, permitted, units, s.decimals);
    MinIsLess(request, limit);
    ProductMonotone(permitted, request, units);
    LessIrreflexive(Mul(request, units));
  }

  lemma MinIsLess(request: Dec, limit: Dec)
    ensures !Less(request, MinDec(request, limit))
  {
    var e := Min(request.exp, limit.exp);
    CompareAt(request, limit, e);
    CompareAt(limit, request, e);
    LessIrreflexive(request);
  }

  /** When request and limit both convert within 28 digits, up to trailing
      zeros, the permitted atomic amount falls short of the requested one
      exactly for an overrun.  */
  lemma ShortfallIffOverrun(s: Source)
    requires Expect(s).Some?
    requires FewDigits(Digits(Usd(s.request).value, MoneyText(s.unitsPerUsd).value))
    requires FewDigits(Digits(Usd(s.limit).value, MoneyText(s.unitsPerUsd).value))
    ensures var (x, class_) := Expect(s).value;
      x.permittedAtomic < x.requestedAtomic <==> class_ == Overrun
  {
    ExpectFields(s);
    ShortfallExactly(s);
    var request, limit, units := Usd(s.request).value, Usd(s.limit).value, MoneyText(s.unitsPerUsd).value;
    if Less(limit, request) { ProductOrder(limit, request, units); }
  }

  /** 10^28 - 1. */
  const NINES: nat := 9_999_999_999_999_999_999_999_999_999

  lemma NinesRound()
    ensures Mul(Dec(NINES, -2), Dec(11, -1)) == Mul(Dec(NINES - 1, -2), Dec(11, -1)) == Dec(LIMIT / 10 + LIMIT / 100, -1)
    ensures Less(Dec(NINES - 1, -2), Dec(NINES, -2))
  {
    SmallPowers();
    var x, y := NINES * 11, (NINES - 1) * 11;
    assert Excess(x / 10 / 10) == 0 && Excess(x / 10) == 1 && Excess(x) == 2;
    assert Excess(y / 10 / 10) == 0 && Excess(y / 10) == 1 && Excess(y) == 2;
  }

  lemma NinesConvert(coef: nat)
    requires coef == NINES || coef == NINES - 1
    ensures Minor(Dec(coef, -2)).Some? && Atomic(Dec(coef, -2), Dec(11, -1), 0).Some?
  {
    var c := LIMIT / 10 + LIMIT / 100;
    NinesRound();
    MinorNeverFractional(Dec(coef, -2));
    HundredFold(coef, -2);
    assert Scale(0) == Dec(1, 0) by { assert Pow10(0) == 1; }
    assert Mul(Dec(c, -1), Dec(1, 0)) == Dec(c, -1);
    IntegralFrom(c, -1);
  }

  /** A source whose fields are read and converted is accepted; its class is
      overrun when the request exceeds the limit inside the window.  */
  lemma AcceptedOverrun(s: Source, request: Dec, limit: Dec, units: Dec)
    requires s.requestCurrency == s.limitCurrency == Str("USD")
    requires Usd(s.request) == Some(request) && Usd(s.limit) == Some(limit) && MoneyText(s.unitsPerUsd) == Some(units)
    requires Less(limit, request) && s.issuedAt <= s.windowEnd && s.decimals <= 36 && units.coef > 0 && s.timeout > 0
    requires Minor(request).Some? && Minor(limit).Some?
    requires Atomic(request, units, s.decimals).Some? && Atomic(limit, units, s.decimals).Some?
    ensures Expect(s).Some? && Expect(s).value.1 == Overrun
  {}

  /** A request a cent over its limit, at 1.1 asset units per USD. */
  function CentOver(): Source {
    Source(Str("USD"), Str("USD"), DecimalText.TextOf(NINES, 2), DecimalText.TextOf(NINES - 1, 2),
      DecimalText.TextOf(11, 1), 0, 1, 0, 0, 0, 0)
  }

  /** Without the digit condition it fails: an accepted source of class overrun
      whose two atomic amounts coincide.  */
  lemma RoundingHidesShortfall()
    ensures Expect(CentOver()).Some?
    ensures var (x, class_) := Expect(CentOver()).value; class_ == Overrun && x.permittedAtomic == x.requestedAtomic
  {
    var s := CentOver();
    DecimalText.MoneyTextOf(NINES, 2);
    DecimalText.MoneyTextOf(NINES - 1, 2);
    DecimalText.MoneyTextOf(11, 1);
    NinesRound();
    NinesConvert(NINES);
    NinesConvert(NINES - 1);
    AcceptedOverrun(s, Dec(NINES, -2), Dec(NINES - 1, -2), Dec(11, -1));
    ShortfallExactly(s);
    LessIrreflexive(Mul(Dec(NINES, -2), Dec(11, -1)));
  }

  // ---------------------------------------------------------------- validity window

  /** validBefore lies before the evaluation time exactly when a source window
      has closed; class `stale` is one such case.  */
  lemma ExpiredIff(s: Source)
    requires Expect(s).Some?
    ensures var (x, class_) := Expect(s).value;
      && (x.validBefore < x.now <==> Min3(s.requestExpiry, s.mandateExpiry, s.windowEnd) < s.issuedAt)
      && (class_ == Stale ==> x.validBefore < x.now)
      && (class_ == Stale <==> s.windowEnd < s.issuedAt)
  {
    ExpectFields(s);
  }
}
