/** `iter_post_execution_side_effect_failures`: the running total of the
    amounts an execution reports, against the admitted maximum.  */
module SideEffects {
  import opened Json
  import opened Decimals
  import opened Oracles
  import opened Rounding
  import DecimalText

  /** `actual_decision` of an admission receipt. */
  function Decision(admission: Object): string {
    var d := Get(admission, "decision");
    if d.Obj? && Get(d.fields, "outcome").Str? then Get(d.fields, "outcome").s else "missing"
  }

  /** `admitted_effective_constraints`. */
  function Constraints(admission: Object): Object {
    var attenuation, request := Get(admission, "attenuation"), Get(admission, "request");
    if Decision(admission) == "attenuate" && attenuation.Obj? && Get(attenuation.fields, "effective_constraints").Obj?
    then Get(attenuation.fields, "effective_constraints").fields
    else if request.Obj? && Get(request.fields, "constraints").Obj? then Get(request.fields, "constraints").fields
    else map[]
  }

  datatype Boundary = Boundary(currency: string, limit: Dec)

  /** The admitted maximum, when it is well formed. */
  function AdmittedBoundary(env: Env, admission: Object): Option<Boundary> {
    var m := Get(Constraints(admission), "max_amount");
    if !m.Obj? then None
    else match (Get(m.fields, "currency"), AmountOf(Get(m.fields, "value"), env.floatText))
      case (Str(c), Some(limit)) => Some(Boundary(c, limit))
      case _ => None
  }

  /** A side effect that carries an amount at all. */
  predicate Carries(effect: Json) {
    effect.Obj? && "amount" in effect.fields
  }

  /** The amount of a side effect, when it is valid and in the admitted currency. */
  function ValidAmount(env: Env, b: Boundary, effect: Json): Option<Dec>
    requires Carries(effect)
  {
    var amount := effect.fields["amount"];
    if amount.Obj? && PyEq(Get(amount.fields, "currency"), Str(b.currency))
    then AmountOf(Get(amount.fields, "value"), env.floatText) else None
  }

  predicate AllValid(env: Env, b: Boundary, effects: seq<Json>) {
    forall k :: 0 <= k < |effects| && Carries(effects[k]) ==> ValidAmount(env, b, effects[k]).Some?
  }

  function Amount(env: Env, b: Boundary, effect: Json): seq<Dec> {
    if Carries(effect) && ValidAmount(env, b, effect).Some? then [ValidAmount(env, b, effect).value] else []
  }

  /** The valid amounts, in order. */
  function Amounts(env: Env, b: Boundary, effects: seq<Json>): seq<Dec> {
    if effects == [] then [] else Amount(env, b, effects[0]) + Amounts(env, b, effects[1..])
  }

  /** A decimal context: how it adds and how it compares. */
  datatype Context = Context(add: (Dec, Dec) -> Dec, less: (Dec, Dec) -> bool)

  const PYTHON := Context(Add, Less)

  /** The running total, as rounded by every addition, passes the limit. */
  predicate Overruns(cx: Context, total: Dec, amounts: seq<Dec>, limit: Dec)
    decreases |amounts|
  {
    amounts != [] &&
    (cx.less(limit, cx.add(total, amounts[0])) || Overruns(cx, cx.add(total, amounts[0]), amounts[1..], limit))
  }

  const ZERO := Dec(0, 0)

  /** The verdict on the side effects under an admitted maximum. */
  predicate Accepts(env: Env, b: Boundary, effects: seq<Json>) {
    AllValid(env, b, effects) && !Overruns(PYTHON, ZERO, Amounts(env, b, effects), b.limit)
  }

  /** What the checker accepts. */
  predicate Clean(env: Env, admission: Object, post: Object) {
    match AdmittedBoundary(env, admission)
    case None => true
    case Some(b) =>
      var r := Get(post, "result");
      && r.Obj?
      && GetOr(r.fields, "side_effects", Arr([])).Arr?
      && Accepts(env, b, GetOr(r.fields, "side_effects", Arr([])).items)
  }

  method SideEffectFailures(env: Env, admission: Object, post: Object) returns (failures: seq<string>)
    ensures failures == [] <==> Clean(env, admission, post)
  {
    var boundary := AdmittedBoundary(env, admission);
    if boundary.None? {
      return [];
    }
    var b := boundary.value;
    var r := Get(post, "result");
    if !r.Obj? {
      return ["post_execution.result must be an object"];
    }
    var raw := GetOr(r.fields, "side_effects", Arr([]));
    if !raw.Arr? {
      return ["side_effects must be an array"];
    }
    failures := TotalFailures(PYTHON, env, b, raw.items);
  }

  /** One turn of the loop up to the addition. */
  method AmountFailures(env: Env, b: Boundary, effect: Json) returns (failures: seq<string>, value: Option<Dec>)
    ensures failures == [] <==> (Carries(effect) ==> ValidAmount(env, b, effect).Some?)
    ensures Amount(env, b, effect) == if value.Some? then [value.value] else []
  {
    if !Carries(effect) {
      return [], None;
    }
    var amount := effect.fields["amount"];
    if !amount.Obj? {
      return ["amount must be an object"], None;
    }
    if !PyEq(Get(amount.fields, "currency"), Str(b.currency)) {
      return ["amount currency exceeds admitted currency boundary"], None;
    }
    value := AmountOf(Get(amount.fields, "value"), env.floatText);
    failures := if value.None? then ["amount.value must be a canonical non-negative decimal"] else [];
  }

  lemma AmountsStep(env: Env, b: Boundary, effects: seq<Json>, n: nat)
    requires n < |effects|
    ensures Amounts(env, b, effects[n..]) == Amount(env, b, effects[n]) + Amounts(env, b, effects[n + 1..])
    ensures Amount(env, b, effects[n]) == [] ==> Amounts(env, b, effects[n..]) == Amounts(env, b, effects[n + 1..])
  {
    assert effects[n..][1..] == effects[n + 1..];
  }

  lemma OverrunsStep(cx: Context, total: Dec, amount: Dec, rest: seq<Dec>, limit: Dec)
    ensures Overruns(cx, total, [amount] + rest, limit) <==>
      cx.less(limit, cx.add(total, amount)) || Overruns(cx, cx.add(total, amount), rest, limit)
  {
    assert ([amount] + rest)[1..] == rest;
  }

  /** The verdict that is left after n side effects with this total. */
  predicate Ahead(cx: Context, env: Env, b: Boundary, effects: seq<Json>, n: nat, total: Dec)
    requires n <= |effects|
  {
    Overruns(cx, total, Amounts(env, b, effects[n..]), b.limit)
  }

  lemma AheadStep(cx: Context, env: Env, b: Boundary, effects: seq<Json>, n: nat, total: Dec, value: Option<Dec>)
    requires n < |effects| && Amount(env, b, effects[n]) == if value.Some? then [value.value] else []
    ensures Ahead(cx, env, b, effects, n, total) <==>
      if value.None? then Ahead(cx, env, b, effects, n + 1, total)
      else cx.less(b.limit, cx.add(total, value.value)) || Ahead(cx, env, b, effects, n + 1, cx.add(total, value.value))
  {
    AmountsStep(env, b, effects, n);
    if value.Some? { OverrunsStep(cx, total, value.value, Amounts(env, b, effects[n + 1..]), b.limit); }
  }

  lemma AheadEnds(cx: Context, env: Env, b: Boundary, effects: seq<Json>, total: Dec)
    ensures !Ahead(cx, env, b, effects, |effects|, total)
    ensures Ahead(cx, env, b, effects, 0, total) <==> Overruns(cx, total, Amounts(env, b, effects), b.limit)
  {
    assert effects[0..] == effects;
  }

  /** All of the first n side effects carry valid amounts. */
  predicate Behind(env: Env, b: Boundary, effects: seq<Json>, n: nat)
    requires n <= |effects|
  {
    AllValid(env, b, effects[..n])
  }

  method TotalFailures(cx: Context, env: Env, b: Boundary, effects: seq<Json>) returns (failures: seq<string>)
    ensures failures == [] <==> AllValid(env, b, effects) && !Overruns(cx, ZERO, Amounts(env, b, effects), b.limit)
  {
    failures := [];
    var total := ZERO;
    AheadEnds(cx, env, b, effects, ZERO);
    for n := 0 to |effects|
      invariant failures == [] <==> Behind(env, b, effects, n)
      invariant Ahead(cx, env, b, effects, 0, ZERO) <==> Ahead(cx, env, b, effects, n, total)
    {
      ValidStep(env, b, effects, n);
      var found, value := AmountFailures(env, b, effects[n]);
      failures := failures + found;
      AheadStep(cx, env, b, effects, n, total, value);
      if value.Some? {
        total := cx.add(total, value.value);
        if cx.less(b.limit, total) {
          return failures + ["side_effects aggregate amount exceeds admitted max_amount"];
        }
      }
    }
    AheadEnds(cx, env, b, effects, total);
    assert effects[..|effects|] == effects;
  }

  lemma ValidStep(env: Env, b: Boundary, effects: seq<Json>, n: nat)
    requires n < |effects|
    ensures AllValid(env, b, effects[..n + 1]) <==>
      AllValid(env, b, effects[..n]) && (Carries(effects[n]) ==> ValidAmount(env, b, effects[n]).Some?)
  {
    assert effects[..n + 1] == effects[..n] + [effects[n]];
    if AllValid(env, b, effects[..n + 1]) {
      forall k | 0 <= k < n && Carries(effects[..n][k]) ensures ValidAmount(env, b, effects[..n][k]).Some? {
        assert effects[..n + 1][k] == effects[..n][k];
      }
      assert effects[..n + 1][n] == effects[n];
    }
  }

  // ---------------------------------------------------------------- what the verdict means

  /** 10^e is a unit fine enough for all amounts. */
  predicate InUnit(amounts: seq<Dec>, e: int) {
    forall k :: 0 <= k < |amounts| ==> e <= amounts[k].exp
  }

  /** The exact total in units of 10^e. */
  function Total(amounts: seq<Dec>, e: int): nat
    requires InUnit(amounts, e)
  {
    if amounts == [] then 0 else Scaled(amounts[0], e) + Total(amounts[1..], e)
  }

  /** The amounts in units of 10^e. */
  function Units(amounts: seq<Dec>, e: int): (xs: seq<nat>)
    requires InUnit(amounts, e)
    ensures |xs| == |amounts| && forall k :: 0 <= k < |xs| ==> xs[k] == Scaled(amounts[k], e)
  {
    if amounts == [] then [] else [Scaled(amounts[0], e)] + Units(amounts[1..], e)
  }

  /** The loop on plain numbers, given how each running total is rounded. */
  predicate OverrunsAt(round: nat -> nat, total: nat, xs: seq<nat>, limit: nat)
    decreases |xs|
  {
    xs != [] && (limit < round(total + xs[0]) || OverrunsAt(round, round(total + xs[0]), xs[1..], limit))
  }

  function Sum(xs: seq<nat>): nat {
    if xs == [] then 0 else xs[0] + Sum(xs[1..])
  }

  lemma {:induction false} TotalIsSum(amounts: seq<Dec>, e: int)
    requires InUnit(amounts, e)
    ensures Total(amounts, e) == Sum(Units(amounts, e))
  {
    if amounts != [] {
      TotalIsSum(amounts[1..], e);
      assert Units(amounts, e)[1..] == Units(amounts[1..], e);
    }
  }

  /** In a common unit the loop on decimals is the loop on numbers. */
  lemma {:induction false} OverrunsByUnit(total: Dec, amounts: seq<Dec>, limit: Dec, e: int)
    requires e <= total.exp && e <= limit.exp && InUnit(amounts, e)
    ensures Overruns(PYTHON, total, amounts, limit) <==> OverrunsAt(Rounded, Scaled(total, e), Units(amounts, e), Scaled(limit, e))
    decreases |amounts|
  {
    if amounts != [] {
      AddAt(total, amounts[0], e);
      var next := Add(total, amounts[0]);
      CompareAt(limit, next, e);
      OverrunsByUnit(next, amounts[1..], limit, e);
      assert Units(amounts, e)[1..] == Units(amounts[1..], e);
    }
  }

  lemma StartsAtZero(e: int)
    requires e <= 0
    ensures Scaled(ZERO, e) == 0
  {}

  /** Under a limit of at most 28 digits the early exit compares the exact
      sum, however large the sum is: no rounding happens before the limit is
      passed, and none after it can come back below it.  */
  lemma {:induction false} OverrunsExactly(total: nat, xs: seq<nat>, limit: nat)
    requires total <= limit < LIMIT
    ensures OverrunsAt(Rounded, total, xs, limit) <==> limit < total + Sum(xs)
    decreases |xs|
  {
    if xs != [] {
      if total + xs[0] < LIMIT {
        RoundedSmall(total + xs[0]);
        if total + xs[0] <= limit { OverrunsExactly(total + xs[0], xs[1..], limit); }
      } else {
        RoundedLarge(total + xs[0]);
      }
    }
  }

  /** The verdict compares the exact total when the limit fits 28 digits. */
  lemma VerdictIsExactTotal(amounts: seq<Dec>, limit: Dec, e: int)
    requires e <= 0 && e <= limit.exp && InUnit(amounts, e) && Scaled(limit, e) < LIMIT
    ensures Overruns(PYTHON, ZERO, amounts, limit) <==> Scaled(limit, e) < Total(amounts, e)
  {
    StartsAtZero(e);
    OverrunsByUnit(ZERO, amounts, limit, e);
    OverrunsExactly(0, Units(amounts, e), Scaled(limit, e));
    TotalIsSum(amounts, e);
  }

  lemma {:induction false} TotalConcat(xs: seq<Dec>, ys: seq<Dec>, e: int)
    requires forall k :: 0 <= k < |xs| ==> e <= xs[k].exp
    requires forall k :: 0 <= k < |ys| ==> e <= ys[k].exp
    ensures Total(xs + ys, e) == Total(xs, e) + Total(ys, e)
  {
    if xs == [] {
      assert xs + ys == ys;
    } else {
      assert (xs + ys)[1..] == xs[1..] + ys;
      TotalConcat(xs[1..], ys, e);
    }
  }

  /** The exact total does not depend on the order of the amounts. */
  lemma {:induction false} TotalOfPermutation(xs: seq<Dec>, ys: seq<Dec>, e: int)
    requires multiset(xs) == multiset(ys)
    requires forall k :: 0 <= k < |xs| ==> e <= xs[k].exp
    ensures forall k :: 0 <= k < |ys| ==> e <= ys[k].exp
    ensures Total(xs, e) == Total(ys, e)
    decreases |xs|
  {
    SameMembers(xs, ys);
    forall k | 0 <= k < |ys| ensures e <= ys[k].exp { assert ys[k] in xs; }
    if xs != [] {
      assert xs[0] in multiset(ys);
      var i :| 0 <= i < |ys| && ys[i] == xs[0];
      var rest := ys[..i] + ys[i + 1..];
      assert ys == ys[..i] + ([ys[i]] + ys[i + 1..]);
      WithoutOne(xs, ys, i);
      TotalOfPermutation(xs[1..], rest, e);
      TotalConcat(ys[..i], [ys[i]] + ys[i + 1..], e);
      TotalConcat(ys[..i], ys[i + 1..], e);
    } else {
      assert |multiset(ys)| == 0;
    }
  }

  lemma WithoutOne<T>(xs: seq<T>, ys: seq<T>, i: nat)
    requires xs != [] && i < |ys| && ys[i] == xs[0] && multiset(xs) == multiset(ys)
    ensures multiset(xs[1..]) == multiset(ys[..i] + ys[i + 1..])
  {
    assert xs == [xs[0]] + xs[1..];
    assert ys == ys[..i] + [ys[i]] + ys[i + 1..];
    assert multiset(xs[1..]) == multiset(xs) - multiset{xs[0]};
    assert multiset(ys[..i] + ys[i + 1..]) == multiset(ys[..i]) + multiset(ys[i + 1..]);
    assert multiset(ys[..i] + ys[i + 1..]) == multiset(ys) - multiset{ys[i]};
  }

  lemma SameMembers<T>(xs: seq<T>, ys: seq<T>)
    requires multiset(xs) == multiset(ys)
    ensures |xs| == |ys|
    ensures forall x :: x in xs <==> x in ys
  {
    assert |multiset(xs)| == |xs| && |multiset(ys)| == |ys|;
    forall x ensures x in xs <==> x in ys {
      assert x in xs <==> x in multiset(xs);
      assert x in ys <==> x in multiset(ys);
    }
  }

  lemma {:induction false} AmountsConcat(env: Env, b: Boundary, s: seq<Json>, t: seq<Json>)
    ensures Amounts(env, b, s + t) == Amounts(env, b, s) + Amounts(env, b, t)
  {
    if s == [] {
      assert s + t == t;
    } else {
      assert (s + t)[1..] == s[1..] + t;
      AmountsConcat(env, b, s[1..], t);
    }
  }

  lemma {:induction false} AmountsOfPermutation(env: Env, b: Boundary, s: seq<Json>, t: seq<Json>)
    requires multiset(s) == multiset(t)
    ensures multiset(Amounts(env, b, s)) == multiset(Amounts(env, b, t))
    decreases |s|
  {
    SameMembers(s, t);
    if s != [] {
      assert s[0] in multiset(t);
      var i :| 0 <= i < |t| && t[i] == s[0];
      var rest := t[..i] + t[i + 1..];
      assert t == t[..i] + ([t[i]] + t[i + 1..]);
      WithoutOne(s, t, i);
      AmountsOfPermutation(env, b, s[1..], rest);
      AmountsConcat(env, b, t[..i], [t[i]] + t[i + 1..]);
      AmountsConcat(env, b, t[..i], t[i + 1..]);
      assert ([t[i]] + t[i + 1..])[1..] == t[i + 1..];
    } else {
      assert t == [];
    }
  }

  /** The exact verdict. */
  ghost predicate WithinLimit(env: Env, b: Boundary, effects: seq<Json>, e: int)
    requires e <= b.limit.exp && InUnit(Amounts(env, b, effects), e)
  {
    AllValid(env, b, effects) && Total(Amounts(env, b, effects), e) <= Scaled(b.limit, e)
  }

  /** Under a limit of at most 28 digits nothing is reported exactly when every
      amount is valid and in the admitted currency and the total is at most
      the maximum, whatever is reported.  */
  lemma AcceptsIffWithinLimit(env: Env, b: Boundary, effects: seq<Json>, e: int)
    requires e <= 0 && e <= b.limit.exp && InUnit(Amounts(env, b, effects), e) && Scaled(b.limit, e) < LIMIT
    ensures Accepts(env, b, effects) <==> WithinLimit(env, b, effects, e)
  {
    VerdictIsExactTotal(Amounts(env, b, effects), b.limit, e);
  }

  lemma SameUnit(xs: seq<Dec>, ys: seq<Dec>, e: int)
    requires multiset(xs) == multiset(ys) && InUnit(xs, e)
    ensures InUnit(ys, e)
  {
    SameMembers(xs, ys);
    forall k | 0 <= k < |ys| ensures e <= ys[k].exp { assert ys[k] in xs; }
  }

  lemma ValidInAnyOrder(env: Env, b: Boundary, s: seq<Json>, t: seq<Json>)
    requires multiset(s) == multiset(t)
    ensures AllValid(env, b, s) <==> AllValid(env, b, t)
  {
    SameMembers(s, t);
    assert AllValid(env, b, s) <==> forall x :: x in s && Carries(x) ==> ValidAmount(env, b, x).Some?;
    assert AllValid(env, b, t) <==> forall x :: x in t && Carries(x) ==> ValidAmount(env, b, x).Some?;
  }

  /** Under such a limit the verdict does not depend on the order of side effects. */
  lemma VerdictIgnoresOrder(env: Env, b: Boundary, s: seq<Json>, t: seq<Json>, e: int)
    requires multiset(s) == multiset(t)
    requires e <= 0 && e <= b.limit.exp && InUnit(Amounts(env, b, s), e) && Scaled(b.limit, e) < LIMIT
    ensures Accepts(env, b, s) <==> Accepts(env, b, t)
  {
    AmountsOfPermutation(env, b, s, t);
    SameUnit(Amounts(env, b, s), Amounts(env, b, t), e);
    TotalOfPermutation(Amounts(env, b, s), Amounts(env, b, t), e);
    ValidInAnyOrder(env, b, s, t);
    AcceptsIffWithinLimit(env, b, s, e);
    AcceptsIffWithinLimit(env, b, t, e);
  }

  // ---------------------------------------------------------------- longer limits

  lemma Stays(round: nat -> nat, total: nat, f: nat, rest: seq<nat>, limit: nat)
    requires round(total + f) == total && total <= limit && !OverrunsAt(round, total, rest, limit)
    ensures !OverrunsAt(round, total, [f] + rest, limit)
  {
    assert ([f] + rest)[1..] == rest;
  }

  lemma Moves(round: nat -> nat, total: nat, f: nat, rest: seq<nat>, limit: nat)
    requires limit < round(total + f) || OverrunsAt(round, round(total + f), rest, limit)
    ensures OverrunsAt(round, total, [f] + rest, limit)
  {
    assert ([f] + rest)[1..] == rest;
  }

  /** Three amounts that are each rounded away after the first. */
  lemma LostAfter(round: nat -> nat, h: nat, f: nat, limit: nat)
    requires round(h) == h && round(h + f) == h && h <= limit
    ensures !OverrunsAt(round, 0, [h, f, f, f], limit)
  {
    Stays(round, h, f, [], limit);
    Stays(round, h, f, [f], limit);
    Stays(round, h, f, [f, f], limit);
    assert [f] + [] == [f] && [f] + [f] == [f, f] && [f] + [f, f] == [f, f, f];
    assert [h, f, f, f][1..] == [f, f, f] && round(0 + h) == h;
  }

  /** The same three amounts kept before it. */
  lemma KeptBefore(round: nat -> nat, h: nat, f: nat, limit: nat)
    requires round(f) == f && round(2 * f) == 2 * f && round(3 * f) == 3 * f && limit < round(3 * f + h)
    ensures OverrunsAt(round, 0, [f, f, f, h], limit)
  {
    Moves(round, 3 * f, h, [], limit);
    Moves(round, 2 * f, f, [h], limit);
    Moves(round, f, f, [f, h], limit);
    Moves(round, 0, f, [f, f, h], limit);
    assert [h] + [] == [h] && [f] + [h] == [f, h] && [f] + [f, h] == [f, f, h] && [f] + [f, f, h] == [f, f, f, h];
  }

  lemma SumOfFour(h: nat, f: nat)
    ensures Sum([h, f, f, f]) == h + 3 * f
  {
    assert [h, f, f, f][1..] == [f, f, f] && [f, f, f][1..] == [f, f] && [f, f][1..] == [f] && [f][1..] == [];
    assert Sum([f]) == f && Sum([f, f]) == 2 * f && Sum([f, f, f]) == 3 * f;
  }

  /** The leading digits of a limit, then three amounts of four units of the
      29th digit: on their own each is rounded away, ...  */
  lemma LostSmall(q: nat, k: nat, p: nat, limit: nat)
    requires LIMIT / 10 <= q < LIMIT && k > 0 && p == Pow10(k - 1) && q * Pow10(k) <= limit
    ensures !OverrunsAt(Rounded, 0, [q * Pow10(k), 4 * p, 4 * p, 4 * p], limit)
  {
    assert Pow10(k) == 10 * p;
    RoundedSplit(q, k, 0);
    RoundedSplit(q, k, 4 * p);
    LostAfter(Rounded, q * Pow10(k), 4 * p, limit);
  }

  /** ... and together they carry. */
  lemma KeptSmall(q: nat, k: nat, h: nat, p: nat, limit: nat)
    requires LIMIT / 10 <= q < LIMIT && k > 0 && p == Pow10(k - 1) && h == q * Pow10(k) && limit < (q + 1) * Pow10(k)
    ensures OverrunsAt(Rounded, 0, [4 * p, 4 * p, 4 * p, h], limit) && limit < h + 3 * (4 * p)
  {
    FewMultiples(p, k - 1);
    CarriedTo(q, k, h, p);
    KeptCarried(Rounded, h, p, limit);
  }

  lemma CarriedTo(q: nat, k: nat, h: nat, p: nat)
    requires LIMIT / 10 <= q < LIMIT && k > 0 && p == Pow10(k - 1) && h == q * Pow10(k)
    ensures (q + 1) * Pow10(k) == h + 10 * p && Rounded(h + 12 * p) == h + 10 * p
  {
    CarriedOver(q, k);
    NextMultiple(q, Pow10(k));
  }

  lemma KeptCarried(round: nat -> nat, h: nat, p: nat, limit: nat)
    requires round(4 * p) == 4 * p && round(8 * p) == 8 * p && round(12 * p) == 12 * p
    requires round(h + 12 * p) == h + 10 * p > limit
    ensures OverrunsAt(round, 0, [4 * p, 4 * p, 4 * p, h], limit)
  {
    KeptBefore(round, h, 4 * p, limit);
  }

  lemma SmallAmounts(q: nat, k: nat, limit: nat)
    requires LIMIT / 10 <= q < LIMIT && k > 0 && q * Pow10(k) <= limit < (q + 1) * Pow10(k)
    ensures Hides(q * Pow10(k), 4 * Pow10(k - 1), limit)
  {
    LostSmall(q, k, Pow10(k - 1), limit);
    KeptSmall(q, k, q * Pow10(k), Pow10(k - 1), limit);
    SumOfFour(q * Pow10(k), 4 * Pow10(k - 1));
  }

  lemma NextMultiple(q: nat, p: nat)
    ensures (q + 1) * p == q * p + p
  {}

  lemma FewMultiples(p: nat, j: nat)
    requires p == Pow10(j)
    ensures Rounded(4 * p) == 4 * p && Rounded(8 * p) == 8 * p && Rounded(12 * p) == 12 * p
  {
    RoundedShift(4, j);
    RoundedShift(8, j);
    RoundedShift(12, j);
    RoundedSmall(4);
    RoundedSmall(8);
    RoundedSmall(12);
  }

  /** The carry reaches the 28th digit, also when all digits are nines. */
  lemma CarriedOver(q: nat, k: nat)
    requires LIMIT / 10 <= q < LIMIT && k > 0
    ensures Rounded((q + 1) * Pow10(k) + 2 * Pow10(k - 1)) == (q + 1) * Pow10(k)
  {
    var p := Pow10(k - 1);
    assert Pow10(k) == 10 * p;
    if q + 1 < LIMIT {
      RoundedSplit(q + 1, k, 2 * p);
    } else {
      assert Pow10(k + 1) == 10 * Pow10(k);
      assert LIMIT * Pow10(k) == LIMIT / 10 * Pow10(k + 1) by {
        TimesTen(LIMIT / 10, Pow10(k), 0);
        assert LIMIT == 10 * (LIMIT / 10);
      }
      RoundedSplit(LIMIT / 10, k + 1, 2 * p);
    }
  }

  /** c * 10^k units of 10^e, as a decimal that has a canonical text. */
  function Piece(c: nat, k: nat, e: int): (d: Dec)
    requires e <= 0
    ensures e <= d.exp <= 0
  {
    if e + k <= 0 then Dec(c, e + k) else Dec(c * Pow10(e + k), 0)
  }

  lemma ScaledAt(c: nat, x: int, e: int, n: nat)
    requires x - e == n
    ensures Scaled(Dec(c, x), e) == c * Pow10(n)
  {}

  lemma PowerSplit(c: nat, j: nat, n: nat)
    ensures c * Pow10(j) * Pow10(n) == c * Pow10(j + n)
  {
    Pow10Add(j, n);
    Regrouped(c, Pow10(j), Pow10(n));
  }

  lemma WholeUnits(c: nat, j: nat, n: nat, k: nat, e: int, d: Dec)
    requires j + n == k && e == 0 - n && d == Dec(c * Pow10(j), 0)
    ensures Scaled(d, e) == c * Pow10(k)
  {
    ScaledAt(c * Pow10(j), 0, e, n);
    PowerSplit(c, j, n);
  }

  lemma PieceUnits(c: nat, k: nat, e: int)
    requires e <= 0
    ensures Scaled(Piece(c, k, e), e) == c * Pow10(k)
  {
    var d := Piece(c, k, e);
    if e + k > 0 {
      WholeUnits(c, e + k, 0 - e, k, e, d);
    } else {
      ScaledAt(c, d.exp, e, k);
    }
  }

  /** A side effect that reports an amount. */
  function Spent(currency: string, d: Dec): Json
    requires d.exp <= 0
  {
    Obj(map["amount" := Obj(map["currency" := Str(currency), "value" := Str(DecimalText.TextOf(d.coef, -d.exp))])])
  }

  /** The side effect reports this valid amount. */
  predicate Reports(env: Env, b: Boundary, effect: Json, d: Dec) {
    Carries(effect) && ValidAmount(env, b, effect) == Some(d)
  }

  lemma SpentReports(env: Env, b: Boundary, d: Dec)
    requires d.exp <= 0
    ensures Reports(env, b, Spent(b.currency, d), d)
  {
    DecimalText.MoneyTextOf(d.coef, -d.exp);
    assert 0 - (-d.exp) == d.exp;
  }

  lemma {:induction false} AmountsReported(env: Env, b: Boundary, effects: seq<Json>, ds: seq<Dec>)
    requires |effects| == |ds| && forall k :: 0 <= k < |ds| ==> Reports(env, b, effects[k], ds[k])
    ensures Amounts(env, b, effects) == ds && AllValid(env, b, effects)
  {
    if ds == [] {
    } else {
      assert Reports(env, b, effects[0], ds[0]);
      AmountsReported(env, b, effects[1..], ds[1..]);
      forall k | 0 <= k < |effects| ensures ValidAmount(env, b, effects[k]).Some? { assert Reports(env, b, effects[k], ds[k]); }
    }
  }

  lemma VerdictOnReported(env: Env, b: Boundary, effects: seq<Json>, ds: seq<Dec>, e: int)
    requires e <= 0 && e <= b.limit.exp && InUnit(ds, e)
    requires |effects| == |ds| && forall k :: 0 <= k < |ds| ==> Reports(env, b, effects[k], ds[k])
    ensures Amounts(env, b, effects) == ds
    ensures Accepts(env, b, effects) <==> !OverrunsAt(Rounded, 0, Units(ds, e), Scaled(b.limit, e))
    ensures WithinLimit(env, b, effects, e) <==> Sum(Units(ds, e)) <= Scaled(b.limit, e)
  {
    AmountsReported(env, b, effects, ds);
    StartsAtZero(e);
    OverrunsByUnit(ZERO, ds, b.limit, e);
    TotalIsSum(ds, e);
  }

  lemma UnitsOfFour(x: Dec, y: Dec, z: Dec, w: Dec, e: int)
    requires e <= x.exp && e <= y.exp && e <= z.exp && e <= w.exp
    ensures Units([x, y, z, w], e) == [Scaled(x, e), Scaled(y, e), Scaled(z, e), Scaled(w, e)]
  {
    var xs := Units([x, y, z, w], e);
    assert |xs| == 4 && xs[0] == Scaled(x, e) && xs[1] == Scaled(y, e) && xs[2] == Scaled(z, e) && xs[3] == Scaled(w, e);
  }

  /** Four reported amounts, given in units. */
  lemma ReportedFour(env: Env, b: Boundary, e: int, effects: seq<Json>, x: Dec, y: Dec, z: Dec, w: Dec)
    requires e <= 0 && e <= b.limit.exp && e <= x.exp && e <= y.exp && e <= z.exp && e <= w.exp
    requires |effects| == 4 && Reports(env, b, effects[0], x) && Reports(env, b, effects[1], y)
    requires Reports(env, b, effects[2], z) && Reports(env, b, effects[3], w)
    ensures InUnit(Amounts(env, b, effects), e)
    ensures var xs := [Scaled(x, e), Scaled(y, e), Scaled(z, e), Scaled(w, e)];
      && (Accepts(env, b, effects) <==> !OverrunsAt(Rounded, 0, xs, Scaled(b.limit, e)))
      && (WithinLimit(env, b, effects, e) <==> Sum(xs) <= Scaled(b.limit, e))
  {
    UnitsOfFour(x, y, z, w, e);
    VerdictOnReported(env, b, effects, [x, y, z, w], e);
  }

  /** One side effect and three equal ones, in both orders. */
  lemma FourSpent(env: Env, b: Boundary, e: int, p: Json, q: Json, x: Dec, y: Dec)
    requires e <= 0 && e <= b.limit.exp && e <= x.exp && e <= y.exp
    requires Reports(env, b, p, x) && Reports(env, b, q, y)
    ensures var s, t := [p, q, q, q], [q, q, q, p];
      var h, f, limit := Scaled(x, e), Scaled(y, e), Scaled(b.limit, e);
      && InUnit(Amounts(env, b, s), e) && multiset(s) == multiset(t)
      && (Accepts(env, b, s) <==> !OverrunsAt(Rounded, 0, [h, f, f, f], limit))
      && (WithinLimit(env, b, s, e) <==> Sum([h, f, f, f]) <= limit)
      && (Accepts(env, b, t) <==> !OverrunsAt(Rounded, 0, [f, f, f, h], limit))
  {
    ReportedFour(env, b, e, [p, q, q, q], x, y, y, y);
    ReportedFour(env, b, e, [q, q, q, p], y, y, y, x);
    Reordered(p, q, [p, q, q, q], [q, q, q, p]);
  }

  lemma Reordered<T>(x: T, y: T, s: seq<T>, t: seq<T>)
    requires s == [x, y, y, y] && t == [y, y, y, x]
    ensures multiset(s) == multiset(t)
  {}

  /** A side effect that reports c * 10^k units of 10^e. */
  lemma SpentPiece(env: Env, b: Boundary, c: nat, k: nat, e: int) returns (effect: Json, d: Dec)
    requires e <= 0
    ensures Reports(env, b, effect, d) && e <= d.exp && Scaled(d, e) == c * Pow10(k)
  {
    d := Piece(c, k, e);
    PieceUnits(c, k, e);
    SpentReports(env, b, d);
    effect := Spent(b.currency, d);
  }

  lemma LeadingMultiple(limit: nat) returns (q: nat, k: nat)
    requires limit >= LIMIT
    ensures LIMIT / 10 <= q < LIMIT && k > 0 && q * Pow10(k) <= limit < (q + 1) * Pow10(k)
  {
    var r;
    q, r := LeadingDigits(limit);
    k := Excess(limit);
    NextMultiple(q, Pow10(k));
  }

  /** Four numbers exceed the limit, but only one order shows it. */
  predicate Hides(h: nat, f: nat, limit: nat) {
    !OverrunsAt(Rounded, 0, [h, f, f, f], limit) && OverrunsAt(Rounded, 0, [f, f, f, h], limit) && limit < Sum([h, f, f, f])
  }

  lemma HiddenUnits(limit: nat) returns (q: nat, k: nat)
    requires limit >= LIMIT
    ensures k > 0 && Hides(q * Pow10(k), 4 * Pow10(k - 1), limit)
  {
    q, k := LeadingMultiple(limit);
    SmallAmounts(q, k, limit);
  }

  lemma HiddenEffects(env: Env, b: Boundary, e: int, large: Json, small: Json, x: Dec, y: Dec)
    requires e <= 0 && e <= b.limit.exp && e <= x.exp && e <= y.exp
    requires Reports(env, b, large, x) && Reports(env, b, small, y) && Hides(Scaled(x, e), Scaled(y, e), Scaled(b.limit, e))
    ensures var s, t := [large, small, small, small], [small, small, small, large];
      && InUnit(Amounts(env, b, s), e) && multiset(s) == multiset(t)
      && !WithinLimit(env, b, s, e) && Accepts(env, b, s) && !Accepts(env, b, t)
  {
    FourSpent(env, b, e, large, small, x, y);
  }

  /** Under every limit of more than 28 digits, four side effects overrun it
      that are accepted in one order and refused in another.  */
  lemma RoundingHidesOverrun(env: Env, b: Boundary, e: int) returns (s: seq<Json>, t: seq<Json>)
    requires e <= 0 && e <= b.limit.exp && Scaled(b.limit, e) >= LIMIT
    ensures InUnit(Amounts(env, b, s), e) && multiset(s) == multiset(t)
    ensures !WithinLimit(env, b, s, e) && Accepts(env, b, s) && !Accepts(env, b, t)
  {
    var q, k := HiddenUnits(Scaled(b.limit, e));
    var large, x := SpentPiece(env, b, q, k, e);
    var small, y := SpentPiece(env, b, 4, k - 1, e);
    s, t := [large, small, small, small], [small, small, small, large];
    HiddenEffects(env, b, e, large, small, x, y);
  }

  /** Every list of side effects in unit 10^e gets the exact verdict. */
  ghost predicate AlwaysExact(env: Env, b: Boundary, e: int)
    requires e <= b.limit.exp
  {
    forall s :: InUnit(Amounts(env, b, s), e) ==> (Accepts(env, b, s) <==> WithinLimit(env, b, s, e))
  }

  /** No list in unit 10^e changes its verdict when it is reordered. */
  ghost predicate OrderFree(env: Env, b: Boundary, e: int) {
    forall s, t :: SameEffects(env, b, s, t, e) ==> (Accepts(env, b, s) <==> Accepts(env, b, t))
  }

  ghost predicate SameEffects(env: Env, b: Boundary, s: seq<Json>, t: seq<Json>, e: int) {
    multiset(s) == multiset(t) && InUnit(Amounts(env, b, s), e)
  }

  /** The verdict is exact, and free of the order, for all lists in a unit
      exactly when the admitted maximum has at most 28 digits in that unit.  */
  lemma ExactIffLimitFits(env: Env, b: Boundary, e: int)
    requires e <= 0 && e <= b.limit.exp
    ensures AlwaysExact(env, b, e) <==> Scaled(b.limit, e) < LIMIT
    ensures OrderFree(env, b, e) <==> Scaled(b.limit, e) < LIMIT
  {
    if Scaled(b.limit, e) < LIMIT {
      forall s | InUnit(Amounts(env, b, s), e) ensures Accepts(env, b, s) <==> WithinLimit(env, b, s, e) {
        AcceptsIffWithinLimit(env, b, s, e);
      }
      forall s, t | SameEffects(env, b, s, t, e) ensures Accepts(env, b, s) <==> Accepts(env, b, t) {
        VerdictIgnoresOrder(env, b, s, t, e);
      }
    } else {
      var s, t := RoundingHidesOverrun(env, b, e);
      assert SameEffects(env, b, s, t, e);
    }
  }
}
