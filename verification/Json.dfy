/** JSON documents as the Python scripts see them after strict parsing.

    Objects are maps: every comparison and every digest in
    `scripts/vate_conformance.py` ignores key order, and strict parsing has
    already refused duplicate keys and non-finite numbers.  */
module Json {

  datatype Json =
    | Null
    | Bool(b: bool)
    | Int(i: int)
    | Float(r: real)
    | Str(s: string)
    | Arr(items: seq<Json>)
    | Obj(fields: map<string, Json>)

  type Object = map<string, Json>

  datatype Option<+T> = None | Some(value: T)

  /** `value.get(key)`: an absent key reads as `None`, which JSON spells null. */
  function Get(o: Object, key: string): Json {
    if key in o then o[key] else Null
  }

  /** `value.get(key, default)`. */
  function GetOr(o: Object, key: string, default: Json): Json {
    if key in o then o[key] else default
  }

  predicate IsNumber(j: Json) {
    j.Bool? || j.Int? || j.Float?
  }

  /** Python's numbers: `True == 1 == 1.0` and `False == 0 == 0.0`. */
  function NumberValue(j: Json): real
    requires IsNumber(j)
  {
    match j
    case Bool(b) => if b then 1.0 else 0.0
    case Int(i) => i as real
    case Float(r) => r
  }

  /** Python's recursive `==` on parsed JSON. */
  predicate PyEq(a: Json, b: Json)
    decreases a
  {
    match (a, b)
    case (Null, Null) => true
    case (Str(x), Str(y)) => x == y
    case (Arr(xs), Arr(ys)) => |xs| == |ys| && forall i :: 0 <= i < |xs| ==> PyEq(xs[i], ys[i])
    case (Obj(m), Obj(n)) => m.Keys == n.Keys && forall k :: k in m ==> PyEq(m[k], n[k])
    case _ => IsNumber(a) && IsNumber(b) && NumberValue(a) == NumberValue(b)
  }

  predicate NonEmptyStr(j: Json) {
    j.Str? && j.s != ""
  }

  /** `is_string_enum`. */
  predicate StrIn(j: Json, allowed: set<string>) {
    j.Str? && j.s in allowed
  }

  /** A list all of whose entries are non-empty strings. */
  predicate NonEmptyStrings(j: Json) {
    j.Arr? && forall k :: 0 <= k < |j.items| ==> NonEmptyStr(j.items[k])
  }

  function Strings(codes: seq<string>): Json {
    Arr(seq(|codes|, i requires 0 <= i < |codes| => Str(codes[i])))
  }

  function OptStr(o: Option<string>): Json {
    match o
    case None => Null
    case Some(s) => Str(s)
  }

  function OptBool(o: Option<bool>): Json {
    match o
    case None => Null
    case Some(b) => Bool(b)
  }

  lemma {:induction false} PyEqReflexive(a: Json)
    ensures PyEq(a, a)
    decreases a
  {
    match a
    case Arr(xs) =>
      forall i | 0 <= i < |xs| ensures PyEq(xs[i], xs[i]) { PyEqReflexive(xs[i]); }
    case Obj(m) =>
      forall k | k in m ensures PyEq(m[k], m[k]) { PyEqReflexive(m[k]); }
    case _ =>
  }

  lemma {:induction false} PyEqSymmetric(a: Json, b: Json)
    requires PyEq(a, b)
    ensures PyEq(b, a)
    decreases a
  {
    match (a, b)
    case (Arr(xs), Arr(ys)) =>
      forall i | 0 <= i < |ys| ensures PyEq(ys[i], xs[i]) { PyEqSymmetric(xs[i], ys[i]); }
    case (Obj(m), Obj(n)) =>
      forall k | k in n ensures PyEq(n[k], m[k]) { PyEqSymmetric(m[k], n[k]); }
    case _ =>
  }

  lemma {:induction false} PyEqTransitive(a: Json, b: Json, c: Json)
    requires PyEq(a, b) && PyEq(b, c)
    ensures PyEq(a, c)
    decreases a
  {
    match (a, b, c)
    case (Arr(xs), Arr(ys), Arr(zs)) =>
      forall i | 0 <= i < |xs| ensures PyEq(xs[i], zs[i]) { PyEqTransitive(xs[i], ys[i], zs[i]); }
    case (Obj(m), Obj(n), Obj(o)) =>
      forall k | k in m ensures PyEq(m[k], o[k]) { PyEqTransitive(m[k], n[k], o[k]); }
    case _ =>
  }

  /** Between a list of strings and any other value, `==` is exact. */
  lemma PyEqStrings(codes: seq<string>, j: Json)
    ensures PyEq(Strings(codes), j) <==> j == Strings(codes)
    ensures PyEq(j, Strings(codes)) <==> j == Strings(codes)
  {
    PyEqReflexive(j);
    if PyEq(j, Strings(codes)) { PyEqSymmetric(j, Strings(codes)); }
    if PyEq(Strings(codes), j) {
      assert forall i :: 0 <= i < |codes| ==> PyEq(Strings(codes).items[i], j.items[i]);
      assert j.items == Strings(codes).items;
    }
  }

  lemma StringsInjective(a: seq<string>, b: seq<string>)
    requires Strings(a) == Strings(b)
    ensures a == b
  {
    assert |a| == |Strings(a).items| == |b|;
    forall i | 0 <= i < |a| ensures a[i] == b[i] {
      assert Strings(a).items[i] == Str(a[i]) && Strings(b).items[i] == Str(b[i]);
    }
  }
}
