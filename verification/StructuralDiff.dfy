/** `semantic_projection_failures`: a structural diff that stops after `limit`
    entries, and the unbounded diff it is a prefix of.  */
module StructuralDiff {
  import opened Json
  import opened Text

  datatype Finding =
    | ExpectedObject
    | UnexpectedField
    | MissingField
    | ExpectedArray
    | ItemCount(expectedCount: nat, actualCount: nat)
    | Differs(expected: Json, actual: Json)

  /** One step below the root label: `.key` or `[index]` in the message text. */
  datatype PathStep = Field(key: string) | Item(index: nat)

  type Path = seq<PathStep>

  datatype Entry = Entry(path: Path, finding: Finding)

  /** Every difference, in visiting order, without a bound. */
  ghost function Diff(e: Json, a: Json, path: Path): seq<Entry>
    decreases e, 1, 0
  {
    match e
    case Obj(m) =>
      if !a.Obj? then [Entry(path, ExpectedObject)]
      else DiffFields(e, a, Sorted(m.Keys + a.fields.Keys), path)
    case Arr(xs) =>
      if !a.Arr? then [Entry(path, ExpectedArray)]
      else if |xs| != |a.items| then [Entry(path, ItemCount(|xs|, |a.items|))]
      else DiffItems(e, a, 0, path)
    case _ =>
      if PyEq(e, a) then [] else [Entry(path, Differs(e, a))]
  }

  ghost function DiffField(e: Json, a: Json, key: string, path: Path): seq<Entry>
    requires e.Obj? && a.Obj?
    decreases e, 0, 0
  {
    if key !in e.fields then [Entry(path + [Field(key)], UnexpectedField)]
    else if key !in a.fields then [Entry(path + [Field(key)], MissingField)]
    else Diff(e.fields[key], a.fields[key], path + [Field(key)])
  }

  ghost function DiffFields(e: Json, a: Json, keys: seq<string>, path: Path): seq<Entry>
    requires e.Obj? && a.Obj?
    decreases e, 0, |keys| + 1
  {
    if keys == [] then [] else DiffField(e, a, keys[0], path) + DiffFields(e, a, keys[1..], path)
  }

  ghost function DiffItem(e: Json, a: Json, i: nat, path: Path): seq<Entry>
    requires e.Arr? && a.Arr? && |e.items| == |a.items| && i < |e.items|
    decreases e, 0, 0
  {
    Diff(e.items[i], a.items[i], path + [Item(i)])
  }

  ghost function DiffItems(e: Json, a: Json, from: nat, path: Path): seq<Entry>
    requires e.Arr? && a.Arr? && |e.items| == |a.items| && from <= |e.items|
    decreases e, 0, |e.items| - from + 1
  {
    if from == |e.items| then []
    else DiffItem(e, a, from, path) + DiffItems(e, a, from + 1, path)
  }

  /** The first `n` entries; none when `n` is not positive. */
  function Take(s: seq<Entry>, n: int): seq<Entry> {
    if n <= 0 then [] else if |s| <= n then s else s[..n]
  }

  /** `found` followed by what still fits of `s`. */
  function Bounded(found: seq<Entry>, s: seq<Entry>, limit: int): seq<Entry> {
    found + Take(s, limit - |found|)
  }

  /** A concatenation is reported by reporting its parts one after the other. */
  lemma BoundedAppend(found: seq<Entry>, s: seq<Entry>, t: seq<Entry>, limit: int)
    requires |found| < limit
    ensures Bounded(found, s + t, limit) == Bounded(Bounded(found, s, limit), t, limit)
  {}

  lemma FieldsStep(e: Json, a: Json, keys: seq<string>, i: nat, path: Path, found: seq<Entry>, limit: int)
    requires e.Obj? && a.Obj? && i < |keys| && |found| < limit
    ensures Bounded(found, DiffFields(e, a, keys[i..], path), limit)
      == Bounded(Bounded(found, DiffField(e, a, keys[i], path), limit), DiffFields(e, a, keys[i + 1..], path), limit)
  {
    assert keys[i..][1..] == keys[i + 1..];
    BoundedAppend(found, DiffField(e, a, keys[i], path), DiffFields(e, a, keys[i + 1..], path), limit);
  }

  lemma ItemsStep(e: Json, a: Json, i: nat, path: Path, found: seq<Entry>, limit: int)
    requires e.Arr? && a.Arr? && |e.items| == |a.items| && i < |e.items| && |found| < limit
    ensures Bounded(found, DiffItems(e, a, i, path), limit)
      == Bounded(Bounded(found, DiffItem(e, a, i, path), limit), DiffItems(e, a, i + 1, path), limit)
  {
    BoundedAppend(found, DiffItem(e, a, i, path), DiffItems(e, a, i + 1, path), limit);
  }

  class Visitor {
    const limit: int
    var failures: seq<Entry>

    constructor (limit: int)
      ensures this.limit == limit && failures == []
    {
      this.limit := limit;
      failures := [];
    }

    method Visit(e: Json, a: Json, path: Path)
      modifies this
      ensures failures == Bounded(old(failures), Diff(e, a, path), limit)
      decreases e, 2
    {
      if |failures| >= limit {
        return;
      }
      if e.Obj? {
        if !a.Obj? {
          failures := failures + [Entry(path, ExpectedObject)];
          return;
        }
        VisitFields(e, a, Sorted(e.fields.Keys + a.fields.Keys), path);
      } else if e.Arr? {
        if !a.Arr? {
          failures := failures + [Entry(path, ExpectedArray)];
          return;
        }
        if |e.items| != |a.items| {
          failures := failures + [Entry(path, ItemCount(|e.items|, |a.items|))];
          return;
        }
        VisitItems(e, a, path);
      } else if !PyEq(e, a) {
        failures := failures + [Entry(path, Differs(e, a))];
      }
    }

    method VisitFields(e: Json, a: Json, keys: seq<string>, path: Path)
      requires e.Obj? && a.Obj? && |failures| < limit
      modifies this
      ensures failures == Bounded(old(failures), DiffFields(e, a, keys, path), limit)
      decreases e, 1
    {
      ghost var all := Bounded(failures, DiffFields(e, a, keys, path), limit);
      assert keys[0..] == keys;
      for i := 0 to |keys|
        invariant |failures| < limit
        invariant all == Bounded(failures, DiffFields(e, a, keys[i..], path), limit)
      {
        FieldsStep(e, a, keys, i, path, failures, limit);
        VisitField(e, a, keys[i], path);
        if |failures| >= limit {
          return;
        }
      }
    }

    method VisitField(e: Json, a: Json, key: string, path: Path)
      requires e.Obj? && a.Obj? && |failures| < limit
      modifies this
      ensures failures == Bounded(old(failures), DiffField(e, a, key, path), limit)
      decreases e, 0
    {
      if key !in e.fields {
        failures := failures + [Entry(path + [Field(key)], UnexpectedField)];
      } else if key !in a.fields {
        failures := failures + [Entry(path + [Field(key)], MissingField)];
      } else {
        Visit(e.fields[key], a.fields[key], path + [Field(key)]);
      }
    }

    method VisitItem(e: Json, a: Json, i: nat, path: Path)
      requires e.Arr? && a.Arr? && |e.items| == |a.items| && i < |e.items|
      modifies this
      ensures failures == Bounded(old(failures), DiffItem(e, a, i, path), limit)
      decreases e, 0
    {
      Visit(e.items[i], a.items[i], path + [Item(i)]);
    }

    method VisitItems(e: Json, a: Json, path: Path)
      requires e.Arr? && a.Arr? && |e.items| == |a.items| && |failures| < limit
      modifies this
      ensures failures == Bounded(old(failures), DiffItems(e, a, 0, path), limit)
      decreases e, 1
    {
      ghost var all := Bounded(failures, DiffItems(e, a, 0, path), limit);
      for i := 0 to |e.items|
        invariant |failures| < limit
        invariant all == Bounded(failures, DiffItems(e, a, i, path), limit)
      {
        ItemsStep(e, a, i, path, failures, limit);
        VisitItem(e, a, i, path);
        if |failures| >= limit {
          return;
        }
      }
    }
  }

  method SemanticProjectionFailures(expected: Json, actual: Json, path: Path, limit: int) returns (failures: seq<Entry>)
    ensures failures == Take(Diff(expected, actual, path), limit)
  {
    var visitor := new Visitor(limit);
    visitor.Visit(expected, actual, path);
    failures := visitor.failures;
  }

  ghost predicate AllClean(e: Json, a: Json, keys: seq<string>, path: Path)
    requires e.Obj? && a.Obj?
  {
    forall k :: k in keys ==> DiffField(e, a, k, path) == []
  }

  lemma {:induction false} FieldsEmptyIff(e: Json, a: Json, keys: seq<string>, path: Path)
    requires e.Obj? && a.Obj?
    ensures DiffFields(e, a, keys, path) == [] <==> AllClean(e, a, keys, path)
    decreases |keys|
  {
    if keys != [] {
      FieldsEmptyIff(e, a, keys[1..], path);
      assert forall k :: k in keys <==> k == keys[0] || k in keys[1..];
    }
  }

  ghost predicate ItemClean(e: Json, a: Json, i: nat, path: Path)
    requires e.Arr? && a.Arr? && |e.items| == |a.items| && i < |e.items|
  {
    DiffItem(e, a, i, path) == []
  }

  ghost predicate ItemsClean(e: Json, a: Json, from: nat, path: Path)
    requires e.Arr? && a.Arr? && |e.items| == |a.items|
  {
    forall i :: from <= i < |e.items| ==> ItemClean(e, a, i, path)
  }

  lemma {:induction false} ItemsEmptyIff(e: Json, a: Json, from: nat, path: Path)
    requires e.Arr? && a.Arr? && |e.items| == |a.items| && from <= |e.items|
    ensures DiffItems(e, a, from, path) == [] <==> ItemsClean(e, a, from, path)
    decreases |e.items| - from
  {
    if from < |e.items| {
      ItemsEmptyIff(e, a, from + 1, path);
      assert DiffItems(e, a, from, path) == DiffItem(e, a, from, path) + DiffItems(e, a, from + 1, path);
      assert ItemsClean(e, a, from, path) <==> ItemClean(e, a, from, path) && ItemsClean(e, a, from + 1, path);
    }
  }

  /** The diff is empty exactly on values Python calls equal. */
  lemma {:induction false} DiffEmptyIffEqual(e: Json, a: Json, path: Path)
    ensures Diff(e, a, path) == [] <==> PyEq(e, a)
    decreases e, 1
  {
    if e.Obj? && a.Obj? {
      FieldsEqualIff(e, a, path);
    } else if e.Arr? && a.Arr? && |e.items| == |a.items| {
      ItemsEqualIff(e, a, path);
    }
  }

  lemma {:induction false} ItemsEqualIff(e: Json, a: Json, path: Path)
    requires e.Arr? && a.Arr? && |e.items| == |a.items|
    ensures Diff(e, a, path) == [] <==> PyEq(e, a)
    decreases e, 0
  {
    ItemsEmptyIff(e, a, 0, path);
    forall i | 0 <= i < |e.items|
      ensures ItemClean(e, a, i, path) <==> PyEq(e.items[i], a.items[i])
    {
      DiffEmptyIffEqual(e.items[i], a.items[i], path + [Item(i)]);
    }
    assert Diff(e, a, path) == DiffItems(e, a, 0, path);
    if ItemsClean(e, a, 0, path) {
      forall i | 0 <= i < |e.items| ensures PyEq(e.items[i], a.items[i]) { assert ItemClean(e, a, i, path); }
    }
  }

  lemma {:induction false} FieldsEqualIff(e: Json, a: Json, path: Path)
    requires e.Obj? && a.Obj?
    ensures Diff(e, a, path) == [] <==> PyEq(e, a)
    decreases e, 0
  {
    var m, n := e.fields, a.fields;
    forall k | k in m && k in n ensures DiffField(e, a, k, path) == [] <==> PyEq(m[k], n[k]) {
      DiffEmptyIffEqual(m[k], n[k], path + [Field(k)]);
    }
    var keys := Sorted(m.Keys + n.Keys);
    FieldsEmptyIff(e, a, keys, path);
    CleanFields(e, a, keys, path);
  }

  /** All fields are clean exactly when both objects have the same ones, equal. */
  lemma CleanFields(e: Json, a: Json, keys: seq<string>, path: Path)
    requires e.Obj? && a.Obj? && forall k :: k in keys <==> k in e.fields || k in a.fields
    requires forall k :: k in e.fields && k in a.fields ==>
      (DiffField(e, a, k, path) == [] <==> PyEq(e.fields[k], a.fields[k]))
    ensures AllClean(e, a, keys, path) <==> PyEq(e, a)
  {
    if AllClean(e, a, keys, path) {
      forall k | k in e.fields || k in a.fields ensures k in e.fields && k in a.fields && PyEq(e.fields[k], a.fields[k]) {
        assert k in keys;
      }
    }
  }

  /** A bounded run reports nothing exactly on equal values, or when it was
      given no room to report anything.  */
  lemma BoundedEmptyIffEqual(expected: Json, actual: Json, path: Path, limit: int)
    ensures Take(Diff(expected, actual, path), limit) == [] <==> limit <= 0 || PyEq(expected, actual)
  {
    DiffEmptyIffEqual(expected, actual, path);
  }
}
