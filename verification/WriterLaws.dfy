/** Laws of the pointer writer: set-then-get, non-interference, and exactly
    which documents it can rebuild from their leaves.  */
module WriterLaws {
  import opened Json
  import opened Text
  import opened Segments
  import opened Documents
  import opened PointerWriter
  import opened Numerals
  import DocumentPaths

  lemma PutLookup<P>(fields: Fields<P>, key: string, value: Doc<P>, other: string)
    ensures Find(Put(fields, key, value), key) >= 0
    ensures Find(Put(fields, key, value), key) == (if Find(fields, key) < 0 then |fields| else Find(fields, key))
    ensures Put(fields, key, value)[Find(Put(fields, key, value), key)].1 == value
    ensures other != key ==> Find(Put(fields, key, value), other) == Find(fields, other)
  {
    var k := Find(fields, key);
    if k < 0 {
      FindAppend(fields, (key, value), other);
      FindAppend(fields, (key, value), key);
    } else {
      FindUpdate(fields, k, value, other);
      FindUpdate(fields, k, value, key);
    }
  }

  lemma FindAppend<P>(fields: Fields<P>, f: (string, Doc<P>), step: string)
    ensures Find(fields + [f], step) == if f.0 == step then |fields| else Find(fields, step)
  {
    assert (fields + [f])[..|fields|] == fields;
  }

  lemma {:induction false} FindUpdate<P>(fields: Fields<P>, k: nat, value: Doc<P>, step: string)
    requires k < |fields|
    ensures Find(fields[k := (fields[k].0, value)], step) == Find(fields, step)
  {
    var n := |fields| - 1;
    var with := fields[k := (fields[k].0, value)];
    if with[n].0 != step {
      if k < n {
        FindUpdate(fields[..n], k, value, step);
        assert with[..n] == fields[..n][k := (fields[k].0, value)];
      } else {
        assert with[..n] == fields[..n];
      }
    }
  }

  lemma ReadPut<P>(u: Numerals, fields: Fields<P>, parts: seq<string>, child: Doc<P>)
    requires parts != []
    ensures At(u, Dict(Put(fields, parts[0], child)), parts) == At(u, child, parts[1..])
  {
    PutLookup(fields, parts[0], child, parts[0]);
  }

  lemma ReadItem<P>(u: Numerals, items: seq<Doc<P>>, i: nat, parts: seq<string>, child: Doc<P>)
    requires parts != [] && i < |items| && Slot(u, parts[0]) == Some(i)
    ensures At(u, List(items[i := child]), parts) == At(u, child, parts[1..])
  {}

  /** What is written is found again under the same parts. */
  lemma {:induction false} WriteThenRead<P>(u: Numerals, d: Doc<P>, parts: seq<string>, value: Doc<P>, hole: P)
    requires parts != [] && Write(u, d, parts, value, hole).Some?
    ensures At(u, Write(u, d, parts, value, hole).value, UnescapeAll(parts)) == Some(value)
    decreases parts
  {
    var steps := UnescapeAll(parts);
    var part := steps[0];
    assert steps[1..] == UnescapeAll(parts[1..]);
    if d.Dict? {
      if |parts| == 1 {
        ReadPut(u, d.fields, steps, value);
      } else {
        var k := Find(d.fields, part);
        var child := if k < 0 then Fresh(u, parts[1]) else d.fields[k].1;
        WriteThenRead(u, child, parts[1..], value, hole);
        ReadPut(u, d.fields, steps, Write(u, child, parts[1..], value, hole).value);
      }
    } else {
      var i := Slot(u, part).value;
      var padded := Padded(d.items, i, hole);
      if |parts| == 1 {
        ReadItem(u, padded, i, steps, value);
      } else {
        var child := if padded[i] == Prim(hole) then Fresh(u, parts[1]) else padded[i];
        WriteThenRead(u, child, parts[1..], value, hole);
        ReadItem(u, padded, i, steps, Write(u, child, parts[1..], value, hole).value);
      }
    }
  }

  /** Set-then-get through one pointer text holds exactly for the pointers that
      start with a slash: the empty pointer writes the key "" instead.  */
  lemma SetThenGetIff<P>(u: Numerals, d: Doc<P>, pointer: string, value: Doc<P>, hole: P)
    requires Write(u, d, RawParts(pointer), value, hole).Some?
    ensures Resolve(u, Write(u, d, RawParts(pointer), value, hole).value, pointer) == Some(value)
      <==> pointer != "" && pointer[0] == '/'
  {
    WriteThenRead(u, d, RawParts(pointer), value, hole);
    if pointer == "" {
      assert RawParts("") == [""] && Unescape("") == "";
      var k := Find(d.fields, "");
      assert Put(d.fields, "", value)[if k < 0 then |d.fields| else k] == ("", value);
      assert value < Dict(Put(d.fields, "", value));
    }
  }

  /** The two addresses part ways at a node of the document: at different keys
      of an object or at different positions of an array.  */
  ghost predicate Apart<P>(u: Numerals, d: Doc<P>, parts: seq<string>, q: Address)
    decreases parts
  {
    parts != [] && q != [] &&
    var part := Unescape(parts[0]);
    match d
    case Prim(_) => false
    case Dict(fields) =>
      part != q[0] || (Find(fields, part) >= 0 && Apart(u, Steps(d)[Find(fields, part)].1, parts[1..], q[1..]))
    case List(items) =>
      var i, j := Slot(u, part), Slot(u, q[0]);
      i.Some? && j.Some? && (i != j || (i.value < |items| && Apart(u, items[i.value], parts[1..], q[1..])))
  }

  /** A write leaves every node at an address apart from it alone. */
  lemma {:induction false} WriteLeavesOthers<P>(u: Numerals, d: Doc<P>, parts: seq<string>, value: Doc<P>, hole: P, q: Address)
    requires parts != [] && Write(u, d, parts, value, hole).Some?
    requires Apart(u, d, parts, q) && At(u, d, q).Some?
    ensures At(u, Write(u, d, parts, value, hole).value, q) == At(u, d, q)
    decreases parts
  {
    var part := Unescape(parts[0]);
    if d.Dict? {
      var k := Find(d.fields, part);
      var child := if |parts| == 1 then value else
        Write(u, if k < 0 then Fresh(u, parts[1]) else d.fields[k].1, parts[1..], value, hole).value;
      if part == q[0] { WriteLeavesOthers(u, d.fields[k].1, parts[1..], value, hole, q[1..]); }
      PutLeavesOthers(u, d, part, child, q);
    } else {
      var i := Slot(u, part).value;
      if Slot(u, q[0]) == Some(i) { WriteLeavesOthers(u, d.items[i], parts[1..], value, hole, q[1..]); }
    }
  }

  /** Replacing one field keeps what is found through the others, and through
      this one as far as the new child agrees with the old.  */
  lemma PutLeavesOthers<P>(u: Numerals, d: Doc<P>, key: string, child: Doc<P>, q: Address)
    requires d.Dict? && q != [] && At(u, d, q).Some?
    requires key == q[0] ==> Find(d.fields, key) >= 0 && At(u, child, q[1..]) == At(u, d.fields[Find(d.fields, key)].1, q[1..])
    ensures At(u, Dict(Put(d.fields, key, child)), q) == At(u, d, q)
  {
    PutLookup(d.fields, key, child, q[0]);
  }

  /** One step of the two walks. */
  lemma ApartStep<P>(u: Numerals, d: Doc<P>, parts: seq<string>, q: Address)
    requires parts != [] && q != [] && Node(d, q).Some? && CanonicalIn(d, UnescapeAll(parts))
    ensures var k := Find(Steps(d), q[0]);
      k >= 0 && Node(Steps(d)[k].1, q[1..]) == Node(d, q)
    ensures Unescape(parts[0]) != q[0] ==> Apart(u, d, parts, q)
    ensures var child := Steps(d)[Find(Steps(d), q[0])].1;
      Unescape(parts[0]) == q[0] ==>
        && CanonicalIn(child, UnescapeAll(parts[1..]))
        && (Apart(u, d, parts, q) <==> Apart(u, child, parts[1..], q[1..]))
  {
    assert UnescapeAll(parts)[1..] == UnescapeAll(parts[1..]);
    if d.List? { SameSlot(u, d, Unescape(parts[0]), q[0]); }
  }

  lemma WriteIntoList<P>(u: Numerals, d: Doc<P>, parts: seq<string>, value: Doc<P>, hole: P, i: nat)
    requires parts != [] && d.List? && Slot(u, Unescape(parts[0])) == Some(i)
    ensures var padded := Padded(d.items, i, hole);
      var child := if |parts| == 1 then Some(value) else
        Write(u, if padded[i] == Prim(hole) then Fresh(u, parts[1]) else padded[i], parts[1..], value, hole);
      Write(u, d, parts, value, hole) == if child.None? then None else Some(List(padded[i := child.value]))
  {}

  lemma HasChild<P>(d: Doc<P>, q: Address)
    requires q != [] && Node(d, q).Some?
    ensures !d.Prim?
  {}

  lemma WriteBelow<P>(u: Numerals, d: Doc<P>, parts: seq<string>, value: Doc<P>, hole: P, q: Address)
    requires |parts| > 1 && |q| > 1 && Node(d, q).Some? && Write(u, d, parts, value, hole).Some?
    requires CanonicalIn(d, UnescapeAll(parts)) && Unescape(parts[0]) == q[0]
    ensures var k := Find(Steps(d), q[0]);
      k >= 0 && Write(u, Steps(d)[k].1, parts[1..], value, hole).Some?
  {
    if d.List? {
      SameSlot(u, d, Unescape(parts[0]), q[0]);
      WriteIntoList(u, d, parts, value, hole, NatOf(q[0]));
      HasChild(d.items[NatOf(q[0])], q[1..]);
    }
  }

  /** For an existing address and a pointer without leading zeros, parting ways
      is the same as neither being a prefix of the other.  */
  lemma {:induction false} ApartIff<P>(u: Numerals, d: Doc<P>, parts: seq<string>, value: Doc<P>, hole: P, q: Address)
    requires parts != [] && Write(u, d, parts, value, hole).Some?
    requires Node(d, q).Some? && CanonicalIn(d, UnescapeAll(parts))
    ensures Apart(u, d, parts, q) <==> !(q <= UnescapeAll(parts)) && !(UnescapeAll(parts) <= q)
    decreases parts
  {
    var steps := UnescapeAll(parts);
    if q != [] {
      ConsPrefix(q, steps);
      ConsPrefix(steps, q);
      ApartStep(u, d, parts, q);
      if steps[0] == q[0] && |parts| > 1 && |q| > 1 {
        WriteBelow(u, d, parts, value, hole, q);
        ApartIff(u, Steps(d)[Find(Steps(d), q[0])].1, parts[1..], value, hole, q[1..]);
      }
    }
  }

  lemma ConsPrefix(a: Address, b: Address)
    requires a != [] && b != []
    ensures a <= b <==> a[0] == b[0] && a[1..] <= b[1..]
  {
    assert a == [a[0]] + a[1..] && b == [b[0]] + b[1..];
  }

  /** Canonical texts of one array index are equal. */
  lemma SameSlot<P>(u: Numerals, d: Doc<P>, a: string, b: string)
    requires d.List? && IsCanonical(a) && Find(Steps(d), b) >= 0
    ensures IsCanonical(b) && NatOf(b) < |d.items| && Find(Steps(d), b) == NatOf(b)
    ensures Slot(u, a) == Slot(u, b) <==> a == b
  {
    FindItem(d, b);
    StrOfNatOf(a);
    StrOfNatOf(b);
  }

  /** In pointer text: a write changes no existing node whose path is neither a
      prefix nor an extension of its pointer.  */
  lemma WriteLeavesOtherPaths<P>(u: Numerals, d: Doc<P>, pointer: string, value: Doc<P>, hole: P, q: Address)
    requires pointer != "" && pointer[0] == '/' && Write(u, d, RawParts(pointer), value, hole).Some?
    requires Node(d, q).Some? && CanonicalIn(d, Parts(pointer))
    requires !(q <= Parts(pointer)) && !(Parts(pointer) <= q)
    ensures Resolve(u, Write(u, d, RawParts(pointer), value, hole).value, Render(q)) == Resolve(u, d, Render(q)) == Node(d, q)
  {
    var after := Write(u, d, RawParts(pointer), value, hole).value;
    ResolveRender(u, d, q);
    ResolveRender(u, after, q);
    ApartIff(u, d, RawParts(pointer), value, hole, q);
    WriteLeavesOthers(u, d, RawParts(pointer), value, hole, q);
  }

  // ---------------------------------------------------------------- refused writes

  /** `int` takes what `str.isdigit` takes. */
  predicate Converts(u: Numerals, part: string) {
    IsIndex(u, part) ==> IntOf(u, part).Some?
  }

  predicate AllConvert(u: Numerals, parts: seq<string>) {
    forall k :: 0 <= k < |parts| ==> Converts(u, parts[k])
  }

  /** A chain of new containers takes a write exactly when its parts convert. */
  lemma {:induction false} FreshTakesIff<P>(u: Numerals, parts: seq<string>, value: Doc<P>, hole: P)
    requires parts != []
    ensures Write(u, Fresh(u, parts[0]), parts, value, hole).Some? <==> AllConvert(u, parts)
  {
    if IsIndex(u, parts[0]) { DigitsArePlain(u, parts[0]); }
    if |parts| > 1 {
      FreshTakesIff(u, parts[1..], value, hole);
      assert AllConvert(u, parts) <==> Converts(u, parts[0]) && AllConvert(u, parts[1..]) by {
        assert parts == [parts[0]] + parts[1..];
      }
    }
  }

  ghost predicate RefusalIsUndone<P>(u: Numerals, d: Doc<P>, parts: seq<string>, value: Doc<P>, hole: P)
    requires parts != []
  {
    Write(u, d, parts, value, hole).None? ==> Left(u, d, parts, hole) == d
  }

  /** A refused write leaves the document as it was, whatever the document,
      exactly when every part after the first converts: a digit without a
      decimal value is met only after containers were created for it.  */
  lemma RefusalIsUndoneIff<P(!new)>(u: Numerals, parts: seq<string>, hole: P)
    requires parts != []
    ensures (forall d: Doc<P>, value :: RefusalIsUndone(u, d, parts, value, hole)) <==> AllConvert(u, parts[1..])
  {
    if AllConvert(u, parts[1..]) {
      forall d: Doc<P>, value ensures RefusalIsUndone(u, d, parts, value, hole) {
        if Write(u, d, parts, value, hole).None? { RefusalUndone(u, d, parts, value, hole); }
      }
    } else {
      FreshTakesIff(u, parts[1..], Prim(hole), hole);
      assert !RefusalIsUndone(u, Dict([]), parts, Prim(hole), hole);
    }
  }

  lemma {:induction false} RefusalUndone<P>(u: Numerals, d: Doc<P>, parts: seq<string>, value: Doc<P>, hole: P)
    requires parts != [] && Write(u, d, parts, value, hole).None? && AllConvert(u, parts[1..])
    ensures Left(u, d, parts, hole) == d
    decreases parts
  {
    if |parts| > 1 {
      var part := Unescape(parts[0]);
      FreshTakesIff(u, parts[1..], value, hole);
      if d.Dict? {
        var k := Find(d.fields, part);
        RefusalUndone(u, d.fields[k].1, parts[1..], value, hole);
        assert d.fields[k := (part, d.fields[k].1)] == d.fields;
      } else if d.List? && Slot(u, part).Some? {
        var i := Slot(u, part).value;
        RefusalUndone(u, d.items[i], parts[1..], value, hole);
        assert d.items[i := d.items[i]] == d.items;
      }
    }
  }

  // ---------------------------------------------------------------- rebuilding from leaves

  type Leaves<P> = seq<(Address, P)>

  function Under<P>(step: string, es: Leaves<P>): (r: Leaves<P>)
    ensures |r| == |es| && forall i :: 0 <= i < |r| ==> r[i] == ([step] + es[i].0, es[i].1)
  {
    if es == [] then [] else [([step] + es[0].0, es[0].1)] + Under(step, es[1..])
  }

  /** The leaves of a document in enumeration order. */
  function LeavesOf<P>(d: Doc<P>): Leaves<P>
    decreases d, 1, 0
  {
    if d.Prim? then [([], d.value)] else LeavesFrom(d, 0)
  }

  function LeavesFrom<P>(d: Doc<P>, i: nat): Leaves<P>
    requires i <= |Steps(d)|
    decreases d, 0, |Steps(d)| - i
  {
    if i == |Steps(d)| then []
    else Under(Steps(d)[i].0, LeavesOf(Steps(d)[i].1)) + LeavesFrom(d, i + 1)
  }

  /** Writing a list of leaves one after the other. */
  function WriteLeaves<P(==)>(u: Numerals, d: Doc<P>, es: Leaves<P>, hole: P): Option<Doc<P>>
    requires forall i :: 0 <= i < |es| ==> es[i].0 != []
    decreases |es|
  {
    if es == [] then Some(d)
    else match Write(u, d, EscapeAll(es[0].0), Prim(es[0].1), hole)
      case None => None
      case Some(next) => WriteLeaves(u, next, es[1..], hole)
  }

  /** Nothing below this node is lost by listing only leaves, and no object is
      mistaken for an array: nested containers are not empty, and the first
      key of a nested object is not a string of digits.  */
  ghost predicate Nested<P>(u: Numerals, d: Doc<P>)
    decreases d
  {
    && (!d.Prim? ==> Steps(d) != [])
    && (d.Dict? ==> !IsIndex(u, d.fields[0].0))
    && forall i :: 0 <= i < |Steps(d)| ==> Nested(u, Steps(d)[i].1)
  }

  ghost predicate Rebuildable<P>(u: Numerals, d: Doc<P>) {
    forall i :: 0 <= i < |Steps(d)| ==> Nested(u, Steps(d)[i].1)
  }

  lemma {:induction false} WriteLeavesConcat<P>(u: Numerals, d: Doc<P>, es: Leaves<P>, fs: Leaves<P>, hole: P)
    requires forall i :: 0 <= i < |es| ==> es[i].0 != []
    requires forall i :: 0 <= i < |fs| ==> fs[i].0 != []
    ensures WriteLeaves(u, d, es + fs, hole) == match WriteLeaves(u, d, es, hole)
      case None => None
      case Some(next) => WriteLeaves(u, next, fs, hole)
    decreases |es|
  {
    if es == [] {
      assert es + fs == fs;
    } else {
      assert (es + fs)[1..] == es[1..] + fs;
      var next := Write(u, d, EscapeAll(es[0].0), Prim(es[0].1), hole);
      if next.Some? { WriteLeavesConcat(u, next.value, es[1..], fs, hole); }
    }
  }

  lemma EscapedHead(u: Numerals, step: string, a: Address)
    ensures EscapeAll([step] + a) == [Escape(step)] + EscapeAll(a)
    ensures |EscapeAll(a)| == |a|
    ensures Unescape(Escape(step)) == step
    ensures IsIndex(u, Escape(step)) <==> IsIndex(u, step)
    decreases |a|
  {
    assert ([step] + a)[1..] == a;
    UnescapeEscape(step);
    if IsIndex(u, step) { DigitsArePlain(u, step); }
    if IsIndex(u, Escape(step)) { DigitsArePlain(u, Escape(step)); }
    if a != [] { EscapedHead(u, a[0], a[1..]); }
  }

  /** Replaces the child a step leads to, or adds it at the end. */
  function WithChild<P>(d: Doc<P>, step: string, child: Doc<P>): Doc<P>
    requires d.List? ==> IsDigits(step) && NatOf(step) <= |d.items|
  {
    match d
    case Prim(_) => d
    case Dict(fields) => Dict(Put(fields, step, child))
    case List(items) => List(if NatOf(step) < |items| then items[NatOf(step) := child] else items + [child])
  }

  /** The container a write under this step descends into, if it is there. */
  function Below<P(==)>(d: Doc<P>, step: string, hole: P): Option<Doc<P>>
    requires d.List? ==> IsDigits(step) && NatOf(step) <= |d.items|
  {
    match d
    case Prim(_) => None
    case Dict(fields) => if Find(fields, step) < 0 then None else Some(fields[Find(fields, step)].1)
    case List(items) =>
      if NatOf(step) < |items| && items[NatOf(step)] != Prim(hole) then Some(items[NatOf(step)]) else None
  }

  predicate Reaches<P>(d: Doc<P>, step: string) {
    !d.Prim? && (d.List? ==> IsDigits(step) && NatOf(step) <= |d.items|)
  }

  function Wrapped<P>(d: Doc<P>, step: string, child: Option<Doc<P>>): Option<Doc<P>>
    requires Reaches(d, step)
  {
    match child
    case None => None
    case Some(c) => Some(WithChild(d, step, c))
  }

  lemma FreshEscaped<P>(u: Numerals, a: Address)
    requires a != []
    ensures EscapeAll(a) != [] && Fresh<P>(u, EscapeAll(a)[0]) == Fresh(u, a[0])
  {
    EscapedHead(u, a[0], a[1..]);
  }

  /** The child a write descends into; a missing one is chosen by the next part. */
  function Descent<P(==)>(u: Numerals, d: Doc<P>, step: string, next: string, hole: P): Doc<P>
    requires Reaches(d, step)
  {
    if Below(d, step, hole).Some? then Below(d, step, hole).value else Fresh(u, next)
  }

  lemma WriteInto<P>(u: Numerals, d: Doc<P>, parts: seq<string>, step: string, value: Doc<P>, hole: P)
    requires parts != [] && Unescape(parts[0]) == step && Reaches(d, step)
    ensures Write(u, d, parts, value, hole) == Wrapped(d, step,
      if |parts| == 1 then Some(value) else Write(u, Descent(u, d, step, parts[1], hole), parts[1..], value, hole))
  {
    if d.List? {
      WriteIntoList(u, d, parts, value, hole, NatOf(step));
      var child := if |parts| == 1 then Some(value) else
        Write(u, Descent(u, d, step, parts[1], hole), parts[1..], value, hole);
      WithPadding(d, step, if child.Some? then child.value else value, hole);
    }
  }

  /** Padding the array up to the index adds at most the child itself. */
  lemma WithPadding<P>(d: Doc<P>, step: string, child: Doc<P>, hole: P)
    requires d.List? && Reaches(d, step)
    ensures var padded := Padded(d.items, NatOf(step), hole);
      && padded[NatOf(step) := child] == WithChild(d, step, child).items
      && padded[NatOf(step)] == if NatOf(step) < |d.items| then d.items[NatOf(step)] else Prim(hole)
  {
    var i := NatOf(step);
    var padded := Padded(d.items, i, hole);
    assert i < |d.items| ==> padded == d.items;
    assert i == |d.items| ==> padded == d.items + [Prim(hole)];
  }

  /** One write under a step is a write into the child below it. */
  lemma WriteUnder<P>(u: Numerals, d: Doc<P>, step: string, a: Address, value: Doc<P>, hole: P)
    requires Reaches(d, step)
    ensures Write(u, d, EscapeAll([step] + a), value, hole) == Wrapped(d, step,
      if a == [] then Some(value) else (FreshEscaped<P>(u, a); Write(u, Descent(u, d, step, a[0], hole), EscapeAll(a), value, hole)))
  {
    EscapedHead(u, step, a);
    var parts := EscapeAll([step] + a);
    assert parts[1..] == EscapeAll(a);
    if a != [] { FreshEscaped<P>(u, a); }
    WriteInto(u, d, parts, step, value, hole);
  }

  lemma WrittenIsContainer<P>(u: Numerals, d: Doc<P>, parts: seq<string>, value: Doc<P>, hole: P)
    requires parts != [] && Write(u, d, parts, value, hole).Some?
    ensures !Write(u, d, parts, value, hole).value.Prim?
  {}

  lemma PutTwice<P>(fields: Fields<P>, step: string, c: Doc<P>, e: Doc<P>)
    ensures Put(Put(fields, step, c), step, e) == Put(fields, step, e)
  {
    PutLookup(fields, step, c, step);
    var k := Find(Put(fields, step, c), step);
    if Find(fields, step) < 0 {
      assert (fields + [(step, c)])[k := (step, e)] == fields + [(step, e)];
    }
  }

  lemma WithChildTwice<P>(d: Doc<P>, step: string, c: Doc<P>, e: Doc<P>, hole: P)
    requires Reaches(d, step) && !c.Prim?
    ensures Reaches(WithChild(d, step, c), step)
    ensures Below(WithChild(d, step, c), step, hole) == Some(c)
    ensures WithChild(WithChild(d, step, c), step, e) == WithChild(d, step, e)
  {
    if d.Dict? {
      PutLookup(d.fields, step, c, step);
      PutTwice(d.fields, step, c, e);
    }
  }

  /** Writing leaves under one step builds the child from them. */
  lemma {:induction false} LeavesUnder<P>(u: Numerals, d: Doc<P>, step: string, es: Leaves<P>, hole: P)
    requires Reaches(d, step) && es != [] && forall i :: 0 <= i < |es| ==> es[i].0 != []
    ensures WriteLeaves(u, d, Under(step, es), hole) == Wrapped(d, step,
      WriteLeaves(u, Descent(u, d, step, es[0].0[0], hole), es, hole))
    decreases |es|
  {
    var child := Descent(u, d, step, es[0].0[0], hole);
    WriteUnder(u, d, step, es[0].0, Prim(es[0].1), hole);
    EscapedHead(u, step, es[0].0);
    var next := Write(u, child, EscapeAll(es[0].0), Prim(es[0].1), hole);
    assert Under(step, es)[1..] == Under(step, es[1..]);
    if next.Some? {
      WrittenIsContainer(u, child, EscapeAll(es[0].0), Prim(es[0].1), hole);
      WithChildTwice(d, step, next.value, next.value, hole);
      if |es| > 1 {
        LeavesUnder(u, WithChild(d, step, next.value), step, es[1..], hole);
        var all := WriteLeaves(u, next.value, es[1..], hole);
        if all.Some? { WithChildTwice(d, step, next.value, all.value, hole); }
      }
    }
  }

  lemma {:induction false} LeavesShape<P>(u: Numerals, d: Doc<P>)
    ensures !d.Prim? ==> forall i :: 0 <= i < |LeavesOf(d)| ==> LeavesOf(d)[i].0 != []
    ensures Nested(u, d) ==> LeavesOf(d) != []
    ensures Nested(u, d) && !d.Prim? ==> LeavesOf(d)[0].0[0] == Steps(d)[0].0
    decreases d, 1, 0
  {
    if !d.Prim? {
      LeavesFromShape(d, 0);
      if Nested(u, d) { LeavesShape(u, Steps(d)[0].1); }
    }
  }

  lemma {:induction false} LeavesFromShape<P>(d: Doc<P>, i: nat)
    requires i <= |Steps(d)|
    ensures forall j :: 0 <= j < |LeavesFrom(d, i)| ==> LeavesFrom(d, i)[j].0 != []
    decreases d, 0, |Steps(d)| - i
  {
    if i < |Steps(d)| { LeavesFromShape(d, i + 1); }
  }

  /** The first i children of a container. */
  function Upto<P>(d: Doc<P>, i: nat): Doc<P>
    requires i <= |Steps(d)|
  {
    match d
    case Prim(_) => d
    case Dict(fields) => Dict(fields[..i])
    case List(items) => List(items[..i])
  }

  lemma UptoStep<P>(d: Doc<P>, i: nat, hole: P)
    requires Strict(d) && !d.Prim? && i < |Steps(d)|
    ensures Reaches(Upto(d, i), Steps(d)[i].0)
    ensures Below(Upto(d, i), Steps(d)[i].0, hole) == None
    ensures WithChild(Upto(d, i), Steps(d)[i].0, Steps(d)[i].1) == Upto(d, i + 1)
  {
    StrictSteps(d);
    if d.Dict? {
      assert d.fields[..i + 1] == d.fields[..i] + [d.fields[i]];
    } else {
      assert d.items[..i + 1] == d.items[..i] + [d.items[i]];
    }
  }

  /** The leaves of one child, written under its step, add that child. */
  lemma RebuildPrim<P>(u: Numerals, d: Doc<P>, i: nat, hole: P)
    requires Strict(d) && !d.Prim? && i < |Steps(d)| && Steps(d)[i].1.Prim?
    ensures WriteLeaves(u, Upto(d, i), Under(Steps(d)[i].0, LeavesOf(Steps(d)[i].1)), hole) == Some(Upto(d, i + 1))
  {
    var (step, child) := Steps(d)[i];
    UptoStep(d, i, hole);
    WriteUnder(u, Upto(d, i), step, [], child, hole);
    assert [step] + [] == [step];
    assert Under(step, LeavesOf(child))[1..] == [];
  }

  lemma RebuildContainer<P>(u: Numerals, d: Doc<P>, i: nat, hole: P)
    requires Strict(d) && !d.Prim? && i < |Steps(d)| && !Steps(d)[i].1.Prim? && Nested(u, Steps(d)[i].1)
    requires (LeavesShape(u, Steps(d)[i].1);
      WriteLeaves(u, Upto(Steps(d)[i].1, 0), LeavesOf(Steps(d)[i].1), hole) == Some(Steps(d)[i].1))
    ensures WriteLeaves(u, Upto(d, i), Under(Steps(d)[i].0, LeavesOf(Steps(d)[i].1)), hole) == Some(Upto(d, i + 1))
  {
    var (step, child) := Steps(d)[i];
    LeavesShape(u, child);
    UptoStep(d, i, hole);
    LeavesUnder(u, Upto(d, i), step, LeavesOf(child), hole);
    assert Fresh(u, Steps(child)[0].0) == Upto(child, 0);
  }

  lemma RebuildStep<P>(u: Numerals, d: Doc<P>, i: nat, hole: P)
    requires !d.Prim? && i < |Steps(d)|
    requires WriteLeaves(u, Upto(d, i), Under(Steps(d)[i].0, LeavesOf(Steps(d)[i].1)), hole) == Some(Upto(d, i + 1))
    requires (LeavesFromShape(d, i + 1); WriteLeaves(u, Upto(d, i + 1), LeavesFrom(d, i + 1), hole)) == Some(d)
    ensures (LeavesFromShape(d, i); WriteLeaves(u, Upto(d, i), LeavesFrom(d, i), hole)) == Some(d)
  {
    LeavesFromShape(d, i);
    LeavesFromShape(d, i + 1);
    WriteLeavesConcat(u, Upto(d, i), Under(Steps(d)[i].0, LeavesOf(Steps(d)[i].1)), LeavesFrom(d, i + 1), hole);
  }

  /** Children that survive the walk are rebuilt one after the other. */
  lemma {:induction false} RebuildFrom<P>(u: Numerals, d: Doc<P>, i: nat, hole: P)
    requires Strict(d) && !d.Prim? && Rebuildable(u, d) && i <= |Steps(d)|
    ensures (LeavesFromShape(d, i); WriteLeaves(u, Upto(d, i), LeavesFrom(d, i), hole)) == Some(d)
    decreases d, |Steps(d)| - i
  {
    if i == |Steps(d)| {
      assert Upto(d, i) == d;
    } else {
      var child := Steps(d)[i].1;
      if child.Prim? {
        RebuildPrim(u, d, i, hole);
      } else {
        LeavesShape(u, child);
        RebuildFrom(u, child, 0, hole);
        RebuildContainer(u, d, i, hole);
      }
      RebuildFrom(u, d, i + 1, hole);
      RebuildStep(u, d, i, hole);
    }
  }

  lemma NestedParts<P>(u: Numerals, d: Doc<P>)
    requires Nested(u, d)
    ensures Rebuildable(u, d)
  {}

  /** No write of a leaf ever creates a container that a walk would lose. */
  lemma {:induction false} WriteKeepsRebuildable<P>(u: Numerals, d: Doc<P>, a: Address, value: P, hole: P)
    requires a != [] && Rebuildable(u, d)
    requires (EscapedHead(u, a[0], a[1..]); Write(u, d, EscapeAll(a), Prim(value), hole).Some?)
    ensures (EscapedHead(u, a[0], a[1..]);
      var after := Write(u, d, EscapeAll(a), Prim(value), hole).value;
      Rebuildable(u, after) && (Nested(u, d) || d == Fresh(u, a[0]) ==> Nested(u, after)))
    decreases a
  {
    EscapedHead(u, a[0], a[1..]);
    var parts := EscapeAll(a);
    var after := Write(u, d, parts, Prim(value), hole).value;
    assert parts[1..] == EscapeAll(a[1..]);
    if |a| > 1 { FreshEscaped<P>(u, a[1..]); }
    if d.Dict? {
      var k := Find(d.fields, a[0]);
      var child := if |a| == 1 then Prim(value) else
        Write(u, if k < 0 then Fresh(u, a[1]) else d.fields[k].1, parts[1..], Prim(value), hole).value;
      if |a| > 1 {
        if k >= 0 {
          assert d.fields[k] == Steps(d)[k];
          NestedParts(u, d.fields[k].1);
          WriteKeepsRebuildable(u, d.fields[k].1, a[1..], value, hole);
        } else {
          WriteKeepsRebuildable(u, Fresh(u, a[1]), a[1..], value, hole);
        }
      }
      assert after == Dict(Put(d.fields, a[0], child)) && Nested(u, child);
      PutNested(u, d, a[0], child);
    } else {
      var i := Slot(u, a[0]).value;
      var padded := Padded(d.items, i, hole);
      var child := if |a| == 1 then Prim(value) else
        Write(u, if padded[i] == Prim(hole) then Fresh(u, a[1]) else padded[i], parts[1..], Prim(value), hole).value;
      if |a| > 1 {
        if padded[i] != Prim(hole) {
          assert padded[i] == Steps(d)[i].1;
          NestedParts(u, padded[i]);
          WriteKeepsRebuildable(u, padded[i], a[1..], value, hole);
        } else {
          WriteKeepsRebuildable(u, Fresh(u, a[1]), a[1..], value, hole);
        }
      }
      assert after == List(padded[i := child]) && Nested(u, child);
      ListNested(u, d, i, child, hole);
    }
  }

  lemma PutNested<P>(u: Numerals, d: Doc<P>, key: string, child: Doc<P>)
    requires d.Dict? && Rebuildable(u, d) && Nested(u, child)
    ensures Rebuildable(u, Dict(Put(d.fields, key, child)))
    ensures Nested(u, d) || (d.fields == [] && !IsIndex(u, key)) ==> Nested(u, Dict(Put(d.fields, key, child)))
  {
    var after := Dict(Put(d.fields, key, child));
    forall i | 0 <= i < |Steps(after)| ensures Nested(u, Steps(after)[i].1) {
      if i < |d.fields| { assert Nested(u, Steps(d)[i].1); }
    }
  }

  lemma ListNested<P>(u: Numerals, d: Doc<P>, i: nat, child: Doc<P>, hole: P)
    requires d.List? && Rebuildable(u, d) && Nested(u, child)
    ensures Nested(u, List(Padded(d.items, i, hole)[i := child]))
  {
    var after := List(Padded(d.items, i, hole)[i := child]);
    forall j | 0 <= j < |Steps(after)| ensures Nested(u, Steps(after)[j].1) {
      if j < |d.items| { assert Nested(u, Steps(d)[j].1); }
    }
  }

  lemma {:induction false} LeavesKeepRebuildable<P>(u: Numerals, d: Doc<P>, es: Leaves<P>, hole: P)
    requires Rebuildable(u, d) && forall i :: 0 <= i < |es| ==> es[i].0 != []
    ensures WriteLeaves(u, d, es, hole).Some? ==> Rebuildable(u, WriteLeaves(u, d, es, hole).value)
    decreases |es|
  {
    if es != [] {
      EscapedHead(u, es[0].0[0], es[0].0[1..]);
      var next := Write(u, d, EscapeAll(es[0].0), Prim(es[0].1), hole);
      if next.Some? {
        WriteKeepsRebuildable(u, d, es[0].0, es[0].1, hole);
        LeavesKeepRebuildable(u, next.value, es[1..], hole);
      }
    }
  }

  /** Writing the leaves of an object into `{}` in enumeration order rebuilds
      it, key order included, exactly when every nested container is non-empty
      and no nested object starts with a key of digits.  */
  lemma RebuildIff<P>(u: Numerals, d: Doc<P>, hole: P)
    requires Strict(d) && d.Dict?
    ensures (LeavesShape(u, d); WriteLeaves(u, Dict([]), LeavesOf(d), hole)) == Some(d) <==> Rebuildable(u, d)
  {
    LeavesShape(u, d);
    if Rebuildable(u, d) {
      RebuildFrom(u, d, 0, hole);
      assert Upto(d, 0) == Dict([]);
    }
    assert Rebuildable<P>(u, Dict([]));
    LeavesKeepRebuildable(u, Dict([]), LeavesOf(d), hole);
  }

  const THREE := "\U{0663}"

  /** An object whose first key Python takes for the number 3. */
  function KeyedByThree<P>(value: P): Doc<P> {
    Dict([("a", Dict([(THREE, Prim(value))]))])
  }

  /** It turns into an array of four items, although its key is not one that
      `str` would write.  */
  lemma WiderDigitsAreLost<P>(value: P, hole: P)
    ensures !IsDigits(THREE) && LeavesOf(KeyedByThree(value)) == [(["a", THREE], value)]
    ensures WriteLeaves(Wider(), Dict([]), [(["a", THREE], value)], hole)
      == Some(Dict([("a", List([Prim(hole), Prim(hole), Prim(hole), Prim(value)]))]))
  {
    OneLeaf(value);
    EscapeOfPlain(THREE);
    EscapeOfPlain("a");
    UnescapeOfPlain(THREE);
    UnescapeOfPlain("a");
    var parts := ["a", THREE];
    assert EscapeAll(parts[1..]) == [THREE] && EscapeAll(parts) == parts;
    assert IntOf(Wider(), THREE[..0]) == Some(0);
    var items := [Prim(hole), Prim(hole), Prim(hole), Prim(value)];
    assert Padded([], 3, hole)[3 := Prim(value)] == items;
    assert Write(Wider(), List([]), [THREE], Prim(value), hole) == Some(List(items));
    assert Fresh<P>(Wider(), THREE) == List([]) && Find<P>([], "a") == -1;
    assert parts[1..] == [THREE] && parts[0] == "a";
    assert Write(Wider(), Dict([]), parts, Prim(value), hole) == Some(Dict(Put([], "a", List(items))));
    var leaves: Leaves<P> := [(parts, value)];
    assert leaves[1..] == [] && Put<P>([], "a", List(items)) == [("a", List(items))];
  }

  /** The leaves of an object with one field. */
  lemma OneField<P>(d: Doc<P>, key: string, child: Doc<P>)
    requires d == Dict([(key, child)])
    ensures LeavesOf(d) == Under(key, LeavesOf(child))
  {
    assert Steps(d)[0] == (key, child);
    assert LeavesFrom(d, 1) == [];
  }

  lemma OneLeaf<P>(value: P)
    ensures LeavesOf(KeyedByThree(value)) == [(["a", THREE], value)]
  {
    var inner := Dict([(THREE, Prim(value))]);
    OneField(inner, THREE, Prim(value));
    OneField(KeyedByThree(value), "a", inner);
    assert [THREE] + [] == [THREE] && ["a"] + [THREE] == ["a", THREE];
    assert LeavesOf(inner) == [([THREE], value)];
  }

  // ---------------------------------------------------------------- through pointer text

  function Texts<P>(path: string, es: Leaves<P>): (r: seq<string>)
    ensures |r| == |es| && forall i :: 0 <= i < |r| ==> r[i] == path + Render(es[i].0)
  {
    if es == [] then [] else [path + Render(es[0].0)] + Texts(path, es[1..])
  }

  lemma TextsConcat<P>(path: string, es: Leaves<P>, fs: Leaves<P>)
    ensures Texts(path, es + fs) == Texts(path, es) + Texts(path, fs)
  {}

  lemma TextsUnder<P>(path: string, step: string, es: Leaves<P>)
    ensures Texts(path, Under(step, es)) == Texts(path + "/" + Escape(step), es)
  {
    forall i | 0 <= i < |es| ensures Texts(path, Under(step, es))[i] == Texts(path + "/" + Escape(step), es)[i] {
      DocumentPaths.RenderUnder(path, step, es[i].0);
    }
  }

  /** The listed leaf paths are the texts of the leaves. */
  lemma {:induction false} PathsAreTexts<P>(d: Doc<P>, path: string)
    ensures Paths(d, path, true) == Texts(path, LeavesOf(d))
    decreases d, 1, 0
  {
    if d.Prim? {
      assert path + Render([]) == path;
    } else {
      PathsFromAreTexts(d, 0, path);
    }
  }

  lemma {:induction false} PathsFromAreTexts<P>(d: Doc<P>, i: nat, path: string)
    requires i <= |Steps(d)|
    ensures PathsFrom(d, i, path, true) == Texts(path, LeavesFrom(d, i))
    decreases d, 0, |Steps(d)| - i
  {
    if i < |Steps(d)| {
      var (step, child) := Steps(d)[i];
      PathsAreTexts(child, path + "/" + Escape(step));
      PathsFromAreTexts(d, i + 1, path);
      TextsStep(d, i, path);
    }
  }

  lemma TextsStep<P>(d: Doc<P>, i: nat, path: string)
    requires i < |Steps(d)|
    ensures Texts(path, LeavesFrom(d, i)) ==
      Texts(path + "/" + Escape(Steps(d)[i].0), LeavesOf(Steps(d)[i].1)) + Texts(path, LeavesFrom(d, i + 1))
  {
    var (step, child) := Steps(d)[i];
    TextsUnder(path, step, LeavesOf(child));
    TextsConcat(path, Under(step, LeavesOf(child)), LeavesFrom(d, i + 1));
  }

  lemma {:induction false} LeafNodes<P>(d: Doc<P>, i: nat)
    requires Strict(d) && i < |LeavesOf(d)|
    ensures Node(d, LeavesOf(d)[i].0) == Some(Prim(LeavesOf(d)[i].1))
    decreases d, 1, 0
  {
    if !d.Prim? { LeafNodesFrom(d, 0, i); }
  }

  lemma {:induction false} LeafNodesFrom<P>(d: Doc<P>, k: nat, i: nat)
    requires Strict(d) && k <= |Steps(d)| && i < |LeavesFrom(d, k)|
    ensures Node(d, LeavesFrom(d, k)[i].0) == Some(Prim(LeavesFrom(d, k)[i].1))
    decreases d, 0, |Steps(d)| - k
  {
    var es := LeavesOf(Steps(d)[k].1);
    if i < |es| {
      LeafNodes(Steps(d)[k].1, i);
      DocumentPaths.NodeUnder(d, k, es[i].0);
    } else {
      LeafNodesFrom(d, k + 1, i - |es|);
    }
  }

  lemma PointerParts(a: Address)
    requires a != []
    ensures RawParts(Render(a)) == EscapeAll(a)
  {
    RenderTail(a);
    SplitOfRender(a);
  }

  lemma LeafText<P>(u: Numerals, d: Doc<P>, i: nat)
    requires Strict(d) && d.Dict? && i < |LeavesOf(d)|
    ensures |Paths(d, "", true)| == |LeavesOf(d)| && LeavesOf(d)[i].0 != []
    ensures Resolve(u, d, Paths(d, "", true)[i]) == Some(Prim(LeavesOf(d)[i].1))
    ensures RawParts(Paths(d, "", true)[i]) == EscapeAll(LeavesOf(d)[i].0)
  {
    LeavesShape(u, d);
    PathsAreTexts(d, "");
    LeafNodes(d, i);
    var a := LeavesOf(d)[i].0;
    assert Paths(d, "", true)[i] == "" + Render(a) == Render(a);
    ResolveRender(u, d, a);
    PointerParts(a);
  }

  lemma WriteLeavesStep<P>(u: Numerals, d: Doc<P>, es: Leaves<P>, i: nat, hole: P)
    requires i < |es| && forall j :: 0 <= j < |es| ==> es[j].0 != []
    ensures EscapeAll(es[i].0) != []
    ensures WriteLeaves(u, d, es[i..], hole) == match Write(u, d, EscapeAll(es[i].0), Prim(es[i].1), hole)
      case None => None
      case Some(next) => WriteLeaves(u, next, es[i + 1..], hole)
  {
    EscapedHead(u, es[i].0[0], es[i].0[1..]);
    assert es[i..][1..] == es[i + 1..];
  }

  /** The outcome of writing the leaves of a document from the i-th on. */
  ghost function Remaining<P>(u: Numerals, root: Doc<P>, d: Doc<P>, i: nat, hole: P): Option<Doc<P>>
    requires !d.Prim? && i <= |LeavesOf(d)|
  {
    LeavesShape(u, d);
    WriteLeaves(u, root, LeavesOf(d)[i..], hole)
  }

  lemma RemainingStep<P>(u: Numerals, root: Doc<P>, d: Doc<P>, i: nat, hole: P)
    requires !d.Prim? && i < |LeavesOf(d)|
    ensures EscapeAll(LeavesOf(d)[i].0) != []
    ensures Remaining(u, root, d, i, hole) == match Write(u, root, EscapeAll(LeavesOf(d)[i].0), Prim(LeavesOf(d)[i].1), hole)
      case None => None
      case Some(next) => Remaining(u, next, d, i + 1, hole)
  {
    LeavesShape(u, d);
    WriteLeavesStep(u, root, LeavesOf(d), i, hole);
  }

  lemma RemainingEnds<P>(u: Numerals, root: Doc<P>, d: Doc<P>, hole: P)
    requires !d.Prim?
    ensures |Paths(d, "", true)| == |LeavesOf(d)|
    ensures Remaining(u, root, d, |LeavesOf(d)|, hole) == Some(root)
  {
    PathsAreTexts(d, "");
  }

  /** Sets the i-th leaf of a document, looked up by its path text. */
  method SetLeaf<P(==)>(u: Numerals, builder: Builder<P>, d: Doc<P>, paths: seq<string>, i: nat) returns (ok: bool)
    requires builder.numerals == u && Strict(d) && d.Dict? && paths == Paths(d, "", true) && i < |LeavesOf(d)|
    modifies builder
    ensures ok ==> Remaining(u, builder.root, d, i + 1, builder.hole) == Remaining(u, old(builder.root), d, i, builder.hole)
    ensures !ok ==> Remaining(u, old(builder.root), d, i, builder.hole) == None
  {
    LeafText(u, d, i);
    RemainingStep(u, builder.root, d, i, builder.hole);
    var value := JsonPointerValue(u, d, paths[i]);
    ok := builder.Set(paths[i], value.value);
  }

  /** Rebuilding as a script does it: list the leaf paths, look each one up,
      and set it in an object that starts out empty.  */
  method SetEachLeaf<P(==)>(u: Numerals, d: Doc<P>, hole: P) returns (r: Option<Doc<P>>)
    requires Strict(d) && d.Dict?
    ensures r == Remaining(u, Dict([]), d, 0, hole)
  {
    var paths := PrimitiveLeafPaths(d, "");
    RemainingEnds(u, d, d, hole);
    var builder := new Builder(u, hole);
    for i := 0 to |paths|
      invariant builder.numerals == u && builder.hole == hole && |paths| == |LeavesOf(d)|
      invariant Remaining(u, builder.root, d, i, hole) == Remaining(u, Dict([]), d, 0, hole)
    {
      var ok := SetLeaf(u, builder, d, paths, i);
      if !ok {
        return None;
      }
    }
    RemainingEnds(u, builder.root, d, hole);
    return Some(builder.root);
  }

  method RebuildFromLeaves<P(==)>(u: Numerals, d: Doc<P>, hole: P) returns (r: Option<Doc<P>>)
    requires Strict(d) && d.Dict?
    ensures r == Some(d) <==> Rebuildable(u, d)
  {
    r := SetEachLeaf(u, d, hole);
    LeavesShape(u, d);
    assert LeavesOf(d)[0..] == LeavesOf(d);
    RebuildIff(u, d, hole);
  }
}
