/** Parsed JSON documents as the path functions of
    `scripts/check_pulse_external_sut_starter.py` walk them.

    Unlike in module Json, objects keep their insertion order here: the walks
    iterate over dictionaries, so the order of the paths they list depends on
    it.  A primitive is any value of type P; equality on P stands for equality
    of canonical JSON text.  */
module Documents {
  import opened Json
  import opened Text
  import opened Segments
  import opened Numerals

  datatype Doc<P> =
    | Prim(value: P)
    | List(items: seq<Doc<P>>)
    | Dict(fields: seq<(string, Doc<P>)>)

  /** A node is reached by the keys and decimal indices on the way to it. */
  type Address = seq<string>

  /** The children of a container, each with the step that leads to it. */
  function Steps<P>(d: Doc<P>): (r: seq<(string, Doc<P>)>)
    ensures d.Prim? ==> r == []
    ensures d.Dict? ==> r == d.fields
    ensures d.List? ==> |r| == |d.items| && forall i :: 0 <= i < |r| ==> r[i] == (StrOf(i), d.items[i])
    ensures forall i :: 0 <= i < |r| ==> r[i].1 < d
  {
    match d
    case Prim(_) => []
    case List(items) => seq(|items|, i requires 0 <= i < |items| => (StrOf(i), items[i]))
    case Dict(fields) =>
      assert forall i :: 0 <= i < |fields| ==> fields[i].1 < d;
      fields
  }

  predicate DistinctSteps<P>(steps: seq<(string, Doc<P>)>) {
    forall i, j :: 0 <= i < |steps| && 0 <= j < |steps| && steps[i].0 == steps[j].0 ==> i == j
  }

  /** Strict parsing refuses duplicate keys at every level. */
  ghost predicate Strict<P>(d: Doc<P>)
    decreases d
  {
    && (d.Dict? ==> DistinctSteps(d.fields))
    && forall i :: 0 <= i < |Steps(d)| ==> Strict(Steps(d)[i].1)
  }

  lemma StrictSteps<P>(d: Doc<P>)
    requires Strict(d)
    ensures DistinctSteps(Steps(d))
  {
    if d.List? {
      forall i, j | 0 <= i < |Steps(d)| && 0 <= j < |Steps(d)| && Steps(d)[i].0 == Steps(d)[j].0 ensures i == j {
        StrOfInjective(i, j);
      }
    }
  }

  /** The position of a step, or -1. */
  function Find<P>(steps: seq<(string, Doc<P>)>, step: string): (k: int)
    ensures -1 <= k < |steps|
    ensures k >= 0 ==> steps[k].0 == step
    ensures k < 0 ==> forall i :: 0 <= i < |steps| ==> steps[i].0 != step
  {
    if steps == [] then -1
    else if steps[|steps| - 1].0 == step then |steps| - 1
    else Find(steps[..|steps| - 1], step)
  }

  /** The node at an address. */
  function Node<P>(d: Doc<P>, a: Address): Option<Doc<P>> {
    if a == [] then Some(d)
    else
      var k := Find(Steps(d), a[0]);
      if k < 0 then None else Node(Steps(d)[k].1, a[1..])
  }

  /** What `json_pointer_value` reaches: any text that `str.isdigit` and `int`
      take indexes an array.  */
  function At<P>(u: Numerals, d: Doc<P>, parts: seq<string>): Option<Doc<P>> {
    if parts == [] then Some(d)
    else match d
      case Prim(_) => None
      case Dict(fields) =>
        var k := Find(fields, parts[0]);
        if k < 0 then None else At(u, Steps(d)[k].1, parts[1..])
      case List(items) =>
        var n := Slot(u, parts[0]);
        if n.Some? && n.value < |items| then At(u, items[n.value], parts[1..]) else None
  }

  /** Every array along the way is indexed as `str` writes its index: in ASCII
      digits, without leading zeros.  */
  predicate CanonicalIn<P>(d: Doc<P>, parts: seq<string>)
    decreases parts
  {
    parts == [] ||
    match d
    case Prim(_) => true
    case Dict(fields) =>
      var k := Find(fields, parts[0]);
      k < 0 || CanonicalIn(Steps(d)[k].1, parts[1..])
    case List(items) =>
      IsCanonical(parts[0]) && (NatOf(parts[0]) < |items| ==> CanonicalIn(items[NatOf(parts[0])], parts[1..]))
  }

  lemma FindItem<P>(d: Doc<P>, step: string)
    requires d.List?
    ensures Find(Steps(d), step) == if IsCanonical(step) && NatOf(step) < |d.items| then NatOf(step) else -1
  {
    var k := Find(Steps(d), step);
    if k >= 0 { StrOfIsCanonical(k); }
    if IsCanonical(step) && NatOf(step) < |d.items| {
      StrOfNatOf(step);
      assert Steps(d)[NatOf(step)].0 == step;
      StrOfInjective(k, NatOf(step));
    }
  }

  /** Addresses are the canonical part of what the lookup accepts. */
  lemma {:induction false} NodeIffAt<P>(u: Numerals, d: Doc<P>, a: Address, n: Doc<P>)
    ensures Node(d, a) == Some(n) <==> At(u, d, a) == Some(n) && CanonicalIn(d, a)
    decreases a
  {
    if a != [] {
      match d
      case Prim(_) =>
      case Dict(fields) =>
        var k := Find(fields, a[0]);
        if k >= 0 { NodeIffAt(u, fields[k].1, a[1..], n); }
      case List(items) =>
        FindItem(d, a[0]);
        if Find(Steps(d), a[0]) >= 0 { NodeIffAt(u, items[NatOf(a[0])], a[1..], n); }
    }
  }

  // ---------------------------------------------------------------- pointer text

  /** The pointer text of an address. */
  function Render(a: Address): string {
    if a == [] then "" else "/" + Escape(a[0]) + Render(a[1..])
  }

  /** `s.split("/")`. */
  function Split(s: string): (r: seq<string>)
    ensures r != []
  {
    if s == "" then [""]
    else if s[0] == '/' then [""] + Split(s[1..])
    else
      var r := Split(s[1..]);
      [[s[0]] + r[0]] + r[1..]
  }

  function UnescapeAll(parts: seq<string>): (r: seq<string>)
    ensures |r| == |parts|
    ensures forall i :: 0 <= i < |r| ==> r[i] == Unescape(parts[i])
  {
    if parts == [] then [] else [Unescape(parts[0])] + UnescapeAll(parts[1..])
  }

  /** `pointer[1:].split("/")` with every part unescaped. */
  function Parts(pointer: string): seq<string>
    requires pointer != ""
  {
    UnescapeAll(Split(pointer[1..]))
  }

  /** `json_pointer_value`; None stands for a raised error. */
  function Resolve<P>(u: Numerals, d: Doc<P>, pointer: string): Option<Doc<P>> {
    if pointer == "" then Some(d)
    else if pointer[0] != '/' then None
    else At(u, d, Parts(pointer))
  }

  method JsonPointerValue<P>(u: Numerals, d: Doc<P>, pointer: string) returns (r: Option<Doc<P>>)
    ensures r == Resolve(u, d, pointer)
  {
    if !(pointer == "" || pointer[0] == '/') {
      return None;
    }
    var current := d;
    if pointer == "" {
      return Some(current);
    }
    var raw := Split(pointer[1..]);
    ghost var parts := Parts(pointer);
    for n := 0 to |raw|
      invariant At(u, d, parts) == At(u, current, parts[n..])
    {
      var part := Unescape(raw[n]);
      assert parts[n..][0] == part && parts[n..][1..] == parts[n + 1..];
      match current
      case Dict(fields) =>
        var k := Find(fields, part);
        if k < 0 {
          return None;
        }
        current := fields[k].1;
      case List(items) =>
        if !IsIndex(u, part) {
          return None;
        }
        var index := IntOf(u, part);
        if index.None? || index.value >= |items| {
          return None;
        }
        current := items[index.value];
      case Prim(_) =>
        return None;
    }
    return Some(current);
  }

  lemma {:induction false} SplitSegment(s: string, rest: string)
    requires '/' !in s
    ensures Split(s + "/" + rest) == [s] + Split(rest)
    ensures Split(s) == [s]
  {
    var t := s + "/" + rest;
    if s == "" {
      assert t == "/" + rest && t[1..] == rest;
    } else {
      SplitSegment(s[1..], rest);
      assert t[1..] == s[1..] + "/" + rest;
      assert [s[0]] + s[1..] == s;
      assert Split(t[1..]) == [s[1..]] + Split(rest);
    }
  }

  lemma SlashText(e: string, rest: string)
    ensures ("/" + e + rest)[0] == '/' && ("/" + e + rest)[1..] == e + rest
    ensures rest != "" && rest[0] == '/' ==> e + rest == e + "/" + rest[1..]
  {
    if rest != "" && rest[0] == '/' { assert rest == "/" + rest[1..]; }
  }

  lemma RenderTail(a: Address)
    requires a != []
    ensures Render(a) != "" && Render(a)[0] == '/'
    ensures Render(a)[1..] == if |a| == 1 then Escape(a[0]) else Escape(a[0]) + "/" + Render(a[1..])[1..]
  {
    SlashText(Escape(a[0]), Render(a[1..]));
    if |a| > 1 {
      SlashText(Escape(a[1]), Render(a[1..][1..]));
    } else {
      assert Escape(a[0]) + "" == Escape(a[0]);
    }
  }

  lemma {:induction false} SplitOfRender(a: Address)
    requires a != []
    ensures Split(Render(a)[1..]) == EscapeAll(a)
  {
    EscapeHasNoSlash(a[0]);
    RenderTail(a);
    if |a| == 1 {
      SplitSegment(Escape(a[0]), "");
    } else {
      SplitOfRender(a[1..]);
      SplitSegment(Escape(a[0]), Render(a[1..])[1..]);
    }
  }

  function EscapeAll(a: Address): seq<string> {
    if a == [] then [] else [Escape(a[0])] + EscapeAll(a[1..])
  }

  lemma {:induction false} UnescapeEscapeAll(a: Address)
    ensures UnescapeAll(EscapeAll(a)) == a
  {
    if a != [] {
      UnescapeEscape(a[0]);
      UnescapeEscapeAll(a[1..]);
      assert EscapeAll(a)[1..] == EscapeAll(a[1..]);
    }
  }

  /** Splitting the text of an address gives the address back. */
  lemma PartsOfRender(a: Address)
    requires a != []
    ensures Render(a) != "" && Render(a)[0] == '/' && Parts(Render(a)) == a
  {
    RenderTail(a);
    SplitOfRender(a);
    UnescapeEscapeAll(a);
  }

  lemma RenderInjective(a: Address, b: Address)
    requires Render(a) == Render(b)
    ensures a == b
  {
    if a != [] && b != [] {
      PartsOfRender(a);
      PartsOfRender(b);
    }
  }

  /** Looking a rendered address up finds the node it names. */
  lemma ResolveRender<P>(u: Numerals, d: Doc<P>, a: Address)
    ensures Resolve(u, d, Render(a)) == At(u, d, a)
    ensures Node(d, a).Some? ==> Resolve(u, d, Render(a)) == Node(d, a)
  {
    if a != [] { PartsOfRender(a); }
    if Node(d, a).Some? { NodeIffAt(u, d, a, Node(d, a).value); }
  }

  // ---------------------------------------------------------------- enumeration

  /** The paths of the primitives of a document, or of its containers, in
      the order the recursive walks meet them.  */
  ghost function Paths<P>(d: Doc<P>, path: string, leaf: bool): seq<string>
    decreases d, 1, 0
  {
    (if d.Prim? == leaf then [path] else []) + PathsFrom(d, 0, path, leaf)
  }

  ghost function PathsFrom<P>(d: Doc<P>, i: nat, path: string, leaf: bool): seq<string>
    requires i <= |Steps(d)|
    decreases d, 0, |Steps(d)| - i
  {
    if i == |Steps(d)| then []
    else Paths(Steps(d)[i].1, path + "/" + Escape(Steps(d)[i].0), leaf) + PathsFrom(d, i + 1, path, leaf)
  }

  lemma ItemStep<P>(d: Doc<P>, i: nat)
    requires d.List? && i < |d.items|
    ensures Steps(d)[i].1 == d.items[i] && Escape(Steps(d)[i].0) == StrOf(i)
  {
    StrOfIsCanonical(i);
    EscapeOfPlain(StrOf(i));
  }

  method PrimitiveLeafPaths<P>(d: Doc<P>, path: string) returns (paths: seq<string>)
    ensures paths == Paths(d, path, true)
    decreases d
  {
    if d.Prim? {
      return [path];
    }
    paths := [];
    ghost var all := Paths(d, path, true);
    if d.Dict? {
      for i := 0 to |d.fields|
        invariant all == paths + PathsFrom(d, i, path, true)
      {
        var (key, child) := d.fields[i];
        assert (key, child) == Steps(d)[i];
        var inner := PrimitiveLeafPaths(child, path + "/" + Escape(key));
        paths := paths + inner;
      }
    } else {
      for i := 0 to |d.items|
        invariant all == paths + PathsFrom(d, i, path, true)
      {
        ItemStep(d, i);
        var inner := PrimitiveLeafPaths(d.items[i], path + "/" + StrOf(i));
        paths := paths + inner;
      }
    }
  }

  method ContainerPathList<P>(d: Doc<P>, path: string) returns (paths: seq<string>)
    ensures paths == Paths(d, path, false)
    decreases d
  {
    if d.Prim? {
      return [];
    }
    paths := [path];
    ghost var all := Paths(d, path, false);
    if d.Dict? {
      for i := 0 to |d.fields|
        invariant all == paths + PathsFrom(d, i, path, false)
      {
        var (key, child) := d.fields[i];
        assert (key, child) == Steps(d)[i];
        var inner := ContainerPathList(child, path + "/" + Escape(key));
        paths := paths + inner;
      }
    } else {
      for i := 0 to |d.items|
        invariant all == paths + PathsFrom(d, i, path, false)
      {
        ItemStep(d, i);
        var inner := ContainerPathList(d.items[i], path + "/" + StrOf(i));
        paths := paths + inner;
      }
    }
  }
}
