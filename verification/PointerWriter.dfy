/** `set_json_pointer_value`: the writer that creates missing containers, and
    what it can and cannot rebuild.  */
module PointerWriter {
  import opened Json
  import opened Text
  import opened Segments
  import opened Documents
  import opened Numerals

  type Fields<P> = seq<(string, Doc<P>)>

  /** `current[key] = value` on a dictionary. */
  function Put<P>(fields: Fields<P>, key: string, value: Doc<P>): (r: Fields<P>)
    ensures Find(fields, key) < 0 ==> r == fields + [(key, value)]
  {
    var k := Find(fields, key);
    if k < 0 then fields + [(key, value)] else fields[k := (key, value)]
  }

  /** The container `setdefault` creates, chosen by the next part. */
  function Fresh<P>(u: Numerals, next: string): Doc<P> {
    if IsIndex(u, next) then List([]) else Dict([])
  }

  /** `while len(current) <= index: current.append(None)`. */
  function Padded<P>(items: seq<Doc<P>>, index: nat, hole: P): (r: seq<Doc<P>>)
    ensures index < |r| && items <= r
    ensures forall i :: |items| <= i < |r| ==> r[i] == Prim(hole)
  {
    if index < |items| then items else items + seq(index + 1 - |items|, _ => Prim(hole))
  }

  /** Writing through raw pointer parts; None stands for a raised error, and
      `hole` is JSON null.  */
  function Write<P(==)>(u: Numerals, d: Doc<P>, parts: seq<string>, value: Doc<P>, hole: P): Option<Doc<P>>
    requires parts != []
    decreases parts
  {
    var part := Unescape(parts[0]);
    match d
    case Prim(_) => None
    case Dict(fields) =>
      if |parts| == 1 then Some(Dict(Put(fields, part, value)))
      else
        var k := Find(fields, part);
        var child := if k < 0 then Fresh(u, parts[1]) else fields[k].1;
        (match Write(u, child, parts[1..], value, hole)
         case None => None
         case Some(c) => Some(Dict(Put(fields, part, c))))
    case List(items) =>
      if Slot(u, part).None? then None
      else
        var i := Slot(u, part).value;
        var padded := Padded(items, i, hole);
        if |parts| == 1 then Some(List(padded[i := value]))
        else
          var child := if padded[i] == Prim(hole) then Fresh(u, parts[1]) else padded[i];
          (match Write(u, child, parts[1..], value, hole)
           case None => None
           case Some(c) => Some(List(padded[i := c])))
  }

  /** The document a refused write leaves behind: the containers it created on
      the way to the part it could not use stay.  */
  function Left<P(==)>(u: Numerals, d: Doc<P>, parts: seq<string>, hole: P): Doc<P>
    requires parts != []
    decreases parts
  {
    var part := Unescape(parts[0]);
    if |parts| == 1 then d
    else match d
      case Prim(_) => d
      case Dict(fields) =>
        var k := Find(fields, part);
        Dict(Put(fields, part, Left(u, if k < 0 then Fresh(u, parts[1]) else fields[k].1, parts[1..], hole)))
      case List(items) =>
        if Slot(u, part).None? then d
        else
          var i := Slot(u, part).value;
          var padded := Padded(items, i, hole);
          List(padded[i := Left(u, if padded[i] == Prim(hole) then Fresh(u, parts[1]) else padded[i], parts[1..], hole)])
  }

  /** The parts `pointer[1:].split("/")`; the empty pointer has one empty part. */
  function RawParts(pointer: string): (r: seq<string>)
    ensures r != []
  {
    Split(if pointer == "" then "" else pointer[1..])
  }

  // ---------------------------------------------------------------- the loop

  /** Where `current` sits in the container above it. */
  datatype Frame<P> = InDict(fields: Fields<P>, k: nat) | InList(items: seq<Doc<P>>, i: nat)

  predicate FrameOk<P>(f: Frame<P>) {
    match f
    case InDict(fields, k) => k < |fields|
    case InList(items, i) => i < |items|
  }

  predicate FramesOk<P>(frames: seq<Frame<P>>) {
    forall j :: 0 <= j < |frames| ==> FrameOk(frames[j])
  }

  function Refill<P>(f: Frame<P>, d: Doc<P>): Doc<P>
    requires FrameOk(f)
  {
    match f
    case InDict(fields, k) => Dict(fields[k := (fields[k].0, d)])
    case InList(items, i) => List(items[i := d])
  }

  /** The root, given the node `current` refers to and the frames above it. */
  function Root<P>(frames: seq<Frame<P>>, d: Doc<P>): Doc<P>
    requires FramesOk(frames)
    decreases |frames|
  {
    if frames == [] then d
    else Root(frames[..|frames| - 1], Refill(frames[|frames| - 1], d))
  }

  function RootOf<P>(frames: seq<Frame<P>>, d: Option<Doc<P>>): Option<Doc<P>>
    requires FramesOk(frames)
  {
    match d
    case None => None
    case Some(x) => Some(Root(frames, x))
  }

  lemma RootPush<P>(frames: seq<Frame<P>>, f: Frame<P>, d: Doc<P>)
    requires FrameOk(f) && FramesOk(frames)
    ensures FramesOk(frames + [f]) && Root(frames + [f], d) == Root(frames, Refill(f, d))
  {
    assert (frames + [f])[..|frames|] == frames;
  }

  lemma {:induction false} ReplacePairPlain(s: string, a: char, b: char, t: string)
    requires a !in s
    ensures ReplacePair(s, a, b, t) == s
  {
    if s != "" {
      ReplacePairPlain(s[1..], a, b, t);
      assert s == [s[0]] + s[1..];
    }
  }

  lemma UnescapeOfPlain(s: string)
    requires '~' !in s
    ensures Unescape(s) == s
  {
    ReplacePairPlain(s, '~', '1', "/");
    ReplacePairPlain(s, '~', '0', "~");
  }

  lemma DigitsArePlain(u: Numerals, s: string)
    requires IsIndex(u, s)
    ensures '~' !in s && '/' !in s && Unescape(s) == s && Escape(s) == s
  {
    UnescapeOfPlain(s);
    EscapeOfPlain(s);
  }

  function Mapped<P>(d: Option<Doc<P>>, f: Frame<P>): Option<Doc<P>>
    requires FrameOk(f)
  {
    match d
    case None => None
    case Some(c) => Some(Refill(f, c))
  }

  lemma PushFrame<P>(frames: seq<Frame<P>>, f: Frame<P>, child: Option<Doc<P>>, current: Doc<P>)
    requires FrameOk(f) && FramesOk(frames)
    ensures FramesOk(frames + [f]) && RootOf(frames + [f], child) == RootOf(frames, Mapped(child, f))
    ensures Root(frames + [f], current) == Root(frames, Refill(f, current))
  {
    RootPush(frames, f, current);
    if child.Some? { RootPush(frames, f, child.value); }
  }

  lemma DictFrame<P>(fields: Fields<P>, part: string, k: nat, blank: Doc<P>, child: Doc<P>)
    requires k == if Find(fields, part) < 0 then |fields| else Find(fields, part)
    ensures var with := if Find(fields, part) < 0 then fields + [(part, blank)] else fields;
      k < |with| && with[k].0 == part && Refill(InDict(with, k), child) == Dict(Put(fields, part, child))
  {
    if Find(fields, part) < 0 {
      assert (fields + [(part, blank)])[k := (part, child)] == fields + [(part, child)];
    }
  }

  /** Descending into one field of an object: what the rest of the walk makes
      of the child is what the whole walk makes of the object.  */
  lemma EnterDict<P>(u: Numerals, frames: seq<Frame<P>>, fields: Fields<P>, parts: seq<string>, value: Doc<P>, hole: P)
    returns (with: Fields<P>, k: nat)
    requires FramesOk(frames) && |parts| > 1
    ensures with == if Find(fields, Unescape(parts[0])) < 0 then fields + [(Unescape(parts[0]), Fresh(u, parts[1]))] else fields
    ensures k == if Find(fields, Unescape(parts[0])) < 0 then |fields| else Find(fields, Unescape(parts[0]))
    ensures k < |with| && FramesOk(frames + [InDict(with, k)])
    ensures RootOf(frames, Write(u, Dict(fields), parts, value, hole))
      == RootOf(frames + [InDict(with, k)], Write(u, with[k].1, parts[1..], value, hole))
    ensures Root(frames, Left(u, Dict(fields), parts, hole))
      == Root(frames + [InDict(with, k)], Left(u, with[k].1, parts[1..], hole))
  {
    var part := Unescape(parts[0]);
    var found := Find(fields, part);
    with := if found < 0 then fields + [(part, Fresh(u, parts[1]))] else fields;
    k := if found < 0 then |fields| else found;
    var rest := Write(u, with[k].1, parts[1..], value, hole);
    var left := Left(u, with[k].1, parts[1..], hole);
    PushFrame(frames, InDict(with, k), rest, left);
    DictFrame(fields, part, k, Fresh(u, parts[1]), left);
    if rest.Some? { DictFrame(fields, part, k, Fresh(u, parts[1]), rest.value); }
  }

  lemma ListFrame<P>(items: seq<Doc<P>>, with: seq<Doc<P>>, i: nat, child: Doc<P>)
    requires i < |items| == |with| && (with == items || with == items[i := with[i]])
    ensures Refill(InList(with, i), child) == List(items[i := child])
  {
    assert with[i := child] == items[i := child];
  }

  /** Descending into one item of an array, padded up to it. */
  lemma EnterList<P>(u: Numerals, frames: seq<Frame<P>>, items: seq<Doc<P>>, i: nat, parts: seq<string>, value: Doc<P>, hole: P)
    returns (with: seq<Doc<P>>)
    requires FramesOk(frames) && |parts| > 1 && Slot(u, Unescape(parts[0])) == Some(i)
    ensures var padded := Padded(items, i, hole);
      with == if padded[i] == Prim(hole) then padded[i := Fresh(u, parts[1])] else padded
    ensures i < |with| && FramesOk(frames + [InList(with, i)])
    ensures RootOf(frames, Write(u, List(items), parts, value, hole))
      == RootOf(frames + [InList(with, i)], Write(u, with[i], parts[1..], value, hole))
    ensures Root(frames, Left(u, List(items), parts, hole))
      == Root(frames + [InList(with, i)], Left(u, with[i], parts[1..], hole))
  {
    var padded := Padded(items, i, hole);
    with := if padded[i] == Prim(hole) then padded[i := Fresh(u, parts[1])] else padded;
    var rest := Write(u, with[i], parts[1..], value, hole);
    var left := Left(u, with[i], parts[1..], hole);
    PushFrame(frames, InList(with, i), rest, left);
    ListFrame(padded, with, i, left);
    if rest.Some? { ListFrame(padded, with, i, rest.value); }
  }

  class Builder<P(==)> {
    const numerals: Numerals
    const hole: P
    var root: Doc<P>

    constructor (numerals: Numerals, hole: P)
      ensures this.numerals == numerals && this.hole == hole && root == Dict([])
    {
      this.numerals, this.hole := numerals, hole;
      root := Dict([]);
    }

    /** `set_json_pointer_value`; the final root is what the in-place updates
        made of it, also when the call fails.  */
    method Set(pointer: string, value: Doc<P>) returns (ok: bool)
      modifies this
      ensures ok <==> Write(numerals, old(root), RawParts(pointer), value, hole).Some?
      ensures ok ==> root == Write(numerals, old(root), RawParts(pointer), value, hole).value
      ensures !ok ==> root == Left(numerals, old(root), RawParts(pointer), hole)
    {
      var parts := RawParts(pointer);
      var current := root;
      var frames: seq<Frame<P>> := [];
      assert parts[0..] == parts;
      for index := 0 to |parts|
        invariant root == old(root) && FramesOk(frames) && index < |parts|
        invariant Write(numerals, root, parts, value, hole) == RootOf(frames, Write(numerals, current, parts[index..], value, hole))
        invariant Left(numerals, root, parts, hole) == Root(frames, Left(numerals, current, parts[index..], hole))
      {
        var part := Unescape(parts[index]);
        var last := index == |parts| - 1;
        assert parts[index..][1..] == parts[index + 1..];
        if current.Dict? {
          if last {
            root := Root(frames, Dict(Put(current.fields, part, value)));
            return true;
          }
          var fields, k := current.fields, Find(current.fields, part);
          if k < 0 {
            fields, k := fields + [(part, Fresh(numerals, parts[index + 1]))], |fields|;
          }
          ghost var _, _ := EnterDict(numerals, frames, current.fields, parts[index..], value, hole);
          frames, current := frames + [InDict(fields, k)], fields[k].1;
        } else if current.List? {
          if !IsIndex(numerals, part) || IntOf(numerals, part).None? {
            root := Root(frames, current);
            return false;
          }
          var i := IntOf(numerals, part).value;
          var padded := Padded(current.items, i, hole);
          if last {
            root := Root(frames, List(padded[i := value]));
            return true;
          }
          if padded[i] == Prim(hole) {
            padded := padded[i := Fresh(numerals, parts[index + 1])];
          }
          ghost var _ := EnterList(numerals, frames, current.items, i, parts[index..], value, hole);
          frames, current := frames + [InList(padded, i)], padded[i];
        } else {
          root := Root(frames, current);
          return false;
        }
      }
    }
  }
}
