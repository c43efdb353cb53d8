/** What the path lists of a document say about it: they name every node
    exactly once, and with the leaf values they determine the document.  */
module DocumentPaths {
  import opened Json
  import opened Text
  import opened Segments
  import opened Numerals
  import opened Documents

  ghost predicate NoRepeat(s: seq<string>) {
    forall i, j :: 0 <= i < j < |s| ==> s[i] != s[j]
  }

  lemma NoRepeatConcat(s: seq<string>, t: seq<string>)
    requires NoRepeat(s) && NoRepeat(t) && forall x :: x in s ==> x !in t
    ensures NoRepeat(s + t)
  {
    forall i, j | 0 <= i < j < |s + t| ensures (s + t)[i] != (s + t)[j] {
      if i < |s| <= j { assert s[i] in s && t[j - |s|] in t; }
    }
  }

  /** The address a holds a primitive (or, for false, a container). */
  ghost predicate Holds<P>(d: Doc<P>, a: Address, leaf: bool) {
    Node(d, a).Some? && Node(d, a).value.Prim? == leaf
  }

  lemma NodeUnder<P>(d: Doc<P>, i: nat, a: Address)
    requires Strict(d) && i < |Steps(d)|
    ensures Node(d, [Steps(d)[i].0] + a) == Node(Steps(d)[i].1, a)
  {
    StrictSteps(d);
    assert ([Steps(d)[i].0] + a)[1..] == a;
  }

  lemma RenderUnder(path: string, step: string, a: Address)
    ensures path + "/" + Escape(step) + Render(a) == path + Render([step] + a)
  {
    assert ([step] + a)[1..] == a;
  }

  lemma {:induction false} PathsMeaning<P>(d: Doc<P>, path: string, leaf: bool, p: string) returns (a: Address)
    requires Strict(d) && p in Paths(d, path, leaf)
    ensures p == path + Render(a) && Holds(d, a, leaf)
    decreases d, 1, 0
  {
    if d.Prim? == leaf && p == path {
      a := [];
      assert path + "" == path;
    } else {
      var i;
      i, a := PathsFromMeaning(d, 0, path, leaf, p);
    }
  }

  lemma {:induction false} PathsFromMeaning<P>(d: Doc<P>, i: nat, path: string, leaf: bool, p: string)
    returns (k: nat, a: Address)
    requires Strict(d) && i <= |Steps(d)| && p in PathsFrom(d, i, path, leaf)
    ensures i <= k < |Steps(d)| && a != [] && a[0] == Steps(d)[k].0
    ensures p == path + Render(a) && Holds(d, a, leaf)
    decreases d, 0, |Steps(d)| - i
  {
    var (step, child) := Steps(d)[i];
    if p in Paths(child, path + "/" + Escape(step), leaf) {
      var rest := PathsMeaning(child, path + "/" + Escape(step), leaf, p);
      RenderUnder(path, step, rest);
      NodeUnder(d, i, rest);
      k, a := i, [step] + rest;
    } else {
      k, a := PathsFromMeaning(d, i + 1, path, leaf, p);
    }
  }

  lemma {:induction false} PathsCover<P>(d: Doc<P>, path: string, leaf: bool, a: Address)
    requires Strict(d) && Holds(d, a, leaf)
    ensures path + Render(a) in Paths(d, path, leaf)
    decreases a, 1
  {
    if a == [] {
      assert path + "" == path;
    } else {
      var k := Find(Steps(d), a[0]);
      var (step, child) := Steps(d)[k];
      PathsCover(child, path + "/" + Escape(step), leaf, a[1..]);
      assert a == [step] + a[1..];
      RenderUnder(path, step, a[1..]);
      FromIncludes(d, 0, k, path, leaf, path + Render(a));
    }
  }

  lemma {:induction false} FromIncludes<P>(d: Doc<P>, i: nat, k: nat, path: string, leaf: bool, p: string)
    requires i <= k < |Steps(d)| && p in Paths(Steps(d)[k].1, path + "/" + Escape(Steps(d)[k].0), leaf)
    ensures p in PathsFrom(d, i, path, leaf)
    decreases k - i
  {
    if i < k { FromIncludes(d, i + 1, k, path, leaf, p); }
  }

  lemma SameText(path: string, a: Address, b: Address)
    requires path + Render(a) == path + Render(b)
    ensures a == b
  {
    assert (path + Render(a))[|path|..] == Render(a);
    assert (path + Render(b))[|path|..] == Render(b);
    RenderInjective(a, b);
  }

  lemma {:induction false} PathsDistinct<P>(d: Doc<P>, path: string, leaf: bool)
    requires Strict(d)
    ensures NoRepeat(Paths(d, path, leaf))
    decreases d, 1, 0
  {
    PathsFromDistinct(d, 0, path, leaf);
    if d.Prim? == leaf {
      assert path + Render([]) == path;
      if path in PathsFrom(d, 0, path, leaf) {
        var k, a := PathsFromMeaning(d, 0, path, leaf, path);
        SameText(path, a, []);
      }
      NoRepeatConcat([path], PathsFrom(d, 0, path, leaf));
    } else {
      assert Paths(d, path, leaf) == PathsFrom(d, 0, path, leaf);
    }
  }

  /** A path below one child is not listed for any later child. */
  lemma SiblingsApart<P>(d: Doc<P>, i: nat, path: string, leaf: bool, x: string)
    requires Strict(d) && i < |Steps(d)| && x in Paths(Steps(d)[i].1, path + "/" + Escape(Steps(d)[i].0), leaf)
    ensures x !in PathsFrom(d, i + 1, path, leaf)
  {
    var (step, child) := Steps(d)[i];
    StrictSteps(d);
    if x in PathsFrom(d, i + 1, path, leaf) {
      var a := PathsMeaning(child, path + "/" + Escape(step), leaf, x);
      var k, b := PathsFromMeaning(d, i + 1, path, leaf, x);
      RenderUnder(path, step, a);
      SameText(path, [step] + a, b);
    }
  }

  lemma {:induction false} PathsFromDistinct<P>(d: Doc<P>, i: nat, path: string, leaf: bool)
    requires Strict(d) && i <= |Steps(d)|
    ensures NoRepeat(PathsFrom(d, i, path, leaf))
    decreases d, 0, |Steps(d)| - i
  {
    if i < |Steps(d)| {
      var (step, child) := Steps(d)[i];
      var under := path + "/" + Escape(step);
      PathsDistinct(child, under, leaf);
      PathsFromDistinct(d, i + 1, path, leaf);
      forall x | x in Paths(child, under, leaf) ensures x !in PathsFrom(d, i + 1, path, leaf) {
        SiblingsApart(d, i, path, leaf, x);
      }
      NoRepeatConcat(Paths(child, under, leaf), PathsFrom(d, i + 1, path, leaf));
    }
  }

  /** A path is listed exactly when it is the text of an address of its kind. */
  lemma ListedIffHeld<P>(d: Doc<P>, leaf: bool, p: string)
    requires Strict(d)
    ensures p in Paths(d, "", leaf) <==> exists a :: p == Render(a) && Holds(d, a, leaf)
  {
    if p in Paths(d, "", leaf) {
      var a := PathsMeaning(d, "", leaf, p);
      assert "" + Render(a) == Render(a);
    }
    if exists a :: p == Render(a) && Holds(d, a, leaf) {
      var a :| p == Render(a) && Holds(d, a, leaf);
      PathsCover(d, "", leaf, a);
      assert "" + Render(a) == Render(a);
    }
  }

  /** A listed path is the text of an address of the right kind, it is looked
      up to that node, and every node of that kind is listed.  */
  lemma PathsAreExact<P>(u: Numerals, d: Doc<P>, leaf: bool, p: string)
    requires Strict(d)
    ensures p in Paths(d, "", leaf) <==> exists a :: p == Render(a) && Holds(d, a, leaf)
    ensures p in Paths(d, "", leaf) ==> Resolve(u, d, p).Some? && Resolve(u, d, p).value.Prim? == leaf
  {
    ListedIffHeld(d, leaf, p);
    if p in Paths(d, "", leaf) {
      var a :| p == Render(a) && Holds(d, a, leaf);
      ResolveRender(u, d, a);
    }
  }

  /** Over both lists together no path repeats: every node has one path. */
  lemma EveryNodeOnce<P>(d: Doc<P>)
    requires Strict(d)
    ensures NoRepeat(Paths(d, "", true) + Paths(d, "", false))
  {
    PathsDistinct(d, "", true);
    PathsDistinct(d, "", false);
    forall p | p in Paths(d, "", true) ensures p !in Paths(d, "", false) {
      ListedIffHeld(d, true, p);
      ListedIffHeld(d, false, p);
      if p in Paths(d, "", false) {
        var a, b :| p == Render(a) && Holds(d, a, true) && p == Render(b) && Holds(d, b, false);
        RenderInjective(a, b);
      }
    }
    NoRepeatConcat(Paths(d, "", true), Paths(d, "", false));
  }

  // ---------------------------------------------------------------- determinacy

  /** A document read with arrays as objects keyed by decimal index, and
      without key order.  */
  datatype Skel<P> = Tip(value: P) | Fork(children: map<string, Skel<P>>)

  ghost function Skeleton<P>(d: Doc<P>): Skel<P>
    requires Strict(d)
  {
    if d.Prim? then Tip(d.value)
    else
      StrictSteps(d);
      Fork(map i | 0 <= i < |Steps(d)| :: Steps(d)[i].0 := Skeleton(Steps(d)[i].1))
  }

  datatype Kind<P> = Absent | Container | Leaf(value: P)

  ghost function KindAt<P>(d: Doc<P>, a: Address): Kind<P> {
    match Node(d, a)
    case None => Absent
    case Some(Prim(v)) => Leaf(v)
    case Some(_) => Container
  }

  ghost function SkelKind<P>(s: Skel<P>, a: Address): Kind<P>
    decreases a
  {
    match s
    case Tip(v) => if a == [] then Leaf(v) else Absent
    case Fork(m) => if a == [] then Container else if a[0] in m then SkelKind(m[a[0]], a[1..]) else Absent
  }

  /** A step in the skeleton is a step in the document. */
  lemma SkeletonStep<P>(d: Doc<P>, step: string)
    requires Strict(d) && !d.Prim?
    ensures Skeleton(d).Fork?
    ensures var k := Find(Steps(d), step);
      (step in Skeleton(d).children <==> k >= 0) &&
      (k >= 0 ==> Strict(Steps(d)[k].1) && Skeleton(d).children[step] == Skeleton(Steps(d)[k].1))
  {
    StrictSteps(d);
  }

  lemma {:induction false} KindOfSkeleton<P>(d: Doc<P>, a: Address)
    requires Strict(d)
    ensures KindAt(d, a) == SkelKind(Skeleton(d), a)
    decreases a
  {
    if a != [] && !d.Prim? {
      var k := Find(Steps(d), a[0]);
      SkeletonStep(d, a[0]);
      KindStep(d, a);
      SkelKindStep(Skeleton(d), a);
      if k >= 0 { KindOfSkeleton(Steps(d)[k].1, a[1..]); }
    }
  }

  lemma KindStep<P>(d: Doc<P>, a: Address)
    requires a != [] && !d.Prim?
    ensures var k := Find(Steps(d), a[0]);
      KindAt(d, a) == if k < 0 then Absent else KindAt(Steps(d)[k].1, a[1..])
  {}

  lemma SkelKindStep<P>(s: Skel<P>, a: Address)
    requires a != [] && s.Fork?
    ensures SkelKind(s, a) == if a[0] in s.children then SkelKind(s.children[a[0]], a[1..]) else Absent
  {}

  ghost predicate SameKinds<P>(c: Doc<P>, d: Doc<P>) {
    forall a :: KindAt(c, a) == KindAt(d, a)
  }

  /** The child a step leads to. */
  ghost function Child<P>(d: Doc<P>, step: string): Option<Doc<P>> {
    var k := Find(Steps(d), step);
    if k < 0 then None else Some(Steps(d)[k].1)
  }

  lemma KindUnder<P>(d: Doc<P>, step: string, a: Address)
    ensures KindAt(d, [step] + a) == if Child(d, step).None? then Absent else KindAt(Child(d, step).value, a)
  {
    assert ([step] + a)[1..] == a;
  }

  lemma ChildPresent<P>(d: Doc<P>, step: string)
    ensures Child(d, step).Some? <==> KindAt(d, [step]) != Absent
  {
    assert [step] + [] == [step];
    KindUnder(d, step, []);
  }

  /** Documents that agree everywhere agree below every step. */
  lemma ChildKinds<P>(c: Doc<P>, d: Doc<P>, step: string)
    requires SameKinds(c, d)
    ensures Child(c, step).Some? <==> Child(d, step).Some?
    ensures Child(c, step).Some? ==> SameKinds(Child(c, step).value, Child(d, step).value)
  {
    assert KindAt(c, [step]) == KindAt(d, [step]);
    ChildPresent(c, step);
    ChildPresent(d, step);
    if Child(c, step).Some? {
      forall a ensures KindAt(Child(c, step).value, a) == KindAt(Child(d, step).value, a) {
        assert KindAt(c, [step] + a) == KindAt(d, [step] + a);
        KindUnder(c, step, a);
        KindUnder(d, step, a);
      }
    }
  }

  lemma ForkAt<P>(d: Doc<P>, step: string)
    requires Strict(d) && !d.Prim?
    ensures step in Skeleton(d).children <==> Child(d, step).Some?
    ensures Child(d, step).Some? ==> Child(d, step).value < d && Strict(Child(d, step).value)
    ensures Child(d, step).Some? ==> Skeleton(d).children[step] == Skeleton(Child(d, step).value)
  {
    StrictSteps(d);
  }

  /** The kinds found at all addresses fix the skeleton. */
  lemma {:induction false} SkeletonFromKinds<P>(c: Doc<P>, d: Doc<P>)
    requires Strict(c) && Strict(d) && SameKinds(c, d)
    ensures Skeleton(c) == Skeleton(d)
    decreases c, 1
  {
    assert KindAt(c, []) == KindAt(d, []);
    if !c.Prim? {
      var m, n := Skeleton(c).children, Skeleton(d).children;
      forall s ensures s in m <==> s in n
               ensures s in m ==> m[s] == n[s] {
        ForksAgree(c, d, s);
      }
      assert m == n;
    }
  }

  lemma {:induction false} ForksAgree<P>(c: Doc<P>, d: Doc<P>, step: string)
    requires Strict(c) && Strict(d) && SameKinds(c, d) && !c.Prim? && !d.Prim?
    ensures step in Skeleton(c).children <==> step in Skeleton(d).children
    ensures step in Skeleton(c).children ==> Skeleton(c).children[step] == Skeleton(d).children[step]
    decreases c, 0
  {
    ChildKinds(c, d, step);
    ForkAt(c, step);
    ForkAt(d, step);
    if Child(c, step).Some? { SkeletonFromKinds(Child(c, step).value, Child(d, step).value); }
  }

  /** Same leaf paths, same container paths, same leaf values. */
  ghost predicate SamePaths<P(!new)>(u: Numerals, c: Doc<P>, d: Doc<P>) {
    && (forall p, leaf :: p in Paths(c, "", leaf) <==> p in Paths(d, "", leaf))
    && (forall p :: p in Paths(c, "", true) ==> Resolve(u, c, p) == Resolve(u, d, p))
  }

  lemma HoldsIffListed<P>(d: Doc<P>, a: Address, leaf: bool)
    requires Strict(d)
    ensures Holds(d, a, leaf) <==> Render(a) in Paths(d, "", leaf)
  {
    ListedIffHeld(d, leaf, Render(a));
    if Render(a) in Paths(d, "", leaf) {
      var b :| Render(a) == Render(b) && Holds(d, b, leaf);
      RenderInjective(a, b);
    }
  }

  lemma KindsFromPaths<P(!new)>(u: Numerals, c: Doc<P>, d: Doc<P>, a: Address)
    requires Strict(c) && Strict(d) && SamePaths(u, c, d)
    ensures KindAt(c, a) == KindAt(d, a)
  {
    HoldsIffListed(c, a, true);
    HoldsIffListed(d, a, true);
    HoldsIffListed(c, a, false);
    HoldsIffListed(d, a, false);
    ResolveRender(u, c, a);
    ResolveRender(u, d, a);
  }

  lemma PathsFromKinds<P(!new)>(u: Numerals, c: Doc<P>, d: Doc<P>, p: string, leaf: bool)
    requires Strict(c) && Strict(d) && SameKinds(c, d)
    ensures p in Paths(c, "", leaf) <==> p in Paths(d, "", leaf)
    ensures leaf && p in Paths(c, "", leaf) ==> Resolve(u, c, p) == Resolve(u, d, p)
  {
    ListedIffHeld(c, leaf, p);
    ListedIffHeld(d, leaf, p);
    SameHolds(c, d, leaf);
    if leaf && p in Paths(c, "", leaf) { ValueFromKinds(u, c, d, p); }
  }

  lemma SameHolds<P(!new)>(c: Doc<P>, d: Doc<P>, leaf: bool)
    requires SameKinds(c, d)
    ensures forall a :: Holds(c, a, leaf) <==> Holds(d, a, leaf)
  {
    forall a ensures Holds(c, a, leaf) <==> Holds(d, a, leaf) { assert KindAt(c, a) == KindAt(d, a); }
  }

  lemma ValueFromKinds<P(!new)>(u: Numerals, c: Doc<P>, d: Doc<P>, p: string)
    requires Strict(c) && Strict(d) && SameKinds(c, d) && p in Paths(c, "", true)
    ensures Resolve(u, c, p) == Resolve(u, d, p)
  {
    ListedIffHeld(c, true, p);
    var a :| p == Render(a) && Holds(c, a, true);
    assert KindAt(c, a) == KindAt(d, a);
    LeafResolves(u, c, a);
    LeafResolves(u, d, a);
  }

  lemma LeafResolves<P>(u: Numerals, d: Doc<P>, a: Address)
    requires KindAt(d, a).Leaf?
    ensures Resolve(u, d, Render(a)) == Some(Prim(KindAt(d, a).value))
  {
    ResolveRender(u, d, a);
  }

  /** Leaf paths, container paths and leaf values determine a document up to
      key order and to reading arrays as objects keyed by decimal index.  */
  lemma PathsDetermineDocument<P(!new)>(u: Numerals, c: Doc<P>, d: Doc<P>)
    requires Strict(c) && Strict(d)
    ensures SamePaths(u, c, d) <==> Skeleton(c) == Skeleton(d)
  {
    if SamePaths(u, c, d) {
      forall a ensures KindAt(c, a) == KindAt(d, a) { KindsFromPaths(u, c, d, a); }
      SkeletonFromKinds(c, d);
    }
    if Skeleton(c) == Skeleton(d) {
      forall a ensures KindAt(c, a) == KindAt(d, a) {
        KindOfSkeleton(c, a);
        KindOfSkeleton(d, a);
      }
      forall p, leaf ensures p in Paths(c, "", leaf) <==> p in Paths(d, "", leaf) { PathsFromKinds(u, c, d, p, leaf); }
      forall p | p in Paths(c, "", true) ensures Resolve(u, c, p) == Resolve(u, d, p) { PathsFromKinds(u, c, d, p, true); }
    }
  }

  // ---------------------------------------------------------------- the frozen contract

  /** A document that passed the leaf and container checks against the frozen lists. */
  ghost predicate MatchesContract<P>(d: Doc<P>, leaves: seq<string>, containers: seq<string>) {
    && (forall p :: p in Paths(d, "", true) <==> p in leaves)
    && (forall p :: p in Paths(d, "", false) <==> p in containers)
  }

  predicate Differs<P(==)>(u: Numerals, baseline: Doc<P>, probe: Doc<P>, path: string) {
    Resolve(u, baseline, path) != Resolve(u, probe, path)
  }

  /** In order, exactly the positions of the paths whose values differ, and
      the paths at these positions.  */
  ghost predicate DifferAt<P>(u: Numerals, baseline: Doc<P>, probe: Doc<P>, leaves: seq<string>,
                              at: seq<nat>, changed: seq<string>) {
    && (forall i, j :: 0 <= i < j < |at| ==> at[i] < at[j])
    && (forall k: nat :: k in at <==> k < |leaves| && Differs(u, baseline, probe, leaves[k]))
    && |changed| == |at| && (forall i :: 0 <= i < |at| ==> at[i] < |leaves| && changed[i] == leaves[at[i]])
  }

  lemma DifferStep<P>(u: Numerals, baseline: Doc<P>, probe: Doc<P>, leaves: seq<string>, path: string,
                      at: seq<nat>, changed: seq<string>)
    requires DifferAt(u, baseline, probe, leaves, at, changed)
    ensures if Differs(u, baseline, probe, path) then DifferAt(u, baseline, probe, leaves + [path], at + [|leaves|], changed + [path])
      else DifferAt(u, baseline, probe, leaves + [path], at, changed)
  {}

  lemma DifferMembers<P>(u: Numerals, baseline: Doc<P>, probe: Doc<P>, leaves: seq<string>, at: seq<nat>, changed: seq<string>)
    requires DifferAt(u, baseline, probe, leaves, at, changed)
    ensures forall p :: p in changed <==> p in leaves && Differs(u, baseline, probe, p)
  {
    forall p ensures p in changed <==> p in leaves && Differs(u, baseline, probe, p) {
      if p in changed {
        var i :| 0 <= i < |at| && changed[i] == p;
        assert at[i] in at;
      }
      if p in leaves && Differs(u, baseline, probe, p) {
        var k :| 0 <= k < |leaves| && leaves[k] == p;
        var i :| 0 <= i < |at| && at[i] == k;
        assert changed[i] == p;
      }
    }
  }

  /** The comprehension of `validate_sensitivity_provenance_diff`: the paths
      whose values differ, in order and as often as they are listed.  */
  method ChangedPaths<P(==)>(u: Numerals, baseline: Doc<P>, probe: Doc<P>, leaves: seq<string>)
    returns (changed: seq<string>, ghost at: seq<nat>)
    ensures forall p :: p in changed <==> p in leaves && Differs(u, baseline, probe, p)
    ensures DifferAt(u, baseline, probe, leaves, at, changed)
  {
    changed, at := [], [];
    for n := 0 to |leaves|
      invariant DifferAt(u, baseline, probe, leaves[..n], at, changed)
    {
      DifferStep(u, baseline, probe, leaves[..n], leaves[n], at, changed);
      assert leaves[..n + 1] == leaves[..n] + [leaves[n]];
      var before := JsonPointerValue(u, baseline, leaves[n]);
      var after := JsonPointerValue(u, probe, leaves[n]);
      if before != after {
        changed, at := changed + [leaves[n]], at + [n];
      }
    }
    assert leaves[..|leaves|] == leaves;
    DifferMembers(u, baseline, probe, leaves, at, changed);
  }

  /** Two inputs that passed both checks are the same document exactly when
      the sensitivity diff between them is empty.  */
  lemma EmptyDiffIffSameDocument<P(!new)>(u: Numerals, baseline: Doc<P>, probe: Doc<P>,
                                            leaves: seq<string>, containers: seq<string>)
    requires Strict(baseline) && Strict(probe)
    requires MatchesContract(baseline, leaves, containers) && MatchesContract(probe, leaves, containers)
    ensures (forall p :: p in leaves ==> !Differs(u, baseline, probe, p)) <==> Skeleton(baseline) == Skeleton(probe)
  {
    forall p, leaf ensures p in Paths(baseline, "", leaf) <==> p in Paths(probe, "", leaf) {
      if leaf {
        assert p in Paths(baseline, "", true) <==> p in leaves;
      } else {
        assert p in Paths(baseline, "", false) <==> p in containers;
      }
    }
    PathsDetermineDocument(u, baseline, probe);
  }
}
