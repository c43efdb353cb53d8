/** The dependency check of `validate_worksheet`: a three-colour depth-first
    search over the pulse-leaf dependencies of a worksheet.  */
module LeafGraph {

  type Graph = map<string, seq<string>>

  /** `pulse_leaf_edges.get(destination, [])`. */
  function Succ(g: Graph, n: string): seq<string> {
    if n in g then g[n] else []
  }

  /** A walk follows a dependency at every step. */
  ghost predicate Walk(g: Graph, p: seq<string>) {
    p != [] && forall i :: 0 <= i < |p| - 1 ==> p[i + 1] in Succ(g, p[i])
  }

  ghost predicate Cyclic(g: Graph) {
    exists p :: Walk(g, p) && |p| >= 2 && p[0] == p[|p| - 1]
  }

  /** Every leaf comes after all the leaves it depends on. */
  ghost predicate Topological(g: Graph, order: seq<string>) {
    && (forall i, j :: 0 <= i < j < |order| ==> order[i] != order[j])
    && forall i :: 0 <= i < |order| ==> forall t :: t in Succ(g, order[i]) ==> t in order[..i]
  }

  lemma {:induction false} WalkDescends(g: Graph, order: seq<string>, p: seq<string>, i: nat)
    requires Topological(g, order) && Walk(g, p) && i < |order| && p[0] == order[i]
    ensures p[|p| - 1] in order[..i + 1]
    ensures |p| >= 2 ==> p[|p| - 1] in order[..i]
    decreases |p|
  {
    if |p| >= 2 {
      assert p[1] in Succ(g, order[i]);
      var j :| 0 <= j < i && order[j] == p[1];
      assert Walk(g, p[1..]) by {
        forall k | 0 <= k < |p[1..]| - 1 ensures p[1..][k + 1] in Succ(g, p[1..][k]) {
          assert p[k + 2] in Succ(g, p[k + 1]);
        }
      }
      WalkDescends(g, order, p[1..], j);
      assert order[..j + 1] <= order[..i];
    }
  }

  /** A topological order of the dependent leaves leaves no room for a cycle. */
  lemma TopologicalIsAcyclic(g: Graph, order: seq<string>)
    requires Topological(g, order)
    requires forall n :: n in g ==> n in order
    ensures !Cyclic(g)
  {
    if Cyclic(g) {
      var p :| Walk(g, p) && |p| >= 2 && p[0] == p[|p| - 1];
      assert p[1] in Succ(g, p[0]);
      var i :| 0 <= i < |order| && order[i] == p[0];
      WalkDescends(g, order, p, i);
      assert false;
    }
  }

  /** Closing a walk on one of its own leaves makes a cycle. */
  lemma ClosedWalkIsCycle(g: Graph, stack: seq<string>, n: string)
    requires Walk(g, stack + [n]) && n in stack
    ensures Cyclic(g)
  {
    var i :| 0 <= i < |stack| && stack[i] == n;
    var p := (stack + [n])[i..];
    forall k | 0 <= k < |p| - 1 ensures p[k + 1] in Succ(g, p[k]) {
      assert (stack + [n])[i + k + 1] in Succ(g, (stack + [n])[i + k]);
    }
    assert Walk(g, p) && p[0] == p[|p| - 1];
  }

  lemma ExtendWalk(g: Graph, p: seq<string>, t: string)
    requires Walk(g, p) && t in Succ(g, p[|p| - 1])
    ensures Walk(g, p + [t])
  {}

  const UNVISITED := 0
  const ENTERED := 1
  const DONE := 2

  /** The colours of the leaves while the calls in `stack` are in progress. */
  ghost predicate Coloured(g: Graph, leaves: set<string>, colour: map<string, int>, finished: seq<string>, stack: seq<string>) {
    && (forall n, t :: n in leaves && t in Succ(g, n) ==> t in leaves)
    && colour.Keys <= leaves
    && (forall n :: n in colour ==> colour[n] == ENTERED || colour[n] == DONE)
    && (forall n :: n in stack <==> n in colour && colour[n] == ENTERED)
    && (forall n :: n in finished <==> n in colour && colour[n] == DONE)
    && (stack != [] ==> Walk(g, stack))
    && Topological(g, finished)
  }

  lemma EnterLeaf(g: Graph, leaves: set<string>, colour: map<string, int>, finished: seq<string>, stack: seq<string>, n: string)
    requires Coloured(g, leaves, colour, finished, stack)
    requires n in leaves && n !in colour && Walk(g, stack + [n])
    ensures Coloured(g, leaves, colour[n := ENTERED], finished, stack + [n])
  {}

  lemma TopologicalAppend(g: Graph, order: seq<string>, n: string)
    requires Topological(g, order) && n !in order && forall t :: t in Succ(g, n) ==> t in order
    ensures Topological(g, order + [n])
  {
    var after := order + [n];
    forall i | 0 <= i < |after| ensures forall t :: t in Succ(g, after[i]) ==> t in after[..i] {
      if i < |order| { assert after[..i] == order[..i]; } else { assert after[..i] == order; }
    }
  }

  lemma LeaveLeaf(g: Graph, leaves: set<string>, colour: map<string, int>, finished: seq<string>, stack: seq<string>, n: string)
    requires Coloured(g, leaves, colour, finished, stack + [n]) && n !in stack
    requires Contained(Succ(g, n), finished)
    ensures Coloured(g, leaves, colour[n := DONE], finished + [n], stack)
  {
    assert n in stack + [n];
    TopologicalAppend(g, finished, n);
    forall k ensures k in stack <==> k in stack + [n] && k != n {}
    if stack != [] {
      forall i | 0 <= i < |stack| - 1 ensures stack[i + 1] in Succ(g, stack[i]) {
        assert (stack + [n])[i + 1] in Succ(g, (stack + [n])[i]);
      }
    }
  }

  ghost predicate Contained(targets: seq<string>, order: seq<string>) {
    forall t :: t in targets ==> t in order
  }

  lemma OneMore(targets: seq<string>, k: nat, before: seq<string>, after: seq<string>)
    requires k < |targets| && Contained(targets[..k], before) && before <= after && targets[k] in after
    ensures Contained(targets[..k + 1], after)
  {
    assert targets[..k + 1] == targets[..k] + [targets[k]];
    forall t | t in before ensures t in after {
      var i :| 0 <= i < |before| && before[i] == t;
      assert after[i] == t;
    }
  }

  class LeafVisitor {
    const edges: Graph
    ghost const leaves: set<string>
    var visitState: map<string, int>
    ghost var finished: seq<string>  // the leaves in the order they became DONE

    constructor (edges: Graph, ghost leaves: set<string>)
      ensures this.edges == edges && this.leaves == leaves
      ensures visitState == map[] && finished == []
    {
      this.edges, this.leaves := edges, leaves;
      visitState, finished := map[], [];
    }

    /** `stack` is the chain of calls in progress. */
    ghost predicate Valid(stack: seq<string>)
      reads this
    {
      Coloured(edges, leaves, visitState, finished, stack)
    }

    /** `visit_pulse_leaf`; a false result is the raised `CheckFailure`. */
    method Visit(destination: string, ghost stack: seq<string>) returns (ok: bool)
      requires Valid(stack) && destination in leaves
      requires Walk(edges, stack + [destination])
      modifies this
      ensures ok ==> Valid(stack) && destination in finished && old(finished) <= finished
      ensures ok ==> old(visitState.Keys) <= visitState.Keys
      ensures !ok ==> Cyclic(edges)
      decreases leaves - visitState.Keys
    {
      var state := if destination in visitState then visitState[destination] else UNVISITED;
      if state == ENTERED {
        ClosedWalkIsCycle(edges, stack, destination);
        return false;
      }
      if state == DONE {
        return true;
      }
      EnterLeaf(edges, leaves, visitState, finished, stack, destination);
      visitState := visitState[destination := ENTERED];
      ghost var chain := stack + [destination];
      var targets := Succ(edges, destination);
      for k := 0 to |targets|
        invariant Valid(chain)
        invariant old(finished) <= finished && old(visitState.Keys) + {destination} <= visitState.Keys
        invariant Contained(targets[..k], finished)
      {
        ghost var before := finished;
        ExtendWalk(edges, chain, targets[k]);
        ok := Visit(targets[k], chain);
        if !ok {
          return false;
        }
        OneMore(targets, k, before, finished);
      }
      assert targets[..|targets|] == targets;
      LeaveLeaf(edges, leaves, visitState, finished, stack, destination);
      visitState := visitState[destination := DONE];
      finished := finished + [destination];
      return true;
    }
  }

  /** The section of `validate_worksheet` that checks the leaf dependencies:
      every target exists, then a visit of every inventory leaf in order.  */
  method ValidateDependencies(destinations: seq<string>, edges: Graph) returns (ok: bool, ghost order: seq<string>)
    requires forall n :: n in edges ==> n in destinations
    ensures ok <==> (forall n :: n in edges ==> forall t :: t in edges[n] ==> t in destinations) && !Cyclic(edges)
    ensures ok ==> Topological(edges, order) && forall n :: n in order <==> n in destinations
  {
    order := [];
    if exists n :: n in edges && exists t :: t in edges[n] && t !in destinations {
      return false, order;
    }
    var visitor := new LeafVisitor(edges, set n | n in destinations);
    for k := 0 to |destinations|
      invariant visitor.edges == edges && visitor.leaves == set n | n in destinations
      invariant visitor.Valid([])
      invariant forall i :: 0 <= i < k ==> destinations[i] in visitor.finished
    {
      ok := visitor.Visit(destinations[k], []);
      if !ok {
        return false, order;
      }
    }
    order := visitor.finished;
    TopologicalIsAcyclic(edges, order);
    return true, order;
  }
}
