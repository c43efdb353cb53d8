/** `BatchInbox.transaction` of `retention.py`: nested steps of an open batch,
    all under one savepoint name, on SQLite's savepoint stack.  */
module Savepoints {

  const STEP := "musubi_retention_step"

  /** How the statements a transaction block itself issues may fail. */
  datatype Fault = NoFault | OpenFails | CloseFails

  /** What a block body does.  `Abandon` is SQLite rolling the whole
      transaction back on its own and raising; `Attempt` is a body that
      catches what an inner step raises.  */
  datatype Step<W> =
    | Write(w: W)
    | Raise
    | Abandon
    | Attempt(body: seq<Step<W>>)
    | Transaction(body: seq<Step<W>>, fault: Fault)

  datatype Savepoint<W> = Savepoint(name: string, content: seq<W>)

  /** The position of the most recent savepoint with this name, or -1. */
  function Find<W>(stack: seq<Savepoint<W>>, name: string): (k: int)
    ensures -1 <= k < |stack|
    ensures k >= 0 ==> stack[k].name == name
    ensures forall j :: k < j < |stack| ==> stack[j].name != name
  {
    if stack == [] then -1
    else if stack[|stack| - 1].name == name then |stack| - 1
    else Find(stack[..|stack| - 1], name)
  }

  /** A SQLite connection; a false result is a raised error without effect.
      The content of the database is the log of the writes in effect.  */
  class Connection<W> {
    var committed: seq<W>
    var inTransaction: bool
    var current: seq<W>
    var stack: seq<Savepoint<W>>

    constructor (content: seq<W>)
      ensures committed == content && !inTransaction && current == content && stack == []
    {
      committed, inTransaction, current, stack := content, false, content, [];
    }

    /** Outside a transaction there is nothing but the committed content. */
    ghost predicate Valid()
      reads this
    {
      !inTransaction ==> current == committed && stack == []
    }

    method Begin() returns (ok: bool)
      requires Valid()
      modifies this
      ensures Valid() && inTransaction
      ensures ok == !old(inTransaction)
      ensures committed == old(committed) && current == old(current) && stack == old(stack)
    {
      ok := !inTransaction;
      inTransaction := true;
    }

    method Commit() returns (ok: bool)
      requires Valid()
      modifies this
      ensures Valid() && !inTransaction
      ensures ok == old(inTransaction)
      ensures committed == old(current) && current == old(current)
    {
      ok := inTransaction;
      if inTransaction {
        committed, inTransaction, stack := current, false, [];
      }
    }

    method Rollback()
      requires Valid()
      modifies this
      ensures Valid() && !inTransaction && committed == old(committed)
    {
      current, inTransaction, stack := committed, false, [];
    }

    method Insert(w: W)
      requires Valid()
      modifies this
      ensures Valid() && inTransaction == old(inTransaction) && stack == old(stack)
      ensures current == old(current) + [w]
      ensures committed == if inTransaction then old(committed) else old(committed) + [w]
    {
      current := current + [w];
      if !inTransaction {
        committed := current;
      }
    }

    method OpenSavepoint(name: string)
      requires Valid() && inTransaction
      modifies this
      ensures Valid() && inTransaction && committed == old(committed) && current == old(current)
      ensures stack == old(stack) + [Savepoint(name, old(current))]
    {
      stack := stack + [Savepoint(name, current)];
    }

    /** RELEASE drops the named savepoint and every one opened after it. */
    method Release(name: string) returns (ok: bool)
      requires Valid()
      modifies this
      ensures Valid() && inTransaction == old(inTransaction) && committed == old(committed) && current == old(current)
      ensures ok == (Find(old(stack), name) >= 0)
      ensures stack == if ok then old(stack)[..Find(old(stack), name)] else old(stack)
    {
      var k := Find(stack, name);
      ok := k >= 0;
      if ok {
        stack := stack[..k];
      }
    }

    /** ROLLBACK TO restores the named savepoint's content and keeps it. */
    method RollbackTo(name: string) returns (ok: bool)
      requires Valid()
      modifies this
      ensures Valid() && inTransaction == old(inTransaction) && committed == old(committed)
      ensures ok == (Find(old(stack), name) >= 0)
      ensures ok ==> stack == old(stack)[..Find(old(stack), name) + 1]
      ensures ok ==> current == old(stack)[Find(old(stack), name)].content
      ensures !ok ==> stack == old(stack) && current == old(current)
    {
      var k := Find(stack, name);
      ok := k >= 0;
      if ok {
        current := stack[k].content;
        stack := stack[..k + 1];
      }
    }
  }

  // ---------------------------------------------------------------- ideal nested transactions

  /** The abstract state: no savepoints and no names, only the content and,
      inside a batch, the content that is still committed.  */
  datatype State<W> = Idle(content: seq<W>) | Batch(committed: seq<W>, content: seq<W>)

  datatype Outcome<W> = Outcome(state: State<W>, raised: bool)

  function Committed<W>(s: State<W>): seq<W> {
    if s.Batch? then s.committed else s.content
  }

  /** Ideal semantics: a block that raises leaves the state it was entered in,
      unless SQLite has already abandoned the batch.  */
  function Ideal<W>(step: Step<W>, s: State<W>): (o: Outcome<W>)
    ensures o.state.Batch? ==> s.Batch? && o.state.committed == s.committed
    decreases step, 0
  {
    match step
    case Write(w) => Outcome(if s.Batch? then Batch(s.committed, s.content + [w]) else Idle(s.content + [w]), false)
    case Raise => Outcome(s, true)
    case Abandon => Outcome(Idle(Committed(s)), true)
    case Attempt(body) => Outcome(IdealBody(body, s).state, false)
    case Transaction(body, fault) =>
      if fault.OpenFails? then Outcome(s, true)
      else
        var o := IdealBody(body, Batch(Committed(s), s.content));
        if o.state.Idle? then Outcome(o.state, true)  // abandoned: nothing is left to close
        else if o.raised || fault.CloseFails? then Outcome(s, true)
        else if s.Batch? then o
        else Outcome(Idle(o.state.content), false)
  }

  function IdealBody<W>(body: seq<Step<W>>, s: State<W>): (o: Outcome<W>)
    ensures o.state.Batch? ==> s.Batch? && o.state.committed == s.committed
    decreases body, 1
  {
    if body == [] then Outcome(s, false)
    else
      var o := Ideal(body[0], s);
      if o.raised then o else IdealBody(body[1..], o.state)
  }

  // ---------------------------------------------------------------- the inbox

  class BatchInbox<W> {
    const db: Connection<W>

    constructor (db: Connection<W>)
      ensures this.db == db
    {
      this.db := db;
    }

    ghost function Abs(): State<W>
      reads this, db
    {
      if db.inTransaction then Batch(db.committed, db.current) else Idle(db.committed)
    }

    method Run(step: Step<W>) returns (raised: bool)
      requires db.Valid()
      modifies db
      ensures db.Valid() && Outcome(Abs(), raised) == Ideal(step, old(Abs()))
      ensures db.inTransaction ==> db.stack == old(db.stack)
      decreases step, 0
    {
      match step
      case Write(w) =>
        db.Insert(w);
        raised := false;
      case Raise =>
        raised := true;
      case Abandon =>
        db.Rollback();
        raised := true;
      case Attempt(body) =>
        raised := RunBody(body);
        raised := false;
      case Transaction(body, fault) =>
        if !db.inTransaction {
          raised := InboxTransaction(body, fault);
        } else {
          raised := StepTransaction(body, fault);
        }
    }

    method RunBody(body: seq<Step<W>>) returns (raised: bool)
      requires db.Valid()
      modifies db
      ensures db.Valid() && Outcome(Abs(), raised) == IdealBody(body, old(Abs()))
      ensures db.inTransaction ==> db.stack == old(db.stack)
      decreases body, 1
    {
      raised := false;
      for k := 0 to |body|
        invariant db.Valid() && !raised
        invariant IdealBody(body, old(Abs())) == IdealBody(body[k..], Abs())
        invariant db.inTransaction ==> db.stack == old(db.stack)
      {
        ghost var before := Abs();
        assert body[k..][1..] == body[k + 1..];
        raised := Run(body[k]);
        if raised {
          return;
        }
      }
    }

    /** The wrapped `Inbox.transaction`. */
    method InboxTransaction(body: seq<Step<W>>, fault: Fault) returns (raised: bool)
      requires db.Valid() && !db.inTransaction
      modifies db
      ensures db.Valid() && Outcome(Abs(), raised) == Ideal(Transaction(body, fault), old(Abs()))
      ensures !db.inTransaction
      decreases body, 2
    {
      if fault.OpenFails? {
        return true;
      }
      var begun := db.Begin();
      raised := RunBody(body);
      if !raised {
        if fault.CloseFails? {
          raised := true;
        } else {
          var committed := db.Commit();
          raised := !committed;
        }
      }
      if raised && db.inTransaction {
        db.Rollback();
      }
    }

    /** `BatchInbox.transaction` inside an open batch. */
    method StepTransaction(body: seq<Step<W>>, fault: Fault) returns (raised: bool)
      requires db.Valid() && db.inTransaction
      modifies db
      ensures db.Valid() && Outcome(Abs(), raised) == Ideal(Transaction(body, fault), old(Abs()))
      ensures db.inTransaction ==> db.stack == old(db.stack)
      decreases body, 2
    {
      if fault.OpenFails? {
        return true;
      }
      db.OpenSavepoint(STEP);
      raised := RunBody(body);
      if !raised {
        if fault.CloseFails? {
          raised := true;
        } else {
          var released := db.Release(STEP);
          raised := !released;
        }
      }
      if raised && db.inTransaction {
        var back := db.RollbackTo(STEP);
        var released := db.Release(STEP);
      }
    }
  }

  // ---------------------------------------------------------------- what the ideal semantics means

  /** What a step does, without reference to any content: the writes it
      leaves in effect, and whether it raised and lost its batch.  After a
      loss, `kept` are the writes that took effect on their own.  */
  datatype Effect<W> = Effect(kept: seq<W>, raised: bool, lost: bool)

  function EffectOf<W>(step: Step<W>, inBatch: bool): (e: Effect<W>)
    ensures e.lost ==> inBatch
    decreases step, 0
  {
    match step
    case Write(w) => Effect([w], false, false)
    case Raise => Effect([], true, false)
    case Abandon => Effect([], true, inBatch)
    case Attempt(body) => EffectOfBody(body, inBatch).(raised := false)
    case Transaction(body, fault) =>
      if fault.OpenFails? then Effect([], true, false)
      else
        var e := EffectOfBody(body, true);
        if e.lost then Effect(e.kept, true, inBatch)
        else if e.raised || fault.CloseFails? then Effect([], true, false)
        else e
  }

  function EffectOfBody<W>(body: seq<Step<W>>, inBatch: bool): (e: Effect<W>)
    ensures e.lost ==> inBatch
    decreases body, 1
  {
    if body == [] then Effect([], false, false)
    else
      var e := EffectOf(body[0], inBatch);
      if e.raised then e
      else
        var r := EffectOfBody(body[1..], inBatch && !e.lost);
        if e.lost || !r.lost then Effect(e.kept + r.kept, r.raised, e.lost)
        else r
  }

  function Apply<W>(e: Effect<W>, s: State<W>): Outcome<W> {
    Outcome(
      match s
      case Idle(content) => Idle(content + e.kept)
      case Batch(committed, content) => if e.lost then Idle(committed + e.kept) else Batch(committed, content + e.kept),
      e.raised)
  }

  /** Every step appends its kept writes to the state it is run in. */
  lemma {:induction false} StepAppends<W>(step: Step<W>, s: State<W>)
    ensures Ideal(step, s) == Apply(EffectOf(step, s.Batch?), s)
    decreases step, 0
  {
    match step
    case Attempt(body) => BodyAppends(body, s);
    case Transaction(body, fault) => BodyAppends(body, Batch(Committed(s), s.content));
    case _ =>
  }

  lemma {:induction false} BodyAppends<W>(body: seq<Step<W>>, s: State<W>)
    ensures IdealBody(body, s) == Apply(EffectOfBody(body, s.Batch?), s)
    decreases body, 1
  {
    if body != [] {
      StepAppends(body[0], s);
      var e, o := EffectOf(body[0], s.Batch?), Ideal(body[0], s);
      BodyAppends(body[1..], o.state);
      var r := EffectOfBody(body[1..], o.state.Batch?);
      assert s.content + (e.kept + r.kept) == (s.content + e.kept) + r.kept;
      assert Committed(s) + (e.kept + r.kept) == (Committed(s) + e.kept) + r.kept;
    }
  }

  /** A nested block that raises restores its entry state, and one that does
      not keeps its writes in the batch; neither commits anything.  */
  lemma NestedStep<W>(body: seq<Step<W>>, fault: Fault, committed: seq<W>, content: seq<W>)
    ensures var o := Ideal(Transaction(body, fault), Batch(committed, content));
      var e := EffectOfBody(body, true);
      || (o.raised && o.state == Batch(committed, content))
      || (!o.raised && !e.raised && !e.lost && o.state == Batch(committed, content + e.kept))
      || (o.raised && e.lost && fault != OpenFails && o.state == Idle(committed + e.kept))
  {
    BodyAppends(body, Batch(committed, content));
  }

  /** The batch as a whole commits all its kept writes or none of them,
      exactly unless its body went on writing after catching an abandonment.  */
  lemma BatchIsAtomicIff<W>(body: seq<Step<W>>, fault: Fault, content: seq<W>)
    ensures var o := Ideal(Transaction(body, fault), Idle(content));
      var e := EffectOfBody(body, true);
      && (!o.raised ==> o.state == Idle(content + e.kept))
      && (o.raised ==> (o.state == Idle(content) <==> !(fault != OpenFails && e.lost && e.kept != [])))
  {
    BodyAppends(body, Batch(content, content));
    var e := EffectOfBody(body, true);
    assert e.kept != [] ==> |content + e.kept| != |content|;
  }

  /** A write after a caught abandonment survives the batch that raises. */
  lemma LateWriteEscapes<W>(w: W)
    ensures var body := [Attempt([Abandon]), Write(w)];
      Ideal(Transaction(body, NoFault), Idle([])) == Outcome(Idle([w]), true)
  {
    var body: seq<Step<W>> := [Attempt([Abandon]), Write(w)];
    var caught: seq<Step<W>> := [Abandon];
    assert IdealBody(caught, Batch([], [])) == Outcome(Idle([]), true);
    assert body[1..] == [Write(w)] && body[1..][1..] == [];
    assert Ideal(body[0], Batch([], [])) == Outcome(Idle([]), false);
    assert Ideal(body[1], Idle([])) == Outcome(Idle([w]), false);
    assert IdealBody(body[1..], Idle([])) == Outcome(Idle([w]), false);
  }

  /** SQLite abandons nothing in this step. */
  predicate NoAbandon<W>(step: Step<W>)
    decreases step
  {
    match step
    case Abandon => false
    case Attempt(body) => forall k :: 0 <= k < |body| ==> NoAbandon(body[k])
    case Transaction(body, _) => forall k :: 0 <= k < |body| ==> NoAbandon(body[k])
    case _ => true
  }

  lemma {:induction false} NeverLost<W>(step: Step<W>, inBatch: bool)
    requires NoAbandon(step)
    ensures !EffectOf(step, inBatch).lost
    decreases step, 0
  {
    match step
    case Attempt(body) => BodyNeverLost(body, inBatch);
    case Transaction(body, _) => BodyNeverLost(body, true);
    case _ =>
  }

  lemma {:induction false} BodyNeverLost<W>(body: seq<Step<W>>, inBatch: bool)
    requires forall k :: 0 <= k < |body| ==> NoAbandon(body[k])
    ensures !EffectOfBody(body, inBatch).lost
    decreases body, 1
  {
    if body != [] {
      NeverLost(body[0], inBatch);
      BodyNeverLost(body[1..], inBatch);
    }
  }

  /** Unless SQLite abandons the batch, a block is all or nothing at every depth. */
  lemma StepIsAllOrNothing<W>(body: seq<Step<W>>, fault: Fault, s: State<W>)
    requires forall k :: 0 <= k < |body| ==> NoAbandon(body[k])
    ensures var o := Ideal(Transaction(body, fault), s);
      && (o.raised <==> fault != NoFault || EffectOfBody(body, true).raised)
      && o.state == if o.raised then s else Apply(EffectOfBody(body, true), s).state
  {
    BodyNeverLost(body, true);
    BodyAppends(body, Batch(Committed(s), s.content));
  }
}
