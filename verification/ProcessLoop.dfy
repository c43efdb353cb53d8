/** `run_bounded_process`: the loop that feeds one child process and collects
    its two outputs, against an environment that chooses what happens.  */
module ProcessLoop {
  import opened Json

  newtype Byte = x: int | 0 <= x < 256 witness 0

  type Bytes = seq<Byte>

  /** What the child does in truth: all it ever writes, and when and how it
      ends by itself (None: never).  */
  datatype Child = Child(out: Bytes, err: Bytes, exit: Option<Exit>)

  datatype Exit = Exit(at: real, status: int)

  datatype Limits = Limits(out: nat, err: nat)

  const CHUNK: nat := 65536
  const MAX_TIMEOUT := 45.0
  const MAX_REQUEST: nat := 32 * 1024 * 1024
  const GRACE := 0.25

  datatype Stream = Stdin | Stdout | Stderr

  /** One event of a selector round.  `Ready` offers that many bytes (or that
      much room); `Broken` is a broken pipe on the child's stdin, and `Blocked`
      a spurious wake-up.  */
  datatype Event = Ready(stream: Stream, amount: nat) | Broken | Blocked(stream: Stream)

  /** One turn of the outer loop: the clock when it starts, the clock when the
      child is polled, and the events the selector reports.  */
  datatype Round = Round(now: real, polled: real, events: seq<Event>)

  /** The clock of the final poll, and of the last look the final wait takes. */
  datatype Ending = Ending(polled: real, waited: real)

  datatype Failure = Rejected | TimedOut | RetainedPipe | OutputLimit(stream: Stream) | WriteBlocked

  /** `Running` is the loop when the given rounds are used up. */
  datatype Result = Running | Failed(why: Failure) | Returned(status: int, out: Bytes, err: Bytes)

  function MinNat(a: nat, b: nat): nat {
    if a < b then a else b
  }

  /** `process.poll()` at a time: the status once the child has ended. */
  function Poll(c: Child, t: real): Option<int> {
    if c.exit.Some? && c.exit.value.at <= t then Some(c.exit.value.status) else None
  }

  /** The status after the loop: what the final poll finds, or else what the
      final wait sees when it gives up.  */
  function FinalStatus(c: Child, ending: Ending): Option<int> {
    var status := Poll(c, ending.polled);
    if status.Some? then status else Poll(c, ending.waited)
  }

  /** The next bytes `os.read` returns; none at the end of the stream. */
  function NextChunk(all: Bytes, taken: nat, amount: nat): (chunk: Bytes)
    requires taken <= |all|
    ensures |chunk| == MinNat(MinNat(amount, CHUNK), |all| - taken)
    ensures taken + |chunk| <= |all| && all[..taken] + chunk == all[..taken + |chunk|]
  {
    var n := MinNat(MinNat(amount, CHUNK), |all| - taken);
    assert all[..taken] + all[taken..taken + n] == all[..taken + n];
    all[taken..taken + n]
  }

  /** This event lets a stream move at least one byte, or meet its end. */
  predicate IsOffer(e: Event, stream: Stream) {
    e.Ready? && e.stream == stream && e.amount > 0
  }

  /** How often a stream was reported ready. */
  function Offers(es: seq<Event>, stream: Stream): nat {
    if es == [] then 0
    else Offers(es[..|es| - 1], stream) + if IsOffer(es[|es| - 1], stream) then 1 else 0
  }

  function AllOffers(rounds: seq<Round>, stream: Stream): nat {
    if rounds == [] then 0
    else AllOffers(rounds[..|rounds| - 1], stream) + Offers(rounds[|rounds| - 1].events, stream)
  }

  /** One output of the child, as the parent has collected it. */
  datatype Pipe = Pipe(data: Bytes, open: bool)

  ghost predicate Collected(p: Pipe, all: Bytes, limit: nat) {
    p.data <= all && |p.data| <= limit && (!p.open ==> p.data == all)
  }

  datatype Counters = Counters(stdin: nat, out: nat, err: nat)

  function CountersOf(rounds: seq<Round>, es: seq<Event>): Counters {
    Counters(AllOffers(rounds, Stdin) + Offers(es, Stdin),
      AllOffers(rounds, Stdout) + Offers(es, Stdout), AllOffers(rounds, Stderr) + Offers(es, Stderr))
  }

  function Counted(c: Counters, e: Event): Counters {
    match e
    case Ready(stream, amount) =>
      if amount == 0 then c
      else (match stream case Stdin => c.(stdin := c.stdin + 1) case Stdout => c.(out := c.out + 1) case Stderr => c.(err := c.err + 1))
    case _ => c
  }

  lemma CountEvent(rounds: seq<Round>, es: seq<Event>, k: nat)
    requires k < |es|
    ensures CountersOf(rounds, es[..k + 1]) == Counted(CountersOf(rounds, es[..k]), es[k])
  {
    assert es[..k + 1][..k] == es[..k];
  }

  lemma CountRound(rounds: seq<Round>, round: Round)
    ensures CountersOf(rounds + [round], []) == CountersOf(rounds, round.events)
  {
    assert (rounds + [round])[..|rounds|] == rounds;
  }

  /** A round that started at this time found the child ended. */
  ghost predicate ExitSeen(child: Child, seen: seq<Round>, at: real) {
    exists i :: 0 <= i < |seen| && seen[i].now == at && Poll(child, seen[i].polled).Some?
  }

  /** A failure raised inside the loop is never a false alarm. */
  ghost predicate Justified(child: Child, limits: Limits, deadline: real, seen: seq<Round>, f: Failure) {
    match f
    case OutputLimit(Stdout) => |child.out| > limits.out
    case OutputLimit(Stderr) => |child.err| > limits.err
    case OutputLimit(Stdin) => false
    case TimedOut => exists i :: 0 <= i < |seen| && seen[i].now >= deadline
    case RetainedPipe =>
      exists i, j :: 0 <= i < j < |seen| && Poll(child, seen[i].polled).Some? && seen[j].now - seen[i].now > GRACE
    case WriteBlocked => exists i :: 0 <= i < |seen| && Blocked(Stdin) in seen[i].events
    case Rejected => false
  }

  class Runner {
    const child: Child
    const request: Bytes
    const limits: Limits
    const deadline: real
    var offset: nat
    var stdinOpen: bool
    var sent: Bytes  // what the child's stdin accepted
    var out: Pipe
    var err: Pipe
    var exitObservedAt: Option<real>
    var failure: Option<Failure>
    ghost var seen: seq<Round>  // the rounds entered so far
    ghost var offers: Counters  // the offers met so far

    constructor (child: Child, request: Bytes, limits: Limits, deadline: real)
      requires request != []
      ensures this.child == child && this.request == request && this.limits == limits && this.deadline == deadline
      ensures Valid() && failure == None && seen == [] && offers == Counters(0, 0, 0)
    {
      this.child, this.request, this.limits, this.deadline := child, request, limits, deadline;
      offset, stdinOpen, sent := 0, true, [];
      out, err := Pipe([], true), Pipe([], true);
      exitObservedAt, failure, seen, offers := None, None, [], Counters(0, 0, 0);
    }

    /** What holds at every point of every run. */
    ghost predicate Valid()
      reads this
    {
      && sent <= request && offset <= |request|
      && (stdinOpen || Unbroken(seen) ==> offset == |sent|)
      && (stdinOpen <==> offset < |request|)
      && (stdinOpen ==> offers.stdin <= |sent|)
      && (out.open ==> offers.out <= |out.data|) && (err.open ==> offers.err <= |err.data|)
      && Collected(out, child.out, limits.out) && Collected(err, child.err, limits.err)
      && (exitObservedAt.Some? ==> ExitSeen(child, seen, exitObservedAt.value))
      && (failure.Some? ==> Justified(child, limits, deadline, seen, failure.value))
    }

    /** `os.write` of the next slice of the request. */
    method WriteStdin(amount: nat)
      requires Valid() && stdinOpen && failure == None
      modifies this`offset, this`stdinOpen, this`sent, this`offers
      ensures Valid() && offers == Counted(old(offers), Ready(Stdin, amount))
    {
      var end := MinNat(offset + CHUNK, |request|);
      var written := MinNat(amount, end - offset);
      assert request[..offset] + request[offset..offset + written] == request[..offset + written];
      sent := sent + request[offset..offset + written];
      offset := offset + written;
      if offset >= |request| {
        stdinOpen := false;
      }
      offers := Counted(offers, Ready(Stdin, amount));
    }

    /** `os.read` on one output, and the byte limit. */
    method ReadOutput(stream: Stream, p: Pipe, all: Bytes, limit: nat, amount: nat) returns (r: Pipe, over: bool)
      requires Collected(p, all, limit) && p.open
      ensures Collected(r, all, limit)
      ensures over ==> |all| > limit
      ensures !over && r.open && amount > 0 ==> |r.data| > |p.data|
      ensures !over && r.open ==> |r.data| >= |p.data|
    {
      r, over := p, false;
      if amount == 0 {
        return;
      }
      var chunk := NextChunk(all, |p.data|, amount);
      if chunk == [] {
        r := Pipe(p.data, false);
      } else if |p.data| + |chunk| > limit {
        over := true;
      } else {
        r := Pipe(p.data + chunk, true);
      }
    }

    /** One event of a round; the selector reports only registered streams. */
    method Handle(e: Event)
      requires Valid() && failure == None && seen != [] && e in seen[|seen| - 1].events
      modifies this
      ensures Valid() && seen == old(seen)
      ensures failure == None ==> offers == Counted(old(offers), e)
    {
      match e
      case Broken =>
        if stdinOpen {
          offset, stdinOpen := |request|, false;
        }
      case Blocked(stream) =>
        if stream == Stdin && stdinOpen {
          failure := Some(WriteBlocked);
        }
      case Ready(stream, amount) =>
        if stream == Stdin {
          if stdinOpen {
            WriteStdin(amount);
          } else {
            offers := Counted(offers, e);
          }
        } else if stream == Stdout {
          HandleStdout(amount);
        } else {
          HandleStderr(amount);
        }
    }

    method HandleStdout(amount: nat)
      requires Valid() && failure == None
      modifies this`out, this`failure, this`offers
      ensures Valid()
      ensures failure == None ==> offers == Counted(old(offers), Ready(Stdout, amount))
    {
      if out.open {
        var r, over := ReadOutput(Stdout, out, child.out, limits.out, amount);
        if over {
          failure := Some(OutputLimit(Stdout));
          return;
        }
        out := r;
      }
      offers := Counted(offers, Ready(Stdout, amount));
    }

    method HandleStderr(amount: nat)
      requires Valid() && failure == None
      modifies this`err, this`failure, this`offers
      ensures Valid()
      ensures failure == None ==> offers == Counted(old(offers), Ready(Stderr, amount))
    {
      if err.open {
        var r, over := ReadOutput(Stderr, err, child.err, limits.err, amount);
        if over {
          failure := Some(OutputLimit(Stderr));
          return;
        }
        err := r;
      }
      offers := Counted(offers, Ready(Stderr, amount));
    }

    /** `selector.get_map()`: some stream is still registered. */
    predicate AnyOpen()
      reads this
    {
      stdinOpen || out.open || err.open
    }

    /** One turn of the outer loop. */
    method Turn(round: Round)
      requires Valid() && failure == None && AnyOpen() && offers == CountersOf(seen, [])
      modifies this
      ensures Valid() && seen == old(seen) + [round]
      ensures failure == None ==> offers == CountersOf(seen, [])
      ensures failure == None ==> round.now < deadline
    {
      NewRound(round);
      seen := seen + [round];
      if round.now >= deadline {
        assert seen[|seen| - 1].now >= deadline;
        failure := Some(TimedOut);
        return;
      }
      if Poll(child, round.polled).Some? && exitObservedAt.None? {
        exitObservedAt := Some(round.now);
        assert seen[|seen| - 1].now == round.now;
      }
      if exitObservedAt.Some? && round.now - exitObservedAt.value > GRACE {
        Retained(round.now);
        failure := Some(RetainedPipe);
        return;
      }
      HandleEvents(round, old(seen));
    }

    /** The inner loop over the ready streams. */
    method HandleEvents(round: Round, ghost before: seq<Round>)
      requires Valid() && failure == None && seen == before + [round] && offers == CountersOf(before, [])
      modifies this
      ensures Valid() && seen == old(seen)
      ensures failure == None ==> offers == CountersOf(seen, [])
    {
      for k := 0 to |round.events|
        invariant Valid() && failure == None && seen == old(seen)
        invariant offers == CountersOf(before, round.events[..k])
      {
        CountEvent(before, round.events, k);
        Handle(round.events[k]);
        if failure.Some? {
          return;
        }
      }
      assert round.events[..|round.events|] == round.events;
      CountRound(before, round);
    }

    /** Entering a round keeps what holds. */
    lemma NewRound(round: Round)
      requires Valid()
      ensures Unbroken(seen + [round]) ==> Unbroken(seen)
      ensures forall at :: ExitSeen(child, seen, at) ==> ExitSeen(child, seen + [round], at)
    {
      var after := seen + [round];
      if Unbroken(after) {
        forall i | 0 <= i < |seen| ensures Broken !in seen[i].events { assert after[i] == seen[i]; }
      }
      forall at | ExitSeen(child, seen, at) ensures ExitSeen(child, after, at) {
        var i :| 0 <= i < |seen| && seen[i].now == at && Poll(child, seen[i].polled).Some?;
        assert after[i] == seen[i];
      }
    }

    lemma Retained(now: real)
      requires Valid() && seen != [] && seen[|seen| - 1].now == now
      requires exitObservedAt.Some? && now - exitObservedAt.value > GRACE
      ensures Justified(child, limits, deadline, seen, RetainedPipe)
    {
      var i :| 0 <= i < |seen| && seen[i].now == exitObservedAt.value && Poll(child, seen[i].polled).Some?;
      assert i < |seen| - 1;
    }
  }

  /** No broken pipe was reported. */
  ghost predicate Unbroken(rounds: seq<Round>) {
    forall i :: 0 <= i < |rounds| ==> Broken !in rounds[i].events
  }

  /** Both final clock readings are within the deadline. */
  predicate EndsBy(ending: Ending, deadline: real) {
    ending.polled <= deadline && ending.waited <= deadline
  }

  predicate Accepted(request: Bytes, timeout: real) {
    0.0 < timeout <= MAX_TIMEOUT && request != [] && |request| <= MAX_REQUEST
  }

  /** The loop over the rounds the environment provides. */
  method Loop(runner: Runner, rounds: seq<Round>) returns (used: nat)
    requires runner.Valid() && runner.failure == None && runner.seen == [] && runner.offers == Counters(0, 0, 0)
    modifies runner
    ensures used <= |rounds| && runner.Valid() && runner.seen == rounds[..used]
    ensures runner.failure == None ==> forall i :: 0 <= i < used ==> rounds[i].now < runner.deadline
    ensures runner.failure == None && runner.AnyOpen() ==> used == |rounds| && runner.offers == CountersOf(rounds, [])
  {
    used := 0;
    while runner.AnyOpen() && used < |rounds|
      invariant used <= |rounds| && runner.seen == rounds[..used]
      invariant runner.Valid() && runner.failure == None && runner.offers == CountersOf(rounds[..used], [])
      invariant forall i :: 0 <= i < used ==> rounds[i].now < runner.deadline
      decreases |rounds| - used
    {
      runner.Turn(rounds[used]);
      assert rounds[..used + 1] == rounds[..used] + [rounds[used]];
      used := used + 1;
      if runner.failure.Some? {
        return;
      }
    }
    assert rounds[..|rounds|] == rounds;
  }

  /** The call as a whole, over any finite run of the environment.  `used` is
      how many of the rounds were entered; `sent`, `out` and `err` are what was
      written and collected, whatever the result.  */
  method RunBoundedProcess(child: Child, request: Bytes, started: real, timeout: real, limits: Limits,
                           rounds: seq<Round>, ending: Ending)
    returns (result: Result, used: nat, sent: Bytes, out: Bytes, err: Bytes)
    // in every run: only a prefix of the request is sent, only what the child
    // wrote is collected, and never beyond the limits
    ensures used <= |rounds| && sent <= request
    ensures out <= child.out && |out| <= limits.out && err <= child.err && |err| <= limits.err
    // a normal return: everything was read, everything was sent unless the
    // pipe broke, and the status is the one the child ended with by itself
    ensures result.Returned? ==> Accepted(request, timeout) && result.out == out == child.out && result.err == err == child.err
    ensures result.Returned? && Unbroken(rounds[..used]) ==> sent == request
    ensures result.Returned? ==> FinalStatus(child, ending) == Some(result.status)
    ensures result.Returned? ==> child.exit.Some? && result.status == child.exit.value.status
    ensures result.Returned? && EndsBy(ending, started + timeout) ==> child.exit.value.at <= started + timeout
    ensures result.Returned? ==> forall i :: 0 <= i < used ==> rounds[i].now < started + timeout
    // a failure has its reason
    ensures result == Failed(Rejected) <==> !Accepted(request, timeout)
    ensures result.Failed? ==>
      || result.why == Rejected
      || Justified(child, limits, started + timeout, rounds[..used], result.why)
      || (result.why == TimedOut && FinalStatus(child, ending) == None)
    // an unfinished run is before its deadline, and the loop ends once every
    // stream was ready often enough
    ensures result == Running ==> used == |rounds| && forall i :: 0 <= i < |rounds| ==> rounds[i].now < started + timeout
    ensures result == Running ==>
      || AllOffers(rounds, Stdin) < |request|
      || AllOffers(rounds, Stdout) <= |child.out|
      || AllOffers(rounds, Stderr) <= |child.err|
  {
    if !Accepted(request, timeout) {
      return Failed(Rejected), 0, [], [], [];
    }
    var runner := new Runner(child, request, limits, started + timeout);
    used := Loop(runner, rounds);
    sent, out, err := runner.sent, runner.out.data, runner.err.data;
    if runner.failure.Some? {
      result := Failed(runner.failure.value);
      return;
    }
    if runner.AnyOpen() {
      result := Running;
      return;
    }
    var status := FinalStatus(child, ending);
    result := if status.None? then Failed(TimedOut) else Returned(status.value, out, err);
  }

  /** A child that behaves is served to the end: outputs within the limits, an
      exit by the final poll or wait, streams ready often enough and in time.  */
  method ServeWellBehaved(child: Child, request: Bytes, started: real, timeout: real, limits: Limits,
                          rounds: seq<Round>, ending: Ending)
    returns (result: Result)
    requires Accepted(request, timeout) && |child.out| <= limits.out && |child.err| <= limits.err
    requires FinalStatus(child, ending).Some?
    requires forall i :: 0 <= i < |rounds| ==> rounds[i].now < started + timeout && Blocked(Stdin) !in rounds[i].events
    requires forall i, j :: 0 <= i < j < |rounds| && Poll(child, rounds[i].polled).Some? ==>
      rounds[j].now - rounds[i].now <= GRACE
    requires |request| <= AllOffers(rounds, Stdin)
    requires |child.out| < AllOffers(rounds, Stdout) && |child.err| < AllOffers(rounds, Stderr)
    ensures result == Returned(child.exit.value.status, child.out, child.err)
  {
    var used, sent, out, err;
    result, used, sent, out, err := RunBoundedProcess(child, request, started, timeout, limits, rounds, ending);
  }

  /** A status that the final poll or wait found is one of a child that ended
      before the deadline, whatever the child, exactly when both final clock
      readings are within it.  */
  lemma NoneReturnedLateIff(deadline: real, ending: Ending)
    ensures (forall child: Child :: FinalStatus(child, ending).Some? ==> child.exit.value.at <= deadline)
      <==> EndsBy(ending, deadline)
  {
    if !EndsBy(ending, deadline) {
      var child := LateChild(deadline, ending);
      assert FinalStatus(child, ending).Some?;
    }
  }

  /** A silent child that ends just when the late one of the two looks comes. */
  function LateChild(deadline: real, ending: Ending): Child {
    Child([], [], Some(Exit(if ending.polled > deadline then ending.polled else ending.waited, 0)))
  }

  /** The other half of it over whole runs: whenever a final look comes after
      the deadline, a child that outlives the deadline is returned as a success,
      because the deadline bounds the loop and not the child.  */
  method LateExitIsReturned(started: real, timeout: real, ending: Ending) returns (result: Result, child: Child)
    requires 0.0 < timeout <= MAX_TIMEOUT && !EndsBy(ending, started + timeout)
    ensures result.Returned? && child.exit.Some? && child.exit.value.at > started + timeout
  {
    child := LateChild(started + timeout, ending);
    var events := [Ready(Stdin, 1), Ready(Stdout, 1), Ready(Stderr, 1)];
    assert events[..2] == [Ready(Stdin, 1), Ready(Stdout, 1)] && events[..2][..1] == [Ready(Stdin, 1)];
    assert forall s :: Offers([Ready(Stdin, 1)], s) == if s == Stdin then 1 else 0;
    assert forall s :: Offers(events[..2], s) == if s == Stderr then 0 else 1;
    assert forall s :: Offers(events, s) == 1;
    var rounds := [Round(started, started, events)];
    assert rounds[..0] == [];
    assert forall s :: AllOffers(rounds, s) == 1;
    result := ServeWellBehaved(child, [0], started, timeout, Limits(0, 0), rounds, ending);
  }
}
