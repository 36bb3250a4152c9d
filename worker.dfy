/**
 * The worker stage: a fan-in join of the heartbeat and generator channels that
 * classifies every generator value and forwards the classification to the logger.
 */
module Worker {
  import opened Wrappers
  import opened Faults
  import opened Channels
  import opened StateCells

  /** The four kinds of message the worker emits. */
  datatype FizzBuzzMessage = FizzBuzz | Fizz | Buzz | Value(n: nat)

  /** The classifier: divisibility by 3 and by 5 decides the variant. */
  function Classify(value: nat): FizzBuzzMessage
  {
    match (value % 3, value % 5)
    case (0, 0) => FizzBuzz
    case (0, _) => Fizz
    case (_, 0) => Buzz
    case _ => Value(value)
  }

  /** `v` is `d` times some natural number. */
  ghost predicate MultipleOf(d: nat, v: nat)
  {
    exists k: nat :: v == d * k
  }

  lemma MultipleOfIffZeroRemainder(d: nat, v: nat)
    requires d == 3 || d == 5 || d == 15
    ensures MultipleOf(d, v) <==> v % d == 0
  {
    if v % d == 0 {
      assert v == d * (v / d);
    }
  }

  /** Divisibility by 15 is divisibility by both 3 and 5. */
  lemma FifteenIffThreeAndFive(v: nat)
    ensures v % 15 == 0 <==> v % 3 == 0 && v % 5 == 0
  {
  }

  /**
   * The classifier against the plain statement of FizzBuzz: multiples of 15 (zero
   * among them) are FizzBuzz, other multiples of 3 are Fizz, other multiples of 5
   * are Buzz, and everything else is carried unchanged.
   */
  lemma ClassifyByMultiples(v: nat)
    ensures Classify(v) == FizzBuzz <==> MultipleOf(15, v)
    ensures Classify(v) == Fizz <==> MultipleOf(3, v) && !MultipleOf(5, v)
    ensures Classify(v) == Buzz <==> MultipleOf(5, v) && !MultipleOf(3, v)
    ensures Classify(v).Value? <==> !MultipleOf(3, v) && !MultipleOf(5, v)
    ensures Classify(v).Value? ==> Classify(v) == Value(v)
  {
    MultipleOfIffZeroRemainder(3, v);
    MultipleOfIffZeroRemainder(5, v);
    MultipleOfIffZeroRemainder(15, v);
    FifteenIffThreeAndFive(v);
  }

  /** The classification of a stream of values, element by element, in order. */
  function ClassifyAll(values: seq<nat>): (messages: seq<FizzBuzzMessage>)
    ensures |messages| == |values|
  {
    if values == [] then [] else ClassifyAll(values[..|values| - 1]) + [Classify(values[|values| - 1])]
  }

  /** The message at position i is the classification of the value at position i. */
  lemma {:induction false} ClassifyAllAt(values: seq<nat>, i: nat)
    requires i < |values|
    ensures ClassifyAll(values)[i] == Classify(values[i])
  {
    if i < |values| - 1 {
      ClassifyAllAt(values[..|values| - 1], i);
    }
  }

  /** Classifying two streams one after the other is classifying their concatenation. */
  lemma {:induction false} ClassifyAllAppend(a: seq<nat>, b: seq<nat>)
    ensures ClassifyAll(a + b) == ClassifyAll(a) + ClassifyAll(b)
  {
    if b != [] {
      var b' := b[..|b| - 1];
      assert a + b == (a + b') + [b[|b| - 1]];
      ClassifyAllAppend(a, b');
    } else {
      assert a + b == a;
    }
  }

  /** The worker's persistent counters. */
  class WorkerState {
    var heartbeatsProcessed: nat
    var valuesProcessed: nat
    var messagesSent: nat
    var restartCount: nat

    /** The default the state cell materialises on the first lock. */
    constructor ()
      ensures heartbeatsProcessed == 0 && valuesProcessed == 0
      ensures messagesSent == 0 && restartCount == 0
    {
      heartbeatsProcessed, valuesProcessed, messagesSent, restartCount := 0, 0, 0, 0;
    }
  }

  /**
   * Entry to the stage body: lock the persistent state (materialising the default on
   * the first invocation) and count this invocation as a (re)start.
   */
  method Start(cell: StateCell<WorkerState>) returns (state: WorkerState)
    modifies cell, cell.Held()
    ensures cell.slot == Some(state)
    ensures old(cell.slot).None? ==>
      fresh(state) && state.restartCount == 1 &&
      state.heartbeatsProcessed == 0 && state.valuesProcessed == 0 && state.messagesSent == 0
    ensures old(cell.slot).Some? ==>
      state == old(cell.slot.value) &&
      state.restartCount == old(state.restartCount) + 1 &&
      state.heartbeatsProcessed == old(state.heartbeatsProcessed) &&
      state.valuesProcessed == old(state.valuesProcessed) &&
      state.messagesSent == old(state.messagesSent)
  {
    var fallback := new WorkerState();
    state := cell.Lock(fallback);
    state.restartCount := state.restartCount + 1;
  }

  /**
   * The loop condition: the worker keeps running until shutdown is requested and both
   * inputs are closed and drained, in which case it closes the logger channel. The
   * logger channel is only closed once both inputs are found drained.
   */
  method ShouldRun(shutdownRequested: bool, heartbeat: Channel<nat>, generator: Channel<nat>,
                   logger: Channel<FizzBuzzMessage>)
    returns (running: bool)
    requires heartbeat.Valid() && generator.Valid() && logger.Valid()
    modifies logger
    ensures logger.Valid()
    ensures running == !(shutdownRequested && heartbeat.IsClosedAndEmpty() && generator.IsClosedAndEmpty())
    ensures logger.closed == (old(logger.closed) || !running)
    ensures logger.sent == old(logger.sent) && logger.read == old(logger.read) && logger.peeks == old(logger.peeks)
  {
    if !shutdownRequested {
      return true;
    }
    var accept := heartbeat.IsClosedAndEmpty() && generator.IsClosedAndEmpty();
    if accept {
      accept := logger.MarkClosed();
    }
    running := !accept;
  }

  /** What one iteration did; the source keeps these in local variables. */
  datatype WorkerOutcome = WorkerOutcome(
    crashed: bool,        // the iteration stopped early
    peeked: bool,         // a heartbeat was peeked
    sent: nat,            // messages the logger accepted
    advanced: bool,       // the generator read position was committed
    tookHeartbeat: bool)  // the heartbeat was consumed

  /** How many of `pending` messages a logger with `vacancy` free slots accepts before refusing one. */
  function Accepted(pending: nat, vacancy: nat, closed: bool): (a: nat)
    ensures a <= pending && a <= vacancy
    ensures closed ==> a == 0
    ensures !closed && a < pending ==> a == vacancy
  {
    if closed then 0 else Min(pending, vacancy)
  }

  /**
   * What one iteration of the worker does, given whether a heartbeat is buffered, how
   * many generator values are buffered, the logger's free slots and closed flag, and
   * where (if anywhere) the iteration stops. With n values pending, effect point 0 is
   * the start of the iteration, point 1 + j precedes the send of the j-th value, point
   * 1 + n precedes the generator advance and point 2 + n precedes the heartbeat take.
   */
  function Iteration(heartbeatAvailable: bool, pending: nat, vacancy: nat, closed: bool, crash: Crash)
    : (r: WorkerOutcome)
    // nothing is sent beyond what was peeked and what the logger accepts
    ensures r.sent <= Accepted(pending, vacancy, closed)
    ensures r.sent > 0 ==> r.peeked && heartbeatAvailable
    // the generator is committed only after sends succeeded, and by exactly that many
    ensures r.advanced ==> r.sent > 0
    // the heartbeat is consumed only once every pending value was sent and committed
    ensures r.tookHeartbeat ==> r.advanced && r.sent == pending
    ensures r.crashed ==> crash.Before? && !r.tookHeartbeat
    // without a stop, the iteration sends as much as the logger accepts
    ensures !r.crashed ==>
      r.peeked == heartbeatAvailable &&
      (heartbeatAvailable ==>
         r.sent == Accepted(pending, vacancy, closed) &&
         r.advanced == (r.sent > 0) &&
         r.tookHeartbeat == (r.sent == pending && pending > 0))
  {
    var a := Accepted(pending, vacancy, closed);
    if crash.StopsAt(0) then WorkerOutcome(true, false, 0, false, false)
    else if !heartbeatAvailable then WorkerOutcome(false, false, 0, false, false)
    else if crash.Before? && 1 <= crash.point <= pending && crash.point - 1 <= a then
      WorkerOutcome(true, true, crash.point - 1, false, false)
    else if a > 0 && crash.StopsAt(1 + pending) then WorkerOutcome(true, true, a, false, false)
    else if a == pending && pending > 0 && crash.StopsAt(2 + pending) then WorkerOutcome(true, true, a, true, false)
    else WorkerOutcome(false, true, a, a > 0, a == pending && pending > 0)
  }

  /**
   * The send loop of one iteration: classify the peeked values in order and send each
   * to the logger, stopping at the first refusal. Effect point 1 + j precedes the send
   * of `values[j]`.
   */
  method SendClassified(state: WorkerState, logger: Channel<FizzBuzzMessage>, values: seq<nat>, crash: Crash)
    returns (successfullySent: nat, crashed: bool)
    requires logger.Valid()
    modifies state`messagesSent, logger
    ensures logger.Valid()
    ensures successfullySent <= |values|
    ensures logger.sent == old(logger.sent) + ClassifyAll(values[..successfullySent])
    ensures state.messagesSent == old(state.messagesSent) + successfullySent
    ensures crashed == (crash.Before? && 1 <= crash.point <= |values| &&
                        crash.point - 1 <= Accepted(|values|, old(logger.Vacancy()), old(logger.closed)))
    ensures successfullySent ==
      if crashed then crash.point - 1 else Accepted(|values|, old(logger.Vacancy()), old(logger.closed))
    ensures logger.closed == old(logger.closed) && logger.read == old(logger.read) && logger.peeks == old(logger.peeks)
  {
    ghost var vacancy := logger.Vacancy();
    successfullySent, crashed := 0, false;
    while successfullySent < |values|
      invariant 0 <= successfullySent <= |values|
      invariant logger.Valid() && logger.closed == old(logger.closed)
      invariant logger.read == old(logger.read) && logger.peeks == old(logger.peeks)
      invariant logger.sent == old(logger.sent) + ClassifyAll(values[..successfullySent])
      invariant successfullySent <= Accepted(|values|, vacancy, logger.closed)
      invariant logger.Vacancy() == vacancy - successfullySent
      invariant state.messagesSent == old(state.messagesSent) + successfullySent
      invariant crash.Before? ==> !(1 <= crash.point <= successfullySent)
    {
      var message := Classify(values[successfullySent]);
      if crash.StopsAt(1 + successfullySent) {
        return successfullySent, true;
      }
      var outcome := logger.TrySend(message);
      if outcome.Blocked? {
        break;
      }
      ClassifyAllAppend(values[..successfullySent], [values[successfullySent]]);
      assert values[..successfullySent + 1] == values[..successfullySent] + [values[successfullySent]];
      successfullySent := successfullySent + 1;
      state.messagesSent := state.messagesSent + 1;
    }
  }

  /**
   * One iteration of the worker loop. With n generator values buffered, effect point 0
   * is the start of the iteration, point 1 + j precedes the send of the j-th value,
   * point 1 + n precedes the generator advance and point 2 + n the heartbeat take.
   */
  method Step(state: WorkerState, heartbeat: Channel<nat>, generator: Channel<nat>,
              logger: Channel<FizzBuzzMessage>, crash: Crash)
    returns (r: WorkerOutcome)
    requires heartbeat.Valid() && generator.Valid() && logger.Valid()
    requires heartbeat != generator
    modifies state, heartbeat, generator, logger
    ensures heartbeat.Valid() && generator.Valid() && logger.Valid()
    ensures r == Iteration(old(heartbeat.read) < |old(heartbeat.sent)|, |old(generator.Unread())|,
                           old(logger.Vacancy()), old(logger.closed), crash)
    // restart safety: until a message has reached the logger, no counter and no input cursor moves
    ensures r.sent == 0 ==>
      generator.read == old(generator.read) && heartbeat.read == old(heartbeat.read) &&
      state.valuesProcessed == old(state.valuesProcessed) &&
      state.heartbeatsProcessed == old(state.heartbeatsProcessed) &&
      state.messagesSent == old(state.messagesSent)
    // the logger receives the classification of the first r.sent buffered generator values, in order
    ensures logger.sent == old(logger.sent) + ClassifyAll(old(generator.Unread())[..r.sent])
    ensures state.messagesSent == old(state.messagesSent) + r.sent
    // the generator is committed by exactly the number sent, and only after the sends
    ensures generator.read == old(generator.read) + (if r.advanced then r.sent else 0)
    ensures state.valuesProcessed == old(state.valuesProcessed) + (generator.read - old(generator.read))
    ensures generator.peeks == if r.advanced then 0 else old(generator.peeks)
    // the heartbeat is consumed only once every buffered value was sent and committed
    ensures heartbeat.read == old(heartbeat.read) + (if r.tookHeartbeat then 1 else 0)
    ensures state.heartbeatsProcessed == old(state.heartbeatsProcessed) + (if r.tookHeartbeat then 1 else 0)
    ensures heartbeat.peeks ==
      if r.tookHeartbeat then 0 else if r.peeked then old(heartbeat.peeks) + 1 else old(heartbeat.peeks)
    // everything else is left as it was
    ensures state.restartCount == old(state.restartCount)
    ensures heartbeat.sent == old(heartbeat.sent) && generator.sent == old(generator.sent)
    ensures heartbeat.closed == old(heartbeat.closed) && generator.closed == old(generator.closed)
    ensures logger.closed == old(logger.closed) && logger.read == old(logger.read) && logger.peeks == old(logger.peeks)
  {
    r := WorkerOutcome(false, false, 0, false, false);
    if crash.StopsAt(0) {
      return r.(crashed := true);
    }
    var heartbeatValue := heartbeat.TryPeek();
    if heartbeatValue.None? {
      return;
    }
    r := r.(peeked := true);

    var processedValues := generator.TryPeekIter();
    var successfullySent, crashed := SendClassified(state, logger, processedValues, crash);
    if crashed {
      return r.(crashed := true, sent := successfullySent);
    }
    r := r.(sent := successfullySent);
    var advanced, took, stopped := Commit(state, heartbeat, generator, successfullySent, |processedValues|, crash);
    r := r.(crashed := stopped, advanced := advanced, tookHeartbeat := took);
  }

  /**
   * The commit half of one iteration, after `sent` of the `pending` peeked values
   * reached the logger: advance the generator by the number sent, then consume the
   * heartbeat when every pending value was sent. Effect point 1 + pending precedes
   * the advance and 2 + pending the take.
   */
  method Commit(state: WorkerState, heartbeat: Channel<nat>, generator: Channel<nat>,
                sent: nat, pending: nat, crash: Crash)
    returns (advanced: bool, took: bool, crashed: bool)
    requires heartbeat.Valid() && generator.Valid() && heartbeat != generator
    requires pending == |generator.Unread()| && sent <= pending
    requires heartbeat.read < |heartbeat.sent|
    modifies state`valuesProcessed, state`heartbeatsProcessed, heartbeat, generator
    ensures heartbeat.Valid() && generator.Valid()
    ensures advanced == (sent > 0 && !crash.StopsAt(1 + pending))
    ensures took == (advanced && sent == pending && !crash.StopsAt(2 + pending))
    ensures crashed == (sent > 0 && (crash.StopsAt(1 + pending) || (sent == pending && crash.StopsAt(2 + pending))))
    ensures generator.read == old(generator.read) + (if advanced then sent else 0)
    ensures generator.peeks == if advanced then 0 else old(generator.peeks)
    ensures state.valuesProcessed == old(state.valuesProcessed) + (if advanced then sent else 0)
    ensures heartbeat.read == old(heartbeat.read) + (if took then 1 else 0)
    ensures heartbeat.peeks == if took then 0 else old(heartbeat.peeks)
    ensures state.heartbeatsProcessed == old(state.heartbeatsProcessed) + (if took then 1 else 0)
    ensures heartbeat.sent == old(heartbeat.sent) && generator.sent == old(generator.sent)
    ensures heartbeat.closed == old(heartbeat.closed) && generator.closed == old(generator.closed)
  {
    advanced, took, crashed := false, false, false;
    if sent > 0 {
      if crash.StopsAt(1 + pending) {
        return false, false, true;
      }
      var count := generator.AdvanceReadIndex(sent);
      state.valuesProcessed := state.valuesProcessed + count;
      advanced := true;
    }
    if sent == pending && pending > 0 {
      if crash.StopsAt(2 + pending) {
        return advanced, false, true;
      }
      var taken := heartbeat.TryTake();
      if taken.Some? {
        state.heartbeatsProcessed := state.heartbeatsProcessed + 1;
        took := true;
      }
    }
  }

  /**
   * The worker's unit test: generator values 0..5 and one heartbeat, both channels
   * closed; one iteration, then a shutdown request.
   */
  method TestWorker(capacity: nat)
    returns (delivered: seq<FizzBuzzMessage>, heartbeats: nat, values: nat, stopped: bool)
    requires 6 <= capacity
    ensures delivered == [FizzBuzz, Value(1), Value(2), Fizz, Value(4), Buzz]
    ensures heartbeats == 1 && values == 6 && stopped
  {
    var heartbeat := new Channel<nat>(capacity);
    var generator := new Channel<nat>(capacity);
    var logger := new Channel<FizzBuzzMessage>(capacity);
    generator.TestingSendAll([0, 1, 2, 3, 4, 5], true);
    heartbeat.TestingSendAll([0], true);
    var cell := new StateCell<WorkerState>();
    var state := Start(cell);
    assert generator.Unread() == [0, 1, 2, 3, 4, 5];
    var r := Step(state, heartbeat, generator, logger, Never);
    assert r.sent == 6 && r.tookHeartbeat;
    assert [0, 1, 2, 3, 4, 5][..r.sent] == [0, 1, 2, 3, 4, 5];
    ClassifyFirstSix();
    assert logger.Unread() == [FizzBuzz, Value(1), Value(2), Fizz, Value(4), Buzz];
    var running := ShouldRun(true, heartbeat, generator, logger);
    delivered, heartbeats, values, stopped := logger.Unread(), state.heartbeatsProcessed, state.valuesProcessed, !running;
  }

  lemma ClassifyFirstSix()
    ensures ClassifyAll([0, 1, 2, 3, 4, 5]) == [FizzBuzz, Value(1), Value(2), Fizz, Value(4), Buzz]
  {
    var values := [0, 1, 2, 3, 4, 5];
    forall i | 0 <= i < 6 ensures ClassifyAll(values)[i] == Classify(values[i]) {
      ClassifyAllAt(values, i);
    }
  }

  /**
   * A stopped first iteration over n values, with a heartbeat and room for all of
   * them, commits either nothing or all n values; it leaves the heartbeat unread
   * after a commit only when it stopped just before the take.
   */
  lemma FirstAttempt(n: nat, vacancy: nat, point: nat)
    requires n <= vacancy
    ensures var r := Iteration(true, n, vacancy, false, Before(point));
      r.sent <= n && (r.advanced ==> r.sent == n) && (r.tookHeartbeat ==> r.advanced) &&
      (r.advanced && !r.tookHeartbeat <==> n > 0 && point == 2 + n) &&
      (r.tookHeartbeat ==> n > 0)
  {
  }

  /** A complete iteration over n values with room for all of them sends and commits them all. */
  lemma SecondAttempt(heartbeatAvailable: bool, n: nat, vacancy: nat)
    requires n <= vacancy
    requires !heartbeatAvailable ==> n == 0
    ensures var r := Iteration(heartbeatAvailable, n, vacancy, false, Never);
      r.sent == n && r.advanced == (n > 0) && r.tookHeartbeat == (heartbeatAvailable && n > 0)
  {
  }

  /**
   * What the logger holds after a first attempt sent `sent` values and committed
   * `committed` of them (none or all), and a second attempt sent the uncommitted rest.
   */
  lemma {:induction false} ResentPrefix(values: seq<nat>, sent: nat, committed: nat)
    requires sent <= |values|
    requires committed == 0 || committed == sent == |values|
    ensures ClassifyAll(values[..sent]) + ClassifyAll(values[committed..])
         == ClassifyAll(values[..if committed == 0 then sent else 0]) + ClassifyAll(values)
  {
    if committed == 0 {
      assert values[committed..] == values;
    } else {
      ClassifyAllAppend(values[..committed], values[committed..]);
      assert values[..committed] + values[committed..] == values;
      assert values[..0] == [];
    }
  }

  /**
   * The first half of the restart scenario: fresh channels holding `values` and a
   * single heartbeat, a first start, and one iteration that stops at `point`.
   */
  method FirstRun(values: seq<nat>, point: nat, capacity: nat)
    returns (heartbeat: Channel<nat>, generator: Channel<nat>, logger: Channel<FizzBuzzMessage>,
             cell: StateCell<WorkerState>, first: WorkerOutcome)
    requires 1 <= capacity && 2 * |values| <= capacity
    ensures fresh(heartbeat) && fresh(generator) && fresh(logger) && fresh(cell)
    ensures heartbeat != generator
    ensures heartbeat.Valid() && generator.Valid() && logger.Valid()
    ensures first == Iteration(true, |values|, capacity, false, Before(point))
    ensures heartbeat.sent == [0] && !heartbeat.closed
    ensures heartbeat.read == if first.tookHeartbeat then 1 else 0
    ensures generator.sent == values && !generator.closed
    ensures generator.read == if first.advanced then first.sent else 0
    ensures logger.sent == ClassifyAll(values[..first.sent]) && logger.read == 0 && !logger.closed
    ensures logger.capacity == capacity
    ensures cell.slot.Some? && fresh(cell.slot.value)
    ensures cell.slot.value.restartCount == 1
    ensures cell.slot.value.valuesProcessed == generator.read
    ensures cell.slot.value.heartbeatsProcessed == heartbeat.read
  {
    heartbeat := new Channel<nat>(capacity);
    generator := new Channel<nat>(capacity);
    logger := new Channel<FizzBuzzMessage>(capacity);
    generator.TestingSendAll(values, false);
    heartbeat.TestingSendAll([0], false);
    cell := new StateCell<WorkerState>();
    var state := Start(cell);
    assert generator.Unread() == values;
    first := Step(state, heartbeat, generator, logger, Before(point));
  }

  /**
   * No loss across a restart: one iteration over `values` and a single heartbeat stops
   * at effect point `point`, the stage is restarted with the same state, and a second
   * iteration runs to its end. Every value reaches the logger, in order, after at most
   * a re-sent prefix of them; every value is committed exactly once; the heartbeat
   * stays unread only when the stop fell just before its take, with nothing left to
   * pair it with.
   */
  method CrashAndRestart(values: seq<nat>, point: nat, capacity: nat)
    returns (delivered: seq<FizzBuzzMessage>, duplicated: nat, valuesProcessed: nat,
             heartbeatsProcessed: nat, restarts: nat)
    requires 1 <= capacity && 2 * |values| <= capacity
    ensures duplicated <= |values|
    ensures delivered == ClassifyAll(values[..duplicated]) + ClassifyAll(values)
    ensures valuesProcessed == |values|
    ensures heartbeatsProcessed == if values == [] || point == 2 + |values| then 0 else 1
    ensures restarts == 2
  {
    var heartbeat, generator, logger, cell, first := FirstRun(values, point, capacity);
    FirstAttempt(|values|, capacity, point);
    ghost var afterFirst := logger.sent;
    var state := Start(cell);
    var committed := generator.read;
    assert generator.Unread() == values[committed..];
    SecondAttempt(!first.tookHeartbeat, |values| - committed, logger.Vacancy());
    var second := Step(state, heartbeat, generator, logger, Never);
    assert values[committed..][..second.sent] == values[committed..];
    ResentPrefix(values, first.sent, committed);
    duplicated := if committed == 0 then first.sent else 0;
    delivered := logger.Unread();
    valuesProcessed, heartbeatsProcessed, restarts :=
      state.valuesProcessed, state.heartbeatsProcessed, state.restartCount;
  }
}
