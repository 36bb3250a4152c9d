/**
 * The logger stage, the sink of the pipeline: takes one classified message per loop
 * iteration, adds it to the counter of its variant, and commits its read position
 * only after the message has been counted. A message whose processing keeps
 * failing is recognised by its peek count and dropped uncounted.
 */
module Logger {
  import opened Wrappers
  import opened Faults
  import opened Channels
  import opened StateCells
  import opened Worker

  /** Peeks of one uncommitted message after which the message is dropped. */
  const ShowstopperThreshold: nat := 7

  /** The four per-variant counters. */
  datatype Tally = Tally(fizz: nat, buzz: nat, fizzbuzz: nat, value: nat)

  function Total(t: Tally): nat {
    t.fizz + t.buzz + t.fizzbuzz + t.value
  }

  /** Records one message: exactly one counter grows, the one of the message's variant. */
  function Count(t: Tally, m: FizzBuzzMessage): (r: Tally)
    ensures Total(r) == Total(t) + 1
    ensures r.fizz >= t.fizz && r.buzz >= t.buzz && r.fizzbuzz >= t.fizzbuzz && r.value >= t.value
    ensures r.fizz > t.fizz <==> m.Fizz?
    ensures r.buzz > t.buzz <==> m.Buzz?
    ensures r.fizzbuzz > t.fizzbuzz <==> m.FizzBuzz?
    ensures r.value > t.value <==> m.Value?
  {
    match m
    case Fizz => t.(fizz := t.fizz + 1)
    case Buzz => t.(buzz := t.buzz + 1)
    case FizzBuzz => t.(fizzbuzz := t.fizzbuzz + 1)
    case Value(_) => t.(value := t.value + 1)
  }

  /** The counters after recording `ms` in order from zero. */
  function TallyOf(ms: seq<FizzBuzzMessage>): Tally {
    if ms == [] then Tally(0, 0, 0, 0) else Count(TallyOf(ms[..|ms| - 1]), ms[|ms| - 1])
  }

  /** Recording a stream from zero counts every message once: the counters sum to its length. */
  lemma {:induction false} TallyOfTotal(ms: seq<FizzBuzzMessage>)
    ensures Total(TallyOf(ms)) == |ms|
  {
    if ms != [] {
      TallyOfTotal(ms[..|ms| - 1]);
    }
  }

  /** Each of the fizz, buzz and fizzbuzz counters is the number of occurrences of its message. */
  lemma {:induction false} TallyOfCounts(ms: seq<FizzBuzzMessage>)
    ensures TallyOf(ms).fizz == multiset(ms)[Fizz]
    ensures TallyOf(ms).buzz == multiset(ms)[Buzz]
    ensures TallyOf(ms).fizzbuzz == multiset(ms)[FizzBuzz]
  {
    if ms != [] {
      var n := |ms| - 1;
      TallyOfCounts(ms[..n]);
      assert ms == ms[..n] + [ms[n]];
      var before, after := multiset(ms[..n]), multiset(ms);
      assert after == before + multiset{ms[n]};
      assert TallyOf(ms) == Count(TallyOf(ms[..n]), ms[n]);
      match ms[n] {
        case Fizz => assert after[Fizz] == before[Fizz] + 1 && after[Buzz] == before[Buzz] && after[FizzBuzz] == before[FizzBuzz];
        case Buzz => assert after[Buzz] == before[Buzz] + 1 && after[Fizz] == before[Fizz] && after[FizzBuzz] == before[FizzBuzz];
        case FizzBuzz => assert after[FizzBuzz] == before[FizzBuzz] + 1 && after[Fizz] == before[Fizz] && after[Buzz] == before[Buzz];
        case Value(_) => assert after[Fizz] == before[Fizz] && after[Buzz] == before[Buzz] && after[FizzBuzz] == before[FizzBuzz];
      }
    }
  }

  /** The value counter takes every message that is none of Fizz, Buzz and FizzBuzz. */
  lemma TallyOfValues(ms: seq<FizzBuzzMessage>)
    ensures TallyOf(ms).value == |ms| - multiset(ms)[Fizz] - multiset(ms)[Buzz] - multiset(ms)[FizzBuzz]
  {
    TallyOfCounts(ms);
    TallyOfTotal(ms);
  }

  /** The logger's persistent state. */
  class LoggerState {
    var messagesLogged: nat
    var fizzCount: nat
    var buzzCount: nat
    var fizzbuzzCount: nat
    var valueCount: nat
    var restartCount: nat

    /** The default the state cell materialises on the first lock. */
    constructor ()
      ensures messagesLogged == 0 && fizzCount == 0 && buzzCount == 0
      ensures fizzbuzzCount == 0 && valueCount == 0 && restartCount == 0
    {
      messagesLogged, fizzCount, buzzCount, fizzbuzzCount, valueCount, restartCount := 0, 0, 0, 0, 0, 0;
    }
  }

  function Counters(state: LoggerState): Tally
    reads state
  {
    Tally(state.fizzCount, state.buzzCount, state.fizzbuzzCount, state.valueCount)
  }

  /** The counters account for exactly the messages logged. */
  ghost predicate Balanced(state: LoggerState)
    reads state
  {
    Total(Counters(state)) == state.messagesLogged
  }

  /**
   * Entry to the stage body: lock the persistent state (materialising the default on
   * the first invocation) and count this invocation as a (re)start.
   */
  method Start(cell: StateCell<LoggerState>) returns (state: LoggerState)
    modifies cell, cell.Held()
    ensures cell.slot == Some(state)
    ensures old(cell.slot).None? ==>
      fresh(state) && state.restartCount == 1 && state.messagesLogged == 0 && Counters(state) == Tally(0, 0, 0, 0)
    ensures old(cell.slot).Some? ==>
      state == old(cell.slot.value) &&
      state.restartCount == old(state.restartCount) + 1 &&
      state.messagesLogged == old(state.messagesLogged) && Counters(state) == old(Counters(state))
  {
    var fallback := new LoggerState();
    state := cell.Lock(fallback);
    state.restartCount := state.restartCount + 1;
  }

  /** The loop condition: the logger runs until shutdown is requested and its input is closed and drained. */
  method ShouldRun(shutdownRequested: bool, rx: Channel<FizzBuzzMessage>) returns (running: bool)
    requires rx.Valid()
    ensures running == !(shutdownRequested && rx.closed && rx.read == |rx.sent|)
  {
    running := !(shutdownRequested && rx.IsClosedAndEmpty());
  }

  /** What one iteration did. */
  datatype LoggerOutcome =
    | Stopped                                              // stopped at the start of the iteration
    | Idle                                                 // nothing to read
    | Dropped(message: FizzBuzzMessage)                    // a showstopper, taken without being counted
    | Logged(message: FizzBuzzMessage)                     // counted and committed
    | Interrupted(message: FizzBuzzMessage, counted: bool) // peeked, stopped before the commit

  /**
   * What one iteration does, given the buffered head and its peek count. Effect point 0,
   * the start of the iteration after the wait, is the site of the demonstration panic;
   * point 1 follows the peek (processing fails before counting) and point 2 the
   * counting (the process stops before the commit).
   */
  function Iteration(head: Option<FizzBuzzMessage>, peeks: nat, crash: Crash): (r: LoggerOutcome)
    // a message is dropped exactly when it has reached the threshold of peeks
    ensures r.Dropped? <==> !crash.StopsAt(0) && head.Some? && peeks >= ShowstopperThreshold
    ensures r.Dropped? || r.Logged? || r.Interrupted? ==> head == Some(r.message)
    ensures r.Logged? <==>
      !crash.StopsAt(0) && !crash.StopsAt(1) && !crash.StopsAt(2) && head.Some? && peeks < ShowstopperThreshold
    ensures r.Idle? <==> !crash.StopsAt(0) && head.None?
    ensures r.Interrupted? ==> crash.Before? && (r.counted <==> crash.point == 2)
  {
    if crash.StopsAt(0) then Stopped
    else if head.None? then Idle
    else if peeks >= ShowstopperThreshold then Dropped(head.value)
    else if crash.StopsAt(1) then Interrupted(head.value, false)
    else if crash.StopsAt(2) then Interrupted(head.value, true)
    else Logged(head.value)
  }

  /** Whether an iteration's outcome recorded its message in the counters. */
  predicate Recorded(r: LoggerOutcome) {
    r.Logged? || (r.Interrupted? && r.counted)
  }

  /** One iteration of the logger loop. */
  method Step(state: LoggerState, rx: Channel<FizzBuzzMessage>, crash: Crash) returns (r: LoggerOutcome)
    requires rx.Valid()
    modifies state, rx
    ensures rx.Valid()
    ensures r == Iteration(if old(rx.read) < |old(rx.sent)| then Some(old(rx.sent)[old(rx.read)]) else None,
                           old(rx.peeks), crash)
    ensures Counters(state) == if Recorded(r) then Count(old(Counters(state)), r.message) else old(Counters(state))
    ensures state.messagesLogged == old(state.messagesLogged) + (if r.Logged? then 1 else 0)
    // the read position moves by at most one, and only past a counted or dropped message
    ensures rx.read == old(rx.read) + (if r.Logged? || r.Dropped? then 1 else 0)
    ensures rx.peeks ==
      if r.Logged? || r.Dropped? then 0 else if r.Interrupted? then old(rx.peeks) + 1 else old(rx.peeks)
    ensures state.restartCount == old(state.restartCount)
    ensures rx.sent == old(rx.sent) && rx.closed == old(rx.closed)
    // only a stop between counting and committing can unbalance the counters
    ensures old(Balanced(state)) && !crash.StopsAt(2) ==> Balanced(state)
  {
    if crash.StopsAt(0) {
      return Stopped;
    }
    if rx.IsShowstopper(ShowstopperThreshold) {
      var taken := rx.TryTake();
      return Dropped(taken.value);
    }
    var peeked := rx.TryPeek();
    if peeked.None? {
      return Idle;
    }
    var msg := peeked.value;
    if crash.StopsAt(1) {
      return Interrupted(msg, false);
    }
    match msg {
      case Fizz => state.fizzCount := state.fizzCount + 1;
      case Buzz => state.buzzCount := state.buzzCount + 1;
      case FizzBuzz => state.fizzbuzzCount := state.fizzbuzzCount + 1;
      case Value(_) => state.valueCount := state.valueCount + 1;
    }
    if crash.StopsAt(2) {
      return Interrupted(msg, true);
    }
    var advanced := rx.AdvanceReadIndex(1);
    if advanced > 0 {
      state.messagesLogged := state.messagesLogged + 1;
    }
    r := Logged(msg);
  }

  /**
   * The stage run to its end with no stop: fresh state, the messages already in a
   * closed input channel, a shutdown request, and the loop iterating while it should
   * run. Every message is logged once, in order, and the counters are its tally.
   */
  method RunToEnd(messages: seq<FizzBuzzMessage>) returns (logged: nat, counters: Tally, iterations: nat)
    ensures logged == |messages| && iterations == |messages|
    ensures counters == TallyOf(messages) && Total(counters) == logged
  {
    var rx := new Channel<FizzBuzzMessage>(|messages|);
    rx.TestingSendAll(messages, true);
    var cell := new StateCell<LoggerState>();
    var state := Start(cell);
    iterations := 0;
    var running := ShouldRun(true, rx);
    while running
      invariant rx.Valid() && rx.sent == messages && rx.closed && rx.peeks == 0
      invariant rx.read == iterations == state.messagesLogged
      invariant Counters(state) == TallyOf(messages[..rx.read])
      invariant running == (rx.read < |messages|)
      decreases |messages| - rx.read
    {
      ghost var i := rx.read;
      assert messages[..i + 1][..i] == messages[..i];
      var r := Step(state, rx, Never);
      assert r == Logged(messages[i]);
      iterations := iterations + 1;
      running := ShouldRun(true, rx);
    }
    assert messages[..rx.read] == messages;
    TallyOfTotal(messages);
    logged, counters := state.messagesLogged, Counters(state);
  }

  /** The logger's unit test: a single Fizz, then shutdown; one Fizz is logged. */
  method TestLogger() returns (logged: nat, counters: Tally)
    ensures logged == 1 && counters == Tally(1, 0, 0, 0)
  {
    var iterations;
    logged, counters, iterations := RunToEnd([Fizz]);
  }

  /**
   * Quarantine: a message whose processing fails on every attempt (the body stops after
   * each peek and is restarted) is dropped by the attempt after its seventh peek, uncounted,
   * and the logger moves on to the next message.
   */
  method Quarantine(poison: FizzBuzzMessage, rest: seq<FizzBuzzMessage>)
    returns (attempts: nat, restarts: nat, logged: nat, counters: Tally, remaining: seq<FizzBuzzMessage>)
    ensures attempts == ShowstopperThreshold + 1 && restarts == attempts
    ensures logged == 0 && counters == Tally(0, 0, 0, 0)
    ensures remaining == rest
  {
    var rx := new Channel<FizzBuzzMessage>(1 + |rest|);
    rx.TestingSendAll([poison] + rest, false);
    var cell := new StateCell<LoggerState>();
    var state := Start(cell);
    attempts := 1;
    var r := Step(state, rx, Before(1));
    while !r.Dropped?
      invariant rx.Valid() && rx.sent == [poison] + rest
      invariant cell.slot == Some(state) && fresh(state)
      invariant state.restartCount == attempts <= ShowstopperThreshold + 1
      invariant state.messagesLogged == 0 && Counters(state) == Tally(0, 0, 0, 0)
      invariant r.Dropped? <==> attempts == ShowstopperThreshold + 1
      invariant !r.Dropped? ==> r == Interrupted(poison, false) && rx.read == 0 && rx.peeks == attempts
      invariant r.Dropped? ==> rx.read == 1
      decreases ShowstopperThreshold + 1 - attempts
    {
      state := Start(cell);
      r := Step(state, rx, Before(1));
      attempts := attempts + 1;
    }
    restarts, logged, counters, remaining := state.restartCount, state.messagesLogged, Counters(state), rx.Unread();
  }
}
