/**
 * The generator stage: emits 0, 1, 2, ... into its output channel, one value per
 * loop iteration, and advances its persistent counter only after the channel has
 * accepted the value, so that a restart neither skips nor repeats a value.
 */
module Generator {
  import opened Wrappers
  import opened Faults
  import opened Channels
  import opened StateCells
  import opened Numbering

  /** The generator's persistent state. */
  class GeneratorState {
    /** The next value to send. */
    var value: nat
    var messagesSent: nat
    /** Loop iterations started, over all invocations; drives the demonstration panic. */
    var panicCounter: nat

    /** The default the state cell materialises on the first lock. */
    constructor ()
      ensures value == 0 && messagesSent == 0 && panicCounter == 0
    {
      value, messagesSent, panicCounter := 0, 0, 0;
    }
  }

  /**
   * The stream invariant: the next value equals the number of values sent, and the
   * output channel has received exactly 0, 1, ..., value - 1.
   */
  ghost predicate Streamed(state: GeneratorState, output: Channel<nat>)
    reads state, output
  {
    state.value == state.messagesSent && output.sent == Naturals(state.value)
  }

  /** Entry to the stage body: lock the persistent state, materialising the default on first use. */
  method Start(cell: StateCell<GeneratorState>) returns (state: GeneratorState)
    modifies cell
    ensures cell.slot == Some(state)
    ensures old(cell.slot).None? ==>
      fresh(state) && state.value == 0 && state.messagesSent == 0 && state.panicCounter == 0
    ensures old(cell.slot).Some? ==> state == old(cell.slot.value)
  {
    var fallback := new GeneratorState();
    state := cell.Lock(fallback);
  }

  /**
   * The loop condition: the generator runs until shutdown is requested, and then
   * closes its output channel, which always agrees to stop.
   */
  method ShouldRun(shutdownRequested: bool, output: Channel<nat>) returns (running: bool)
    requires output.Valid()
    modifies output
    ensures output.Valid()
    ensures running == !shutdownRequested
    ensures output.closed == (old(output.closed) || shutdownRequested)
    ensures output.sent == old(output.sent) && output.read == old(output.read) && output.peeks == old(output.peeks)
  {
    if !shutdownRequested {
      return true;
    }
    var closed := output.MarkClosed();
    running := !closed;
  }

  /** What one iteration did. */
  datatype GeneratorOutcome =
    | Stopped          // the iteration stopped before reaching the channel
    | Full             // the channel had no room; nothing was attempted
    | Refused          // the channel refused the value (it was closed)
    | Sent(value: nat) // the channel accepted `value`

  /**
   * What one iteration does, given the output channel's fullness and closed flag.
   * Effect point 0 is the start of the iteration and point 1, after the iteration
   * has been counted, is the site of the demonstration panic.
   */
  function Iteration(next: nat, full: bool, closed: bool, crash: Crash): (r: GeneratorOutcome)
    // nothing is sent when the iteration stops, or when the channel is full or closed
    ensures r.Sent? <==> !crash.StopsAt(0) && !crash.StopsAt(1) && !full && !closed
    // the value sent is always the next one in the stream
    ensures r.Sent? ==> r.value == next
    ensures r.Full? ==> full
    ensures r.Refused? ==> closed && !full
  {
    if crash.StopsAt(0) || crash.StopsAt(1) then Stopped
    else if full then Full
    else if closed then Refused
    else Sent(next)
  }

  /**
   * One iteration of the generator loop. The panic counter counts every iteration
   * that gets past its start; value and message count move only on a successful send.
   */
  method Step(state: GeneratorState, output: Channel<nat>, crash: Crash) returns (r: GeneratorOutcome)
    requires output.Valid()
    modifies state, output
    ensures output.Valid()
    ensures r == Iteration(old(state.value), old(output.IsFull()), old(output.closed), crash)
    ensures state.panicCounter == old(state.panicCounter) + (if crash.StopsAt(0) then 0 else 1)
    ensures output.sent == old(output.sent) + (if r.Sent? then [r.value] else [])
    ensures state.value == old(state.value) + (if r.Sent? then 1 else 0)
    ensures state.messagesSent == old(state.messagesSent) + (if r.Sent? then 1 else 0)
    ensures output.read == old(output.read) && output.peeks == old(output.peeks)
    ensures output.closed == old(output.closed)
    // every iteration, stopped or not, keeps the stream invariant
    ensures old(Streamed(state, output)) ==> Streamed(state, output)
  {
    if crash.StopsAt(0) {
      return Stopped;
    }
    state.panicCounter := state.panicCounter + 1;
    if crash.StopsAt(1) {
      return Stopped;
    }
    if output.IsFull() {
      return Full;
    }
    var messageToSend := state.value;
    var outcome := output.TrySend(messageToSend);
    if outcome.Blocked? {
      return Refused;
    }
    state.value := state.value + 1;
    state.messagesSent := state.messagesSent + 1;
    r := Sent(messageToSend);
  }

  /**
   * The generator's unit test: a fresh state, some number of iterations before the
   * test requests shutdown (at least two), then the shutdown. Whatever the channel's
   * capacity (at least two), it holds 0, 1, ... and is closed, so the first two values
   * taken are 0 and 1.
   */
  method TestGenerator(capacity: nat, iterations: nat) returns (received: seq<nat>, closed: bool)
    requires 2 <= capacity && 2 <= iterations
    ensures received == Naturals(Min(iterations, capacity))
    ensures received[..2] == [0, 1] && closed
  {
    var output := new Channel<nat>(capacity);
    var cell := new StateCell<GeneratorState>();
    var state := Start(cell);
    var i := 0;
    while i < iterations
      invariant 0 <= i <= iterations
      invariant output.Valid() && !output.closed && output.read == 0
      invariant Streamed(state, output) && state.value == Min(i, capacity)
    {
      var _ := Step(state, output, Never);
      i := i + 1;
    }
    var running := ShouldRun(true, output);
    received, closed := output.Unread(), output.closed;
    NaturalsPrefix(Min(iterations, capacity), 2);
  }

  /**
   * No value is skipped or repeated across a restart: a first iteration stops at
   * `point`, the stage is restarted on the same state, and two more iterations run.
   * The channel holds a prefix of 0, 1, 2, ... of the length the state reports.
   */
  method CrashAndRestart(point: nat, capacity: nat) returns (received: seq<nat>, value: nat, iterations: nat)
    requires 3 <= capacity
    ensures received == Naturals(value)
    ensures value == if point == 0 || point == 1 then 2 else 3
    ensures iterations == if point == 0 then 2 else 3
  {
    var output := new Channel<nat>(capacity);
    var cell := new StateCell<GeneratorState>();
    var state := Start(cell);
    var first := Step(state, output, Before(point));
    state := Start(cell);
    var second := Step(state, output, Never);
    var third := Step(state, output, Never);
    received, value, iterations := output.Unread(), state.value, state.panicCounter;
  }
}
