/**
 * The heartbeat stage: emits the beat numbers 0, 1, 2, ... into its output channel,
 * advancing its persistent count only after the channel accepted the beat, and
 * requests a graph shutdown once the configured number of beats has been sent.
 */
module Heartbeat {
  import opened Wrappers
  import opened Faults
  import opened Channels
  import opened StateCells
  import opened Numbering

  /** The heartbeat's persistent state. */
  class HeartbeatState {
    /** The next beat number. */
    var count: nat
    var beatsSent: nat
    var restartCount: nat

    /** The default the state cell materialises on the first lock. */
    constructor ()
      ensures count == 0 && beatsSent == 0 && restartCount == 0
    {
      count, beatsSent, restartCount := 0, 0, 0;
    }
  }

  /**
   * The stream invariant: the count equals the number of beats sent, and the output
   * channel has received exactly the beats 0, 1, ..., count - 1.
   */
  ghost predicate Streamed(state: HeartbeatState, output: Channel<nat>)
    reads state, output
  {
    state.count == state.beatsSent && output.sent == Naturals(state.count)
  }

  /**
   * Entry to the stage body: lock the persistent state (materialising the default on
   * the first invocation) and count this invocation as a (re)start.
   */
  method Start(cell: StateCell<HeartbeatState>) returns (state: HeartbeatState)
    modifies cell, cell.Held()
    ensures cell.slot == Some(state)
    ensures old(cell.slot).None? ==>
      fresh(state) && state.restartCount == 1 && state.count == 0 && state.beatsSent == 0
    ensures old(cell.slot).Some? ==>
      state == old(cell.slot.value) &&
      state.restartCount == old(state.restartCount) + 1 &&
      state.count == old(state.count) && state.beatsSent == old(state.beatsSent)
  {
    var fallback := new HeartbeatState();
    state := cell.Lock(fallback);
    state.restartCount := state.restartCount + 1;
  }

  /**
   * The loop condition: the heartbeat runs until shutdown is requested, and then
   * closes its output channel, which always agrees to stop.
   */
  method ShouldRun(shutdownRequested: bool, output: Channel<nat>) returns (running: bool)
    requires output.Valid()
    modifies output
    ensures output.Valid()
    ensures running == !shutdownRequested
    ensures output.closed == (old(output.closed) || shutdownRequested)
    ensures output.sent == old(output.sent) && output.read == old(output.read) && output.peeks == old(output.peeks)
  {
    if !shutdownRequested {
      return true;
    }
    var closed := output.MarkClosed();
    running := !closed;
  }

  /** What one iteration did. */
  datatype HeartbeatOutcome =
    | Stopped                                    // the iteration stopped before the send
    | Refused                                    // the channel refused the beat (full or closed)
    | Sent(beat: nat, requestsShutdown: bool)    // the channel accepted `beat`

  /**
   * What one iteration does, given the next beat number, the configured number of
   * beats and the channel's fullness and closed flag. Effect point 0, the start of
   * the iteration after the waits, is the site of the demonstration panic.
   */
  function Iteration(next: nat, beats: nat, full: bool, closed: bool, crash: Crash): (r: HeartbeatOutcome)
    ensures r.Sent? <==> !crash.StopsAt(0) && !full && !closed
    // the beat sent is always the next one in the stream
    ensures r.Sent? ==> r.beat == next
    // shutdown is requested exactly when the beat just sent brings the count to `beats`,
    // so never when `beats` is 0
    ensures r.Sent? ==> (r.requestsShutdown <==> beats == next + 1)
    ensures r.Sent? && beats == 0 ==> !r.requestsShutdown
  {
    if crash.StopsAt(0) then Stopped
    else if full || closed then Refused
    else Sent(next, beats == next + 1)
  }

  /** One iteration of the heartbeat loop; count and beats sent move only on a successful send. */
  method Step(state: HeartbeatState, output: Channel<nat>, beats: nat, crash: Crash)
    returns (r: HeartbeatOutcome)
    requires output.Valid()
    modifies state, output
    ensures output.Valid()
    ensures r == Iteration(old(state.count), beats, old(output.IsFull()), old(output.closed), crash)
    ensures output.sent == old(output.sent) + (if r.Sent? then [r.beat] else [])
    ensures state.count == old(state.count) + (if r.Sent? then 1 else 0)
    ensures state.beatsSent == old(state.beatsSent) + (if r.Sent? then 1 else 0)
    ensures state.restartCount == old(state.restartCount)
    ensures output.read == old(output.read) && output.peeks == old(output.peeks)
    ensures output.closed == old(output.closed)
    // every iteration, stopped or not, keeps the stream invariant
    ensures old(Streamed(state, output)) ==> Streamed(state, output)
  {
    if crash.StopsAt(0) {
      return Stopped;
    }
    var beatValue := state.count;
    var outcome := output.TrySend(beatValue);
    if outcome.Blocked? {
      return Refused;
    }
    state.count := state.count + 1;
    state.beatsSent := state.beatsSent + 1;
    r := Sent(beatValue, beats == state.count);
  }

  /**
   * The number of shutdown requests the iterations make over a run of `n` accepted
   * sends starting from count `start`.
   */
  function Requests(beats: nat, start: nat, n: nat): nat {
    if n == 0 then 0 else
      var last := Iteration(start + n - 1, beats, false, false, Never);
      Requests(beats, start, n - 1) + (if last.requestsShutdown then 1 else 0)
  }

  /**
   * A run of accepted sends requests shutdown at most once: exactly once when it
   * carries the count up to `beats`, and never when `beats` is 0.
   */
  lemma {:induction false} RequestsAtMostOnce(beats: nat, start: nat, n: nat)
    ensures Requests(beats, start, n) == if start < beats <= start + n then 1 else 0
  {
    if n > 0 {
      RequestsAtMostOnce(beats, start, n - 1);
    }
  }

  /**
   * The stage's own requests over `n` iterations from fresh state, with room for every
   * beat: it asks for shutdown once if `beats` is among 1..n, and otherwise never.
   */
  method CountRequests(beats: nat, n: nat) returns (requests: nat, received: seq<nat>)
    ensures requests == if 0 < beats <= n then 1 else 0
    ensures received == Naturals(n)
  {
    var output := new Channel<nat>(n);
    var cell := new StateCell<HeartbeatState>();
    var state := Start(cell);
    requests := 0;
    var i := 0;
    while i < n
      invariant 0 <= i <= n
      invariant output.Valid() && !output.closed && output.read == 0
      invariant Streamed(state, output) && state.count == i
      invariant requests == Requests(beats, 0, i)
    {
      var r := Step(state, output, beats, Never);
      if r.requestsShutdown {
        requests := requests + 1;
      }
      i := i + 1;
    }
    RequestsAtMostOnce(beats, 0, n);
    received := output.Unread();
  }

  /**
   * The heartbeat's unit test: zero configured beats, so the stage never asks for a
   * shutdown by itself; some iterations (at least two) until the test requests it.
   * The channel holds 0, 1, ... and is closed, so the first two beats taken are 0, 1.
   */
  method TestHeartbeat(capacity: nat, iterations: nat)
    returns (received: seq<nat>, requested: bool, closed: bool)
    requires 2 <= capacity && 2 <= iterations
    ensures received == Naturals(Min(iterations, capacity))
    ensures received[..2] == [0, 1] && !requested && closed
  {
    var output := new Channel<nat>(capacity);
    var cell := new StateCell<HeartbeatState>();
    var state := Start(cell);
    var i := 0;
    requested := false;
    while i < iterations
      invariant 0 <= i <= iterations
      invariant output.Valid() && !output.closed && output.read == 0
      invariant Streamed(state, output) && state.count == Min(i, capacity)
      invariant !requested
    {
      var r := Step(state, output, 0, Never);
      requested := r.Sent? && r.requestsShutdown;
      i := i + 1;
    }
    var running := ShouldRun(true, output);
    received, closed := output.Unread(), output.closed;
    NaturalsPrefix(Min(iterations, capacity), 2);
  }

  /**
   * With `beats` configured and room for all of them, the heartbeat sends beats until
   * one of them requests the shutdown; that is the `beats`-th one.
   */
  method RunUntilShutdown(beats: nat, capacity: nat) returns (received: seq<nat>, steps: nat)
    requires 1 <= beats <= capacity
    ensures received == Naturals(beats) && steps == beats
  {
    var output := new Channel<nat>(capacity);
    var cell := new StateCell<HeartbeatState>();
    var state := Start(cell);
    var requested := false;
    steps := 0;
    while !requested
      invariant output.Valid() && !output.closed && output.read == 0
      invariant Streamed(state, output) && state.count == steps <= beats
      invariant requested <==> steps == beats
      decreases beats - steps
    {
      var r := Step(state, output, beats, Never);
      requested := r.requestsShutdown;
      steps := steps + 1;
    }
    received := output.Unread();
  }

  /**
   * No beat is skipped or repeated across a restart: a first iteration stops at
   * `point`, the stage is restarted on the same state, and two more iterations run.
   */
  method CrashAndRestart(point: nat, capacity: nat) returns (received: seq<nat>, count: nat, restarts: nat)
    requires 3 <= capacity
    ensures received == Naturals(count)
    ensures count == if point == 0 then 2 else 3
    ensures restarts == 2
  {
    var output := new Channel<nat>(capacity);
    var cell := new StateCell<HeartbeatState>();
    var state := Start(cell);
    var first := Step(state, output, 0, Before(point));
    state := Start(cell);
    var second := Step(state, output, 0, Never);
    var third := Step(state, output, 0, Never);
    received, count, restarts := output.Unread(), state.count, state.restartCount;
  }
}
