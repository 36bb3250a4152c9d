/**
 * The bounded single-producer/single-consumer channel the stages talk to. The
 * channel itself belongs to the runtime crate; this is the abstract interface the
 * stages rely on, with the behaviour each operation promises.
 *
 * The model keeps the whole history of the channel: `sent` is every message a
 * producer ever pushed, in order, and `read` is the commit position of the
 * consumer, so `sent[..read]` is consumed and `sent[read..]` is still buffered.
 * Peeking reads at `read` without moving it; only an advance or a take commits.
 */
module Channels {
  import opened Wrappers

  /** Result of `TrySend`: the message is handed back when the channel refuses it. */
  datatype SendOutcome<T> = Success | Blocked(message: T)

  function Min(a: nat, b: nat): nat {
    if a <= b then a else b
  }

  class Channel<T> {
    /** Every message sent into the channel so far, oldest first. */
    var sent: seq<T>
    /** Commit position of the consumer. */
    var read: nat
    /** How many times the message at `read` has been peeked since `read` last moved. */
    var peeks: nat
    /** Set by the producer side; no send succeeds afterwards. */
    var closed: bool
    /** Most messages the channel buffers at once. */
    const capacity: nat

    ghost predicate Valid()
      reads this
    {
      read <= |sent| && |sent| - read <= capacity
    }

    /** The buffered messages, oldest first. */
    function Unread(): seq<T>
      reads this
      requires Valid()
    {
      sent[read..]
    }

    /** Free slots. */
    function Vacancy(): nat
      reads this
      requires Valid()
    {
      capacity - (|sent| - read)
    }

    predicate IsFull()
      reads this
      requires Valid()
    {
      |sent| - read == capacity
    }

    /** The consumer's termination condition: nothing buffered and nothing more to come. */
    predicate IsClosedAndEmpty()
      reads this
      requires Valid()
    {
      closed && read == |sent|
    }

    /** Whether the buffered head has been peeked at least `threshold` times without being committed. */
    predicate IsShowstopper(threshold: nat)
      reads this
      requires Valid()
    {
      read < |sent| && peeks >= threshold
    }

    constructor (capacity: nat)
      ensures Valid() && this.capacity == capacity
      ensures sent == [] && read == 0 && peeks == 0 && !closed
    {
      this.capacity := capacity;
      sent, read, peeks, closed := [], 0, 0, false;
    }

    /** Appends `message` unless the channel is closed or full. */
    method TrySend(message: T) returns (outcome: SendOutcome<T>)
      requires Valid()
      modifies this
      ensures Valid()
      ensures outcome == if old(closed) || old(IsFull()) then Blocked(message) else Success
      ensures sent == if outcome.Success? then old(sent) + [message] else old(sent)
      ensures read == old(read) && peeks == old(peeks) && closed == old(closed)
    {
      if closed || |sent| - read == capacity {
        outcome := Blocked(message);
      } else {
        sent := sent + [message];
        outcome := Success;
      }
    }

    /** The head without consuming it; each successful peek counts towards the showstopper check. */
    method TryPeek() returns (head: Option<T>)
      requires Valid()
      modifies this
      ensures Valid()
      ensures head == if old(read) < |old(sent)| then Some(old(sent)[old(read)]) else None
      ensures peeks == if head.Some? then old(peeks) + 1 else old(peeks)
      ensures sent == old(sent) && read == old(read) && closed == old(closed)
    {
      if read < |sent| {
        head := Some(sent[read]);
        peeks := peeks + 1;
      } else {
        head := None;
      }
    }

    /** All buffered messages, oldest first, without consuming any of them. */
    method TryPeekIter() returns (items: seq<T>)
      requires Valid()
      ensures items == sent[read..]
    {
      items := sent[read..];
    }

    /** Commits up to `n` buffered messages; reports how many were committed. */
    method AdvanceReadIndex(n: nat) returns (advanced: nat)
      requires Valid()
      modifies this
      ensures Valid()
      ensures advanced == Min(n, |old(sent)| - old(read))
      ensures read == old(read) + advanced
      ensures peeks == if advanced > 0 then 0 else old(peeks)
      ensures sent == old(sent) && closed == old(closed)
    {
      advanced := Min(n, |sent| - read);
      read := read + advanced;
      if advanced > 0 {
        peeks := 0;
      }
    }

    /** Removes and returns the head, if there is one. */
    method TryTake() returns (head: Option<T>)
      requires Valid()
      modifies this
      ensures Valid()
      ensures head == if old(read) < |old(sent)| then Some(old(sent)[old(read)]) else None
      ensures read == if head.Some? then old(read) + 1 else old(read)
      ensures peeks == if head.Some? then 0 else old(peeks)
      ensures sent == old(sent) && closed == old(closed)
    {
      if read < |sent| {
        head := Some(sent[read]);
        read, peeks := read + 1, 0;
      } else {
        head := None;
      }
    }

    /**
     * The test harness's bulk producer: pushes `items` in order and, if `close` is set,
     * closes the channel afterwards.
     */
    method TestingSendAll(items: seq<T>, close: bool)
      requires Valid() && !closed && |items| <= Vacancy()
      modifies this
      ensures Valid()
      ensures sent == old(sent) + items && closed == close
      ensures read == old(read) && peeks == old(peeks)
    {
      var i := 0;
      while i < |items|
        invariant 0 <= i <= |items|
        invariant Valid() && !closed
        invariant sent == old(sent) + items[..i]
        invariant read == old(read) && peeks == old(peeks)
      {
        var outcome := TrySend(items[i]);
        assert items[..i + 1] == items[..i] + [items[i]];
        i := i + 1;
      }
      assert items[..i] == items;
      if close {
        var _ := MarkClosed();
      }
    }

    /** Closes the channel for good; closing twice is harmless. Always reports success. */
    method MarkClosed() returns (done: bool)
      requires Valid()
      modifies this
      ensures Valid()
      ensures done && closed
      ensures sent == old(sent) && read == old(read) && peeks == old(peeks)
    {
      closed := true;
      done := true;
    }
  }
}
