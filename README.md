# Robust FizzBuzz pipeline: a Dafny model of its stages

The repository is a four-stage actor pipeline built on the `steady_state` runtime. The
**generator** emits 0, 1, 2, …. The **heartbeat** emits beat numbers and can ask the graph
to shut down after a configured number of beats. The **worker** joins both streams: for
each heartbeat it classifies every buffered generator value as FizzBuzz, Fizz, Buzz or
`Value(v)`, and sends the classifications to the **logger**. The logger counts each
message by variant.

Each stage keeps its counters in a persistent state cell that survives a panic and the
restart that follows. Each stage also follows a *peek-before-commit* discipline: it reads
its input without consuming it, performs the dependent send or effect, and only then
commits its read position and its counters.

This project models one loop iteration of each stage as a Dafny method. The method
mutates a stage-state object and the channel objects it uses. Each method is proved
against a pure specification function of the iteration (`Iteration`). Scenario methods
replay the stages' unit tests and crash/restart sequences against those contracts.

The modules are:
- `Channels`: the channel interface the stages rely on. `Channel<T>` keeps the full
  history `sent`, a commit position `read`, a peek counter for the head, a `closed`
  flag and a `capacity`.
- `StateCells`: the persistent state cell. The first lock materialises the default
  state; every later lock returns the same object.
- `Faults`: where an iteration stops. `Before(k)` stops the iteration just before its
  k-th effect point.
- `Numbering`: the stream 0, 1, 2, … that both sources emit.
- `Worker`, `Logger`, `Generator`, `Heartbeat`: the four stages.

Integers are unbounded `nat`. Waits are no-ops: a step runs even when its input is empty
or its output is full, and takes the source's empty-input and `Blocked` branches.

## Model

| member | source | states |
|---|---|---|
| `Worker.ClassifyByMultiples` | src/actor/worker.rs:15-22 | Classification against plain FizzBuzz. Multiples of 15, 0 included, are FizzBuzz. Other multiples of 3 are Fizz, other multiples of 5 are Buzz. Every other value is `Value(v)` carrying the input itself. Each case holds in both directions. |
| `Worker.MultipleOfIffZeroRemainder` | src/actor/worker.rs:16-19 | For d = 3, 5 and 15, a zero remainder is the same as being d times some natural number. |
| `Worker.FifteenIffThreeAndFive` | src/actor/worker.rs:17 | A value is a multiple of 15 exactly when it is a multiple of both 3 and 5. This is why the `(0, 0)` arm is "multiple of 15". |
| `Worker.ClassifyAll` | src/actor/worker.rs:94-96 | Classifying a stream of values yields one message per value. |
| `Worker.ClassifyAllAt` | src/actor/worker.rs:94-96 | Message i of a classified stream is the classification of value i, so order is kept. |
| `Worker.ClassifyAllAppend` | src/actor/worker.rs:94-111 | Classifying a concatenation is concatenating the classifications. |
| `Worker.Start` | src/actor/worker.rs:51-58 | The first invocation gets fresh zero counters with `restartCount` 1. A later invocation gets the same object with `restartCount` one higher and every other counter untouched. |
| `Worker.ShouldRun` | src/actor/worker.rs:66 | The loop continues unless shutdown is requested and both inputs are closed and drained. In that case the logger channel is closed; otherwise its closed flag is left as it was. |
| `Worker.Accepted` | src/actor/worker.rs:94-113 | How many of the pending messages the logger accepts. It never exceeds the pending count or the free slots. It is 0 when the logger is closed. When not closed it stops short of the pending count only where the logger is full. |
| `Worker.Iteration` | src/actor/worker.rs:74-128 | One iteration's outcome. Nothing is sent without a peeked heartbeat and never more than the logger accepts. The generator is advanced only after a successful send. The heartbeat is taken only when every pending value was sent and committed. A stop never takes the heartbeat. Without a stop, everything accepted is sent, advanced and, when complete, paired with the heartbeat. |
| `Worker.SendClassified` | src/actor/worker.rs:94-113 | The send loop. The logger receives the classifications of the first `successfullySent` values, in order, and `messagesSent` grows by the same amount. The loop stops at the first refusal or at the stop point. The logger's read side and closed flag are untouched. |
| `Worker.Commit` | src/actor/worker.rs:115-128 | The generator advances by exactly the number sent, and `valuesProcessed` grows by the amount advanced. The heartbeat is taken and `heartbeatsProcessed` bumped only when every pending value was sent and at least one was pending. Stops before the advance or the take are modelled. |
| `Worker.Step` | src/actor/worker.rs:68-129 | One iteration equals `Iteration` of the pre-state. The logger's history grows by the classifications of the first `r.sent` buffered generator values. Restart safety: before the first successful send no cursor and no counter moves. Cursors, peek counters and counters change exactly as the outcome says; nothing else changes. |
| `Worker.TestWorker` | src/actor/worker.rs:143-175 | Inputs 0..5 and one heartbeat, both closed, then a shutdown. The logger receives `[FizzBuzz, Value(1), Value(2), Fizz, Value(4), Buzz]`, one heartbeat and six values are processed, and the stage stops. |
| `Worker.ClassifyFirstSix` | src/actor/worker.rs:168-173 | The classifications of 0..5 are the six messages the test expects. |
| `Worker.FirstAttempt` | src/actor/worker.rs:94-128 | An iteration that stops, with enough room, commits all pending values or none. It leaves the heartbeat unread after a commit only when it stopped just before the take. |
| `Worker.SecondAttempt` | src/actor/worker.rs:94-128 | An iteration that runs to its end, with enough room, sends and commits everything pending. It takes the heartbeat when there was one and something was pending. |
| `Worker.ResentPrefix` | src/actor/worker.rs:94-119 | After a partial first attempt and a complete second one, the logger holds at most a re-sent prefix followed by the whole classified stream. |
| `Worker.FirstRun` | src/actor/worker.rs:51-128 | Set-up of the restart scenario: fresh channels, a first start, and one iteration that stops at the given point. The state relates exactly to that iteration's outcome. |
| `Worker.CrashAndRestart` | src/actor/worker.rs:51-128 | No loss across a restart. Whatever the stop point, after a restart and a full second iteration the logger holds the classified stream behind at most a duplicated prefix. Every value is committed exactly once, the restart count is 2, and the heartbeat is consumed unless nothing was pending or the stop fell just before the take. |
| `Channels.Channel.TrySend` | src/actor/generator.rs:74-89 | `Blocked` with the message handed back exactly when the channel is closed or full. Otherwise the message is appended. |
| `Channels.Channel.TryPeek` | src/actor/logger.rs:80 | Returns the head without consuming it and counts the peek towards the showstopper check. Returns `None` on an empty channel. |
| `Channels.Channel.TryPeekIter` | src/actor/worker.rs:89-91 | Returns all buffered messages, oldest first, and changes nothing. |
| `Channels.Channel.AdvanceReadIndex` | src/actor/worker.rs:116-119 | Commits `min(n, buffered)` messages and reports that number. The peek counter resets when something was committed. |
| `Channels.Channel.TryTake` | src/actor/logger.rs:75 | Removes and returns the head, if there is one. |
| `Channels.Channel.TestingSendAll` | src/actor/worker.rs:160-161 | The test producer appends all items in order and closes the channel when asked. |
| `Channels.Channel.MarkClosed` | src/actor/generator.rs:51 | Closes the channel and reports success; the contents are untouched. |
| `StateCells.StateCell.Lock` | src/actor/worker.rs:51-56 | The first lock yields the default. Every later lock yields the same object. |
| `Numbering.Naturals` | src/actor/generator.rs:71-78 | The stream of the first n naturals: length n, element i is i. |
| `Numbering.NaturalsPrefix` | src/actor/generator.rs:122 | A prefix of the naturals stream is the shorter stream, so the first two values are 0, 1. |
| `Generator.Start` | src/actor/generator.rs:39-43 | The first lock gives zero counters; later locks return the persisted state unchanged. |
| `Generator.ShouldRun` | src/actor/generator.rs:51 | The loop continues until shutdown is requested; on shutdown the output is marked closed. |
| `Generator.Iteration` | src/actor/generator.rs:58-90 | A value is sent exactly when the iteration is not stopped and the channel is neither full nor closed. A full channel is never sent to. The value sent is always the next value. |
| `Generator.Step` | src/actor/generator.rs:53-90 | The panic counter counts every iteration that gets past its start, sent or not. The channel receives `value` on success, and only then do `value` and `messagesSent` each grow by one. The stream invariant (`value == messagesSent`, the output holding 0..value-1) is kept by every iteration, stopped or not. |
| `Generator.TestGenerator` | src/actor/generator.rs:106-124 | From fresh state, after some iterations and a shutdown, the output holds 0, 1, … up to its capacity and is closed. The first two values are 0 and 1. |
| `Generator.CrashAndRestart` | src/actor/generator.rs:39-90 | An iteration stopped at any point, a restart and two more iterations leave the output holding exactly 0..value-1, with no value skipped or repeated. |
| `Heartbeat.Start` | src/actor/heartbeat.rs:42-49 | The first invocation has `restartCount` 1 and zero counts. A later one has the same object with `restartCount` one higher and the counts untouched. |
| `Heartbeat.ShouldRun` | src/actor/heartbeat.rs:57 | The loop continues until shutdown is requested; on shutdown the output is marked closed. |
| `Heartbeat.Iteration` | src/actor/heartbeat.rs:64-92 | A beat is sent exactly when the iteration is not stopped and the channel accepts it, and the beat is the current count. Shutdown is requested exactly when the send brings the count to `beats`, so never when `beats` is 0. |
| `Heartbeat.Step` | src/actor/heartbeat.rs:59-92 | The channel receives the beat on success, and only then do `count` and `beatsSent` grow by one. On refusal nothing changes. The stream invariant (`count == beatsSent`, the output holding 0..count-1) is kept. |
| `Heartbeat.RequestsAtMostOnce` | src/actor/heartbeat.rs:83-86 | Counting the `requestsShutdown` flags of `Iteration` over a run of accepted sends from count `start`: the run requests shutdown exactly once if it brings the count up to `beats`, and otherwise never. With `beats` 0 it never requests. |
| `Heartbeat.CountRequests` | src/actor/heartbeat.rs:76-86 | The stage's own `Step` calls, n of them from fresh state with room for every beat: they send 0..n-1 and request shutdown once if `beats` is among 1..n, and otherwise never. |
| `Heartbeat.TestHeartbeat` | src/actor/heartbeat.rs:110-130 | With `beats` 0, the stage never requests a shutdown. The output holds 0, 1, … and begins with 0, 1. |
| `Heartbeat.RunUntilShutdown` | src/actor/heartbeat.rs:76-86 | With `beats` at least 1 and room for them, the stage sends exactly beats 0..beats-1. The last of them requests the shutdown. |
| `Heartbeat.CrashAndRestart` | src/actor/heartbeat.rs:42-92 | A stopped iteration, a restart and two more iterations leave exactly 0..count-1 in the output, with `restartCount` 2. |
| `Logger.Count` | src/actor/logger.rs:84-101 | Recording one message grows exactly one counter, the one of the message's variant, by one. |
| `Logger.TallyOfTotal` | src/actor/logger.rs:84-111 | Recording a stream from zero gives counters that sum to its length. |
| `Logger.TallyOfCounts` | src/actor/logger.rs:85-96 | The fizz, buzz and fizzbuzz counters are the numbers of occurrences of their messages. |
| `Logger.TallyOfValues` | src/actor/logger.rs:97-99 | The value counter takes every message that is none of the three. |
| `Logger.Start` | src/actor/logger.rs:40-49 | The first invocation has `restartCount` 1 and zero counters. A later one has the same object with `restartCount` one higher and the counters untouched. |
| `Logger.ShouldRun` | src/actor/logger.rs:58 | The loop continues unless shutdown is requested and the input is closed and drained. Nothing changes. |
| `Logger.Iteration` | src/actor/logger.rs:59-112 | A head that has been peeked 7 or more times is dropped. Otherwise the head is logged unless the iteration stops. Nothing happens on an empty input. |
| `Logger.Step` | src/actor/logger.rs:59-112 | A dropped showstopper changes no counter and is taken. A logged message grows exactly its variant's counter and `messagesLogged`, and advances the read position by one. A stop after the peek leaves the message unread with one more peek. The counter/total balance is kept except by a stop between counting and committing. |
| `Logger.RunToEnd` | src/actor/logger.rs:58-113 | With all messages in a closed input and no stop, the loop runs once per message and then ends. Every message is logged, and the counters are the tally of the stream and sum to `messagesLogged`. |
| `Logger.TestLogger` | src/actor/logger.rs:123-146 | A single Fizz is logged: `messagesLogged` 1, one Fizz, no other count. |
| `Logger.Quarantine` | src/actor/logger.rs:72-77 | A message whose processing fails on every attempt is dropped by the eighth invocation, after seven peeks. It is never counted, and the remaining messages stay in order. |

## Left out

- The `steady_state` runtime is not part of this model. That covers scheduling, panic detection, automatic restart, telemetry, `into_monitor`/`into_spotlight` and the `simulated_behavior` branches. A restart is written out as another call of the stage's `Start`.
- The channel's implementation lives in that crate. `Channels.Channel` states the behaviour the stages rely on. Three choices are assumptions, because the crate is not visible:
  - the showstopper test is "peeked at least `threshold` times";
  - `TryPeekIter` does not count peeks;
  - an advance or a take resets the peek count.
- Concurrency: the model is sequential. Within one iteration no other stage touches the channel, so `TrySend` is refused only when the channel is closed or full.
- Waits (`wait_avail`, `wait_vacant`, `wait_periodic`) and the timer rate: a wait may return early on shutdown, so it is modelled as a no-op. The steps handle an empty input or a full output through their own branches instead of requiring availability.
- The demonstration panics (`panic_counter == 13`, `heartbeats_processed == 5`, `count == 7`, `messages_logged == 3`, each on the first run): the trigger conditions are left out. Their sites are effect points where `Faults.Crash` may stop an iteration.
- Logging macros and the log text. The logger test's `"Msg Fizz"` log line appears as its Fizz counter.
- `cmd.args` and `src/main.rs` (argument parsing, graph wiring, thread assignment): the heartbeat's `beats` is a parameter of its step.
- `request_shutdown` and the graph's stop propagation: the heartbeat reports the request as a flag in its outcome, and each `ShouldRun` takes "shutdown requested" as a parameter.
- The `#[repr(u64)]` layout and the enum discriminants (15, 3, 5): they carry no behaviour.
- 64-bit arithmetic: counters and values are unbounded naturals, so u64 overflow is left out.
- The worker gathers `processed_values` by pushing each peeked value onto a vector. The model takes the peeked sequence whole.
- `Worker.ShouldRun`: the `i!` wrapper around each closed-and-empty test is read as the plain test.
- The channel capacity the unit tests build is not given in the source. The scenario methods take the capacity as a parameter, with the least that each test needs.
- The logger counts a message before it commits it. A stop between the two, which the source never triggers, would count the message again after the restart. `Logger.Step` states this, and its balance invariant excludes that stop point.
- The worker applies no showstopper check to either input (src/actor/worker.rs:81-128), so a poison value or heartbeat is never dropped there.
- The logger's showstopper drop changes no counter (src/actor/logger.rs:73-77); a dropped message leaves no trace in the state.
