# stream-demux: consumer cursor and name demultiplexer in Dafny

This project models the core of SocketCluster's stream-demux: one ordered,
append-only log of packets, read by many consumers. Each consumer has its own
cursor into the log. It filters the log by stream name or by consumer id and
keeps a backpressure counter. It can be destroyed in three ways: by a terminal
packet, by a kill or timeout, or by an early return.

The two core files are two different revisions of the library, so they are
modelled separately, each over its own abstract log:

- `stream-consumer.js` (class `StreamConsumer`), in two modules.
  - `ConsumerLogic` gives every operation as a transition function on a `State`
    value (backpressure, cursor, alive, pending kill, stored wake-up, armed
    timer, waiting call, registration). It also holds the lemmas about the log
    view a consumer sees.
  - `Consumer` is the class itself. Its fields are the source's fields, and every
    method is proved to perform its `ConsumerLogic` transition. The shared main
    stream is a `MainStream` object holding the log (`seq<LogNode>`) and the
    registry (a set of ids). A cursor is an index into the log, so "no successor"
    means `cursor + 1 == |log|`.
- `index.js` (class `StreamDemux`), in two modules.
  - `DemuxLogic` states the name filter on values: `Scan` is one filtered `next`,
    `Selected` / `Deliveries` are what an iterator yields over a stretch of the
    main stream.
  - `Demux` holds the classes `StreamDemux`, `FilteredIterator` (the object
    returned by `createAsyncIterator`) and `DemuxedAsyncIterableStream`. The main
    stream is a `seq<Entry>`: a named packet, or `End` for `closeAll()`.

Asynchronous suspension is made explicit. A `next()` that would `await` returns
`Pending` and stores a wake-up. Once that wake-up has fired (through `Write` or
`Kill`), `Resume()` runs the continuation, starting at the kill check. A timeout
is the external event `Timeout()`. The outer `while (true)` of `next()` only goes
round again through a wait, so each pass ends in `Pending` or a result.

The model follows the code as written, including these behaviours:
- `next()` first checks whether the cursor has a successor and only then checks
  for a pending kill (lines 102-116). A consumer killed while it stands at the
  tail therefore waits instead of returning the kill packet
  (`ConsumerLogic.KillHonouredAfterWait`).
- `next()` calls `setConsumer` on every call (line 99). A destroyed consumer that
  is asked for more is put back in the registry and keeps reading the log. After
  `return()` this ends in a `TypeError`, because the cursor is gone.
- Backpressure is an unbounded integer, and `releaseBackpressure` decrements it
  without a lower bound. `write` counts a non-`done` packet only when its
  `value.stream` is the consumer's own stream, and counts every `done` packet.
  The skip loop, however, also stops at a node addressed to the consumer's id
  on another stream. Stepping onto such a node takes the counter below zero
  (`ConsumerLogic.BackpressureCanGoNegative`). Where `write` and the skip loop
  agree, the counter equals the number of nodes the consumer will still stop
  at, and a call that waits finds it at 0 (`ConsumerLogic.NextKeepsCount`,
  `ConsumerLogic.ResumeKeepsCount`, `ConsumerLogic.AppendWriteKeepsCount`).
- A `timeout` of `null` is hidden by `getStats` (line 19 tests `!= null`), but
  it still arms a zero-delay timer in `_waitForNextItem` (line 81 tests
  `!== undefined`). The model keeps the two apart (`TimeoutArg`).
- A non-`done` node whose value is undefined is never skipped, and stepping onto
  it throws. A main-stream close whose value is defined and truthy is skipped
  by every consumer, even though `write` counted it
  (`ConsumerLogic.TruthyCloseIsSkipped`).

## Model

| member | source | states |
|---|---|---|
| `Consumer.StreamConsumer.constructor` | stream-consumer.js:2-11 | a new consumer has the initial state (alive, backpressure 0, cursor on the start node, no kill, no wake-up, no timer); its id is added to the registry; the log is unchanged |
| `ConsumerLogic.Initial` | stream-consumer.js:2-11 | the initial state is well formed, alive, registered, has zero backpressure and its cursor on the start node |
| `Consumer.StreamConsumer.GetStats` | stream-consumer.js:13-23 | the stats carry the id, the backpressure and the stream name; `timeout` is present exactly when it is a delay (neither `undefined` nor `null`), and then it is that delay |
| `Consumer.StreamConsumer.ResetBackpressure` | stream-consumer.js:25-27 | backpressure becomes 0 and nothing else changes |
| `Consumer.StreamConsumer.ApplyBackpressure` | stream-consumer.js:29-31 | backpressure grows by exactly 1 and nothing else changes |
| `Consumer.StreamConsumer.ReleaseBackpressure` | stream-consumer.js:33-35 | backpressure drops by exactly 1 and nothing else changes |
| `Consumer.StreamConsumer.GetBackpressure` | stream-consumer.js:37-39 | returns the backpressure of the consumer's state |
| `ConsumerLogic.WriteFilter` | stream-consumer.js:46-47 | a `done` packet is always accepted; a packet is ignored exactly when it is not `done` and its `value.stream` is not the consumer's stream; reading `stream` of an undefined value faults; an accepted non-`done` packet is one that the skip loop never skips |
| `ConsumerLogic.WriteStep` | stream-consumer.js:46-56 | an ignored (or faulting) packet leaves the state unchanged; an accepted one adds exactly 1 to backpressure, clears the timer and consumes the stored wake-up, so none remains; all else is unchanged |
| `Consumer.StreamConsumer.Write` | stream-consumer.js:46-56 | returns the filter's verdict and performs `WriteStep`; the consumer invariant is kept |
| `ConsumerLogic.Destroyed` | stream-consumer.js:71-75 | a destroyed state is not alive, has backpressure 0 and is not registered; cursor, kill and waiting call are unchanged |
| `Consumer.StreamConsumer.Destroy` | stream-consumer.js:71-75 | performs `Destroyed`; only this id leaves the registry; the log is unchanged |
| `ConsumerLogic.KillStep` | stream-consumer.js:58-69 | the kill packet `{value, done: true}` is stored; the consumer is destroyed; timer and wake-up are cleared; the cursor does not move |
| `Consumer.StreamConsumer.Kill` | stream-consumer.js:58-69 | performs `KillStep` and removes only this id from the registry |
| `ConsumerLogic.Suspend` | stream-consumer.js:77-96 | a waiting call stores a wake-up and arms the timer exactly when the timeout is not `undefined` (a `null` timeout arms one too); the rest is unchanged |
| `Consumer.StreamConsumer.Wait` | stream-consumer.js:77-96 | performs `Suspend` |
| `ConsumerLogic.NextStep` | stream-consumer.js:98-146 | `next()` keeps the invariant; it reports `Pending` exactly when it leaves a call waiting; the cursor only moves forward, and strictly forward on every delivery; a consumer is registered unless destroyed; a done result destroys and deregisters the consumer with backpressure 0; a waiting call keeps backpressure and kill and stands at the tail |
| `Consumer.StreamConsumer.Next` | stream-consumer.js:98-109 | performs `NextStep` on the shared log; the log and the other ids in the registry are unchanged |
| `ConsumerLogic.AdvanceStep` | stream-consumer.js:110-145 | a pending kill is returned exactly, cleared, and the cursor does not move; when the call waits, backpressure and kill are unchanged and the cursor is at the tail; otherwise the cursor lands on the node after the skip loop's end, the result is `Deliver` of that node, and backpressure drops by 1 (or is 0 after a done result, which destroys the consumer) |
| `Consumer.StreamConsumer.Advance` | stream-consumer.js:110-129 | performs `AdvanceStep` |
| `ConsumerLogic.ResumeStep` | stream-consumer.js:104-145 | the continuation of a woken call keeps the invariant and reports `Pending` exactly when it waits again; a pending kill is returned with the cursor unchanged; otherwise it steps onto the node after the skip loop's end, returns `Deliver` of it and releases one unit of backpressure (or destroys on a done result) |
| `Consumer.StreamConsumer.Resume` | stream-consumer.js:104-145 | performs `ResumeStep` |
| `ConsumerLogic.TimeoutStep` | stream-consumer.js:105-108 | a timed-out call rejects with a timeout error, and the consumer is destroyed, deregistered, no longer waiting and without a wake-up |
| `Consumer.StreamConsumer.Timeout` | stream-consumer.js:105-108 | performs `TimeoutStep`; the id leaves the registry |
| `ConsumerLogic.SkipTo` | stream-consumer.js:118-125 | the skip loop ends at or after the cursor, inside the log; every node it passes is skippable (truthy value, another stream, not addressed to this id); it stops at the tail or before a node that is not skippable |
| `Consumer.StreamConsumer.SkipOtherStreams` | stream-consumer.js:118-125 | the loop leaves the cursor at `SkipTo` and changes nothing else, backpressure included |
| `ConsumerLogic.StepOnto` | stream-consumer.js:130-144 | the cursor moves exactly one node; the result is `Deliver` of that node; without a done result the only other change is backpressure minus 1; with one, the consumer is destroyed |
| `Consumer.StreamConsumer.Step` | stream-consumer.js:130-144 | performs `StepOnto` |
| `ConsumerLogic.Deliver` | stream-consumer.js:134-144 | the result reports `done` exactly when the packet is terminal (inner or outer `done`); a non-`done` envelope, or one whose inner `data` is `done`, yields exactly that `data`; an outer-`done` packet without an inner `done` yields the packet itself; a non-`done` bare defined value yields `undefined`; it rejects, with a `TypeError`, exactly for a non-`done` undefined value |
| `ConsumerLogic.ReturnStep` | stream-consumer.js:148-152 | `return()` yields `{}`, drops the cursor and destroys the consumer |
| `Consumer.StreamConsumer.Return` | stream-consumer.js:148-152 | performs `ReturnStep`; only this id leaves the registry |
| `ConsumerLogic.VisibleAfterSkip` | stream-consumer.js:118-130 | skipping loses no visible node: the view after the cursor equals the view after the skip loop's end, and the node stepped onto is its head |
| `ConsumerLogic.NextDeliversHeadOfView` | stream-consumer.js:118-144 | a delivering `next()` hands out `Deliver` of the head of the consumer's view, leaves the tail of the view for later and releases one unit of backpressure; a waiting `next()` has an empty view left |
| `ConsumerLogic.AdvanceDeliversHeadOfView` | stream-consumer.js:110-144 | from the kill check on, with no kill pending, a delivering pass hands out `Deliver` of the head of the consumer's view, leaves the tail of the view and releases one unit of backpressure; a waiting pass has an empty view left |
| `ConsumerLogic.ResumeDeliversHeadOfView` | stream-consumer.js:104-144 | the same for the continuation of a woken call: it hands out the head of the view, or waits again exactly when the view is empty |
| `ConsumerLogic.WaitingCallResumesOnAppended` | stream-consumer.js:104-144 | a call woken at the end of the log after nodes were appended hands out `Deliver` of the head of the appended nodes' view and stands on that node; it waits again exactly when no appended node is visible |
| `ConsumerLogic.WokenCallDeliversAppended` | stream-consumer.js:46-56 | a `next()` that waited and was woken by an accepted `write` stands at the end of the log it waited at, with no wake-up and no kill; its view of the extended log is exactly the appended nodes' view |
| `ConsumerLogic.NextKeepsCount` | stream-consumer.js:98-146 | when backpressure equals the number of nodes the consumer will still stop at, a waiting `next()` leaves it at 0 and a non-terminal delivery keeps the equation at the new cursor |
| `ConsumerLogic.ResumeKeepsCount` | stream-consumer.js:104-145 | the same for the continuation of a woken call |
| `ConsumerLogic.AppendWriteKeepsCount` | stream-consumer.js:46-56 | when `write` counts exactly the nodes the skip loop stops at, appending a node and writing it keeps backpressure equal to the number of nodes the consumer will still stop at |
| `ConsumerLogic.IterateYieldsView` | stream-consumer.js:98-146 | repeated `next()` calls yield `Deliver` of every visible node after the cursor, in log order, each exactly once |
| `ConsumerLogic.DeliverAllCons` | stream-consumer.js:134-144 | delivering a node followed by more nodes yields that node's result followed by theirs |
| `ConsumerLogic.VisibleIsSubsequence` | stream-consumer.js:118-125 | the nodes a consumer stops at form a subsequence of the log |
| `ConsumerLogic.VisibleConcat` | stream-consumer.js:118-125 | the view of an extended log is the old view followed by the view of the appended nodes |
| `ConsumerLogic.KillHonouredAfterWait` | stream-consumer.js:102-116 | with a kill pending and a successor present, `next()` returns the kill packet, keeps the cursor and destroys the consumer; at the tail it waits and keeps the kill |
| `ConsumerLogic.ResumeReturnsKill` | stream-consumer.js:110-116 | a call that waited and was then killed resumes with exactly the kill packet, cursor unchanged |
| `ConsumerLogic.BackpressureCanGoNegative` | stream-consumer.js:119-135 | a node addressed to the consumer's id on another stream is ignored by `write`, yet a fresh consumer's `next()` steps onto it and leaves backpressure at -1 |
| `ConsumerLogic.TruthyCloseIsSkipped` | stream-consumer.js:119-123 | a main-stream close carrying a defined value is accepted by `write` but skipped by the skip loop |
| `Demux.StreamDemux.constructor` | index.js:5-7 | a new demultiplexer has an empty main stream |
| `Demux.StreamDemux.WritePacket` | index.js:9-14 | appends exactly one packet `{name, data: {value, done}}` |
| `Demux.StreamDemux.Write` | index.js:16-18 | appends exactly `{name, data: {value, done: false}}`; the name's deliveries gain exactly that data; other names' deliveries are unchanged |
| `Demux.StreamDemux.Close` | index.js:20-22 | appends exactly `{name, data: {value: undefined, done: true}}`; the main stream stays open; other names' deliveries are unchanged |
| `Demux.StreamDemux.CloseAll` | index.js:24-26 | appends the end of the main stream, and every name's deliveries gain exactly one end-of-stream result |
| `Demux.StreamDemux.CreateAsyncIterator` | index.js:28-30 | a fresh iterator bound to the name and timeout, positioned at the current end of the main stream |
| `Demux.FilteredIterator.constructor` | index.js:28-30 | binds the name and timeout and starts at the end of the main stream |
| `Demux.FilteredIterator.Next` | index.js:31-41 | the result and the new position are those of `Scan` from the old position |
| `DemuxLogic.Scan` | index.js:32-40 | the position only advances; `Pending` means the stream is exhausted and had no wanted entry; otherwise exactly one wanted entry was passed (the last one read), and the result is its `data`, or the end-of-stream result unchanged |
| `DemuxLogic.DrainIsDeliveries` | index.js:31-41 | calling `next` until it waits yields exactly the deliveries of the entries after the start position, in append order |
| `DemuxLogic.SelectedConcat` | index.js:32-40 | selecting from a concatenation is concatenating the selections |
| `DemuxLogic.DeliveriesConcat` | index.js:32-40 | deliveries of a concatenation are the concatenated deliveries |
| `DemuxLogic.DeliveriesAppend` | index.js:9-18 | appending an entry adds its result to a name's deliveries exactly when the entry is that name's or the end |
| `DemuxLogic.SelectedIsSubsequence` | index.js:31-41 | the entries an iterator stops at form a subsequence of the main stream |
| `DemuxLogic.SelectedCounts` | index.js:32-40 | every wanted entry is selected exactly as often as it occurs, and unwanted entries never are |
| `DemuxLogic.CloseLeavesOtherNames` | index.js:20-22 | `close(name)` changes no other name's deliveries |
| `DemuxLogic.CloseAllEndsEveryName` | index.js:24-26 | `closeAll()` adds one end-of-stream result to every name's deliveries |
| `Demux.StreamDemux.Stream` | index.js:45-47 | returns a fresh handle bound to the name and to this demultiplexer |
| `Demux.DemuxedAsyncIterableStream.constructor` | index.js:51-55 | the handle stores the demultiplexer and the name |
| `Demux.DemuxedAsyncIterableStream.CreateAsyncIterator` | index.js:57-59 | delegates to `createAsyncIterator(name, timeout)` with the bound name |

## Left out

- Timers: `setTimeout`, `clearTimeout`, `wait()` and the racing async function in
  `_waitForNextItem` (stream-consumer.js:41-44, 77-96, 159-165). The timer is only
  a flag. Its expiry is the external `Timeout()` event, allowed while a wake-up
  is stored and the timer is armed.
- Promise scheduling: suspension is the `Pending` outcome and `Resume()`. How the
  event loop interleaves calls is not modelled. `Next` requires that no call is
  already waiting, because calls on one consumer are serialized.
- The main-stream libraries (`writable-async-iterable-stream`,
  `async-iterable-stream`, `consumable-stream`) are not part of this model.
  - The consumer's main stream is a log plus an id set. Who calls `write` on
    each consumer when a packet is appended, and node garbage collection, are
    not modelled.
  - The demultiplexer's main stream is a sequence of entries. Its iterator's own
    timeout is stored but never fires. What that iterator does after the end of
    the stream is not modelled. It is taken to start at the current end of the
    main stream.
- JavaScript truthiness: every defined payload counts as truthy. Falsy primitives
  such as `0` or `""` are not distinguished.
- A log node always carries a packet: `data` is never missing.
- `Symbol.asyncIterator` (stream-consumer.js:154-156) returns the object itself.
  It has no behaviour to model.
- demuxed-async-iterable-stream.js and demuxed-consumable-stream.js only fix a
  name and forward one call. The copy of the first inside index.js is
  `Demux.DemuxedAsyncIterableStream`.
- test/test.js calls `end` and `getStream`, which index.js does not define.
- `writeToConsumer`, `kill(name)`, `killAll`, statistics lists and the per-name
  backpressure maximum are not in the index.js revision shown. They are not part
  of this model.
