/** The stream consumer of stream-consumer.js as a class over a shared main stream.
    Every operation is proved to perform the transition ConsumerLogic gives it. */
module Consumer {
  import opened Common
  import opened ConsumerLogic

  /** The interface of the shared main stream that a consumer uses: an
      append-only log (never empty: a consumer always stands on a node) and the
      registry of consumer ids. */
  class MainStream {
    var log: seq<LogNode>
    var registry: set<ConsumerId>

    constructor (head: LogNode)
      ensures log == [head] && registry == {}
    {
      log := [head];
      registry := {};
    }

    method SetConsumer(id: ConsumerId)
      modifies this
      ensures registry == old(registry) + {id} && log == old(log)
    {
      registry := registry + {id};
    }

    method RemoveConsumer(id: ConsumerId)
      modifies this
      ensures registry == old(registry) - {id} && log == old(log)
    {
      registry := registry - {id};
    }
  }

  /** The `getStats()` record; `timeout` is present only when it is neither
      `undefined` nor `null`. */
  datatype Stats = Stats(id: ConsumerId, backpressure: int, stream: Name, timeout: Option<nat>)

  class StreamConsumer {
    const id: ConsumerId
    const streamName: Name
    const timeout: TimeoutArg
    const main: MainStream
    var backpressure: int
    var cursor: Option<nat>          // `currentNode`; None once `return()` dropped it
    var isAlive: bool
    var killPacket: Option<Item>
    var resolverPending: bool        // `_resolve` is set
    var timerArmed: bool             // `_timeoutId` is set
    var suspended: bool              // a `next()` call waits in `_waitForNextItem`

    function Cfg(): Config
      reads this
    {
      Config(id, streamName, timeout)
    }

    /** The consumer's state as a value; `registered` reads the shared registry. */
    function Snapshot(): State
      reads this, main
    {
      State(backpressure, cursor, isAlive, killPacket, resolverPending, timerArmed, suspended,
            id in main.registry)
    }

    ghost predicate Valid()
      reads this, main
    {
      Inv(Snapshot(), main.log)
    }

    constructor (mainStream: MainStream, id: ConsumerId, startNode: nat, streamName: Name, timeout: TimeoutArg)
      requires startNode < |mainStream.log|
      modifies mainStream
      ensures this.main == mainStream && this.id == id
      ensures this.streamName == streamName && this.timeout == timeout
      ensures Valid() && Snapshot() == Initial(startNode)
      ensures mainStream.registry == old(mainStream.registry) + {id}
      ensures mainStream.log == old(mainStream.log)
    {
      this.id := id;
      backpressure := 0;
      cursor := Some(startNode);
      this.timeout := timeout;
      isAlive := true;
      main := mainStream;
      this.streamName := streamName;
      killPacket := None;
      resolverPending := false;
      timerArmed := false;
      suspended := false;
      new;
      main.SetConsumer(id);
    }

    function GetStats(): (st: Stats)
      reads this
      ensures st.id == id && st.backpressure == backpressure && st.stream == streamName
      ensures st.timeout.Some? <==> timeout.Delay?
      ensures timeout.Delay? ==> st.timeout == Some(timeout.ms)
    {
      Stats(id, backpressure, streamName, if timeout.Delay? then Some(timeout.ms) else None)
    }

    method ResetBackpressure()
      modifies this
      ensures Snapshot() == old(Snapshot()).(backpressure := 0)
    {
      backpressure := 0;
    }

    method ApplyBackpressure()
      modifies this
      ensures Snapshot() == old(Snapshot()).(backpressure := old(backpressure) + 1)
    {
      backpressure := backpressure + 1;
    }

    method ReleaseBackpressure()
      modifies this
      ensures Snapshot() == old(Snapshot()).(backpressure := old(backpressure) - 1)
    {
      backpressure := backpressure - 1;
    }

    function GetBackpressure(): (b: int)
      reads this, main
      ensures b == Snapshot().backpressure
    {
      backpressure
    }

    method Write(packet: Packet) returns (r: WriteResult)
      requires Valid()
      modifies this
      ensures Valid()
      ensures r == WriteFilter(packet, streamName)
      ensures Snapshot() == WriteStep(old(Snapshot()), packet, streamName)
    {
      if !packet.done && packet.value == Raw(Undefined) {
        // reading `stream` of an undefined value throws
        return WriteFault;
      }
      if !packet.done && StreamOf(packet.value) != Some(streamName) {
        return Ignored;
      }
      if timerArmed {
        timerArmed := false;
      }
      ApplyBackpressure();
      if resolverPending {
        resolverPending := false;
      }
      r := Accepted;
    }

    method Destroy()
      requires Inv(Snapshot().(alive := false), main.log)
      modifies this, main
      ensures Valid()
      ensures Snapshot() == Destroyed(old(Snapshot()))
      ensures main.log == old(main.log) && main.registry == old(main.registry) - {id}
    {
      isAlive := false;
      ResetBackpressure();
      main.RemoveConsumer(id);
    }

    method Kill(value: Datum)
      requires Valid()
      modifies this, main
      ensures Valid()
      ensures Snapshot() == KillStep(old(Snapshot()), value)
      ensures main.log == old(main.log) && main.registry == old(main.registry) - {id}
    {
      killPacket := Some(Item(value, true));
      if timerArmed {
        timerArmed := false;
      }
      Destroy();
      if resolverPending {
        resolverPending := false;
      }
    }

    /** `next()`. A call that has to wait returns Pending; its continuation is `Resume`. */
    method Next() returns (r: Outcome)
      requires Valid() && !suspended
      modifies this, main
      ensures main.log == old(main.log)
      ensures Valid()
      ensures Transition(Snapshot(), r) == NextStep(old(Snapshot()), main.log, Cfg())
      ensures main.registry - {id} == old(main.registry) - {id}
    {
      main.SetConsumer(id);
      if cursor.None? {
        // `currentNode` was deleted by `return()`
        return Rejected(TypeError);
      }
      if cursor.value + 1 == |main.log| {
        Wait();
        return Pending;
      }
      r := Advance();
    }

    /** The waiting `next()` call continues after its wake-up fired. */
    method Resume() returns (r: Outcome)
      requires Valid() && suspended && !resolverPending
      modifies this, main
      ensures main.log == old(main.log)
      ensures Valid()
      ensures Transition(Snapshot(), r) == ResumeStep(old(Snapshot()), main.log, Cfg())
      ensures main.registry - {id} == old(main.registry) - {id}
    {
      suspended := false;
      r := Advance();
    }

    /** The timer of the waiting call fires; the call rejects with a timeout error. */
    method Timeout() returns (r: Outcome)
      requires Valid() && suspended && resolverPending && timerArmed
      modifies this, main
      ensures Valid()
      ensures Transition(Snapshot(), r) == TimeoutStep(old(Snapshot()))
      ensures main.log == old(main.log) && main.registry == old(main.registry) - {id}
    {
      resolverPending := false;
      suspended := false;
      Destroy();
      r := Rejected(TimeoutError);
    }

    method Return() returns (r: Outcome)
      requires Valid()
      modifies this, main
      ensures Valid()
      ensures Transition(Snapshot(), r) == ReturnStep(old(Snapshot()))
      ensures main.log == old(main.log) && main.registry == old(main.registry) - {id}
    {
      cursor := None;
      Destroy();
      r := EmptyResult;
    }

    /** `_waitForNextItem`: store the wake-up and arm the timer unless the
        timeout is `undefined`. */
    method Wait()
      requires Valid()
      modifies this
      ensures Valid()
      ensures Snapshot() == Suspend(old(Snapshot()), Cfg())
    {
      suspended := true;
      resolverPending := true;
      timerArmed := !timeout.NoTimeout?;
    }

    /** Lines 110-144 of `next()`: honour a pending kill, skip other streams'
        nodes, then step onto the first node for this consumer. */
    method Advance() returns (r: Outcome)
      requires Valid() && !suspended
      modifies this, main
      ensures main.log == old(main.log)
      ensures Valid()
      ensures Transition(Snapshot(), r) == AdvanceStep(old(Snapshot()), main.log, Cfg())
      ensures main.registry - {id} == old(main.registry) - {id}
    {
      if killPacket.Some? {
        var k := killPacket.value;
        Destroy();
        killPacket := None;
        return Yield(k);
      }
      if cursor.None? {
        return Rejected(TypeError);
      }
      SkipOtherStreams();
      if cursor.value + 1 == |main.log| {
        // `continue`: the loop comes back to the wait
        Wait();
        return Pending;
      }
      r := Step();
    }

    /** The skip loop of `next()` (lines 119-125). */
    method SkipOtherStreams()
      requires Valid() && cursor.Some?
      modifies this
      ensures Valid()
      ensures Snapshot() == old(Snapshot()).(cursor := Some(SkipTo(main.log, old(cursor).value, streamName, id)))
    {
      ghost var s0 := Snapshot();
      var c := cursor.value;
      while c + 1 < |main.log| && Skippable(main.log[c + 1], streamName, id)
        invariant s0.cursor.value <= c < |main.log|
        invariant SkipTo(main.log, c, streamName, id) == SkipTo(main.log, s0.cursor.value, streamName, id)
        invariant Snapshot() == s0.(cursor := Some(c))
        decreases |main.log| - c
      {
        c := c + 1;
        cursor := Some(c);
      }
    }

    /** Lines 130-144 of `next()`. */
    method Step() returns (r: Outcome)
      requires Valid() && !suspended && cursor.Some? && cursor.value + 1 < |main.log|
      modifies this, main
      ensures main.log == old(main.log)
      ensures Valid()
      ensures Transition(Snapshot(), r) == StepOnto(old(Snapshot()), main.log)
      ensures main.registry - {id} == old(main.registry) - {id}
    {
      var c := cursor.value + 1;
      cursor := Some(c);
      ReleaseBackpressure();
      var p := main.log[c].data;
      if p.value.Envelope? && p.value.data.done {
        Destroy();
        return Yield(p.value.data);
      }
      if p.done {
        Destroy();
        return YieldPacket(p);
      }
      match p.value {
        case Envelope(_, d) => r := Yield(d);
        case Raw(Undefined) => r := Rejected(TypeError);   // `value.data` of undefined throws
        case Raw(Defined(_)) => r := YieldUndefined;
      }
    }
  }
}
