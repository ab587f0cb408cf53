/** The state machine of one stream consumer (stream-consumer.js), stated on values.
    The shared log is a sequence of nodes; a cursor is the index of the node the
    consumer last stepped onto, so "the cursor has no successor" is `c + 1 == |log|`. */
module ConsumerLogic {
  import opened Common

  /** The `value` field of a log packet: an envelope `{stream, data}` written for a
      named stream, or a bare value (as carried by a main-stream close). */
  datatype Value = Raw(datum: Datum) | Envelope(stream: Name, data: Item)

  /** The `data` of a log node: `{value, done}`. */
  datatype Packet = Packet(value: Value, done: bool)

  /** One node of the shared log; `consumerId` addresses it to one consumer directly. */
  datatype LogNode = LogNode(data: Packet, consumerId: Option<ConsumerId>)

  /** The constant part of a consumer. */
  datatype Config = Config(id: ConsumerId, name: Name, timeout: TimeoutArg)

  /** The mutable part of a consumer. `resolver` is a stored wake-up (`_resolve`),
      `timer` an armed timeout handle (`_timeoutId`), `suspended` a `next()` call
      parked in its wait, `registered` the id's presence in the main stream's registry. */
  datatype State = State(
    backpressure: int,
    cursor: Option<nat>,
    alive: bool,
    kill: Option<Item>,
    resolver: bool,
    timer: bool,
    suspended: bool,
    registered: bool)

  datatype Error = TypeError | TimeoutError

  /** What one `next()` call (or its continuation) produces. */
  datatype Outcome =
    | Pending                     // the call waits for the log to advance
    | Yield(item: Item)           // a `{value, done}` pair: a node's `value.data`, or the kill packet
    | YieldPacket(packet: Packet) // a node's whole packet, for a `done` packet without an inner `done`
    | YieldUndefined              // `undefined`: `value.data` of a bare value
    | EmptyResult                 // `{}`, returned by `return()`
    | Rejected(error: Error)      // the call's promise rejects

  datatype Transition = Transition(state: State, out: Outcome)

  /** What `write(packet)` does with a packet. */
  datatype WriteResult = Ignored | Accepted | WriteFault

  /** JavaScript truthiness of a packet's `value`. */
  predicate Truthy(v: Value)
  {
    v.Envelope? || v.datum.Defined?
  }

  /** `value.stream`; a bare value has no `stream` field. */
  function StreamOf(v: Value): Option<Name>
  {
    if v.Envelope? then Some(v.stream) else None
  }

  /** The condition of the skip loop: the node has a value, belongs to another
      stream and is not addressed to this consumer. */
  predicate Skippable(n: LogNode, name: Name, id: ConsumerId)
  {
    Truthy(n.data.value) && StreamOf(n.data.value) != Some(name) && n.consumerId != Some(id)
  }

  /** Where the skip loop leaves a cursor that starts at `c`. */
  function SkipTo(log: seq<LogNode>, c: nat, name: Name, id: ConsumerId): (j: nat)
    requires c < |log|
    ensures c <= j < |log|
    ensures forall k :: c < k <= j ==> Skippable(log[k], name, id)
    ensures j + 1 == |log| || !Skippable(log[j + 1], name, id)
    decreases |log| - c
  {
    if c + 1 < |log| && Skippable(log[c + 1], name, id) then SkipTo(log, c + 1, name, id) else c
  }

  /** The nodes of `ns` a consumer stops at, in log order. */
  function Visible(ns: seq<LogNode>, name: Name, id: ConsumerId): seq<LogNode>
  {
    if ns == [] then []
    else (if Skippable(ns[0], name, id) then [] else [ns[0]]) + Visible(ns[1..], name, id)
  }

  /** A packet that ends the consumer's iteration. */
  predicate Terminal(p: Packet)
  {
    (p.value.Envelope? && p.value.data.done) || p.done
  }

  /** An outcome that reports the end of the iteration. */
  predicate IsDone(o: Outcome)
  {
    (o.Yield? && o.item.done) || (o.YieldPacket? && o.packet.done)
  }

  /** What `next()` returns on stepping onto a node carrying `p`. */
  function Deliver(p: Packet): (o: Outcome)
    ensures IsDone(o) <==> Terminal(p)
    ensures p.value.Envelope? && (p.value.data.done || !p.done) ==> o == Yield(p.value.data)
    ensures p.done && !(p.value.Envelope? && p.value.data.done) ==> o == YieldPacket(p)
    ensures !p.done && p.value.Raw? && p.value.datum.Defined? ==> o == YieldUndefined
    ensures !o.Pending? && !o.EmptyResult?
    ensures o.Rejected? <==> !p.done && p.value == Raw(Undefined)
    ensures o == Rejected(TypeError) <==> !p.done && p.value == Raw(Undefined)
  {
    if p.value.Envelope? && p.value.data.done then Yield(p.value.data)
    else if p.done then YieldPacket(p)
    else match p.value
      case Envelope(_, d) => Yield(d)
      case Raw(Undefined) => Rejected(TypeError)
      case Raw(Defined(_)) => YieldUndefined
  }

  /** The filter of `write(packet)`: a `done` packet is always taken; any other
      packet only when its `value.stream` is the consumer's stream. */
  function WriteFilter(p: Packet, name: Name): (r: WriteResult)
    ensures p.done ==> r == Accepted
    ensures r == WriteFault <==> !p.done && p.value == Raw(Undefined)
    ensures r == Ignored <==> !p.done && p.value != Raw(Undefined) && StreamOf(p.value) != Some(name)
    ensures r == Accepted && !p.done ==>
              forall cid: Option<ConsumerId>, id: ConsumerId :: !Skippable(LogNode(p, cid), name, id)
  {
    if p.done then Accepted
    else if p.value == Raw(Undefined) then WriteFault
    else if StreamOf(p.value) != Some(name) then Ignored
    else Accepted
  }

  /** Well-formedness of a state on its own: a wake-up is stored only while a call
      waits, and a pending kill is a terminal packet of a destroyed consumer. */
  predicate Wf(s: State)
  {
    (s.resolver ==> s.suspended) && (s.kill.Some? ==> s.kill.value.done && !s.alive)
  }

  /** The consumer invariant relative to the log. */
  predicate Inv(s: State, log: seq<LogNode>)
  {
    Wf(s) && (s.cursor.Some? ==> s.cursor.value < |log|)
  }

  /** The constructor: alive, no backlog, the cursor on the start node, registered. */
  function Initial(start: nat): (s: State)
    ensures Wf(s) && s.alive && s.registered && s.backpressure == 0
    ensures s.cursor == Some(start) && !s.suspended && s.kill.None?
  {
    State(0, Some(start), true, None, false, false, false, true)
  }

  /** `_destroy`: not alive, backpressure reset, removed from the registry. */
  function Destroyed(s: State): (d: State)
    ensures !d.alive && !d.registered && d.backpressure == 0
    ensures d.cursor == s.cursor && d.kill == s.kill && d.suspended == s.suspended
    ensures Wf(s) ==> Wf(d)
  {
    s.(alive := false, backpressure := 0, registered := false)
  }

  /** `_waitForNextItem`: store a wake-up and arm the timer unless the timeout
      is `undefined` (a `null` timeout arms a timer too). */
  function Suspend(s: State, cfg: Config): (w: State)
    ensures w.suspended && w.resolver && (w.timer <==> !cfg.timeout.NoTimeout?)
    ensures w.backpressure == s.backpressure && w.cursor == s.cursor && w.alive == s.alive
    ensures w.kill == s.kill && w.registered == s.registered
  {
    s.(suspended := true, resolver := true, timer := !cfg.timeout.NoTimeout?)
  }

  /** The body of the `next()` loop from the kill check on (lines 110-144). */
  function AdvanceStep(s: State, log: seq<LogNode>, cfg: Config): (t: Transition)
    requires Inv(s, log) && !s.suspended
    ensures Inv(t.state, log)
    ensures t.out == Pending <==> t.state.suspended
    ensures t.state.cursor.Some? ==> s.cursor.Some? && s.cursor.value <= t.state.cursor.value
    ensures s.kill.Some? ==>
              t.out == Yield(s.kill.value) && t.state.kill.None? && t.state.cursor == s.cursor
    ensures IsDone(t.out) ==> !t.state.alive && !t.state.registered && t.state.backpressure == 0
    ensures s.kill.None? && s.cursor.Some? && t.out != Pending ==>
              t.state.kill.None? && t.state.cursor.Some? && s.cursor.value < t.state.cursor.value
    ensures t.out == Pending ==>
              t.state.backpressure == s.backpressure && t.state.resolver && t.state.kill == s.kill &&
              t.state.cursor.Some? && t.state.cursor.value + 1 == |log|
    ensures s.kill.None? && s.cursor.Some? && t.out != Pending ==>
              t.state.cursor == Some(SkipTo(log, s.cursor.value, cfg.name, cfg.id) + 1) &&
              t.out == Deliver(log[t.state.cursor.value].data) &&
              t.state.backpressure == (if IsDone(t.out) then 0 else s.backpressure - 1)
  {
    if s.kill.Some? then
      Transition(Destroyed(s).(kill := None), Yield(s.kill.value))
    else if s.cursor.None? then
      Transition(s, Rejected(TypeError))
    else
      var j := SkipTo(log, s.cursor.value, cfg.name, cfg.id);
      if j + 1 == |log| then
        Transition(Suspend(s.(cursor := Some(j)), cfg), Pending)
      else
        StepOnto(s.(cursor := Some(j)), log)
  }

  /** Lines 130-144 of `next()`: step onto the successor, release one unit of
      backpressure, and destroy the consumer on a terminal packet. */
  function StepOnto(s: State, log: seq<LogNode>): (t: Transition)
    requires Wf(s) && !s.suspended && s.cursor.Some? && s.cursor.value + 1 < |log|
    ensures Inv(t.state, log) && !t.state.suspended
    ensures t.state.cursor == Some(s.cursor.value + 1)
    ensures t.out == Deliver(log[s.cursor.value + 1].data)
    ensures IsDone(t.out) ==> !t.state.alive && !t.state.registered && t.state.backpressure == 0
    ensures !IsDone(t.out) ==> t.state == s.(cursor := t.state.cursor, backpressure := s.backpressure - 1)
  {
    var stepped := s.(cursor := Some(s.cursor.value + 1), backpressure := s.backpressure - 1);
    var p := log[s.cursor.value + 1].data;
    Transition(if Terminal(p) then Destroyed(stepped) else stepped, Deliver(p))
  }

  /** `next()`: re-register, wait when the cursor has no successor, else advance. */
  function NextStep(s: State, log: seq<LogNode>, cfg: Config): (t: Transition)
    requires Inv(s, log) && !s.suspended
    ensures Inv(t.state, log)
    ensures t.out == Pending <==> t.state.suspended
    ensures t.state.cursor.Some? ==> s.cursor.Some? && s.cursor.value <= t.state.cursor.value
    ensures t.state.registered || !t.state.alive
    ensures IsDone(t.out) ==> !t.state.alive && !t.state.registered && t.state.backpressure == 0
    ensures s.kill.None? && s.cursor.Some? && t.out != Pending ==>
              t.state.kill.None? && t.state.cursor.Some? && s.cursor.value < t.state.cursor.value
    ensures t.out == Pending ==>
              t.state.backpressure == s.backpressure && t.state.resolver && t.state.kill == s.kill &&
              t.state.cursor.Some? && t.state.cursor.value + 1 == |log|
  {
    var r := s.(registered := true);
    if r.cursor.None? then Transition(r, Rejected(TypeError))
    else if r.cursor.value + 1 == |log| then Transition(Suspend(r, cfg), Pending)
    else AdvanceStep(r, log, cfg)
  }

  /** The continuation of a waiting `next()` once its wake-up has fired. */
  function ResumeStep(s: State, log: seq<LogNode>, cfg: Config): (t: Transition)
    requires Inv(s, log) && s.suspended && !s.resolver
    ensures Inv(t.state, log)
    ensures t.out == Pending <==> t.state.suspended
    ensures t.state.cursor.Some? ==> s.cursor.Some? && s.cursor.value <= t.state.cursor.value
    ensures s.kill.Some? ==>
              t.out == Yield(s.kill.value) && t.state.kill.None? && t.state.cursor == s.cursor
    ensures t.out == Pending ==>
              t.state.backpressure == s.backpressure && t.state.resolver && t.state.kill == s.kill &&
              t.state.cursor.Some? && t.state.cursor.value + 1 == |log|
    ensures s.kill.None? && s.cursor.Some? && t.out != Pending ==>
              t.state.cursor.Some? && t.state.cursor.value == SkipTo(log, s.cursor.value, cfg.name, cfg.id) + 1 &&
              t.out == Deliver(log[t.state.cursor.value].data) &&
              t.state.backpressure == (if IsDone(t.out) then 0 else s.backpressure - 1)
  {
    AdvanceStep(s.(suspended := false), log, cfg)
  }

  /** `write(packet)`: an accepted packet clears the timer, adds one unit of
      backpressure and fires the stored wake-up, which is then gone. */
  function WriteStep(s: State, p: Packet, name: Name): (w: State)
    requires Wf(s)
    ensures Wf(w)
    ensures WriteFilter(p, name) != Accepted ==> w == s
    ensures WriteFilter(p, name) == Accepted ==>
              w.backpressure == s.backpressure + 1 && !w.resolver && !w.timer &&
              w == s.(backpressure := w.backpressure, resolver := false, timer := false)
  {
    if WriteFilter(p, name) == Accepted
    then s.(timer := false, backpressure := s.backpressure + 1, resolver := false)
    else s
  }

  /** `kill(value)`: store the kill packet, clear the timer, destroy, fire the wake-up. */
  function KillStep(s: State, value: Datum): (k: State)
    requires Wf(s)
    ensures Wf(k)
    ensures k.kill == Some(Item(value, true))
    ensures !k.alive && !k.registered && k.backpressure == 0 && !k.resolver && !k.timer
    ensures k.cursor == s.cursor && k.suspended == s.suspended
  {
    Destroyed(s.(kill := Some(Item(value, true)), timer := false, resolver := false))
  }

  /** The timer of a waiting call fires: the wake-up is dropped, the call rejects
      with a timeout error and the consumer is destroyed. */
  function TimeoutStep(s: State): (t: Transition)
    requires Wf(s) && s.suspended && s.resolver && s.timer
    ensures Wf(t.state)
    ensures t.out == Rejected(TimeoutError)
    ensures !t.state.alive && !t.state.registered && t.state.backpressure == 0
    ensures !t.state.suspended && !t.state.resolver && t.state.cursor == s.cursor
  {
    Transition(Destroyed(s.(resolver := false, suspended := false)), Rejected(TimeoutError))
  }

  /** `return()`: drop the cursor, destroy, return `{}`. */
  function ReturnStep(s: State): (t: Transition)
    requires Wf(s)
    ensures Wf(t.state)
    ensures t.out == EmptyResult
    ensures t.state.cursor.None? && !t.state.alive && !t.state.registered && t.state.backpressure == 0
  {
    Transition(Destroyed(s.(cursor := None)), EmptyResult)
  }

  /** Skipping over other streams' nodes loses no visible node: the nodes a
      consumer at `c` will stop at are those after the skip loop's end, and
      when a successor exists they start with it. */
  lemma {:induction false} VisibleAfterSkip(log: seq<LogNode>, c: nat, name: Name, id: ConsumerId)
    requires c < |log|
    ensures Visible(log[c + 1..], name, id) == Visible(log[SkipTo(log, c, name, id) + 1..], name, id)
    ensures SkipTo(log, c, name, id) + 1 < |log| ==>
              Visible(log[c + 1..], name, id) ==
              [log[SkipTo(log, c, name, id) + 1]] + Visible(log[SkipTo(log, c, name, id) + 2..], name, id)
    decreases |log| - c
  {
    if c + 1 < |log| {
      var rest := log[c + 1..];
      assert rest[0] == log[c + 1] && rest[1..] == log[c + 2..];
      if Skippable(log[c + 1], name, id) {
        VisibleAfterSkip(log, c + 1, name, id);
      }
    }
  }

  /** From the kill check on, with no kill pending: a delivering pass hands out
      the head of the consumer's visible view and leaves its tail; a pass that
      waits has no visible node left. */
  lemma AdvanceDeliversHeadOfView(s: State, log: seq<LogNode>, cfg: Config)
    requires Inv(s, log) && !s.suspended && s.kill.None? && s.cursor.Some?
    ensures var t := AdvanceStep(s, log, cfg);
            var c := s.cursor.value;
            if t.out == Pending then
              Visible(log[c + 1..], cfg.name, cfg.id) == []
            else
              t.state.cursor.Some? && c < t.state.cursor.value < |log| &&
              Visible(log[c + 1..], cfg.name, cfg.id) ==
                [log[t.state.cursor.value]] + Visible(log[t.state.cursor.value + 1..], cfg.name, cfg.id) &&
              t.out == Deliver(log[t.state.cursor.value].data) &&
              t.state.backpressure == (if IsDone(t.out) then 0 else s.backpressure - 1)
  {
    var j := SkipTo(log, s.cursor.value, cfg.name, cfg.id);
    VisibleAfterSkip(log, s.cursor.value, cfg.name, cfg.id);
    if j + 1 == |log| {
      assert log[j + 1..] == [];
    }
  }

  /** Each delivering `next()` hands out the head of the consumer's visible view
      and leaves its tail; a `next()` that waits has no visible node left. */
  lemma NextDeliversHeadOfView(s: State, log: seq<LogNode>, cfg: Config)
    requires Inv(s, log) && !s.suspended && s.kill.None? && s.cursor.Some?
    ensures var t := NextStep(s, log, cfg);
            var c := s.cursor.value;
            if t.out == Pending then
              Visible(log[c + 1..], cfg.name, cfg.id) == []
            else
              t.state.cursor.Some? && c < t.state.cursor.value < |log| &&
              Visible(log[c + 1..], cfg.name, cfg.id) ==
                [log[t.state.cursor.value]] + Visible(log[t.state.cursor.value + 1..], cfg.name, cfg.id) &&
              t.out == Deliver(log[t.state.cursor.value].data) &&
              t.state.backpressure == (if IsDone(t.out) then 0 else s.backpressure - 1)
  {
    var c := s.cursor.value;
    if c + 1 == |log| {
      assert log[c + 1..] == [];
    } else {
      AdvanceDeliversHeadOfView(s.(registered := true), log, cfg);
    }
  }

  /** The continuation of a woken call, with no kill pending, hands out the head
      of the consumer's visible view, or waits again when that view is empty. */
  lemma ResumeDeliversHeadOfView(s: State, log: seq<LogNode>, cfg: Config)
    requires Inv(s, log) && s.suspended && !s.resolver && s.kill.None? && s.cursor.Some?
    ensures var t := ResumeStep(s, log, cfg);
            var c := s.cursor.value;
            if t.out == Pending then
              Visible(log[c + 1..], cfg.name, cfg.id) == []
            else
              t.state.cursor.Some? && c < t.state.cursor.value < |log| &&
              Visible(log[c + 1..], cfg.name, cfg.id) ==
                [log[t.state.cursor.value]] + Visible(log[t.state.cursor.value + 1..], cfg.name, cfg.id) &&
              t.out == Deliver(log[t.state.cursor.value].data) &&
              t.state.backpressure == (if IsDone(t.out) then 0 else s.backpressure - 1)
  {
    AdvanceDeliversHeadOfView(s.(suspended := false), log, cfg);
  }

  /** A call waiting at the end of the log, once woken, after `more` nodes were
      appended: it hands out the head of the appended nodes' view, or waits
      again exactly when no appended node is visible. */
  lemma WaitingCallResumesOnAppended(w: State, log: seq<LogNode>, more: seq<LogNode>, cfg: Config)
    requires Inv(w, log) && w.suspended && !w.resolver && w.kill.None?
    requires w.cursor.Some? && w.cursor.value + 1 == |log|
    ensures var t := ResumeStep(w, log + more, cfg);
            var view := Visible(more, cfg.name, cfg.id);
            if view == [] then
              t.out == Pending
            else
              t.state.cursor.Some? && |log| <= t.state.cursor.value < |log + more| &&
              view == [(log + more)[t.state.cursor.value]] +
                      Visible((log + more)[t.state.cursor.value + 1..], cfg.name, cfg.id) &&
              t.out == Deliver(view[0].data)
  {
    assert (log + more)[w.cursor.value + 1..] == more;
    ResumeDeliversHeadOfView(w, log + more, cfg);
  }

  /** Across a wait: a `next()` that waited, was woken by an accepted `write`,
      and resumes after `more` nodes were appended continues from the end of
      the log it waited at; the view it had before waiting is now exactly the
      appended nodes' view, whose head `WaitingCallResumesOnAppended` hands out. */
  lemma {:induction false} WokenCallDeliversAppended(s: State, log: seq<LogNode>, more: seq<LogNode>, p: Packet, cfg: Config)
    requires Inv(s, log) && !s.suspended && s.kill.None? && s.cursor.Some?
    requires NextStep(s, log, cfg).out == Pending
    requires WriteFilter(p, cfg.name) == Accepted
    ensures var w := WriteStep(NextStep(s, log, cfg).state, p, cfg.name);
            Inv(w, log) && w.suspended && !w.resolver && w.kill.None? &&
            w.cursor.Some? && w.cursor.value + 1 == |log| &&
            Visible((log + more)[s.cursor.value + 1..], cfg.name, cfg.id) == Visible(more, cfg.name, cfg.id)
  {
    var c := s.cursor.value;
    NextDeliversHeadOfView(s, log, cfg);
    assert (log + more)[c + 1..] == log[c + 1..] + more;
    VisibleConcat(log[c + 1..], more, cfg.name, cfg.id);
  }

  /** The meaning of the backpressure counter, step by step: when it equals the
      number of nodes the consumer will still stop at, a `next()` that waits
      leaves it at 0, and a non-terminal delivery keeps the equation at the new
      cursor. */
  lemma NextKeepsCount(s: State, log: seq<LogNode>, cfg: Config)
    requires Inv(s, log) && !s.suspended && s.kill.None? && s.cursor.Some?
    requires s.backpressure == |Visible(log[s.cursor.value + 1..], cfg.name, cfg.id)|
    ensures var t := NextStep(s, log, cfg);
            (t.out == Pending ==> t.state.backpressure == 0) &&
            (t.out != Pending && !IsDone(t.out) ==>
               t.state.cursor.Some? && t.state.cursor.value < |log| &&
               t.state.backpressure == |Visible(log[t.state.cursor.value + 1..], cfg.name, cfg.id)|)
  {
    NextDeliversHeadOfView(s, log, cfg);
  }

  /** The same for the continuation of a woken call. */
  lemma ResumeKeepsCount(s: State, log: seq<LogNode>, cfg: Config)
    requires Inv(s, log) && s.suspended && !s.resolver && s.kill.None? && s.cursor.Some?
    requires s.backpressure == |Visible(log[s.cursor.value + 1..], cfg.name, cfg.id)|
    ensures var t := ResumeStep(s, log, cfg);
            (t.out == Pending ==> t.state.backpressure == 0) &&
            (t.out != Pending && !IsDone(t.out) ==>
               t.state.cursor.Some? && t.state.cursor.value < |log| &&
               t.state.backpressure == |Visible(log[t.state.cursor.value + 1..], cfg.name, cfg.id)|)
  {
    ResumeDeliversHeadOfView(s, log, cfg);
  }

  /** Appending a node and handing it to `write` keeps the counter equal to the
      number of nodes the consumer will still stop at, provided `write` counts
      exactly the nodes the skip loop stops at (`BackpressureCanGoNegative` and
      `TruthyCloseIsSkipped` show the nodes where the two disagree). */
  lemma AppendWriteKeepsCount(s: State, log: seq<LogNode>, n: LogNode, cfg: Config)
    requires Inv(s, log) && s.cursor.Some?
    requires s.backpressure == |Visible(log[s.cursor.value + 1..], cfg.name, cfg.id)|
    requires WriteFilter(n.data, cfg.name) == Accepted <==> !Skippable(n, cfg.name, cfg.id)
    ensures WriteStep(s, n.data, cfg.name).backpressure ==
            |Visible((log + [n])[s.cursor.value + 1..], cfg.name, cfg.id)|
  {
    var c := s.cursor.value;
    assert (log + [n])[c + 1..] == log[c + 1..] + [n];
    VisibleConcat(log[c + 1..], [n], cfg.name, cfg.id);
    assert [n][1..] == [];
  }

  /** What each node of a sequence hands out when a consumer steps onto it. */
  function DeliverAll(ns: seq<LogNode>): (os: seq<Outcome>)
    ensures |os| == |ns| && forall i :: 0 <= i < |ns| ==> os[i] == Deliver(ns[i].data)
  {
    seq(|ns|, i requires 0 <= i < |ns| => Deliver(ns[i].data))
  }

  /** The outcomes of calling `next()` again and again until a call waits. */
  function Iterate(s: State, log: seq<LogNode>, cfg: Config): seq<Outcome>
    requires Inv(s, log) && !s.suspended && s.kill.None? && s.cursor.Some?
    decreases |log| - s.cursor.value
  {
    var t := NextStep(s, log, cfg);
    if t.out == Pending then [] else [t.out] + Iterate(t.state, log, cfg)
  }

  /** A consumer that keeps calling `next()` receives what every visible node
      after its cursor carries, in log order, each exactly once. */
  lemma {:induction false} IterateYieldsView(s: State, log: seq<LogNode>, cfg: Config)
    requires Inv(s, log) && !s.suspended && s.kill.None? && s.cursor.Some?
    ensures Iterate(s, log, cfg) == DeliverAll(Visible(log[s.cursor.value + 1..], cfg.name, cfg.id))
    decreases |log| - s.cursor.value
  {
    var t := NextStep(s, log, cfg);
    NextDeliversHeadOfView(s, log, cfg);
    if t.out == Pending {
      assert Iterate(s, log, cfg) == [];
    } else {
      var m := t.state.cursor.value;
      var rest := Visible(log[m + 1..], cfg.name, cfg.id);
      IterateYieldsView(t.state, log, cfg);
      assert Iterate(s, log, cfg) == [t.out] + Iterate(t.state, log, cfg);
      DeliverAllCons(log[m], rest);
    }
  }

  lemma DeliverAllCons(n: LogNode, ns: seq<LogNode>)
    ensures DeliverAll([n] + ns) == [Deliver(n.data)] + DeliverAll(ns)
  {
    assert forall i :: 0 < i <= |ns| ==> ([n] + ns)[i] == ns[i - 1];
  }

  /** The view of the future nodes is a subsequence of the log. */
  lemma {:induction false} VisibleIsSubsequence(ns: seq<LogNode>, name: Name, id: ConsumerId)
    ensures IsSubsequence(Visible(ns, name, id), ns)
  {
    if ns != [] {
      VisibleIsSubsequence(ns[1..], name, id);
      if !Skippable(ns[0], name, id) {
        var v := Visible(ns, name, id);
        assert v == [ns[0]] + Visible(ns[1..], name, id);
        assert v[0] == ns[0] && v[1..] == Visible(ns[1..], name, id);
      } else {
        assert Visible(ns, name, id) == Visible(ns[1..], name, id);
      }
    }
  }

  /** The view of a log extended by appends is the old view followed by the view
      of the appended nodes: appending never reorders or hides earlier nodes. */
  lemma {:induction false} VisibleConcat(a: seq<LogNode>, b: seq<LogNode>, name: Name, id: ConsumerId)
    ensures Visible(a + b, name, id) == Visible(a, name, id) + Visible(b, name, id)
  {
    if a != [] {
      assert (a + b)[0] == a[0] && (a + b)[1..] == a[1..] + b;
      VisibleConcat(a[1..], b, name, id);
    } else {
      assert a + b == b;
    }
  }

  /** A pending kill is honoured only when the cursor has a successor: at the
      tail, `next()` waits first (the wait check precedes the kill check). */
  lemma KillHonouredAfterWait(s: State, log: seq<LogNode>, cfg: Config)
    requires Inv(s, log) && !s.suspended && s.kill.Some? && s.cursor.Some?
    ensures var t := NextStep(s, log, cfg);
            if s.cursor.value + 1 < |log| then
              t.out == Yield(s.kill.value) && t.state.cursor == s.cursor && t.state.kill.None? &&
              !t.state.registered && !t.state.alive
            else
              t.out == Pending && t.state.kill == s.kill && t.state.registered
  {
  }

  /** Once woken, the continuation of a call that waited with a pending kill
      returns the kill packet without moving the cursor. */
  lemma ResumeReturnsKill(s: State, log: seq<LogNode>, cfg: Config, value: Datum)
    requires Inv(s, log) && s.suspended
    ensures var k := KillStep(s, value);
            Inv(k, log) && !k.resolver &&
            ResumeStep(k, log, cfg) == Transition(k.(suspended := false, kill := None), Yield(Item(value, true)))
  {
  }

  /** A bare truthy value carried by a main-stream close is skipped by every
      consumer, although `write` counted it. */
  lemma TruthyCloseIsSkipped(d: int, name: Name, id: ConsumerId)
    ensures var p := Packet(Raw(Defined(d)), true);
            WriteFilter(p, name) == Accepted && Skippable(LogNode(p, None), name, id)
  {
  }

  /** Backpressure can go negative: a node addressed to the consumer's id but
      written for another stream is not counted by `write`, yet the skip loop
      stops at it and `next()` releases one unit for it. */
  lemma BackpressureCanGoNegative()
    ensures var cfg := Config(7, "a", NoTimeout);
            var n := LogNode(Packet(Envelope("b", Item(Defined(1), false)), false), Some(7));
            var log := [LogNode(Packet(Raw(Undefined), false), None), n];
            WriteFilter(n.data, cfg.name) == Ignored &&
            NextStep(Initial(0), log, cfg).state.backpressure == -1
  {
  }
}
