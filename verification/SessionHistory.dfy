/** Whole runs of a session, and the run of its command queue inside them. */
module SessionHistory {
  import opened Bytes
  import opened Millis
  import opened Sequences
  import opened Framing
  import opened Correlation
  import opened Queue
  import opened QueuePass
  import opened Reentrancy
  import opened Session
  import Query

  /** A message that a channel delivered, or a disconnect. */
  datatype Heard = Message(channel: Channel, message: Octets) | Dropped

  /** The session after a run, with the machine of its queue, every callback it
      made, and everything it heard. */
  datatype History = History(s: Session, m: Machine, log: seq<Callback>, heard: seq<Heard>)

  function Start(att: nat, interval: nat, opts: Options): History {
    History(Fresh(att, interval, opts), INITIAL, [], [])
  }

  /** The message that an operation delivers, if any. */
  function HeardIn(s: Session, op: Op): seq<Heard> {
    match op
    case FeedOp(channel, packet, _) =>
      if channel < CHANNEL_COUNT && Feed(s.rx[channel], packet).result == Complete
      then [Message(channel, Feed(s.rx[channel], packet).rx.buf)] else []
    case DisconnectOp => [Dropped]
    case _ => []
  }

  /** The calls that delivering a message makes on the queue. */
  function DeliveryCalls(s: Session, channel: Channel, message: Octets, now: Time): seq<Call> {
    var after := Query.FoldMessage(s.readiness, message);
    [RespondCall(ResponseId(s.queue, channel, message), message, now)]
    + if after.Ready() != s.readiness.Ready() then [ReadyCall(after.Ready(), now)] else []
  }

  /** The calls that an operation makes on the queue. */
  function QueueCalls(s: Session, op: Op): seq<Call> {
    match op
    case FeedOp(channel, packet, now) =>
      if HeardIn(s, op) == [] then [] else DeliveryCalls(s, channel, HeardIn(s, op)[0].message, now)
    case SubmitOp(channel, payload, priority, now) =>
      if payload == [] then []
      else [SubmitCall(CorrelationOf(channel, payload[0]), payload, priority, CorrelationOf(channel, payload[0]), now)]
    case ProtobufOp(channel, feature, action, message, priority, now) =>
      var id := CorrelationOfProtobuf(channel, feature, action);
      [SubmitCall(id, [feature, action] + message, priority, id, now)]
    case TickOp(now) => [TickCall(now)] + if Due(s, now) then [KeepAliveCall(now)] else []
    case AttOp(_) => []
    case DisconnectOp => [CancelCall, ReadyCall(false, 0)]
  }

  const KEEP_ALIVE_ID: nat := CorrelationOf(SETTINGS, LED_SETTING)

  function KeepAliveCall(now: Time): Call {
    SubmitCall(KEEP_ALIVE_ID, KEEP_ALIVE_PAYLOAD, KeepAlive, KEEP_ALIVE_ID, now)
  }

  function Next(h: History, op: Op): History {
    var r := Run(h.s, op);
    History(r.s, AfterCalls(h.s.opts, h.m, QueueCalls(h.s, op)), h.log + r.events, h.heard + HeardIn(h.s, op))
  }

  function After(h: History, ops: seq<Op>): History {
    if ops == [] then h else Next(After(h, ops[..|ops| - 1]), ops[|ops| - 1])
  }

  // --- Projections of the log ---------------------------------------------

  /** The commands that went out, in order. */
  function SentEntries(log: seq<Callback>): seq<Entry> {
    if log == [] then []
    else
      var last := log[|log| - 1];
      SentEntries(log[..|log| - 1]) + if last.Sent? then [last.entry] else []
  }

  /** The accepted commands whose outcome was reported, in order. */
  function FinishedEntries(log: seq<Callback>): seq<Entry> {
    if log == [] then []
    else
      var last := log[|log| - 1];
      FinishedEntries(log[..|log| - 1]) + if last.Finished? && last.outcome != Rejected then [last.entry] else []
  }

  lemma {:induction false} ProjectionsAppend(a: seq<Callback>, b: seq<Callback>)
    ensures SentEntries(a + b) == SentEntries(a) + SentEntries(b)
    ensures FinishedEntries(a + b) == FinishedEntries(a) + FinishedEntries(b)
  {
    if b == [] {
      assert a + b == a;
    } else {
      var front := b[..|b| - 1];
      assert (a + b)[..|a + b| - 1] == a + front;
      ProjectionsAppend(a, front);
    }
  }

  lemma {:induction false} QueueEventsAppend(a: seq<Event>, b: seq<Event>)
    ensures Written(a + b) == Written(a) + Written(b)
    ensures Retired(a + b) == Retired(a) + Retired(b)
  {
    if b == [] {
      assert a + b == a;
    } else {
      var front := b[..|b| - 1];
      assert (a + b)[..|a + b| - 1] == a + front;
      QueueEventsAppend(a, front);
    }
  }

  lemma {:induction false} RelayProjects(att: nat, events: seq<Event>)
    ensures SentEntries(Relay(att, events)) == Written(events)
    ensures FinishedEntries(Relay(att, events)) == Retired(events)
  {
    if events != [] {
      var head, rest := [events[0]], events[1..];
      assert events == head + rest;
      RelayProjects(att, rest);
      QueueEventsAppend(head, rest);
      ProjectionsAppend([RelayOne(att, events[0])], Relay(att, rest));
      assert head[..0] == [] && [RelayOne(att, events[0])][..0] == [];
    }
  }

  // --- The queue inside the session ---------------------------------------

  /** The queue's callbacks over a sequence of calls. */
  function CallEvents(opts: Options, q: State, calls: seq<Call>): seq<Event>
    decreases |calls|
  {
    if calls == [] then []
    else Apply(opts, q, calls[0]).events + CallEvents(opts, Apply(opts, q, calls[0]).q, calls[1..])
  }

  function QueueAfter(opts: Options, q: State, calls: seq<Call>): State
    decreases |calls|
  {
    if calls == [] then q else QueueAfter(opts, Apply(opts, q, calls[0]).q, calls[1..])
  }

  lemma AfterOne(opts: Options, m: Machine, c: Call)
    ensures AfterCalls(opts, m, [c]) == AfterCall(opts, m, c)
  {
    assert [c][..0] == [] && |[c]| == 1;
    assert AfterCalls(opts, m, [c][..|[c]| - 1]) == m;
  }

  lemma AfterTwo(opts: Options, m: Machine, c: Call, d: Call)
    ensures AfterCalls(opts, m, [c, d]) == AfterCall(opts, AfterCall(opts, m, c), d)
  {
    assert [c, d][..|[c, d]| - 1] == [c];
    AfterOne(opts, m, c);
  }

  lemma TwoCalls(opts: Options, m: Machine, calls: seq<Call>)
    requires |calls| <= 2
    ensures AfterCalls(opts, m, calls).q == QueueAfter(opts, m.q, calls)
    ensures AfterCalls(opts, m, calls).events == m.events + CallEvents(opts, m.q, calls)
  {
    if |calls| == 0 {
      assert m.events + [] == m.events;
    } else if |calls| == 1 {
      var c := calls[0];
      assert calls == [c];
      AfterOne(opts, m, c);
      CallAlone(opts, m.q, c);
    } else {
      var c, d := calls[0], calls[1];
      assert calls == [c, d];
      AfterTwo(opts, m, c, d);
      CallThen(opts, m.q, c, d);
      Assoc(m.events, Apply(opts, m.q, c).events, Apply(opts, Apply(opts, m.q, c).q, d).events);
    }
  }

  lemma CallAlone(opts: Options, q: State, c: Call)
    ensures QueueAfter(opts, q, [c]) == Apply(opts, q, c).q
    ensures CallEvents(opts, q, [c]) == Apply(opts, q, c).events
  {
    var e := Apply(opts, q, c).events;
    assert [c][1..] == [] && e + [] == e;
  }

  lemma CallThen(opts: Options, q: State, c: Call, d: Call)
    ensures QueueAfter(opts, q, [c, d]) == Apply(opts, Apply(opts, q, c).q, d).q
    ensures CallEvents(opts, q, [c, d]) == Apply(opts, q, c).events + Apply(opts, Apply(opts, q, c).q, d).events
  {
    assert [c, d][1..] == [d];
    CallAlone(opts, Apply(opts, q, c).q, d);
  }

  predicate FromQueue(e: Callback) {
    e.Sent? || e.Finished?
  }

  /** Among `events` exactly the queue's callbacks `qs` are relayed, in order,
      with other events around them. */
  ghost predicate Embedded(att: nat, events: seq<Callback>, qs: seq<Event>) {
    Filter(events, FromQueue) == Relay(att, qs)
  }

  lemma EmbedForeign(att: nat, e: Callback)
    requires !FromQueue(e)
    ensures Embedded(att, [e], [])
  {
    FilterOne(e, FromQueue);
  }

  lemma EmbedConcat(att: nat, a: seq<Callback>, qa: seq<Event>, b: seq<Callback>, qb: seq<Event>)
    requires Embedded(att, a, qa) && Embedded(att, b, qb)
    ensures Embedded(att, a + b, qa + qb)
  {
    FilterAppend(a, b, FromQueue);
    RelayAppend(att, qa, qb);
  }

  lemma {:induction false} RelayAppend(att: nat, a: seq<Event>, b: seq<Event>)
    ensures Relay(att, a + b) == Relay(att, a) + Relay(att, b)
  {
    if a == [] {
      assert a + b == b;
    } else {
      assert (a + b)[0] == a[0] && (a + b)[1..] == a[1..] + b;
      RelayAppend(att, a[1..], b);
    }
  }

  lemma {:induction false} EmbedRelay(att: nat, qs: seq<Event>)
    ensures Embedded(att, Relay(att, qs), qs)
  {
    if qs != [] {
      EmbedRelay(att, qs[1..]);
      FilterOne(RelayOne(att, qs[0]), FromQueue);
      FilterAppend([RelayOne(att, qs[0])], Relay(att, qs[1..]), FromQueue);
    }
  }

  /** A callback from outside the queue may stand on either side. */
  lemma EmbedAround(att: nat, e: Callback, events: seq<Callback>, qs: seq<Event>)
    requires !FromQueue(e) && Embedded(att, events, qs)
    ensures Embedded(att, [e] + events, qs) && Embedded(att, events + [e], qs)
  {
    FilterOne(e, FromQueue);
    FilterAppend([e], events, FromQueue);
    FilterAppend(events, [e], FromQueue);
  }

  /** Hence they agree on what was sent and what was finished. */
  lemma EmbeddedProjects(att: nat, events: seq<Callback>, qs: seq<Event>)
    requires Embedded(att, events, qs)
    ensures SentEntries(events) == Written(qs) && FinishedEntries(events) == Retired(qs)
  {
    ProjectionsOfFilter(events);
    RelayProjects(att, qs);
  }

  lemma {:induction false} ProjectionsOfFilter(events: seq<Callback>)
    ensures SentEntries(Filter(events, FromQueue)) == SentEntries(events)
    ensures FinishedEntries(Filter(events, FromQueue)) == FinishedEntries(events)
  {
    if events != [] {
      var head := [events[0]];
      assert events == head + events[1..] && head[..0] == [];
      ProjectionsOfFilter(events[1..]);
      ProjectionsAppend(head, events[1..]);
      ProjectionsAppend(if FromQueue(events[0]) then head else [], Filter(events[1..], FromQueue));
    }
  }

  lemma EmbeddedMembers(att: nat, events: seq<Callback>, qs: seq<Event>)
    requires Embedded(att, events, qs)
    ensures forall x :: x in events && FromQueue(x) ==> exists e :: e in qs && x == RelayOne(att, e)
    ensures forall e :: e in qs ==> RelayOne(att, e) in events
  {
    RelayMember(att, qs);
    forall x | x in events && FromQueue(x)
      ensures exists e :: e in qs && x == RelayOne(att, e)
    {
      assert x in Filter(events, FromQueue);
    }
    forall e | e in qs
      ensures RelayOne(att, e) in events
    {
      RelayContains(att, qs, e);
      assert RelayOne(att, e) in Filter(events, FromQueue);
    }
  }

  lemma {:induction false} RelayMember(att: nat, events: seq<Event>)
    ensures forall x :: x in Relay(att, events) ==> exists e :: e in events && x == RelayOne(att, e)
  {
    if events != [] {
      RelayMember(att, events[1..]);
      assert events[0] in events;
    }
  }

  lemma {:induction false} RelayContains(att: nat, events: seq<Event>, e: Event)
    requires e in events
    ensures RelayOne(att, e) in Relay(att, events)
  {
    if events[0] != e {
      RelayContains(att, events[1..], e);
    }
  }

  /** One operation drives the queue by `QueueCalls`, and reports exactly what
      the queue reports. */
  lemma OpIsQueueRun(s: Session, op: Op)
    ensures var r := Run(s, op);
            && r.s.queue == QueueAfter(s.opts, s.queue, QueueCalls(s, op))
            && Embedded(s.att, r.events, CallEvents(s.opts, s.queue, QueueCalls(s, op)))
            && r.s.opts == s.opts && r.s.interval == s.interval
            && |QueueCalls(s, op)| <= 2
  {
    match op
    case FeedOp(_, _, _) => FeedIsQueueRun(s, op);
    case SubmitOp(_, payload, _, _) =>
      if payload != [] {
        OneCall(s, QueueCalls(s, op)[0]);
      }
    case ProtobufOp(_, _, _, _, _, _) =>
      OneCall(s, QueueCalls(s, op)[0]);
    case TickOp(now) =>
      TickIsQueueRun(s, now);
    case AttOp(_) =>
    case DisconnectOp =>
      DisconnectIsQueueRun(s);
  }

  lemma FeedIsQueueRun(s: Session, op: Op)
    requires op.FeedOp?
    ensures var r := Run(s, op);
            && r.s.queue == QueueAfter(s.opts, s.queue, QueueCalls(s, op))
            && Embedded(s.att, r.events, CallEvents(s.opts, s.queue, QueueCalls(s, op)))
            && r.s.opts == s.opts && r.s.interval == s.interval
  {
    if HeardIn(s, op) != [] {
      DeliverIsQueueRun(s.(rx := s.rx[op.channel := IDLE]), op.channel, HeardIn(s, op)[0].message, op.now);
    } else if Run(s, op).events != [] {
      EmbedForeign(s.att, Run(s, op).events[0]);
    }
  }

  lemma OneCall(s: Session, c: Call)
    ensures QueueAfter(s.opts, s.queue, [c]) == Apply(s.opts, s.queue, c).q
    ensures CallEvents(s.opts, s.queue, [c]) == Apply(s.opts, s.queue, c).events
    ensures Embedded(s.att, OnQueue(s, c).events, CallEvents(s.opts, s.queue, [c]))
  {
    CallAlone(s.opts, s.queue, c);
    EmbedRelay(s.att, Apply(s.opts, s.queue, c).events);
  }

  lemma TickIsQueueRun(s: Session, now: Time)
    ensures var r := DoTick(s, now);
            && r.s.queue == QueueAfter(s.opts, s.queue, QueueCalls(s, TickOp(now)))
            && Embedded(s.att, r.events, CallEvents(s.opts, s.queue, QueueCalls(s, TickOp(now))))
  {
    OneCall(s, TickCall(now));
    if Due(s, now) {
      var s1 := OnQueue(s, TickCall(now)).s.(lastKeepAlive := now);
      CallThen(s.opts, s.queue, TickCall(now), KeepAliveCall(now));
      assert QueueCalls(s, TickOp(now)) == [TickCall(now), KeepAliveCall(now)];
      OneCall(s1, KeepAliveCall(now));
      EmbedConcat(s.att, OnQueue(s, TickCall(now)).events, Apply(s.opts, s.queue, TickCall(now)).events,
                  OnQueue(s1, KeepAliveCall(now)).events, Apply(s.opts, s1.queue, KeepAliveCall(now)).events);
    } else {
      assert QueueCalls(s, TickOp(now)) == [TickCall(now)];
    }
  }

  lemma DisconnectIsQueueRun(s: Session)
    ensures var r := Disconnect(s);
            && r.s.queue == QueueAfter(s.opts, s.queue, [CancelCall, ReadyCall(false, 0)])
            && Embedded(s.att, r.events, CallEvents(s.opts, s.queue, [CancelCall, ReadyCall(false, 0)]))
  {
    CallThen(s.opts, s.queue, CancelCall, ReadyCall(false, 0));
    OneCall(s, CancelCall);
    var events := OnQueue(s, CancelCall).events;
    assert Apply(s.opts, Apply(s.opts, s.queue, CancelCall).q, ReadyCall(false, 0)).events == [];
    assert CallEvents(s.opts, s.queue, [CancelCall, ReadyCall(false, 0)]) == Apply(s.opts, s.queue, CancelCall).events;
    EmbedAround(s.att, ReadyChanged(false), events, Apply(s.opts, s.queue, CancelCall).events);
    assert events + [] == events;
  }

  lemma DeliverIsQueueRun(s: Session, channel: Channel, message: Octets, now: Time)
    ensures var r := Deliver(s, channel, message, now);
            && r.s.queue == QueueAfter(s.opts, s.queue, DeliveryCalls(s, channel, message, now))
            && Embedded(s.att, r.events, CallEvents(s.opts, s.queue, DeliveryCalls(s, channel, message, now)))
  {
    var c := RespondCall(ResponseId(s.queue, channel, message), message, now);
    var r := OnQueue(s, c);
    OneCall(s, c);
    var after := Query.FoldMessage(s.readiness, message);
    var folded := if r.result then FoldReply(r.s, message, now) else FoldPush(r.s, channel, message, now);
    var push := Pushed(channel, Query.Parse(message).response, message);
    EmbedForeign(s.att, push);
    if after.Ready() != s.readiness.Ready() {
      var d := ReadyCall(after.Ready(), now);
      assert DeliveryCalls(s, channel, message, now) == [c, d];
      CallThen(s.opts, s.queue, c, d);
      var s1 := r.s.(readiness := after);
      var released := Apply(s.opts, s1.queue, d).events;
      OneCall(s1, d);
      EmbedAround(s.att, ReadyChanged(after.Ready()), OnQueue(s1, d).events, released);
      EmbedAround(s.att, push, OnQueue(s1, d).events + [ReadyChanged(after.Ready())], released);
      EmbedConcat(s.att, r.events, Apply(s.opts, s.queue, c).events, folded.events, released);
    } else {
      assert DeliveryCalls(s, channel, message, now) == [c];
      EmbedConcat(s.att, r.events, Apply(s.opts, s.queue, c).events, folded.events, []);
      assert Apply(s.opts, s.queue, c).events + [] == Apply(s.opts, s.queue, c).events;
    }
  }

  // --- Invariants of whole runs -------------------------------------------

  /** The messages since the last disconnect, oldest first. */
  function Since(heard: seq<Heard>): seq<Octets> {
    if heard == [] then []
    else
      match heard[|heard| - 1]
      case Dropped => []
      case Message(_, m) => Since(heard[..|heard| - 1]) + [m]
  }

  /** What every run from construction on maintains. */
  ghost predicate Consistent(h: History) {
    && h.m.q == h.s.queue && Idle(h.m) && Invariant(h.m)
    && SentEntries(h.log) == Written(h.m.events)
    && FinishedEntries(h.log) == Retired(h.m.events)
    && h.s.readiness == Query.Justified(Since(h.heard))
    && h.s.queue.ready == h.s.readiness.Ready()
  }

  /** Over every run: the queue inside the session is a run of the queue, so it
      is sound and quiet, conserves submissions and is first-in first-out; the
      session's reports are the queue's; readiness is what the latest reports
      since the last disconnect say; and the queue's gate is readiness. */
  lemma {:induction false} EveryRunConsistent(att: nat, interval: nat, opts: Options, ops: seq<Op>)
    ensures Consistent(After(Start(att, interval, opts), ops))
    ensures After(Start(att, interval, opts), ops).s.opts == opts
    ensures After(Start(att, interval, opts), ops).s.interval == interval
  {
    var h := Start(att, interval, opts);
    if ops == [] {
      InitialInvariant();
    } else {
      EveryRunConsistent(att, interval, opts, ops[..|ops| - 1]);
      OpKeepsConsistent(After(h, ops[..|ops| - 1]), ops[|ops| - 1]);
    }
  }

  lemma OpKeepsConsistent(h: History, op: Op)
    requires Consistent(h)
    ensures Consistent(Next(h, op))
    ensures Next(h, op).s.opts == h.s.opts && Next(h, op).s.interval == h.s.interval
  {
    var calls := QueueCalls(h.s, op);
    OpIsQueueRun(h.s, op);
    EmbeddedProjects(h.s.att, Run(h.s, op).events, CallEvents(h.s.opts, h.s.queue, calls));
    TwoCalls(h.s.opts, h.m, calls);
    CallsKeepInvariant(h.s.opts, h.m, calls);
    ProjectionsAppend(h.log, Run(h.s, op).events);
    QueueEventsAppend(h.m.events, CallEvents(h.s.opts, h.s.queue, calls));
    GateFollowsReadiness(h, op);
  }

  /** A queue call other than a gate change leaves the gate alone. */
  lemma GateUnmoved(opts: Options, q: State, c: Call)
    requires Sound(q)
    ensures Apply(opts, q, c).q.ready == if c.ReadyCall? then c.ready else q.ready
    ensures Sound(Apply(opts, q, c).q)
  {
    OpeningKeepsSound(opts, q, c);
    match c
    case SubmitCall(_, _, _, _, _) =>
      if !IsDuplicate(q, c.id) {
        PumpMoves(Enqueue(q, NewEntry(c)), c.now);
        PumpSound(Enqueue(q, NewEntry(c)), c.now);
      }
    case ReadyCall(ready, now) =>
      if ready {
        PumpMoves(q.(ready := true), now);
        PumpSound(q.(ready := true), now);
      }
    case RespondCall(id, data, now) =>
      var k := IndexOf(q.inFlight, id);
      if k < |q.inFlight| {
        PumpMoves(q.(inFlight := RemoveAt(q.inFlight, k)), now);
        PumpSound(q.(inFlight := RemoveAt(q.inFlight, k)), now);
      }
    case TickCall(now) =>
      PumpMoves(WithoutExpired(opts, q, now), now);
      PumpSound(WithoutExpired(opts, q, now), now);
    case CancelCall =>
  }

  lemma {:induction false} PumpSound(q: State, now: Time)
    requires Sound(q)
    ensures Sound(Pump(q, now).q)
    decreases |q.pending|
  {
    var i := FirstSendable(q, 0);
    if i < |q.pending| {
      SendKeepsSound(q, i, now);
      PumpSound(SendAt(q, i, now), now);
    }
  }

  /** A fastpass command goes out alone when nothing is pending. */
  lemma ExpressAlone(q: State, e: Entry)
    requires Sound(q) && q.pending == [] && e.priority == Fastpass && !IsDuplicate(q, e.id)
    ensures Submit(q, e).q == q.(inFlight := q.inFlight + [Stamp(e, e.queuedAt)])
    ensures Submit(q, e).events == [Wrote(Stamp(e, e.queuedAt))] && Submit(q, e).result
    ensures Sound(Submit(q, e).q)
  {
    EnqueueKeepsSound(q, e);
    PumpIsOnePass(Enqueue(q, e), e.queuedAt);
    assert Enqueue(q, e).pending == [e] && [e][1..] == [];
    assert Writes([Stamp(e, e.queuedAt)]) == [Wrote(Stamp(e, e.queuedAt))];
    PumpSound(Enqueue(q, e), e.queuedAt);
    PumpResult(Enqueue(q, e), e.queuedAt);
  }

  lemma GateFollowsReadiness(h: History, op: Op)
    requires Consistent(h)
    ensures var r := Run(h.s, op).s;
            && r.readiness == Query.Justified(Since(h.heard + HeardIn(h.s, op)))
            && r.queue.ready == r.readiness.Ready()
  {
    var heard := HeardIn(h.s, op);
    if heard == [] {
      assert h.heard + heard == h.heard;
      if !op.FeedOp? {
        OwnCallsMoveNoGate(h.s, op);
      }
    } else {
      assert heard == [heard[0]] && (h.heard + heard)[..|h.heard|] == h.heard;
      if op.FeedOp? {
        Query.FoldIsLatest(Since(h.heard), heard[0].message);
        FeedMovesGate(h.s, op);
      }
    }
  }

  lemma FeedMovesGate(s: Session, op: Op)
    requires Sound(s.queue) && s.queue.ready == s.readiness.Ready() && op.FeedOp? && HeardIn(s, op) != []
    ensures Run(s, op).s.readiness == Query.FoldMessage(s.readiness, HeardIn(s, op)[0].message)
    ensures Run(s, op).s.queue.ready == Run(s, op).s.readiness.Ready()
  {
    DeliverMovesGate(s.(rx := s.rx[op.channel := IDLE]), op.channel, HeardIn(s, op)[0].message, op.now);
  }

  lemma OwnCallsMoveNoGate(s: Session, op: Op)
    requires Sound(s.queue) && !op.FeedOp? && !op.DisconnectOp?
    ensures Run(s, op).s.queue.ready == s.queue.ready && Run(s, op).s.readiness == s.readiness
  {
    match op
    case SubmitOp(_, payload, _, _) =>
      if payload != [] {
        GateUnmoved(s.opts, s.queue, QueueCalls(s, op)[0]);
      }
    case ProtobufOp(_, _, _, _, _, _) =>
      GateUnmoved(s.opts, s.queue, QueueCalls(s, op)[0]);
    case TickOp(now) =>
      GateUnmoved(s.opts, s.queue, TickCall(now));
      GateUnmoved(s.opts, Apply(s.opts, s.queue, TickCall(now)).q, KeepAliveCall(now));
    case AttOp(_) =>
  }

  lemma DeliverMovesGate(s: Session, channel: Channel, message: Octets, now: Time)
    requires Sound(s.queue) && s.queue.ready == s.readiness.Ready()
    ensures var r := Deliver(s, channel, message, now).s;
            r.readiness == Query.FoldMessage(s.readiness, message) && r.queue.ready == r.readiness.Ready()
  {
    var c := RespondCall(ResponseId(s.queue, channel, message), message, now);
    GateUnmoved(s.opts, s.queue, c);
    GateUnmoved(s.opts, Apply(s.opts, s.queue, c).q, ReadyCall(Query.FoldMessage(s.readiness, message).Ready(), now));
  }
}
