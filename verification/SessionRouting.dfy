/** Which command a message belongs to, and what a disconnect forgets. */
module SessionRouting {
  import opened Bytes
  import opened Millis
  import opened Sequences
  import opened Framing
  import opened Correlation
  import opened Queue
  import opened QueuePass
  import opened Session
  import opened SessionHistory
  import opened SessionGate
  import Query

  // --- Attribution --------------------------------------------------------

  predicate IsReply(x: Callback) {
    x.Finished? && x.outcome == Responded
  }

  predicate IsPush(x: Callback) {
    x.Pushed?
  }

  lemma RelayedWritesAreNeither(att: nat, events: seq<Event>)
    requires forall e :: e in events ==> e.Wrote?
    ensures Filter(Relay(att, events), IsReply) == [] && Filter(Relay(att, events), IsPush) == []
  {
    RelayMember(att, events);
    FilterNone(Relay(att, events), IsReply);
    FilterNone(Relay(att, events), IsPush);
  }

  lemma GateCallIsNeither(s: Session, ready: bool, now: Time)
    requires Sound(s.queue)
    ensures var events := OnQueue(s, ReadyCall(ready, now)).events;
            Filter(events, IsReply) == [] && Filter(events, IsPush) == []
  {
    if ready {
      PumpMoves(s.queue.(ready := true), now);
    }
    RelayedWritesAreNeither(s.att, Apply(s.opts, s.queue, ReadyCall(ready, now)).events);
  }

  lemma SoundAfter(opts: Options, q: State, c: Call)
    requires Sound(q)
    ensures Sound(Apply(opts, q, c).q)
  {
    GateUnmoved(opts, q, c);
  }

  /** Every delivered message either resolves exactly one command, the one in
      flight under its id, and is reported once as that command's reply; or it
      becomes exactly one push, and resolves nothing. */
  lemma Attribution(s: Session, channel: Channel, message: Octets, now: Time)
    requires Sound(s.queue)
    ensures var id, events := ResponseId(s.queue, channel, message), Deliver(s, channel, message, now).events;
            if HasId(s.queue.inFlight, id) then
              && Filter(events, IsPush) == []
              && IndexOf(s.queue.inFlight, id) < |s.queue.inFlight|
              && Filter(events, IsReply)
                 == [Finished(s.queue.inFlight[IndexOf(s.queue.inFlight, id)], Responded, message)]
            else
              && Filter(events, IsReply) == []
              && Filter(events, IsPush) == [Pushed(channel, Query.Parse(message).response, message)]
  {
    var id := ResponseId(s.queue, channel, message);
    var c := RespondCall(id, message, now);
    var r := OnQueue(s, c);
    var f := if r.result then FoldReply(r.s, message, now) else FoldPush(r.s, channel, message, now);
    RespondHandles(s.queue, id, message, now);
    SoundAfter(s.opts, s.queue, c);
    FilterAppend(r.events, f.events, IsReply);
    FilterAppend(r.events, f.events, IsPush);
    if r.result {
      ReplyEvents(s, id, message, now);
      FoldReplyIsQuiet(r.s, message, now);
    } else {
      FoldPushIsOnePush(r.s, channel, message, now);
    }
  }

  /** What removing an entry in flight releases. */
  lemma Released(s: Session, k: nat, now: Time) returns (released: seq<Event>)
    requires Sound(s.queue) && k < |s.queue.inFlight|
    ensures released == Pump(s.queue.(inFlight := RemoveAt(s.queue.inFlight, k)), now).events
    ensures Filter(Relay(s.att, released), IsReply) == [] && Filter(Relay(s.att, released), IsPush) == []
  {
    var q1 := s.queue.(inFlight := RemoveAt(s.queue.inFlight, k));
    RemovalKeepsSound(s.queue, k);
    PumpMoves(q1, now);
    released := Pump(q1, now).events;
    RelayedWritesAreNeither(s.att, released);
  }

  /** The queue's part of a reply: the completion, and then writes. */
  lemma ReplyEvents(s: Session, id: nat, message: Octets, now: Time)
    requires Sound(s.queue) && HasId(s.queue.inFlight, id)
    ensures var k, events := IndexOf(s.queue.inFlight, id), OnQueue(s, RespondCall(id, message, now)).events;
            && k < |s.queue.inFlight|
            && Filter(events, IsReply) == [Finished(s.queue.inFlight[k], Responded, message)]
            && Filter(events, IsPush) == []
  {
    RespondHandles(s.queue, id, message, now);
    var k := IndexOf(s.queue.inFlight, id);
    var released := Released(s, k, now);
    ReplyThenWrites(s.att, s.queue.inFlight[k], message, released);
  }

  lemma ReplyThenWrites(att: nat, e: Entry, message: Octets, released: seq<Event>)
    requires Filter(Relay(att, released), IsReply) == [] && Filter(Relay(att, released), IsPush) == []
    ensures var events := Relay(att, [Completed(e, Responded, message)] + released);
            Filter(events, IsReply) == [Finished(e, Responded, message)] && Filter(events, IsPush) == []
  {
    var done := Finished(e, Responded, message);
    RelayCons(att, Completed(e, Responded, message), released);
    FilterOne(done, IsReply);
    FilterOne(done, IsPush);
    FilterAppend([done], Relay(att, released), IsReply);
    FilterAppend([done], Relay(att, released), IsPush);
  }

  lemma RelayCons(att: nat, e: Event, rest: seq<Event>)
    ensures Relay(att, [e] + rest) == [RelayOne(att, e)] + Relay(att, rest)
  {
    assert ([e] + rest)[1..] == rest;
  }

  lemma FoldReplyIsQuiet(s: Session, message: Octets, now: Time)
    requires Sound(s.queue)
    ensures Filter(FoldReply(s, message, now).events, IsReply) == []
    ensures Filter(FoldReply(s, message, now).events, IsPush) == []
  {
    var after := Query.FoldMessage(s.readiness, message);
    var s1, change := s.(readiness := after), ReadyChanged(after.Ready());
    GateCallIsNeither(s1, after.Ready(), now);
    AmongQuiet(OnQueue(s1, ReadyCall(after.Ready(), now)).events, change, change, IsReply);
    AmongQuiet(OnQueue(s1, ReadyCall(after.Ready(), now)).events, change, change, IsPush);
  }

  lemma FoldPushIsOnePush(s: Session, channel: Channel, message: Octets, now: Time)
    requires Sound(s.queue)
    ensures Filter(FoldPush(s, channel, message, now).events, IsReply) == []
    ensures Filter(FoldPush(s, channel, message, now).events, IsPush)
         == [Pushed(channel, Query.Parse(message).response, message)]
  {
    var after := Query.FoldMessage(s.readiness, message);
    var s1, change := s.(readiness := after), ReadyChanged(after.Ready());
    var push := Pushed(channel, Query.Parse(message).response, message);
    GateCallIsNeither(s1, after.Ready(), now);
    AmongQuiet(OnQueue(s1, ReadyCall(after.Ready(), now)).events, change, push, IsReply);
    AmongQuiet(OnQueue(s1, ReadyCall(after.Ready(), now)).events, change, push, IsPush);
  }

  lemma AmongQuiet(gate: seq<Callback>, change: Callback, push: Callback, p: Callback -> bool)
    requires Filter(gate, p) == [] && !p(change)
    ensures Filter([change] + gate, p) == []
    ensures Filter(gate + [change] + [push], p) == Filter([push], p) == if p(push) then [push] else []
  {
    FilterOne(change, p);
    FilterOne(push, p);
    FilterAppend([change], gate, p);
    FilterAppend(gate, [change], p);
    FilterAppend(gate + [change], [push], p);
  }

  /** Nobody else is affected: every other command in flight stays there. */
  lemma OthersUntouched(s: Session, channel: Channel, message: Octets, now: Time)
    requires Sound(s.queue)
    ensures forall x :: x in s.queue.inFlight && x.id != ResponseId(s.queue, channel, message)
              ==> x in Deliver(s, channel, message, now).s.queue.inFlight
  {
    var id := ResponseId(s.queue, channel, message);
    var q1 := Respond(s.queue, id, message, now).q;
    var k := IndexOf(s.queue.inFlight, id);
    SoundAfter(s.opts, s.queue, RespondCall(id, message, now));
    if k < |s.queue.inFlight| {
      RemovalKeepsSound(s.queue, k);
      PumpMoves(s.queue.(inFlight := RemoveAt(s.queue.inFlight, k)), now);
    }
    assert forall x :: x in s.queue.inFlight && x.id != id ==> x in q1.inFlight;
    PumpMoves(q1.(ready := true), now);
    var after := Query.FoldMessage(s.readiness, message);
    assert Deliver(s, channel, message, now).s.queue
        == if after.Ready() == s.readiness.Ready() then q1 else SetReady(q1, after.Ready(), now).q;
  }

  /** A protobuf command is resolved only by [feature][action | 0x80] on its own
      channel, and a plain one only by its leading byte on its own channel, and
      then only if no protobuf command in flight claims the message. */
  lemma ResolvedBy(q: State, channel: Channel, message: Octets, own: Channel, a: Byte, b: Byte)
    requires message != []
    ensures var id := ResponseId(q, channel, message);
            && (id == CorrelationOfProtobuf(own, a, b) ==>
                  channel == own && |message| >= 2 && message[0] == a && message[1] == ResponseAction(b))
            && (id == CorrelationOf(own, a) <==>
                  && channel == own && message[0] == a
                  && !(|message| >= 2 && HasId(q.inFlight, WideId(channel, message[0], message[1]))))
  {
    IdsDistinct(own, a, b, channel, message[0], 0);
    IdsDistinct(channel, message[0], 0, own, a, ResponseAction(b));
    if |message| >= 2 {
      IdsDistinct(own, a, b, channel, message[0], message[1]);
      IdsDistinct(channel, message[0], message[1], own, a, ResponseAction(b));
    }
  }

  /** A plain command and a protobuf command can both be in flight and both fit
      the same message; the protobuf one takes it. Two submissions to a fresh
      session are enough. */
  lemma BothCanBeOutstanding(att: nat, interval: nat, opts: Options)
    ensures var s1 := Run(Fresh(att, interval, opts), SubmitOp(COMMAND, [0xF1], Fastpass, 0)).s;
            var q := Run(s1, ProtobufOp(COMMAND, 0xF1, 103, [], Fastpass, 0)).s.queue;
            && HasId(q.inFlight, CorrelationOf(COMMAND, 0xF1))
            && HasId(q.inFlight, WideId(COMMAND, 0xF1, 231))
            && ResponseId(q, COMMAND, [0xF1, 231]) == WideId(COMMAND, 0xF1, 231)
  {
    var narrowId, wideId := CorrelationOf(COMMAND, 0xF1), CorrelationOfProtobuf(COMMAND, 0xF1, 103);
    var plain := Entry(narrowId, [0xF1], Fastpass, narrowId, 0, 0);
    var wide := Entry(wideId, [0xF1, 103] + [], Fastpass, wideId, 0, 0);
    ExpressAlone(EMPTY, plain);
    var q1 := State(false, [], [Stamp(plain, 0)]);
    assert Submit(EMPTY, plain).q == q1;
    ExpressAlone(q1, wide);
    var q2 := State(false, [], [Stamp(plain, 0)] + [Stamp(wide, 0)]);
    assert Submit(q1, wide).q == q2;
    assert q2.inFlight[0].id == narrowId && q2.inFlight[1].id == wideId == WideId(COMMAND, 0xF1, 231);
  }

  // --- Disconnect ---------------------------------------------------------

  /** Equal but for a keep-alive time that nothing will read before the first
      tick overwrites it. */
  predicate SameFromHere(a: Session, b: Session) {
    a.(lastKeepAlive := 0) == b.(lastKeepAlive := 0) && (a.started ==> a.lastKeepAlive == b.lastKeepAlive)
  }

  /** Indistinguishable sessions answer every operation alike. */
  lemma SameResponse(a: Session, b: Session, op: Op)
    requires SameFromHere(a, b)
    ensures Run(a, op).events == Run(b, op).events && Run(a, op).result == Run(b, op).result
    ensures SameFromHere(Run(a, op).s, Run(b, op).s)
  {
    assert a == b.(lastKeepAlive := a.lastKeepAlive);
    match op
    case FeedOp(channel, packet, now) =>
      if HeardIn(a, op) != [] {
        SameDelivery(a.(rx := a.rx[channel := IDLE]), b.lastKeepAlive, channel, HeardIn(a, op)[0].message, now);
      }
    case _ =>
  }

  lemma SameDelivery(a: Session, stale: Time, channel: Channel, message: Octets, now: Time)
    ensures var r := Deliver(a, channel, message, now);
            Deliver(a.(lastKeepAlive := stale), channel, message, now) == r.(s := r.s.(lastKeepAlive := stale))
    ensures Deliver(a, channel, message, now).s.lastKeepAlive == a.lastKeepAlive
    ensures Deliver(a, channel, message, now).s.started == a.started
  {
  }

  /** Everything a session does over a sequence of operations. */
  function Outputs(s: Session, ops: seq<Op>): seq<Callback>
    decreases |ops|
  {
    if ops == [] then [] else Run(s, ops[0]).events + Outputs(Run(s, ops[0]).s, ops[1..])
  }

  function Returns(s: Session, ops: seq<Op>): seq<bool>
    decreases |ops|
  {
    if ops == [] then [] else [Run(s, ops[0]).result] + Returns(Run(s, ops[0]).s, ops[1..])
  }

  lemma {:induction false} SameOutputs(a: Session, b: Session, ops: seq<Op>)
    requires SameFromHere(a, b)
    ensures Outputs(a, ops) == Outputs(b, ops) && Returns(a, ops) == Returns(b, ops)
    decreases |ops|
  {
    if ops != [] {
      SameResponse(a, b, ops[0]);
      SameOutputs(Run(a, ops[0]).s, Run(b, ops[0]).s, ops[1..]);
    }
  }

  /** A disconnect is a true reset: whatever state the session was in, from then
      on every sequence of operations gets the same writes, responses, pushes,
      ready changes, frame errors and return values as from a freshly
      constructed session with the same configuration. */
  lemma DisconnectResets(s: Session, ops: seq<Op>)
    ensures var anew := Fresh(s.att, s.interval, s.opts);
            && Outputs(Disconnect(s).s, ops) == Outputs(anew, ops)
            && Returns(Disconnect(s).s, ops) == Returns(anew, ops)
  {
    SameOutputs(Disconnect(s).s, Fresh(s.att, s.interval, s.opts), ops);
  }
}
