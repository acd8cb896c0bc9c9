/** The composed BLE control plane: native/src/ble_session.cpp.

    `Session` is the value of the object's fields and `Step` what one public
    call does to it; class `BleSession` has the original's control flow over the
    component objects and is proved equal to that. */
module Session {
  import opened Bytes
  import opened Millis
  import opened Sequences
  import opened Framing
  import opened Correlation
  import opened Queue
  import Query

  const LED_SETTING: Byte := 91
  const KEEP_ALIVE_VALUE: Byte := 66
  const KEEP_ALIVE_PAYLOAD: Octets := [91, 1, 66]

  /** One reassembler per channel. */
  type Receivers = r: seq<Rx> | |r| == CHANNEL_COUNT witness [IDLE, IDLE, IDLE, IDLE]

  const ALL_IDLE: Receivers := [IDLE, IDLE, IDLE, IDLE]

  datatype Session = Session(
    att: nat, interval: nat, opts: Options,
    rx: Receivers, queue: State, readiness: Query.Readiness,
    lastKeepAlive: Time, started: bool)

  /** The calls that the session makes on its owner, in order. `Sent` is one
      command going out: a write callback for each of its packets. */
  datatype Callback =
    | Sent(entry: Entry, channel: Channel, packets: seq<Octets>)
    | Finished(entry: Entry, outcome: Outcome, response: Octets)
    | Pushed(channel: Channel, parsed: Query.Response, message: Octets)
    | ReadyChanged(ready: bool)
    | FrameFailed(channel: Channel, error: FeedResult)

  /** What a public call leaves behind, the callbacks it made, and the value it
      returned. */
  datatype Step = Step(s: Session, events: seq<Callback>, result: bool)

  function Fresh(att: nat, interval: nat, opts: Options): Session {
    Session(att, interval, opts, ALL_IDLE, EMPTY, Query.UNKNOWN, 0, false)
  }

  // --- Relaying the queue's callbacks -------------------------------------

  function RelayOne(att: nat, e: Event): Callback {
    match e
    case Wrote(entry) => Sent(entry, ChannelOf(entry.id), Fragments(entry.payload, att))
    case Completed(entry, outcome, response) => Finished(entry, outcome, response)
  }

  function Relay(att: nat, events: seq<Event>): seq<Callback> {
    if events == [] then [] else [RelayOne(att, events[0])] + Relay(att, events[1..])
  }

  lemma RelayNext(att: nat, calls: seq<Event>, k: nat, before: seq<Callback>)
    requires k < |calls|
    ensures before + Relay(att, calls[k..]) == (before + [RelayOne(att, calls[k])]) + Relay(att, calls[k + 1..])
  {
    assert calls[k..][0] == calls[k] && calls[k..][1..] == calls[k + 1..];
  }

  /** A call on the queue, with its callbacks relayed. */
  function OnQueue(s: Session, c: Call): Step {
    var r := Apply(s.opts, s.queue, c);
    Step(s.(queue := r.q), Relay(s.att, r.events), r.result)
  }

  // --- The operations -----------------------------------------------------

  /** The id that a message resolves: the wide one if that is in flight. */
  function ResponseId(q: State, channel: Channel, message: Octets): nat {
    if |message| >= 2 && HasId(q.inFlight, WideId(channel, message[0], message[1]))
    then WideId(channel, message[0], message[1])
    else CorrelationOf(channel, if message == [] then 0 else message[0])
  }

  function Deliver(s: Session, channel: Channel, message: Octets, now: Time): Step {
    var r := OnQueue(s, RespondCall(ResponseId(s.queue, channel, message), message, now));
    var f := if r.result then FoldReply(r.s, message, now) else FoldPush(r.s, channel, message, now);
    Step(f.s, r.events + f.events, true)
  }

  /** A reply: the queue has already pumped when readiness is folded in. */
  function FoldReply(s: Session, message: Octets, now: Time): Step {
    var after := Query.FoldMessage(s.readiness, message);
    var s1 := s.(readiness := after);
    if after.Ready() == s.readiness.Ready() then Step(s1, [], true)
    else
      var gate := OnQueue(s1, ReadyCall(after.Ready(), now));
      Step(gate.s, [ReadyChanged(after.Ready())] + gate.events, true)
  }

  /** A push: readiness is folded in before anything is sent. */
  function FoldPush(s: Session, channel: Channel, message: Octets, now: Time): Step {
    var after := Query.FoldMessage(s.readiness, message);
    var s1 := s.(readiness := after);
    var push := [Pushed(channel, Query.Parse(message).response, message)];
    if after.Ready() == s.readiness.Ready() then Step(s1, push, true)
    else
      var gate := OnQueue(s1, ReadyCall(after.Ready(), now));
      Step(gate.s, gate.events + [ReadyChanged(after.Ready())] + push, true)
  }

  function Receive(s: Session, channel: Channel, packet: Octets, now: Time): Step {
    if channel >= CHANNEL_COUNT then Step(s, [], true)
    else
      var fed := Feed(s.rx[channel], packet);
      if fed.result == Complete then Deliver(s.(rx := s.rx[channel := IDLE]), channel, fed.rx.buf, now)
      else Step(s.(rx := s.rx[channel := fed.rx]),
                if fed.result == NeedMore then [] else [FrameFailed(channel, fed.result)], true)
  }

  function SubmitPlain(s: Session, channel: Channel, payload: Octets, priority: Priority, now: Time): Step {
    if payload == [] then Step(s, [], false)
    else
      var id := CorrelationOf(channel, payload[0]);
      OnQueue(s, SubmitCall(id, payload, priority, id, now))
  }

  function SubmitProtobuf(s: Session, channel: Channel, feature: Byte, action: Byte, message: Octets,
                          priority: Priority, now: Time): Step
  {
    var id := CorrelationOfProtobuf(channel, feature, action);
    OnQueue(s, SubmitCall(id, [feature, action] + message, priority, id, now))
  }

  /** Whether a tick tries to send a keep-alive. */
  predicate Due(s: Session, now: Time) {
    s.started && Elapsed(now, s.lastKeepAlive) >= s.interval
  }

  function DoTick(s: Session, now: Time): Step {
    var r := OnQueue(s, TickCall(now));
    if !s.started then Step(r.s.(started := true, lastKeepAlive := now), r.events, true)
    else if !Due(s, now) then Step(r.s, r.events, true)
    else
      var ka := SubmitPlain(r.s.(lastKeepAlive := now), SETTINGS, KEEP_ALIVE_PAYLOAD, KeepAlive, now);
      Step(ka.s, r.events + ka.events, true)
  }

  function SetAtt(s: Session, bytes: nat): Session {
    if bytes >= MIN_ATT_PAYLOAD then s.(att := bytes) else s
  }

  function Disconnect(s: Session): Step {
    var r := OnQueue(s.(rx := ALL_IDLE), CancelCall);
    var s1 := OnQueue(r.s.(readiness := Query.UNKNOWN), ReadyCall(false, 0)).s;
    Step(s1.(started := false), r.events + if s.readiness.Ready() then [ReadyChanged(false)] else [], true)
  }

  datatype Op =
    | FeedOp(channel: Channel, packet: Octets, now: Time)
    | SubmitOp(channel: Channel, payload: Octets, priority: Priority, now: Time)
    | ProtobufOp(channel: Channel, feature: Byte, action: Byte, message: Octets, priority: Priority, now: Time)
    | TickOp(now: Time)
    | AttOp(bytes: nat)
    | DisconnectOp

  function Run(s: Session, op: Op): Step {
    match op
    case FeedOp(channel, packet, now) => Receive(s, channel, packet, now)
    case SubmitOp(channel, payload, priority, now) => SubmitPlain(s, channel, payload, priority, now)
    case ProtobufOp(channel, feature, action, message, priority, now) =>
      SubmitProtobuf(s, channel, feature, action, message, priority, now)
    case TickOp(now) => DoTick(s, now)
    case AttOp(bytes) => Step(SetAtt(s, bytes), [], true)
    case DisconnectOp => Disconnect(s)
  }

  // --- The object ---------------------------------------------------------

  class BleSession {
    const opts: Options
    const interval: nat
    const rx: seq<Reassembler>
    const queue: CommandQueue
    const ready: Query.ReadyState
    var att: nat
    var lastKeepAlive: Time
    var started: bool

    /** Every callback made so far, in order. */
    var events: seq<Callback>

    /** How many of the queue's callbacks have been relayed. */
    var relayed: nat

    ghost function Repr(): set<object> {
      {this, queue, ready} + set r | r in rx
    }

    ghost predicate Apart() {
      && |rx| == CHANNEL_COUNT
      && (forall i, j :: 0 <= i < j < |rx| ==> rx[i] != rx[j])
      && queue.opts == opts
    }

    ghost predicate Valid()
      reads Repr()
    {
      Apart() && Sound(queue.Value()) && relayed == |queue.calls|
    }

    ghost function Value(): (s: Session)
      requires Apart()
      reads Repr()
    {
      Session(att, interval, opts, [rx[0].State(), rx[1].State(), rx[2].State(), rx[3].State()],
              queue.Value(), ready.State(), lastKeepAlive, started)
    }

    constructor (att: nat, interval: nat, opts: Options)
      ensures Valid() && fresh(Repr()) && Value() == Fresh(att, interval, opts) && events == []
    {
      this.opts, this.interval, this.att := opts, interval, att;
      var r0 := new Reassembler();
      var r1 := new Reassembler();
      var r2 := new Reassembler();
      var r3 := new Reassembler();
      rx := [r0, r1, r2, r3];
      queue := new CommandQueue(opts);
      ready := new Query.ReadyState();
      lastKeepAlive, started := 0, false;
      events, relayed := [], 0;
    }

    /** The constructor's write lambda, and the completion lambda of `enqueue`. */
    method RelayCall(e: Event)
      modifies this`events
      ensures events == old(events) + [RelayOne(att, e)]
    {
      match e {
        case Wrote(entry) =>
          var packets := Fragment(entry.payload, att);
          events := events + [Sent(entry, ChannelOf(entry.id), packets)];
        case Completed(entry, outcome, response) =>
          events := events + [Finished(entry, outcome, response)];
      }
    }

    /** Relays every callback the queue has made since the last time. */
    method RelayNew()
      requires relayed <= |queue.calls|
      modifies this`events, this`relayed
      ensures relayed == |queue.calls|
      ensures events == old(events) + Relay(att, queue.calls[old(relayed)..])
    {
      var calls, k := queue.calls, relayed;
      while k < |calls|
        invariant relayed <= k <= |calls|
        invariant events + Relay(att, calls[k..]) == old(events) + Relay(att, calls[old(relayed)..])
      {
        RelayNext(att, calls, k, events);
        RelayCall(calls[k]);
        k := k + 1;
      }
      relayed := k;
    }

    method SetAttPayload(bytes: nat)
      requires Valid()
      modifies this`att
      ensures Valid() && Value() == SetAtt(old(Value()), bytes)
    {
      if bytes >= MIN_ATT_PAYLOAD {
        att := bytes;
      }
    }

    method DoEnqueue(id: nat, payload: Octets, priority: Priority, now: Time) returns (accepted: bool)
      requires Valid()
      modifies this`events, this`relayed, queue
      ensures Valid()
      ensures var r := OnQueue(old(Value()), SubmitCall(id, payload, priority, id, now));
              Value() == r.s && events == old(events) + r.events && accepted == r.result
    {
      accepted := queue.DoSubmit(id, payload, priority, id, now);
      RelayNew();
    }

    method DoSubmit(channel: Channel, payload: Octets, priority: Priority, now: Time) returns (accepted: bool)
      requires Valid()
      modifies this`events, this`relayed, queue
      ensures Valid()
      ensures var r := SubmitPlain(old(Value()), channel, payload, priority, now);
              Value() == r.s && events == old(events) + r.events && accepted == r.result
    {
      if payload == [] {
        return false;
      }
      accepted := DoEnqueue(CorrelationOf(channel, payload[0]), payload, priority, now);
    }

    method DoSubmitProtobuf(channel: Channel, feature: Byte, action: Byte, message: Octets,
                            priority: Priority, now: Time)
      returns (accepted: bool)
      requires Valid()
      modifies this`events, this`relayed, queue
      ensures Valid()
      ensures var r := SubmitProtobuf(old(Value()), channel, feature, action, message, priority, now);
              Value() == r.s && events == old(events) + r.events && accepted == r.result
    {
      var payload := [feature, action] + message;
      accepted := DoEnqueue(CorrelationOfProtobuf(channel, feature, action), payload, priority, now);
    }

    method OpenGate(isReady: bool, now: Time)
      requires Valid()
      modifies this`events, this`relayed, queue
      ensures Valid()
      ensures var r := OnQueue(old(Value()), ReadyCall(isReady, now));
              Value() == r.s && events == old(events) + r.events
    {
      queue.DoSetReady(isReady, now);
      RelayNew();
    }

    /** `queue_.on_response` under the id chosen for `message`. */
    method Route(channel: Channel, message: Octets, now: Time) returns (handled: bool)
      requires Valid()
      modifies this`events, this`relayed, queue
      ensures Valid()
      ensures var s := old(Value());
              var r := OnQueue(s, RespondCall(ResponseId(s.queue, channel, message), message, now));
              Value() == r.s && events == old(events) + r.events && handled == r.result
    {
      var id := CorrelationOf(channel, if message == [] then 0 else message[0]);
      if |message| >= 2 {
        var wide := WideId(channel, message[0], message[1]);
        var outstanding := queue.IsInFlight(wide);
        if outstanding {
          id := wide;
        }
      }
      handled := queue.DoRespond(id, message, now);
      RelayNew();
    }

    method DoDeliver(channel: Channel, message: Octets, now: Time)
      requires Valid()
      modifies this`events, this`relayed, queue, ready
      ensures Valid()
      ensures var r := Deliver(old(Value()), channel, message, now);
              Value() == r.s && events == old(events) + r.events
    {
      var handled := Route(channel, message, now);
      ghost var s, before := Value(), events;
      if handled {
        AfterReply(message, now);
      } else {
        AfterPush(channel, message, now);
      }
      ghost var id := ResponseId(old(Value()).queue, channel, message);
      Assoc(old(events), OnQueue(old(Value()), RespondCall(id, message, now)).events,
            if handled then FoldReply(s, message, now).events else FoldPush(s, channel, message, now).events);
    }

    method AfterReply(message: Octets, now: Time)
      requires Valid()
      modifies this`events, this`relayed, queue, ready
      ensures Valid()
      ensures var r := FoldReply(old(Value()), message, now);
              Value() == r.s && events == old(events) + r.events
    {
      var parsed, changed := FoldIn(message);
      if changed {
        events := events + [ReadyChanged(ready.State().Ready())];
        OpenGate(ready.State().Ready(), now);
      }
    }

    /** Parses a message and applies it to the readiness, as both paths of
        `deliver` do. */
    method FoldIn(message: Octets) returns (parsed: Query.Response, changed: bool)
      modifies ready
      ensures parsed == Query.Parse(message).response
      ensures ready.State() == Query.FoldMessage(old(ready.State()), message)
      ensures changed <==> ready.State().Ready() != old(ready.State()).Ready()
    {
      var result;
      result, parsed := Query.ParseQuery(message);
      changed := false;
      if result == Query.Ok {
        changed := ready.Apply(parsed);
      }
    }

    method AfterPush(channel: Channel, message: Octets, now: Time)
      requires Valid()
      modifies this`events, this`relayed, queue, ready
      ensures Valid()
      ensures var r := FoldPush(old(Value()), channel, message, now);
              Value() == r.s && events == old(events) + r.events
    {
      var parsed, changed := FoldIn(message);
      ghost var folded := old(Value()).(readiness := Query.FoldMessage(old(Value()).readiness, message));
      assert Value() == folded;
      if changed {
        OpenGate(ready.State().Ready(), now);
        events := events + [ReadyChanged(ready.State().Ready())];
      }
      events := events + [Pushed(channel, parsed, message)];
    }

    /** Feeds one reassembler, and takes the message out if it is complete. */
    method FeedChannel(channel: Channel, packet: Octets) returns (result: FeedResult, message: Octets)
      requires Valid() && channel < CHANNEL_COUNT
      modifies set r | r in rx
      ensures Valid()
      ensures var fed := Feed(old(Value()).rx[channel], packet);
              && result == fed.result
              && (result == Complete ==> message == fed.rx.buf)
              && Value() == old(Value()).(rx := old(Value()).rx[channel := if result == Complete then IDLE else fed.rx])
    {
      message := [];
      result := rx[channel].FeedPacket(packet);
      if result == Complete {
        message := rx[channel].Take();
      }
    }

    method DoFeed(channel: Channel, packet: Octets, now: Time)
      requires Valid()
      modifies Repr()
      ensures Valid()
      ensures var r := Receive(old(Value()), channel, packet, now);
              Value() == r.s && events == old(events) + r.events
    {
      if channel >= CHANNEL_COUNT {
        return;
      }
      var result, message := FeedChannel(channel, packet);
      match result
      case NeedMore =>
      case Complete => DoDeliver(channel, message, now);
      case _ =>
        events := events + [FrameFailed(channel, result)];
    }

    method Tick(now: Time)
      requires Valid()
      modifies this, queue
      ensures Valid()
      ensures var r := DoTick(old(Value()), now);
              Value() == r.s && events == old(events) + r.events
    {
      TickQueue(now);
      if !started {
        started := true;
        lastKeepAlive := now;
        return;
      }
      if Elapsed(now, lastKeepAlive) < interval {
        return;
      }
      lastKeepAlive := now;
      ghost var s := Value();
      var accepted := DoSubmit(SETTINGS, [LED_SETTING, 1, KEEP_ALIVE_VALUE], KeepAlive, now);
      Assoc(old(events), OnQueue(old(Value()), TickCall(now)).events,
            SubmitPlain(s, SETTINGS, KEEP_ALIVE_PAYLOAD, KeepAlive, now).events);
    }

    method TickQueue(now: Time)
      requires Valid()
      modifies this`events, this`relayed, queue
      ensures Valid()
      ensures var r := OnQueue(old(Value()), TickCall(now));
              Value() == r.s && events == old(events) + r.events
    {
      queue.DoTick(now);
      RelayNew();
    }

    method ResetReceivers()
      requires Valid()
      modifies set r | r in rx
      ensures Valid() && Value() == old(Value()).(rx := ALL_IDLE)
    {
      for i := 0 to |rx|
        invariant Valid()
        invariant forall j :: 0 <= j < i ==> rx[j].State() == IDLE
      {
        rx[i].Reset();
      }
    }

    method CancelQueue()
      requires Valid()
      modifies this`events, this`relayed, queue
      ensures Valid()
      ensures var r := OnQueue(old(Value()), CancelCall);
              Value() == r.s && events == old(events) + r.events
    {
      queue.DoCancelAll();
      RelayNew();
    }

    method OnDisconnect()
      requires Valid()
      modifies Repr()
      ensures Valid()
      ensures var r := Disconnect(old(Value()));
              Value() == r.s && events == old(events) + r.events
    {
      ResetReceivers();
      CancelQueue();
      var was := ready.State().Ready();
      ready.Reset();
      OpenGate(false, 0);
      if was {
        events := events + [ReadyChanged(false)];
      }
      started := false;
    }
  }
}
