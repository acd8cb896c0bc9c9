/** What a session puts on the wire and takes off it, channel by channel. */
module SessionWire {
  import opened Bytes
  import opened Millis
  import opened Sequences
  import opened Framing
  import opened FramingProofs
  import opened Correlation
  import opened Queue
  import opened Reentrancy
  import opened Session
  import opened SessionHistory
  import Query

  // --- Outgoing -----------------------------------------------------------

  /** Every packet written on a channel, in order. */
  function ChannelPackets(log: seq<Callback>, channel: Channel): seq<Octets> {
    if log == [] then []
    else (if log[0].Sent? && log[0].channel == channel then log[0].packets else []) + ChannelPackets(log[1..], channel)
  }

  /** The payloads of the commands that the queue sent on a channel, in send
      order, leaving out those too long to be framed at all. */
  function SentPayloads(log: seq<Callback>, channel: Channel): seq<Octets> {
    if log == [] then []
    else
      (if log[0].Sent? && ChannelOf(log[0].entry.id) == channel && 0 < |log[0].entry.payload| <= MAX_MESSAGE_LEN
       then [log[0].entry.payload] else [])
      + SentPayloads(log[1..], channel)
  }

  /** The command went out on the channel of its id, in packets of some size
      that leaves room beyond every header. */
  ghost predicate Framed(x: Callback) {
    x.Sent? ==>
      && x.channel == ChannelOf(x.entry.id)
      && exists att: nat :: att >= 4 && x.packets == Fragments(x.entry.payload, att)
  }

  lemma FramedDelivers(r: Rx, x: Callback)
    requires x.Sent? && Framed(x)
    ensures Messages(r, x.packets) == if 0 < |x.entry.payload| <= MAX_MESSAGE_LEN then [x.entry.payload] else []
  {
    var att: nat :| att >= 4 && x.packets == Fragments(x.entry.payload, att);
    if 0 < |x.entry.payload| <= MAX_MESSAGE_LEN {
      Recovery(r, [], x.entry.payload, att);
      assert [] + x.packets == x.packets;
    }
  }

  /** Whoever listens to a channel, from whatever state, reassembles exactly the
      payloads that the queue sent on it, in order. */
  lemma {:induction false} WireRefinement(r: Rx, log: seq<Callback>, channel: Channel)
    requires forall x :: x in log ==> Framed(x)
    ensures Messages(r, ChannelPackets(log, channel)) == SentPayloads(log, channel)
    decreases |log|
  {
    if log != [] {
      var x, rest := log[0], ChannelPackets(log[1..], channel);
      var packets := if x.Sent? && x.channel == channel then x.packets else [];
      if x.Sent? {
        FramedDelivers(r, x);
      }
      StreamAppend(r, packets, rest);
      WireRefinement(ListenAll(r, packets), log[1..], channel);
    }
  }

  lemma {:induction false} RelayFramed(att: nat, events: seq<Event>)
    requires att >= 4
    ensures forall x :: x in Relay(att, events) ==> Framed(x)
  {
    if events != [] {
      RelayFramed(att, events[1..]);
      var x := RelayOne(att, events[0]);
      assert x.Sent? ==> x.packets == Fragments(x.entry.payload, att);
    }
  }

  lemma OpFramed(s: Session, op: Op)
    requires s.att >= 4
    ensures Run(s, op).s.att >= 4
    ensures forall x :: x in Run(s, op).events ==> Framed(x)
  {
    match op
    case FeedOp(channel, packet, now) =>
      if HeardIn(s, op) != [] {
        DeliveryFramed(s.(rx := s.rx[channel := IDLE]), channel, HeardIn(s, op)[0].message, now);
      }
    case SubmitOp(_, payload, _, _) =>
      if payload != [] {
        RelayFramed(s.att, Apply(s.opts, s.queue, QueueCalls(s, op)[0]).events);
      }
    case ProtobufOp(_, _, _, _, _, _) =>
      RelayFramed(s.att, Apply(s.opts, s.queue, QueueCalls(s, op)[0]).events);
    case TickOp(now) =>
      RelayFramed(s.att, Apply(s.opts, s.queue, TickCall(now)).events);
      RelayFramed(s.att, Apply(s.opts, Apply(s.opts, s.queue, TickCall(now)).q, KeepAliveCall(now)).events);
    case AttOp(_) =>
    case DisconnectOp =>
      RelayFramed(s.att, Apply(s.opts, s.queue, CancelCall).events);
  }

  lemma DeliveryFramed(s: Session, channel: Channel, message: Octets, now: Time)
    requires s.att >= 4
    ensures Deliver(s, channel, message, now).s.att == s.att
    ensures forall x :: x in Deliver(s, channel, message, now).events ==> Framed(x)
  {
    var c := RespondCall(ResponseId(s.queue, channel, message), message, now);
    var r := OnQueue(s, c);
    var after := Query.FoldMessage(s.readiness, message);
    RelayFramed(s.att, Apply(s.opts, s.queue, c).events);
    RelayFramed(s.att, Apply(s.opts, r.s.queue, ReadyCall(after.Ready(), now)).events);
  }

  lemma {:induction false} RunFramed(att: nat, interval: nat, opts: Options, ops: seq<Op>)
    requires att >= 4
    ensures var h := After(Start(att, interval, opts), ops);
            h.s.att >= 4 && forall x :: x in h.log ==> Framed(x)
  {
    if ops != [] {
      RunFramed(att, interval, opts, ops[..|ops| - 1]);
      OpFramed(After(Start(att, interval, opts), ops[..|ops| - 1]).s, ops[|ops| - 1]);
    }
  }

  // --- Submissions --------------------------------------------------------

  /** A command as the caller, or the keep-alive timer, handed it in. */
  datatype Submission = Submission(channel: Channel, entry: Entry)

  function SubmissionFor(channel: Channel, q: State, c: Call): seq<Submission> {
    if Accepts(q, c) == [] then [] else [Submission(channel, Accepts(q, c)[0])]
  }

  /** What an operation submits and the queue accepts. */
  function Submitted(s: Session, op: Op): seq<Submission> {
    match op
    case SubmitOp(channel, payload, _, _) =>
      if payload == [] then [] else SubmissionFor(channel, s.queue, QueueCalls(s, op)[0])
    case ProtobufOp(channel, _, _, _, _, _) => SubmissionFor(channel, s.queue, QueueCalls(s, op)[0])
    case TickOp(now) =>
      if !Due(s, now) then []
      else SubmissionFor(SETTINGS, Apply(s.opts, s.queue, TickCall(now)).q, KeepAliveCall(now))
    case _ => []
  }

  function Submissions(h: History, ops: seq<Op>): seq<Submission> {
    if ops == [] then []
    else
      var front := ops[..|ops| - 1];
      Submissions(h, front) + Submitted(After(h, front).s, ops[|ops| - 1])
  }

  function EntriesOf(subs: seq<Submission>): seq<Entry> {
    if subs == [] then [] else EntriesOf(subs[..|subs| - 1]) + [subs[|subs| - 1].entry]
  }

  function AcceptedIn(opts: Options, q: State, calls: seq<Call>): seq<Entry>
    decreases |calls|
  {
    if calls == [] then [] else Accepts(q, calls[0]) + AcceptedIn(opts, Apply(opts, q, calls[0]).q, calls[1..])
  }

  lemma AcceptedByTwo(opts: Options, m: Machine, calls: seq<Call>)
    requires |calls| <= 2
    ensures AfterCalls(opts, m, calls).accepted == m.accepted + AcceptedIn(opts, m.q, calls)
  {
    if |calls| == 0 {
      assert m.accepted + [] == m.accepted;
    } else if |calls| == 1 {
      assert calls == [calls[0]];
      AfterOne(opts, m, calls[0]);
      assert AcceptedIn(opts, m.q, calls) == Accepts(m.q, calls[0]);
    } else {
      var q1 := Apply(opts, m.q, calls[0]).q;
      assert calls == [calls[0], calls[1]] && calls[1..] == [calls[1]];
      AfterTwo(opts, m, calls[0], calls[1]);
      assert AcceptedIn(opts, q1, [calls[1]]) == Accepts(q1, calls[1]);
      Assoc(m.accepted, Accepts(m.q, calls[0]), Accepts(q1, calls[1]));
    }
  }

  lemma SubmissionOf(channel: Channel, q: State, c: Call)
    requires c.SubmitCall? && ChannelOf(c.id) == channel
    ensures EntriesOf(SubmissionFor(channel, q, c)) == Accepts(q, c)
    ensures forall x :: x in SubmissionFor(channel, q, c) ==> ChannelOf(x.entry.id) == x.channel
  {
    var subs := SubmissionFor(channel, q, c);
    if subs != [] {
      assert subs[..|subs| - 1] == [];
    }
  }

  /** What is submitted on a channel carries that channel in its id. */
  lemma SubmittedIsAccepted(s: Session, op: Op)
    ensures EntriesOf(Submitted(s, op)) == AcceptedIn(s.opts, s.queue, QueueCalls(s, op))
    ensures forall x :: x in Submitted(s, op) ==> ChannelOf(x.entry.id) == x.channel
  {
    match op
    case SubmitOp(channel, payload, _, _) =>
      if payload != [] {
        ChannelRecovered(channel, payload[0], 0);
        SubmissionOf(channel, s.queue, QueueCalls(s, op)[0]);
        AcceptedAlone(s.opts, s.queue, QueueCalls(s, op)[0]);
      }
    case ProtobufOp(channel, feature, action, _, _, _) =>
      ChannelRecovered(channel, feature, ResponseAction(action));
      SubmissionOf(channel, s.queue, QueueCalls(s, op)[0]);
      AcceptedAlone(s.opts, s.queue, QueueCalls(s, op)[0]);
    case TickOp(now) =>
      ChannelRecovered(SETTINGS, LED_SETTING, 0);
      var q1 := Apply(s.opts, s.queue, TickCall(now)).q;
      SubmissionOf(SETTINGS, q1, KeepAliveCall(now));
      AcceptedAlone(s.opts, q1, KeepAliveCall(now));
      AcceptedAlone(s.opts, s.queue, TickCall(now));
      assert Due(s, now) ==> QueueCalls(s, op)[1..] == [KeepAliveCall(now)];
    case FeedOp(channel, packet, now) =>
      if HeardIn(s, op) != [] {
        DeliveryAcceptsNothing(s, channel, HeardIn(s, op)[0].message, now);
      }
    case AttOp(_) =>
    case DisconnectOp =>
      assert QueueCalls(s, op)[1..] == [ReadyCall(false, 0)];
      AcceptedAlone(s.opts, Apply(s.opts, s.queue, CancelCall).q, ReadyCall(false, 0));
  }

  lemma AcceptedAlone(opts: Options, q: State, c: Call)
    ensures AcceptedIn(opts, q, [c]) == Accepts(q, c)
  {
    assert [c][1..] == [];
  }

  lemma DeliveryAcceptsNothing(s: Session, channel: Channel, message: Octets, now: Time)
    ensures AcceptedIn(s.opts, s.queue, DeliveryCalls(s, channel, message, now)) == []
  {
    var calls := DeliveryCalls(s, channel, message, now);
    var q1 := Apply(s.opts, s.queue, calls[0]).q;
    if |calls| == 2 {
      assert calls[1..] == [calls[1]];
      AcceptedAlone(s.opts, q1, calls[1]);
    }
  }

  /** The accepted submissions of a run are those of its queue, each on the
      channel that its id says. */
  lemma {:induction false} RunSubmissions(att: nat, interval: nat, opts: Options, ops: seq<Op>)
    ensures var h := Start(att, interval, opts);
            && EntriesOf(Submissions(h, ops)) == After(h, ops).m.accepted
            && forall x :: x in Submissions(h, ops) ==> ChannelOf(x.entry.id) == x.channel
  {
    var h := Start(att, interval, opts);
    if ops != [] {
      var front, op := ops[..|ops| - 1], ops[|ops| - 1];
      var h1 := After(h, front);
      RunSubmissions(att, interval, opts, front);
      EveryRunConsistent(att, interval, opts, front);
      SubmittedIsAccepted(h1.s, op);
      OpIsQueueRun(h1.s, op);
      AcceptedByTwo(h1.s.opts, h1.m, QueueCalls(h1.s, op));
      EntriesAppend(Submissions(h, front), Submitted(h1.s, op));
    }
  }

  lemma {:induction false} EntriesAppend(a: seq<Submission>, b: seq<Submission>)
    ensures EntriesOf(a + b) == EntriesOf(a) + EntriesOf(b)
  {
    if b == [] {
      assert a + b == a;
    } else {
      assert (a + b)[..|a + b| - 1] == a + b[..|b| - 1];
      EntriesAppend(a, b[..|b| - 1]);
    }
  }

  lemma {:induction false} EntryAt(subs: seq<Submission>, k: nat)
    requires k < |EntriesOf(subs)|
    ensures k < |subs| && EntriesOf(subs)[k] == subs[k].entry
  {
    if k < |EntriesOf(subs)| - 1 {
      EntryAt(subs[..|subs| - 1], k);
    } else {
      EntriesLength(subs);
    }
  }

  lemma {:induction false} EntriesLength(subs: seq<Submission>)
    ensures |EntriesOf(subs)| == |subs|
  {
    if subs != [] {
      EntriesLength(subs[..|subs| - 1]);
    }
  }

  lemma {:induction false} SentMember(log: seq<Callback>, x: Callback)
    requires x in log && x.Sent?
    ensures x.entry in SentEntries(log)
  {
    var front, last := log[..|log| - 1], log[|log| - 1];
    assert log == front + [last];
    if x != last {
      SentMember(front, x);
    }
  }

  /** Over every run that starts with room for a header, whatever the ATT
      payload is changed to in between: on every channel a listener in any state
      reassembles exactly the payloads that the queue sent there, in send order,
      and everything sent on a channel was submitted on that channel. */
  lemma WireCarriesSubmissions(att: nat, interval: nat, opts: Options, ops: seq<Op>)
    requires att >= 4
    ensures var h := Start(att, interval, opts);
            var log := After(h, ops).log;
            && (forall r: Rx, c: Channel :: Messages(r, ChannelPackets(log, c)) == SentPayloads(log, c))
            && (forall x :: x in log && x.Sent? ==>
                  Submission(x.channel, Origin(x.entry)) in OriginalSubmissions(h, ops))
  {
    var h := Start(att, interval, opts);
    var h1, subs := After(h, ops), Submissions(h, ops);
    RunFramed(att, interval, opts, ops);
    forall r: Rx, c: Channel
      ensures Messages(r, ChannelPackets(h1.log, c)) == SentPayloads(h1.log, c)
    {
      WireRefinement(r, h1.log, c);
    }
    EveryRunConsistent(att, interval, opts, ops);
    RunSubmissions(att, interval, opts, ops);
    forall x | x in h1.log && x.Sent?
      ensures Submission(x.channel, Origin(x.entry)) in OriginalSubmissions(h, ops)
    {
      SentMember(h1.log, x);
      var i :| 0 <= i < |Written(h1.m.events)| && Written(h1.m.events)[i] == x.entry;
      CountMember(Written(h1.m.events), i);
      var k := CountWitness(h1.m.accepted, Origin(x.entry));
      EntryAt(subs, k);
      assert Framed(x);
      assert subs[k] in subs;
      assert OriginalSubmissions(h, ops)[k] == Submission(subs[k].channel, Origin(subs[k].entry));
    }
  }

  /** The submissions of a run, as they were before anything was stamped. */
  function OriginalSubmissions(h: History, ops: seq<Op>): seq<Submission> {
    var subs := Submissions(h, ops);
    seq(|subs|, i requires 0 <= i < |subs| => Submission(subs[i].channel, Origin(subs[i].entry)))
  }

  /** A command that is sent writes no packet exactly if its payload cannot be
      framed. */
  lemma OversizeWritesNothing(att: nat, e: Event)
    requires e.Wrote?
    ensures RelayOne(att, e).packets == [] <==> !Sendable(e.entry.payload, att)
  {
  }

  /** So a payload too long to be framed is treated like any other: a fresh
      session takes it, counts it as sent and in flight though nothing reaches
      the wire, and reports it as timed out at the first tick that is at least a
      write timeout later. */
  lemma OversizeTimesOut(att: nat, interval: nat, opts: Options, channel: Channel, data: Octets, sent: Time, now: Time)
    requires |data| > MAX_MESSAGE_LEN
    ensures var id := CorrelationOf(channel, data[0]);
            var e := Entry(id, data, Fastpass, id, sent, sent);
            var r := Run(Fresh(att, interval, opts), SubmitOp(channel, data, Fastpass, sent));
            && r.result && r.events == [Sent(e, channel, [])] && r.s.queue == State(false, [], [e])
            && Run(r.s, TickOp(now)).events
               == if Elapsed(now, sent) >= opts.writeTimeout then [Finished(e, TimedOut, [])] else []
  {
    var s, id := Fresh(att, interval, opts), CorrelationOf(channel, data[0]);
    var e := Entry(id, data, Fastpass, id, sent, sent);
    var r := Run(s, SubmitOp(channel, data, Fastpass, sent));
    ChannelRecovered(channel, data[0], 0);
    ExpressAlone(EMPTY, e.(sentAt := 0));
    assert r.s.queue.inFlight == [e];
    assert Relay(att, [Wrote(e)]) == [RelayOne(att, Wrote(e))];
    LoneTick(r.s, e, now);
  }

  lemma LoneTick(s: Session, e: Entry, now: Time)
    requires s.queue == State(false, [], [e]) && !s.started
    ensures Run(s, TickOp(now)).events == if WriteExpired(s.opts, now, e) then [Finished(e, TimedOut, [])] else []
  {
    FilterOne(e, x => WriteExpired(s.opts, now, x));
    FilterOne(e, x => !WriteExpired(s.opts, now, x));
    var q1 := WithoutExpired(s.opts, s.queue, now);
    assert q1.pending == [] && FirstSendable(q1, 0) == 0;
    if WriteExpired(s.opts, now, e) {
      assert Expired(s.opts, s.queue, now) == [e];
      var done := Completed(e, TimedOut, []);
      assert Completions([e], TimedOut, []) == [done] && Tick(s.opts, s.queue, now).events == [done] + [];
      assert Relay(s.att, [done]) == [RelayOne(s.att, done)];
    } else {
      assert Expired(s.opts, s.queue, now) == [];
    }
  }

  // --- Incoming -----------------------------------------------------------

  /** The packets fed on a channel since the last disconnect. */
  function PacketsSince(ops: seq<Op>, channel: Channel): seq<Octets> {
    if ops == [] then [] else PacketsWith(PacketsSince(ops[..|ops| - 1], channel), ops[|ops| - 1], channel)
  }

  function PacketsWith(before: seq<Octets>, op: Op, channel: Channel): seq<Octets> {
    match op
    case DisconnectOp => []
    case FeedOp(c, packet, _) => if c == channel then before + [packet] else before
    case _ => before
  }

  /** The messages heard on a channel since the last disconnect. */
  function HeardSince(heard: seq<Heard>, channel: Channel): seq<Octets> {
    if heard == [] then []
    else
      var before := HeardSince(heard[..|heard| - 1], channel);
      match heard[|heard| - 1]
      case Dropped => []
      case Message(c, m) => if c == channel then before + [m] else before
  }

  /** Channels do not mix: however feeds on the four channels and everything
      else interleave, a channel's receiver and its messages are those of
      feeding its own packets alone. */
  lemma {:induction false} ChannelsApart(att: nat, interval: nat, opts: Options, ops: seq<Op>, channel: Channel)
    requires channel < CHANNEL_COUNT
    ensures var h := After(Start(att, interval, opts), ops);
            ListensTo(h, channel, PacketsSince(ops, channel))
  {
    if ops != [] {
      ChannelsApart(att, interval, opts, ops[..|ops| - 1], channel);
      ChannelApartStep(After(Start(att, interval, opts), ops[..|ops| - 1]), ops[|ops| - 1],
                       PacketsSince(ops[..|ops| - 1], channel), channel);
    }
  }

  ghost predicate ListensTo(h: History, channel: Channel, packets: seq<Octets>)
    requires channel < CHANNEL_COUNT
  {
    h.s.rx[channel] == ListenAll(IDLE, packets) && HeardSince(h.heard, channel) == Messages(IDLE, packets)
  }

  lemma ChannelApartStep(h: History, op: Op, ps: seq<Octets>, channel: Channel)
    requires channel < CHANNEL_COUNT && ListensTo(h, channel, ps)
    ensures ListensTo(Next(h, op), channel, PacketsWith(ps, op, channel))
  {
    var r := h.s.rx[channel];
    RunReceivers(h.s, op);
    HeardMore(h.heard, HeardIn(h.s, op), channel);
    if op.FeedOp? && op.channel == channel {
      StreamAppend(IDLE, ps, [op.packet]);
      OnePacket(r, op.packet);
      assert Messages(IDLE, ps) + [] == Messages(IDLE, ps);
    }
  }

  lemma OnePacket(r: Rx, packet: Octets)
    ensures ListenAll(r, [packet]) == Listen(r, packet)
    ensures Messages(r, [packet]) == Delivered(r, packet)
  {
    assert [packet][1..] == [] && Delivered(r, packet) + [] == Delivered(r, packet);
  }

  lemma HeardMore(heard: seq<Heard>, more: seq<Heard>, channel: Channel)
    requires |more| <= 1
    ensures HeardSince(heard + more, channel) ==
            if more == [] then HeardSince(heard, channel)
            else if more[0].Dropped? then []
            else if more[0].channel == channel then HeardSince(heard, channel) + [more[0].message]
            else HeardSince(heard, channel)
  {
    if more == [] {
      assert heard + more == heard;
    } else {
      assert more == [more[0]] && (heard + more)[..|heard|] == heard;
    }
  }

  /** Only feeding a channel, or a disconnect, touches its receiver. */
  lemma RunReceivers(s: Session, op: Op)
    ensures Run(s, op).s.rx ==
            match op
            case DisconnectOp => ALL_IDLE
            case FeedOp(c, packet, _) => if c < CHANNEL_COUNT then s.rx[c := Listen(s.rx[c], packet)] else s.rx
            case _ => s.rx
  {
    match op
    case FeedOp(c, packet, now) =>
      if HeardIn(s, op) != [] {
        DeliveryKeepsReceivers(s.(rx := s.rx[c := IDLE]), c, HeardIn(s, op)[0].message, now);
      }
    case _ =>
  }

  lemma DeliveryKeepsReceivers(s: Session, channel: Channel, message: Octets, now: Time)
    ensures Deliver(s, channel, message, now).s.rx == s.rx
  {
  }

  /** So a feed delivers `m` exactly when its packet finishes the frame that the
      channel's latest start packet opened since the last disconnect, whatever
      arrived on the other channels, and `m` is what that frame carries. */
  lemma SessionNoSplicing(att: nat, interval: nat, opts: Options, ops: seq<Op>,
                          channel: Channel, packet: Octets, now: Time, m: Octets)
    requires channel < CHANNEL_COUNT
    ensures var ps := PacketsSince(ops, channel) + [packet];
            HeardIn(After(Start(att, interval, opts), ops).s, FeedOp(channel, packet, now)) == [Message(channel, m)]
            <==> CompletesFrame(ps, m)
  {
    ChannelsApart(att, interval, opts, ops, channel);
    HeardIsDelivered(After(Start(att, interval, opts), ops).s, channel, packet, now, m);
    NoSplicing(PacketsSince(ops, channel), packet, m);
  }

  lemma HeardIsDelivered(s: Session, channel: Channel, packet: Octets, now: Time, m: Octets)
    requires channel < CHANNEL_COUNT
    ensures HeardIn(s, FeedOp(channel, packet, now)) == [Message(channel, m)]
       <==> Delivered(s.rx[channel], packet) == [m]
  {
  }
}
