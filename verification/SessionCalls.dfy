/** What each public call of a session answers and reports, in plain terms. */
module SessionCalls {
  import opened Bytes
  import opened Millis
  import opened Sequences
  import opened Framing
  import opened FramingProofs
  import opened FramingWire
  import opened Correlation
  import opened Queue
  import opened QueuePass
  import opened Reentrancy
  import opened QueueExpiry
  import opened QueueAnswers
  import opened Session
  import opened SessionHistory
  import Query

  // --- Submissions --------------------------------------------------------

  /** The command that a submission hands to the queue. */
  function Handed(id: nat, payload: Octets, priority: Priority, now: Time): Entry {
    Entry(id, payload, priority, id, now, 0)
  }

  /** `r` is how a session answers the submission of `e`. */
  ghost predicate Answers(s: Session, r: Step, e: Entry) {
    && (r.result <==> !Outstanding(s.queue, e.id))
    && (!r.result ==> r.s == s && r.events == [Finished(e, Rejected, [])])
    && (r.result ==> e in r.s.queue.pending || e.(sentAt := e.queuedAt) in r.s.queue.inFlight)
  }

  lemma AnswersOnQueue(s: Session, c: Call)
    requires Sound(s.queue) && c.SubmitCall?
    ensures Answers(s, OnQueue(s, c), NewEntry(c))
  {
    SubmitAnswers(s.queue, NewEntry(c));
    var e := NewEntry(c);
    assert Relay(s.att, [Completed(e, Rejected, [])]) == [Finished(e, Rejected, [])];
  }

  /** A plain submission: refused without a report if empty; otherwise handed over
      under channel and leading byte, and answered like that. */
  lemma PlainAnswers(s: Session, channel: Channel, payload: Octets, priority: Priority, now: Time)
    requires Sound(s.queue)
    ensures var r := Run(s, SubmitOp(channel, payload, priority, now));
            if payload == [] then r == Step(s, [], false)
            else Answers(s, r, Handed(channel as int * 256 + payload[0], payload, priority, now))
  {
    if payload != [] {
      AnswersOnQueue(s, QueueCalls(s, SubmitOp(channel, payload, priority, now))[0]);
    }
  }

  /** A protobuf submission: the two header bytes, then the message, under bit 24,
      channel, feature, and the action with its top bit set. */
  lemma ProtobufAnswers(s: Session, channel: Channel, feature: Byte, action: Byte, message: Octets,
                        priority: Priority, now: Time)
    requires Sound(s.queue)
    ensures var id := 0x100_0000 + channel as int * 0x1_0000 + feature as int * 0x100 + 128 + action % 128;
            Answers(s, Run(s, ProtobufOp(channel, feature, action, message, priority, now)),
                    Handed(id, [feature, action] + message, priority, now))
  {
    AnswersOnQueue(s, QueueCalls(s, ProtobufOp(channel, feature, action, message, priority, now))[0]);
  }

  // --- Feeding ------------------------------------------------------------

  /** A packet that completes no message is answered by its error, if it has one,
      and by nothing else; on a channel beyond the four it is not even looked at.
      Only the channel's own receiver is touched. */
  lemma FeedAnswers(s: Session, channel: Channel, packet: Octets, now: Time)
    ensures var r := Run(s, FeedOp(channel, packet, now));
            if channel >= 4 then r == Step(s, [], true)
            else
              var fed := Feed(s.rx[channel], packet);
              && (fed.result == NeedMore ==> r == Step(s.(rx := s.rx[channel := fed.rx]), [], true))
              && (fed.result !in {NeedMore, Complete} ==>
                    r == Step(s.(rx := s.rx[channel := IDLE]), [FrameFailed(channel, fed.result)], true))
  {
    if channel < 4 {
      ErrorsIdle(s.rx[channel], packet);
    }
  }

  lemma ErrorsIdle(r: Rx, packet: Octets)
    ensures Feed(r, packet).result !in {NeedMore, Complete} ==> Feed(r, packet).rx == IDLE
  {
  }

  // --- Disconnecting ------------------------------------------------------

  /** A disconnect reports every outstanding command as canceled, those in flight
      first, and then the loss of readiness if the session was ready. */
  lemma DisconnectReports(s: Session)
    ensures Run(s, DisconnectOp).events
         == CanceledReports(s.queue.inFlight + s.queue.pending)
            + if s.readiness.Ready() then [ReadyChanged(false)] else []
    ensures var r := Run(s, DisconnectOp).s;
            && r.queue.pending == [] && r.queue.inFlight == [] && !r.queue.ready
            && r.readiness == Query.UNKNOWN && r.rx == ALL_IDLE && !r.started
  {
    RelayCancels(s.att, s.queue.inFlight + s.queue.pending);
  }

  function CanceledReports(es: seq<Entry>): (reports: seq<Callback>)
    ensures |reports| == |es|
    ensures forall k :: 0 <= k < |es| ==> reports[k] == Finished(es[k], Canceled, [])
  {
    if es == [] then [] else [Finished(es[0], Canceled, [])] + CanceledReports(es[1..])
  }

  lemma {:induction false} RelayCancels(att: nat, es: seq<Entry>)
    ensures Relay(att, Completions(es, Canceled, [])) == CanceledReports(es)
  {
    if es != [] {
      RelayCancels(att, es[1..]);
    }
  }

  // --- The ATT payload ----------------------------------------------------

  /** The payload size in effect: the latest one set that is at least 20. */
  function AttInEffect(att: nat, ops: seq<Op>): nat {
    if ops == [] then att
    else
      match ops[|ops| - 1]
      case AttOp(bytes) => if bytes >= 20 then bytes else AttInEffect(att, ops[..|ops| - 1])
      case _ => AttInEffect(att, ops[..|ops| - 1])
  }

  lemma OthersKeepAtt(s: Session, op: Op)
    requires !op.AttOp?
    ensures Run(s, op).s.att == s.att
  {
    if op.FeedOp? && HeardIn(s, op) != [] {
      DeliveryKeepsAtt(s.(rx := s.rx[op.channel := IDLE]), op.channel, HeardIn(s, op)[0].message, op.now);
    }
  }

  lemma DeliveryKeepsAtt(s: Session, channel: Channel, message: Octets, now: Time)
    ensures Deliver(s, channel, message, now).s.att == s.att
  {
  }

  lemma {:induction false} RunAtt(att: nat, interval: nat, opts: Options, ops: seq<Op>)
    ensures After(Start(att, interval, opts), ops).s.att == AttInEffect(att, ops)
  {
    if ops != [] {
      var front, op := ops[..|ops| - 1], ops[|ops| - 1];
      RunAtt(att, interval, opts, front);
      if !op.AttOp? {
        OthersKeepAtt(After(Start(att, interval, opts), front).s, op);
      }
    }
  }

  /** `packets` fill the ATT payload `att` one after the other. */
  predicate Fills(packets: seq<Octets>, att: nat) {
    && (forall k :: 0 <= k < |packets| ==> |packets[k]| <= att)
    && (forall k :: 0 <= k < |packets| - 1 ==> |packets[k]| == att)
  }

  lemma SentFills(att: nat, e: Event)
    ensures RelayOne(att, e).Sent? ==> Fills(RelayOne(att, e).packets, att)
  {
    if e.Wrote? && Sendable(e.entry.payload, att) {
      PacketsFill(e.entry.payload, att);
      PacketCount(e.entry.payload, att);
    }
  }

  /** Over every run, every command goes out in packets of the size in effect
      when it is sent. */
  lemma PacketsFillAtt(att: nat, interval: nat, opts: Options, ops: seq<Op>, op: Op)
    ensures forall x :: x in Run(After(Start(att, interval, opts), ops).s, op).events && x.Sent? ==>
              Fills(x.packets, AttInEffect(att, ops))
  {
    var s := After(Start(att, interval, opts), ops).s;
    RunAtt(att, interval, opts, ops);
    OpIsQueueRun(s, op);
    EmbeddedMembers(s.att, Run(s, op).events, CallEvents(s.opts, s.queue, QueueCalls(s, op)));
    forall x | x in Run(s, op).events && x.Sent?
      ensures Fills(x.packets, s.att)
    {
      var e :| e in CallEvents(s.opts, s.queue, QueueCalls(s, op)) && x == RelayOne(s.att, e);
      SentFills(s.att, e);
    }
  }

  // --- Timeouts -----------------------------------------------------------

  lemma CallTimesOut(opts: Options, q: State, c: Call, e: Entry, data: Octets)
    requires Sound(q) && Completed(e, TimedOut, data) in Apply(opts, q, c).events
    ensures c.TickCall? && IsDue(opts, q, c.now, e) && data == []
  {
    OpeningKeepsSound(opts, q, c);
    match c
    case SubmitCall(_, _, _, _, _) =>
      if !IsDuplicate(q, c.id) {
        PumpMoves(Enqueue(q, NewEntry(c)), c.now);
      }
    case ReadyCall(ready, now) =>
      if ready {
        PumpMoves(q.(ready := true), now);
      }
    case RespondCall(id, _, now) =>
      var k := IndexOf(q.inFlight, id);
      if k < |q.inFlight| {
        PumpMoves(q.(inFlight := RemoveAt(q.inFlight, k)), now);
      }
    case TickCall(now) => TimedOutIff(opts, q, now, e);
    case CancelCall => CompletionsOf(q.inFlight + q.pending, Canceled, []);
  }

  /** Over every run: a session reports a command as timed out only in a tick that
      finds it due, in flight for the write timeout or pending for the queue
      timeout, and then with no data. */
  lemma NeverReportsEarly(att: nat, interval: nat, opts: Options, ops: seq<Op>, op: Op, e: Entry, data: Octets)
    requires Finished(e, TimedOut, data) in Run(After(Start(att, interval, opts), ops).s, op).events
    ensures op.TickOp? && data == [] && IsDue(opts, After(Start(att, interval, opts), ops).s.queue, op.now, e)
  {
    var s := After(Start(att, interval, opts), ops).s;
    EveryRunConsistent(att, interval, opts, ops);
    TimesOutInTick(s, op, e, data);
  }

  lemma TimesOutInTick(s: Session, op: Op, e: Entry, data: Octets)
    requires Sound(s.queue) && Finished(e, TimedOut, data) in Run(s, op).events
    ensures op.TickOp? && data == [] && IsDue(s.opts, s.queue, op.now, e)
  {
    var calls, q := QueueCalls(s, op), s.queue;
    OpIsQueueRun(s, op);
    EmbeddedMembers(s.att, Run(s, op).events, CallEvents(s.opts, q, calls));
    var ev :| ev in CallEvents(s.opts, q, calls) && Finished(e, TimedOut, data) == RelayOne(s.att, ev);
    assert ev == Completed(e, TimedOut, data);
    OnlyTicksTick(s, op);
    CallsTimeOut(s.opts, q, calls, e, data);
  }

  /** Only a tick ticks the queue, and that first. */
  lemma OnlyTicksTick(s: Session, op: Op)
    ensures var calls := QueueCalls(s, op);
            && (forall k :: 0 <= k < |calls| && calls[k].TickCall? ==> k == 0 && op.TickOp? && calls[0].now == op.now)
  {
  }

  lemma CallsTimeOut(opts: Options, q: State, calls: seq<Call>, e: Entry, data: Octets)
    requires Sound(q) && |calls| <= 2 && (|calls| == 2 ==> !calls[1].TickCall?)
    requires Completed(e, TimedOut, data) in CallEvents(opts, q, calls)
    ensures |calls| >= 1 && calls[0].TickCall? && IsDue(opts, q, calls[0].now, e) && data == []
  {
    if |calls| == 1 {
      assert calls == [calls[0]];
      CallAlone(opts, q, calls[0]);
      CallTimesOut(opts, q, calls[0], e, data);
    } else if |calls| == 2 {
      assert calls == [calls[0], calls[1]];
      CallThen(opts, q, calls[0], calls[1]);
      GateUnmoved(opts, q, calls[0]);
      SecondIsQuiet(opts, Apply(opts, q, calls[0]).q, calls[1], e, data);
      CallTimesOut(opts, q, calls[0], e, data);
    }
  }

  lemma SecondIsQuiet(opts: Options, q: State, c: Call, e: Entry, data: Octets)
    requires Sound(q) && !c.TickCall?
    ensures Completed(e, TimedOut, data) !in Apply(opts, q, c).events
  {
    if Completed(e, TimedOut, data) in Apply(opts, q, c).events {
      CallTimesOut(opts, q, c, e, data);
    }
  }
}
