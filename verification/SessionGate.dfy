/** The ready gate over whole runs of a session. */
module SessionGate {
  import opened Bytes
  import opened Millis
  import opened Sequences
  import opened Framing
  import opened Correlation
  import opened Queue
  import opened QueuePass
  import opened Reentrancy
  import opened Session
  import opened SessionHistory
  import Query

  // --- Ordinary commands leave through an open gate -----------------------

  lemma {:induction false} PassNeedsSlot(es: seq<Entry>, free: bool)
    ensures forall x :: x in PassSends(es, free) && x.priority == Queued ==> free
  {
    if es != [] {
      PassNeedsSlot(es[1..], free);
      PassNeedsSlot(es[1..], false);
    }
  }

  ghost predicate Opens(events: seq<Event>, open: bool) {
    forall e :: e in events && e.Wrote? && e.entry.priority == Queued ==> open
  }

  lemma PumpNeedsGate(q: State, now: Time)
    requires Sound(q)
    ensures Opens(Pump(q, now).events, q.ready)
  {
    PumpIsOnePass(q, now);
    var sends := PassSends(q.pending, SlotFree(q));
    var sent := StampAll(sends, now);
    PassNeedsSlot(q.pending, SlotFree(q));
    WritesOnly(sent);
    forall e | e in Writes(sent) && e.entry.priority == Queued
      ensures q.ready
    {
      var k :| 0 <= k < |sent| && Writes(sent)[k] == e;
      assert sends[k] in sends;
    }
  }

  lemma CallNeedsGate(opts: Options, q: State, c: Call)
    requires Sound(q)
    ensures Opens(Apply(opts, q, c).events, Apply(opts, q, c).q.ready)
  {
    OpeningKeepsSound(opts, q, c);
    GateUnmoved(opts, q, c);
    match c
    case SubmitCall(_, _, _, _, _) =>
      if !IsDuplicate(q, c.id) {
        PumpNeedsGate(Enqueue(q, NewEntry(c)), c.now);
      }
    case ReadyCall(ready, now) =>
      if ready {
        PumpNeedsGate(q.(ready := true), now);
      }
    case RespondCall(id, data, now) =>
      var k := IndexOf(q.inFlight, id);
      if k < |q.inFlight| {
        PumpNeedsGate(q.(inFlight := RemoveAt(q.inFlight, k)), now);
      }
    case TickCall(now) =>
      PumpNeedsGate(WithoutExpired(opts, q, now), now);
      CompletionsOf(Expired(opts, q, now), TimedOut, []);
    case CancelCall =>
      CompletionsOf(q.inFlight + q.pending, Canceled, []);
  }

  /** Every ordinary command among `log` is there only if `open`. */
  ghost predicate SendsOrdinaryOnlyIf(log: seq<Callback>, open: bool) {
    forall x :: x in log && x.Sent? && x.entry.priority == Queued ==> open
  }

  lemma SessionCallNeedsGate(s: Session, c: Call)
    requires Sound(s.queue)
    ensures SendsOrdinaryOnlyIf(OnQueue(s, c).events, OnQueue(s, c).s.queue.ready)
    ensures OnQueue(s, c).s.queue.ready == if c.ReadyCall? then c.ready else s.queue.ready
    ensures Sound(OnQueue(s, c).s.queue)
  {
    CallNeedsGate(s.opts, s.queue, c);
    GateUnmoved(s.opts, s.queue, c);
    RelayMember(s.att, Apply(s.opts, s.queue, c).events);
  }

  /** Whether an operation delivers a message that no command was waiting for. */
  predicate DeliversPush(s: Session, op: Op) {
    && op.FeedOp? && HeardIn(s, op) != []
    && !HasId(s.queue.inFlight, ResponseId(s.queue, op.channel, HeardIn(s, op)[0].message))
  }

  /** Whether the reports allow an ordinary command out while `op` runs. A push
      counts at once. A reply counts only after the command it resolves has been
      completed and its slot passed on, so what it releases may rest on the
      reports before it. */
  ghost predicate Allowed(h: History, op: Op) {
    var clearAfter := Query.ReportedClear(Since(h.heard + HeardIn(h.s, op)));
    if DeliversPush(h.s, op) then clearAfter else Query.ReportedClear(Since(h.heard)) || clearAfter
  }

  /** No ordinary command is written unless, by the latest reports since
      construction or the last disconnect, the camera is neither busy nor
      encoding. */
  lemma GateSafety(att: nat, interval: nat, opts: Options, ops: seq<Op>, op: Op)
    ensures var h := After(Start(att, interval, opts), ops);
            SendsOrdinaryOnlyIf(Run(h.s, op).events, Allowed(h, op))
  {
    EveryRunConsistent(att, interval, opts, ops);
    OpNeedsGate(After(Start(att, interval, opts), ops), op);
  }

  lemma OpNeedsGate(h: History, op: Op)
    requires Consistent(h)
    ensures SendsOrdinaryOnlyIf(Run(h.s, op).events, Allowed(h, op))
  {
    var s := h.s;
    assert s.queue.ready == Query.ReportedClear(Since(h.heard));
    assert h.heard + [] == h.heard;
    match op
    case FeedOp(channel, packet, now) =>
      if HeardIn(s, op) != [] {
        FeedNeedsGate(h, op);
      }
    case SubmitOp(_, payload, _, _) =>
      if payload != [] {
        SessionCallNeedsGate(s, QueueCalls(s, op)[0]);
      }
    case ProtobufOp(_, _, _, _, _, _) =>
      SessionCallNeedsGate(s, QueueCalls(s, op)[0]);
    case TickOp(now) =>
      SessionCallNeedsGate(s, TickCall(now));
      if Due(s, now) {
        SessionCallNeedsGate(OnQueue(s, TickCall(now)).s.(lastKeepAlive := now), KeepAliveCall(now));
      }
    case AttOp(_) =>
    case DisconnectOp =>
      SessionCallNeedsGate(s.(rx := ALL_IDLE), CancelCall);
  }

  lemma FeedNeedsGate(h: History, op: Op)
    requires Consistent(h) && op.FeedOp? && HeardIn(h.s, op) != []
    ensures SendsOrdinaryOnlyIf(Run(h.s, op).events, Allowed(h, op))
  {
    var s, message, now := h.s.(rx := h.s.rx[op.channel := IDLE]), HeardIn(h.s, op)[0].message, op.now;
    var id := ResponseId(s.queue, op.channel, message);
    var c := RespondCall(id, message, now);
    var after := Query.FoldMessage(s.readiness, message);
    SessionCallNeedsGate(s, c);
    SessionCallNeedsGate(OnQueue(s, c).s.(readiness := after), ReadyCall(after.Ready(), now));
    assert (h.heard + HeardIn(h.s, op))[..|h.heard|] == h.heard;
    Query.FoldIsLatest(Since(h.heard), message);
    RespondHandles(s.queue, id, message, now);
    if DeliversPush(h.s, op) {
      assert Run(h.s, op).events == FoldPush(OnQueue(s, c).s, op.channel, message, now).events by {
        assert OnQueue(s, c).events == [];
      }
    } else {
      ReplyNeverOpens(s, c, message, now);
    }
  }

  /** A message is a reply exactly when its id is in flight. */
  lemma RespondHandles(q: State, id: nat, data: Octets, now: Time)
    ensures Respond(q, id, data, now).result <==> HasId(q.inFlight, id)
    ensures !HasId(q.inFlight, id) ==> Respond(q, id, data, now) == Outcomes(q, [], false)
  {
    var k := IndexOf(q.inFlight, id);
  }

  /** What a reply releases was allowed out by the gate before it, or by the
      gate it opens, and that gate was shut before it. */
  lemma ReplyNeverOpens(s: Session, c: Call, message: Octets, now: Time)
    requires Sound(s.queue) && s.queue.ready == s.readiness.Ready()
    requires c.RespondCall?
    ensures var r := OnQueue(s, c);
            SendsOrdinaryOnlyIf(r.events + FoldReply(r.s, message, now).events,
                                s.queue.ready || Query.FoldMessage(s.readiness, message).Ready())
  {
    var r := OnQueue(s, c);
    var after := Query.FoldMessage(s.readiness, message);
    SessionCallNeedsGate(s, c);
    SessionCallNeedsGate(r.s.(readiness := after), ReadyCall(after.Ready(), now));
  }

  // --- Where a reply meets an old gate ------------------------------------

  /** Whether an ordinary command goes out. */
  ghost predicate SendsOrdinary(log: seq<Callback>) {
    exists x :: x in log && x.Sent? && x.entry.priority == Queued
  }

  /** "Nothing ordinary goes out once the camera has said it is busy" fails for
      a report that is itself a reply: with the gate open, the reply releases
      the next ordinary command before its own report is looked at, exactly
      when it resolves the ordinary command in flight and another is pending. */
  lemma ReplyReleasesIff(s: Session, channel: Channel, message: Octets, now: Time)
    requires Sound(s.queue) && Quiet(s.queue) && s.queue.ready && s.readiness.Ready()
    requires HasId(s.queue.inFlight, ResponseId(s.queue, channel, message))
    requires !Query.FoldMessage(s.readiness, message).Ready()
    ensures var k := IndexOf(s.queue.inFlight, ResponseId(s.queue, channel, message));
            && k < |s.queue.inFlight|
            && (SendsOrdinary(Deliver(s, channel, message, now).events)
                <==> s.queue.inFlight[k].priority == Queued && s.queue.pending != [])
  {
    var q, id := s.queue, ResponseId(s.queue, channel, message);
    var k := IndexOf(q.inFlight, id);
    var q1 := q.(inFlight := RemoveAt(q.inFlight, k));
    RemovalKeepsSound(q, k);
    PumpOrdinary(q1, now);
    SlotAfterRemoval(q, k);
    var released := Pump(q1, now).events;
    var events := Respond(q, id, message, now).events;
    assert events == [Completed(q.inFlight[k], Responded, message)] + released;
    assert Deliver(s, channel, message, now).events
        == Relay(s.att, events) + ([ReadyChanged(false)] + Relay(s.att, []));
    assert events[1..] == released;
    if released != [] {
      assert released[1..] == [];
      assert Relay(s.att, released) == [RelayOne(s.att, released[0])];
      assert RelayOne(s.att, released[0]) in Relay(s.att, events);
      assert RelayOne(s.att, released[0]).entry.priority == Queued;
    }
  }

  /** With ordinary commands pending behind an open gate, removing an entry
      frees the slot exactly when that entry held it. */
  lemma SlotAfterRemoval(q: State, k: nat)
    requires Sound(q) && Quiet(q) && q.ready && k < |q.inFlight|
    ensures var q1 := q.(inFlight := RemoveAt(q.inFlight, k));
            q.pending != [] ==> (SlotFree(q1) <==> q.inFlight[k].priority == Queued)
  {
    var rest := RemoveAt(q.inFlight, k);
    if q.pending != [] {
      var j :| 0 <= j < |q.inFlight| && q.inFlight[j].priority == Queued;
      if j != k {
        assert rest[if j < k then j else j - 1] == q.inFlight[j];
      } else {
        assert forall i :: 0 <= i < |rest| ==> rest[i] == q.inFlight[if i < k then i else i + 1];
      }
    }
  }

  // A run in which that happens: the camera reports that it is neither busy nor
  // encoding, a status query and a command are submitted, and the answer to the
  // query says "busy".

  const READY_PUSH: Octets := [0x93, 0, 8, 1, 0, 10, 1, 0]
  const BUSY_REPLY: Octets := [0x13, 0, 8, 1, 1]
  const CLEAR := Query.Readiness(Query.Some(false), Query.Some(false))

  function AskAndSubmit(): seq<Op> {
    [FeedOp(QUERY, [8] + READY_PUSH, 0), SubmitOp(QUERY, [0x13, 8], Queued, 0), SubmitOp(COMMAND, [1, 1], Queued, 0)]
  }

  /** The command goes out in the very call that delivers the "busy". */
  lemma BusyReplyReleases(att: nat, interval: nat, opts: Options)
    ensures var s := After(Start(att, interval, opts), AskAndSubmit()).s;
            var reply := FeedOp(QUERY, [5] + BUSY_REPLY, 0);
            && HeardIn(s, reply) == [Message(QUERY, BUSY_REPLY)]
            && Query.Report(BUSY_REPLY, Query.BUSY) == Query.Some(true)
            && SendsOrdinary(Run(s, reply).events)
  {
    var s := After(Start(att, interval, opts), AskAndSubmit()).s;
    StateBeforeReply(att, interval, opts);
    BusyReport();
    OnePacketMessage(IDLE, BUSY_REPLY);
    var query, command := QueryEntry(), CommandEntry();
    assert s.queue.inFlight == [query] && s.queue.inFlight[0].id == CorrelationOf(QUERY, 0x13);
    assert HasId(s.queue.inFlight, CorrelationOf(QUERY, 0x13));
    assert !HasId(s.queue.inFlight, WideId(QUERY, 0x13, 0));
    assert s.rx[QUERY := IDLE] == s.rx;
    ReplyReleasesIff(s, QUERY, BUSY_REPLY, 0);
  }

  function QueryEntry(): Entry {
    Entry(CorrelationOf(QUERY, 0x13), [0x13, 8], Queued, CorrelationOf(QUERY, 0x13), 0, 0)
  }

  function CommandEntry(): Entry {
    Entry(CorrelationOf(COMMAND, 1), [1, 1], Queued, CorrelationOf(COMMAND, 1), 0, 0)
  }

  lemma StateBeforeReply(att: nat, interval: nat, opts: Options)
    ensures After(Start(att, interval, opts), AskAndSubmit()).s
         == Fresh(att, interval, opts).(queue := State(true, [CommandEntry()], [QueryEntry()]), readiness := CLEAR)
    ensures Sound(State(true, [CommandEntry()], [QueryEntry()])) && Quiet(State(true, [CommandEntry()], [QueryEntry()]))
  {
    var h, ops := Start(att, interval, opts), AskAndSubmit();
    assert ops[..3] == ops && ops[..3][..2] == ops[..2] && ops[..2][..1] == ops[..1] && ops[..1][..0] == [];
    assert After(h, ops[..1]).s == Run(h.s, ops[0]).s;
    assert After(h, ops[..2]).s == Run(After(h, ops[..1]).s, ops[1]).s;
    assert After(h, ops[..3]).s == Run(After(h, ops[..2]).s, ops[2]).s;
    ReadyAfterPush(h.s);
    var open := State(true, [], []);
    QuerySent(open);
    CommandWaits(State(true, [], [QueryEntry()]));
  }

  lemma QuerySent(q: State)
    requires q == State(true, [], [])
    ensures Submit(q, QueryEntry()).q == State(true, [], [QueryEntry()])
  {
    var q1 := Enqueue(q, QueryEntry());
    assert q1.pending == [QueryEntry()] && q1.pending[1..] == [];
    PumpOrdinary(q1, 0);
  }

  lemma CommandWaits(q: State)
    requires q == State(true, [], [QueryEntry()])
    ensures Submit(q, CommandEntry()).q == State(true, [CommandEntry()], [QueryEntry()])
    ensures var q' := Submit(q, CommandEntry()).q;
            Sound(q') && Quiet(q')
  {
    var q1 := Enqueue(q, CommandEntry());
    assert q1.pending == [CommandEntry()];
    assert q.inFlight[0].priority == Queued;
    assert !IsDuplicate(q, CommandEntry().id);
    EnqueueKeepsSound(q, CommandEntry());
    PumpOrdinary(q1, 0);
  }

  /** A short message in one packet. */
  lemma OnePacketMessage(r: Rx, message: Octets)
    requires 0 < |message| < 32
    ensures Feed(r, [|message|] + message) == Fed(Rx(message, 0, |message|, false), Complete)
  {
    var packet: Octets := [|message|] + message;
    assert packet[1..] == message && [] + message == message;
  }

  lemma ReadyAfterPush(s: Session)
    requires s == Fresh(s.att, s.interval, s.opts)
    ensures Run(s, AskAndSubmit()[0]).s == s.(queue := State(true, [], []), readiness := CLEAR)
  {
    OnePacketMessage(IDLE, READY_PUSH);
    assert s.(rx := s.rx[QUERY := IDLE]) == s by {
      assert ALL_IDLE[QUERY := IDLE] == ALL_IDLE;
    }
    assert Run(s, AskAndSubmit()[0]) == Deliver(s, QUERY, READY_PUSH, 0);
    PushOpensGate(s);
  }

  lemma PushOpensGate(s: Session)
    requires s.queue == EMPTY && s.readiness == Query.UNKNOWN
    ensures Deliver(s, QUERY, READY_PUSH, 0).s == s.(queue := State(true, [], []), readiness := CLEAR)
  {
    ReadyReport();
    RespondHandles(s.queue, ResponseId(s.queue, QUERY, READY_PUSH), READY_PUSH, 0);
    PumpOrdinary(State(true, [], []), 0);
  }

  lemma ReadyReport()
    ensures Query.FoldMessage(Query.UNKNOWN, READY_PUSH) == CLEAR
  {
    var busy, encoding := Query.Entry(8, [0]), Query.Entry(10, [0]);
    var r := Query.Response(0x93, 0, [busy, encoding]);
    assert Query.PrintEntries([encoding]) == [10, 1, 0] by {
      assert [encoding][1..] == [];
    }
    assert [busy, encoding][1..] == [encoding];
    assert READY_PUSH == Query.Print(r);
    Query.ParseOkIff(READY_PUSH, r);
    assert Query.FindEntry([encoding], 10) == Query.Some(encoding);
    var zero: Octets := [0];
    assert zero[..0] == [];
    assert BigEndian(zero) == 0;
  }

  lemma BusyReport()
    ensures Query.Report(BUSY_REPLY, Query.BUSY) == Query.Some(true)
    ensures !Query.FoldMessage(CLEAR, BUSY_REPLY).Ready()
  {
    var e := Query.Entry(8, [1]);
    var r := Query.Response(0x13, 0, [e]);
    assert Query.PrintEntries([e]) == [8, 1, 1] by {
      assert [e][1..] == [];
    }
    assert BUSY_REPLY == Query.Print(r);
    Query.ParseOkIff(BUSY_REPLY, r);
    var one: Octets := [1];
    assert one[..0] == [];
    assert BigEndian(one) == 1;
  }

  // --- The ready callback -------------------------------------------------

  /** The values reported by the ready callback, in order. */
  function Readies(log: seq<Callback>): seq<bool> {
    if log == [] then [] else (if log[0].ReadyChanged? then [log[0].ready] else []) + Readies(log[1..])
  }

  lemma {:induction false} ReadiesAppend(a: seq<Callback>, b: seq<Callback>)
    ensures Readies(a + b) == Readies(a) + Readies(b)
  {
    if a == [] {
      assert a + b == b;
    } else {
      assert (a + b)[0] == a[0] && (a + b)[1..] == a[1..] + b;
      ReadiesAppend(a[1..], b);
    }
  }

  lemma {:induction false} RelayReportsNoReadiness(att: nat, events: seq<Event>)
    ensures Readies(Relay(att, events)) == []
  {
    if events != [] {
      RelayReportsNoReadiness(att, events[1..]);
    }
  }

  /** What one operation reports: the new readiness if it changed, else nothing. */
  lemma OpReportsChange(s: Session, op: Op)
    ensures Readies(Run(s, op).events)
         == if Run(s, op).s.readiness.Ready() != s.readiness.Ready() then [Run(s, op).s.readiness.Ready()] else []
  {
    match op
    case FeedOp(channel, packet, now) =>
      if HeardIn(s, op) != [] {
        DeliveryReportsChange(s.(rx := s.rx[channel := IDLE]), channel, HeardIn(s, op)[0].message, now);
      }
    case SubmitOp(_, payload, _, _) =>
      if payload != [] {
        RelayReportsNoReadiness(s.att, Apply(s.opts, s.queue, QueueCalls(s, op)[0]).events);
      }
    case ProtobufOp(_, _, _, _, _, _) =>
      RelayReportsNoReadiness(s.att, Apply(s.opts, s.queue, QueueCalls(s, op)[0]).events);
    case TickOp(now) =>
      var r := OnQueue(s, TickCall(now));
      RelayReportsNoReadiness(s.att, Apply(s.opts, s.queue, TickCall(now)).events);
      if Due(s, now) {
        var ka := OnQueue(r.s.(lastKeepAlive := now), KeepAliveCall(now));
        RelayReportsNoReadiness(s.att, Apply(s.opts, r.s.queue, KeepAliveCall(now)).events);
        ReadiesAppend(r.events, ka.events);
      }
    case AttOp(_) =>
    case DisconnectOp =>
      var r := OnQueue(s.(rx := ALL_IDLE), CancelCall);
      RelayReportsNoReadiness(s.att, Apply(s.opts, s.queue, CancelCall).events);
      ReadiesAppend(r.events, if s.readiness.Ready() then [ReadyChanged(false)] else []);
  }

  lemma DeliveryReportsChange(s: Session, channel: Channel, message: Octets, now: Time)
    ensures var r := Deliver(s, channel, message, now);
            Readies(r.events) == if r.s.readiness.Ready() != s.readiness.Ready() then [r.s.readiness.Ready()] else []
  {
    var c := RespondCall(ResponseId(s.queue, channel, message), message, now);
    var r := OnQueue(s, c);
    var after := Query.FoldMessage(s.readiness, message);
    var s1 := r.s.(readiness := after);
    var f := if r.result then FoldReply(r.s, message, now) else FoldPush(r.s, channel, message, now);
    var gate := OnQueue(s1, ReadyCall(after.Ready(), now)).events;
    var change, push := [ReadyChanged(after.Ready())], [Pushed(channel, Query.Parse(message).response, message)];
    RelayReportsNoReadiness(s.att, Apply(s.opts, s.queue, c).events);
    RelayReportsNoReadiness(s.att, Apply(s.opts, s1.queue, ReadyCall(after.Ready(), now)).events);
    ReadiesAppend(r.events, f.events);
    ReadiesAppend(change, gate);
    ReadiesAppend(gate, change);
    ReadiesAppend(gate + change, push);
  }

  /** true, false, true, ... ending in `last`; nothing at all means false. */
  predicate Alternates(reports: seq<bool>, last: bool) {
    && (forall k :: 0 <= k < |reports| ==> reports[k] == (k % 2 == 0))
    && last == (|reports| % 2 == 1)
  }

  /** Over every run the ready callback strictly alternates, starting with true,
      and its last value is the session's readiness. */
  lemma {:induction false} ReadyAlternates(att: nat, interval: nat, opts: Options, ops: seq<Op>)
    ensures var h := After(Start(att, interval, opts), ops);
            Alternates(Readies(h.log), h.s.readiness.Ready())
  {
    if ops != [] {
      ReadyAlternates(att, interval, opts, ops[..|ops| - 1]);
      AlternatesOn(After(Start(att, interval, opts), ops[..|ops| - 1]), ops[|ops| - 1]);
    }
  }

  lemma AlternatesOn(h: History, op: Op)
    requires Alternates(Readies(h.log), h.s.readiness.Ready())
    ensures Alternates(Readies(Next(h, op).log), Next(h, op).s.readiness.Ready())
  {
    var r := Run(h.s, op);
    OpReportsChange(h.s, op);
    ReadiesAppend(h.log, r.events);
    AlternatesAppend(Readies(h.log), h.s.readiness.Ready(), r.s.readiness.Ready());
  }

  lemma AlternatesAppend(reports: seq<bool>, was: bool, now: bool)
    requires Alternates(reports, was)
    ensures Alternates(reports + if now != was then [now] else [], now)
  {
    assert reports + [] == reports;
  }
}
