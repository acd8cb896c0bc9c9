/** The keep-alive is never starved, and by how much it can be late. */
module SessionKeepAlive {
  import opened Bytes
  import opened Millis
  import opened Sequences
  import opened Framing
  import opened Correlation
  import opened Queue
  import opened QueuePass
  import opened Reentrancy
  import opened Session
  import opened SessionHistory
  import opened QueueTiming
  import Query

  /** A keep-alive goes out: its packets, on the settings channel. */
  ghost predicate SendsKeepAlive(s: Session, op: Op) {
    exists x :: x in Run(s, op).events && IsKeepAlive(x, s.att)
  }

  predicate IsKeepAlive(x: Callback, att: nat) {
    && x.Sent? && x.entry.id == KEEP_ALIVE_ID && x.channel == SETTINGS
    && x.packets == Fragments(KEEP_ALIVE_PAYLOAD, att) && x.packets != []
  }

  /** Operations of a connected session whose callers leave the LED setting
      alone: a caller's own write to it shares the keep-alive's id and would be
      mistaken for it. */
  predicate KeepsLink(op: Op) {
    && !op.DisconnectOp?
    && !(op.SubmitOp? && op.channel == SETTINGS && op.payload != [] && op.payload[0] == LED_SETTING)
  }

  /** The last tick of a run, and the last time it sent a keep-alive or, before
      the first one, was anchored by its first tick. */
  datatype Pulse = Pulse(lastTick: Time, lastBeat: Time)

  ghost function PulseAfter(s: Session, p: Pulse, op: Op): Pulse {
    if !op.TickOp? then p
    else Pulse(op.now, if !s.started || SendsKeepAlive(s, op) then op.now else p.lastBeat)
  }

  ghost function PulseOf(h: History, ops: seq<Op>): Pulse {
    if ops == [] then Pulse(0, 0)
    else PulseAfter(After(h, ops[..|ops| - 1]).s, PulseOf(h, ops[..|ops| - 1]), ops[|ops| - 1])
  }

  /** Ticks never run backwards and, once started, are at most `d` apart. */
  ghost predicate TicksRegularly(h: History, d: nat, ops: seq<Op>) {
    ops == []
    || (var front, op := ops[..|ops| - 1], ops[|ops| - 1];
        && TicksRegularly(h, d, front)
        && (op.TickOp? && After(h, front).s.started ==>
              PulseOf(h, front).lastTick <= op.now <= PulseOf(h, front).lastTick + d))
  }

  // --- The keep-alive in the queue ----------------------------------------

  /** Nothing pending is a keep-alive, and one in flight went out at `sent`. */
  ghost predicate Tracks(q: State, sent: Time) {
    && (forall e :: e in q.pending ==> e.id != KEEP_ALIVE_ID)
    && (forall e :: e in q.inFlight && e.id == KEEP_ALIVE_ID ==> e.sentAt == sent)
  }

  ghost predicate NoKeepAliveWrites(events: seq<Event>) {
    forall e :: e in events && e.Wrote? ==> e.entry.id != KEEP_ALIVE_ID
  }

  predicate Unrelated(c: Call) {
    c.SubmitCall? ==> c.id != KEEP_ALIVE_ID
  }

  lemma PumpTracks(q: State, sent: Time, now: Time)
    requires Sound(q) && Tracks(q, sent)
    ensures Tracks(Pump(q, now).q, sent) && NoKeepAliveWrites(Pump(q, now).events)
    ensures forall e :: e in Pump(q, now).q.inFlight && e.id == KEEP_ALIVE_ID ==> e in q.inFlight
  {
    PumpMoves(q, now);
  }

  /** Calls on behalf of other commands neither send nor touch the keep-alive. */
  lemma UnrelatedCall(opts: Options, q: State, sent: Time, c: Call)
    requires Sound(q) && Tracks(q, sent) && Unrelated(c)
    ensures var r := Apply(opts, q, c);
            && Sound(r.q) && Tracks(r.q, sent) && NoKeepAliveWrites(r.events)
            && (c.TickCall? ==>
                  forall e :: e in r.q.inFlight && e.id == KEEP_ALIVE_ID ==> !WriteExpired(opts, c.now, e))
  {
    GateUnmoved(opts, q, c);
    OpeningKeepsSound(opts, q, c);
    match c
    case SubmitCall(_, _, _, _, _) =>
      if !IsDuplicate(q, c.id) {
        PumpTracks(Enqueue(q, NewEntry(c)), sent, c.now);
      }
    case ReadyCall(ready, now) =>
      if ready {
        PumpTracks(q.(ready := true), sent, now);
      }
    case RespondCall(id, data, now) =>
      var k := IndexOf(q.inFlight, id);
      if k < |q.inFlight| {
        PumpTracks(q.(inFlight := RemoveAt(q.inFlight, k)), sent, now);
      }
    case TickCall(now) =>
      PumpTracks(WithoutExpired(opts, q, now), sent, now);
      CompletionsOf(Expired(opts, q, now), TimedOut, []);
    case CancelCall =>
      CompletionsOf(q.inFlight + q.pending, Canceled, []);
  }

  /** The keep-alive itself: refused while one is in flight, else written at
      once. */
  lemma KeepAliveGoesOut(opts: Options, q: State, sent: Time, now: Time)
    requires Sound(q) && Tracks(q, sent)
    ensures var r := Apply(opts, q, KeepAliveCall(now));
            if HasId(q.inFlight, KEEP_ALIVE_ID) then r.q == q && NoKeepAliveWrites(r.events)
            else Tracks(r.q, now) && Wrote(Stamp(NewEntry(KeepAliveCall(now)), now)) in r.events
  {
    var e := NewEntry(KeepAliveCall(now));
    if !HasId(q.inFlight, KEEP_ALIVE_ID) {
      var q1 := Enqueue(q, e);
      assert !HasId(q.pending, KEEP_ALIVE_ID) by {
        forall i | 0 <= i < |q.pending|
          ensures q.pending[i].id != KEEP_ALIVE_ID
        {
          assert q.pending[i] in q.pending;
        }
      }
      EnqueueKeepsSound(q, e);
      KeepAliveFirst(q, q1, e, now);
      forall x | x in q.inFlight
        ensures x.id != KEEP_ALIVE_ID
      {
        var i :| 0 <= i < |q.inFlight| && q.inFlight[i] == x;
      }
    }
  }

  lemma KeepAliveFirst(q: State, q1: State, e: Entry, now: Time)
    requires Sound(q1) && e.priority == KeepAlive && q1 == q.(pending := [e] + q.pending)
    ensures var r := Pump(q1, now);
            && Wrote(Stamp(e, now)) in r.events
            && (forall x :: x in r.q.pending ==> x in q.pending)
            && (forall x :: x in r.q.inFlight ==>
                  x in q.inFlight || x == Stamp(e, now) || exists p :: p in q.pending && x == Stamp(p, now))
  {
    var free := SlotFree(q1);
    PumpIsOnePass(q1, now);
    assert q1.pending[0] == e && q1.pending[1..] == q.pending;
    var sends := PassSends(q1.pending, free);
    var sent := StampAll(sends, now);
    assert sends[0] == e;
    WritesOnly(sent);
    assert Writes(sent)[0] == Wrote(Stamp(e, now));
    PassMoves(q.pending, free);
    PumpMoves(q1, now);
  }

  /** A keep-alive reaches the wire exactly if the ATT payload leaves room. */
  lemma KeepAliveFits(att: nat)
    ensures Fragments(KEEP_ALIVE_PAYLOAD, att) != [] <==> att >= 3
  {
  }

  lemma RelayedNoKeepAlive(att: nat, events: seq<Event>)
    requires NoKeepAliveWrites(events)
    ensures forall x :: x in Relay(att, events) && x.Sent? ==> x.entry.id != KEEP_ALIVE_ID
  {
    RelayMember(att, events);
  }

  // --- The timer ----------------------------------------------------------

  /** A started session: the timer fired at most an interval before the last
      tick, and less than a write timeout after the last keep-alive. */
  ghost predicate Beating(s: Session, p: Pulse) {
    && s.att >= 3 && Sound(s.queue) && Tracks(s.queue, p.lastBeat)
    && p.lastBeat <= s.lastKeepAlive <= p.lastTick
    && (p.lastTick < s.lastKeepAlive + s.interval || p.lastTick == s.lastKeepAlive)
    && (s.lastKeepAlive == p.lastBeat || s.lastKeepAlive < p.lastBeat + s.opts.writeTimeout)
  }

  /** A session that has not ticked: no keep-alive anywhere. */
  ghost predicate Waiting(s: Session) {
    s.att >= 3 && Sound(s.queue) && (forall e :: e in s.queue.pending + s.queue.inFlight ==> e.id != KEEP_ALIVE_ID)
  }

  ghost predicate Pulsing(s: Session, p: Pulse) {
    if s.started then Beating(s, p) else Waiting(s)
  }

  lemma TickPulses(s: Session, p: Pulse, d: nat, now: Time)
    requires Pulsing(s, p) && (s.started ==> p.lastTick <= now <= p.lastTick + d)
    ensures Run(s, TickOp(now)).s.started && Pulsing(Run(s, TickOp(now)).s, PulseAfter(s, p, TickOp(now)))
  {
    var sent := if s.started then p.lastBeat else now;
    assert Tracks(s.queue, sent);
    UnrelatedCall(s.opts, s.queue, sent, TickCall(now));
    RelayedNoKeepAlive(s.att, Apply(s.opts, s.queue, TickCall(now)).events);
    if Due(s, now) {
      DueTickPulses(s, p, d, now);
    }
  }

  lemma DueTickPulses(s: Session, p: Pulse, d: nat, now: Time)
    requires Beating(s, p) && Due(s, now) && p.lastTick <= now <= p.lastTick + d
    ensures Beating(Run(s, TickOp(now)).s, PulseAfter(s, p, TickOp(now)))
  {
    var q1, c := Apply(s.opts, s.queue, TickCall(now)).q, KeepAliveCall(now);
    UnrelatedCall(s.opts, s.queue, p.lastBeat, TickCall(now));
    KeepAliveGoesOut(s.opts, q1, p.lastBeat, now);
    GateUnmoved(s.opts, q1, c);
    DueTickState(s, now);
    if HasId(q1.inFlight, KEEP_ALIVE_ID) {
      NoBeat(s, p.lastBeat, now);
      var i :| 0 <= i < |q1.inFlight| && q1.inFlight[i].id == KEEP_ALIVE_ID;
      assert q1.inFlight[i] in q1.inFlight;
    } else {
      Beat(s, p.lastBeat, now);
    }
  }

  lemma DueTickState(s: Session, now: Time)
    requires Due(s, now)
    ensures var q1 := Apply(s.opts, s.queue, TickCall(now)).q;
            Run(s, TickOp(now)).s == s.(queue := Apply(s.opts, q1, KeepAliveCall(now)).q, lastKeepAlive := now)
  {
  }

  lemma DueTickEvents(s: Session, now: Time)
    requires Due(s, now)
    ensures var q1 := Apply(s.opts, s.queue, TickCall(now)).q;
            Run(s, TickOp(now)).events ==
              Relay(s.att, Apply(s.opts, s.queue, TickCall(now)).events)
              + Relay(s.att, Apply(s.opts, q1, KeepAliveCall(now)).events)
  {
  }

  // --- What holds a keep-alive back ---------------------------------------

  /** Something under the keep-alive's id is in flight or pending and does not
      time out at `now`. */
  ghost predicate HeldBack(opts: Options, q: State, now: Time) {
    || (exists e :: e in q.inFlight && e.id == KEEP_ALIVE_ID && !WriteExpired(opts, now, e))
    || (exists e :: e in q.pending && e.id == KEEP_ALIVE_ID && !WaitExpired(opts, now, e))
  }

  lemma HasIdMember(es: seq<Entry>, id: nat)
    ensures HasId(es, id) <==> exists e :: e in es && e.id == id
  {
    if e :| e in es && e.id == id {
      var i :| 0 <= i < |es| && es[i] == e;
      assert es[i].id == id;
    }
    if HasId(es, id) {
      var i :| 0 <= i < |es| && es[i].id == id;
      assert es[i] in es;
    }
  }

  /** A pump keeps the set of outstanding ids. */
  lemma {:induction false} PumpKeepsIds(q: State, now: Time, id: nat)
    ensures IsDuplicate(Pump(q, now).q, id) <==> IsDuplicate(q, id)
    decreases |q.pending|
  {
    var i := FirstSendable(q, 0);
    if i < |q.pending| {
      SendKeepsIds(q, i, now, id);
      PumpKeepsIds(SendAt(q, i, now), now, id);
    }
  }

  lemma SendKeepsIds(q: State, i: nat, now: Time, id: nat)
    requires i < |q.pending|
    ensures IsDuplicate(SendAt(q, i, now), id) <==> IsDuplicate(q, id)
  {
    var e := q.pending[i];
    assert [e][0] == e && [Stamp(e, now)][0] == Stamp(e, now);
    assert HasId([e], id) <==> HasId([Stamp(e, now)], id);
    HasIdAppend(q.inFlight, [Stamp(q.pending[i], now)], id);
    HasIdAppend(q.pending[..i], [q.pending[i]] + q.pending[i + 1..], id);
    HasIdAppend([q.pending[i]], q.pending[i + 1..], id);
    HasIdAppend(q.pending[..i], q.pending[i + 1..], id);
    assert q.pending == q.pending[..i] + ([q.pending[i]] + q.pending[i + 1..]);
  }

  lemma HasIdAppend(a: seq<Entry>, b: seq<Entry>, id: nat)
    ensures HasId(a + b, id) <==> HasId(a, id) || HasId(b, id)
  {
    HasIdMember(a, id);
    HasIdMember(b, id);
    HasIdMember(a + b, id);
  }

  /** After the queue's part of a tick the id is taken exactly if something under
      it was outstanding and has not timed out. */
  lemma HeldBackIff(opts: Options, q: State, now: Time)
    ensures IsDuplicate(Apply(opts, q, TickCall(now)).q, KEEP_ALIVE_ID) <==> HeldBack(opts, q, now)
  {
    var q1 := WithoutExpired(opts, q, now);
    PumpKeepsIds(q1, now, KEEP_ALIVE_ID);
    HasIdMember(q1.inFlight, KEEP_ALIVE_ID);
    HasIdMember(q1.pending, KEEP_ALIVE_ID);
  }

  /** Without any assumption on callers: a due tick hands a keep-alive to the
      write callback exactly if nothing under its id is outstanding but what
      times out just then. A caller's own write to the LED setting, even one
      that is merely pending, keeps it back until that write is over. */
  lemma KeepAliveSentIff(s: Session, now: Time)
    requires Sound(s.queue) && Due(s, now)
    ensures var ticked := Apply(s.opts, s.queue, TickCall(now));
            var own := Apply(s.opts, ticked.q, KeepAliveCall(now)).events;
            && Run(s, TickOp(now)).events == Relay(s.att, ticked.events) + Relay(s.att, own)
            && (Wrote(Stamp(NewEntry(KeepAliveCall(now)), now)) in own <==> !HeldBack(s.opts, s.queue, now))
  {
    GateUnmoved(s.opts, s.queue, TickCall(now));
    HeldBackIff(s.opts, s.queue, now);
    ExpressGoesOut(Apply(s.opts, s.queue, TickCall(now)).q, NewEntry(KeepAliveCall(now)));
    DueTickEvents(s, now);
  }

  /** A caller's ordinary write to the LED setting. */
  function LedWrite(value: Octets): Op {
    SubmitOp(SETTINGS, [LED_SETTING] + value, Queued, 0)
  }

  function LedEntry(value: Octets): Entry {
    Entry(KEEP_ALIVE_ID, [LED_SETTING] + value, Queued, KEEP_ALIVE_ID, 0, 0)
  }

  /** The write waits, and nothing has ever been sent. */
  ghost predicate Starving(h: History, value: Octets) {
    && h.s.queue == State(false, [LedEntry(value)], []) && h.s.started
    && forall x :: x in h.log ==> !x.Sent?
  }

  /** A run in which that happens: submitted while the gate is shut, that write
      waits, and until it times out no tick sends anything, however long the
      timer has been due. With the defaults that is 30 s without a keep-alive. */
  lemma {:induction false} LedWriteStarvesLink(att: nat, interval: nat, opts: Options, value: Octets, ticks: seq<Op>)
    requires forall k :: 0 <= k < |ticks| ==> ticks[k].TickOp? && (Deadline(opts) ==> ticks[k].now < opts.queueTimeout)
    ensures Starving(After(Start(att, interval, opts), [TickOp(0), LedWrite(value)] + ticks), value)
  {
    var h, first := Start(att, interval, opts), [TickOp(0), LedWrite(value)];
    if ticks == [] {
      assert first + ticks == first;
      StarvingFirst(att, interval, opts, value);
    } else {
      var n := |ticks| - 1;
      assert (first + ticks)[..|first + ticks| - 1] == first + ticks[..n];
      LedWriteStarvesLink(att, interval, opts, value, ticks[..n]);
      EveryRunConsistent(att, interval, opts, first + ticks[..n]);
      SilentTick(After(h, first + ticks[..n]), value, ticks[n].now);
    }
  }

  /** The timer of that session is due from `interval` on. */
  lemma StarvingFirst(att: nat, interval: nat, opts: Options, value: Octets)
    ensures var h := After(Start(att, interval, opts), [TickOp(0), LedWrite(value)]);
            Starving(h, value) && forall now: Time :: Due(h.s, now) <==> now >= interval
  {
    var h, first := Start(att, interval, opts), [TickOp(0), LedWrite(value)];
    assert first[..1] == [TickOp(0)] && [TickOp(0)][..0] == [];
    assert After(h, [TickOp(0)]) == Next(h, TickOp(0));
    LedWriteWaits(h, value);
  }

  lemma LedWriteWaits(h: History, value: Octets)
    requires h == Start(h.s.att, h.s.interval, h.s.opts)
    ensures var h1 := Next(Next(h, TickOp(0)), LedWrite(value));
            h1.log == [] && h1.s == h.s.(queue := State(false, [LedEntry(value)], []), started := true)
  {
    var waiting := State(false, [LedEntry(value)], []);
    assert WithoutExpired(h.s.opts, EMPTY, 0) == EMPTY && Expired(h.s.opts, EMPTY, 0) == [];
    PumpOrdinary(EMPTY, 0);
    assert Enqueue(EMPTY, LedEntry(value)) == waiting;
    PumpOrdinary(waiting, 0);
  }

  lemma SilentTick(h: History, value: Octets, now: Time)
    requires Starving(h, value) && (Deadline(h.s.opts) ==> now < h.s.opts.queueTimeout)
    ensures Starving(Next(h, TickOp(now)), value)
  {
    var s := h.s;
    TickLeavesWaiting(s.opts, s.queue, value, now);
    if Due(s, now) {
      DueTickEvents(s, now);
      DueTickState(s, now);
      var rejected := Completed(NewEntry(KeepAliveCall(now)), Rejected, []);
      assert Relay(s.att, [rejected]) == [RelayOne(s.att, rejected)];
    }
  }

  lemma TickLeavesWaiting(opts: Options, q: State, value: Octets, now: Time)
    requires q == State(false, [LedEntry(value)], []) && (Deadline(opts) ==> now < opts.queueTimeout)
    ensures Apply(opts, q, TickCall(now)) == Outcomes(q, [], true)
    ensures Apply(opts, q, KeepAliveCall(now))
         == Outcomes(q, [Completed(NewEntry(KeepAliveCall(now)), Rejected, [])], false)
  {
    RejectNone(q.pending, x => WaitExpired(opts, now, x));
    FilterNone(q.pending, x => WaitExpired(opts, now, x));
    assert WithoutExpired(opts, q, now) == q && Expired(opts, q, now) == [];
    PumpOrdinary(q, now);
    assert q.pending[0].id == KEEP_ALIVE_ID;
  }

  lemma NoBeat(s: Session, sent: Time, now: Time)
    requires Sound(s.queue) && Tracks(s.queue, sent) && Due(s, now)
    requires HasId(Apply(s.opts, s.queue, TickCall(now)).q.inFlight, KEEP_ALIVE_ID)
    ensures !SendsKeepAlive(s, TickOp(now))
  {
    var q1 := Apply(s.opts, s.queue, TickCall(now)).q;
    UnrelatedCall(s.opts, s.queue, sent, TickCall(now));
    KeepAliveGoesOut(s.opts, q1, sent, now);
    RelayedNoKeepAlive(s.att, Apply(s.opts, s.queue, TickCall(now)).events);
    RelayedNoKeepAlive(s.att, Apply(s.opts, q1, KeepAliveCall(now)).events);
    DueTickEvents(s, now);
  }

  lemma Beat(s: Session, sent: Time, now: Time)
    requires Sound(s.queue) && Tracks(s.queue, sent) && Due(s, now) && s.att >= 3
    requires !HasId(Apply(s.opts, s.queue, TickCall(now)).q.inFlight, KEEP_ALIVE_ID)
    ensures SendsKeepAlive(s, TickOp(now))
  {
    var q1 := Apply(s.opts, s.queue, TickCall(now)).q;
    var w := Wrote(Stamp(NewEntry(KeepAliveCall(now)), now));
    UnrelatedCall(s.opts, s.queue, sent, TickCall(now));
    KeepAliveGoesOut(s.opts, q1, sent, now);
    RelayContains(s.att, Apply(s.opts, q1, KeepAliveCall(now)).events, w);
    ChannelRecovered(SETTINGS, LED_SETTING, 0);
    DueTickEvents(s, now);
    assert IsKeepAlive(RelayOne(s.att, w), s.att);
  }

  /** Anything but a tick leaves timer and keep-alive alone. */
  lemma OtherOpPulses(s: Session, p: Pulse, op: Op)
    requires Pulsing(s, p) && KeepsLink(op) && !op.TickOp?
    ensures Run(s, op).s.started == s.started && Pulsing(Run(s, op).s, p)
  {
    var sent := if s.started then p.lastBeat else 0;
    match op
    case FeedOp(channel, packet, now) =>
      if HeardIn(s, op) != [] {
        DeliveryTracks(s.(rx := s.rx[channel := IDLE]), sent, channel, HeardIn(s, op)[0].message, now);
      }
    case SubmitOp(channel, payload, _, _) =>
      if payload != [] {
        IdsDistinct(channel, payload[0], 0, SETTINGS, LED_SETTING, 0);
        UnrelatedOpCall(s, sent, QueueCalls(s, op)[0]);
      }
    case ProtobufOp(channel, feature, action, _, _, _) =>
      IdsDistinct(SETTINGS, LED_SETTING, 0, channel, feature, ResponseAction(action));
      UnrelatedOpCall(s, sent, QueueCalls(s, op)[0]);
    case AttOp(_) =>
  }

  /** No keep-alive is outstanding, started or not, beyond the tracked one. */
  ghost predicate Undisturbed(before: State, after: State, sent: Time) {
    && Sound(after) && Tracks(after, sent)
    && ((forall e :: e in before.pending + before.inFlight ==> e.id != KEEP_ALIVE_ID) ==>
          forall e :: e in after.pending + after.inFlight ==> e.id != KEEP_ALIVE_ID)
  }

  lemma UnrelatedOpCall(s: Session, sent: Time, c: Call)
    requires Sound(s.queue) && Tracks(s.queue, sent) && Unrelated(c)
    ensures Undisturbed(s.queue, Apply(s.opts, s.queue, c).q, sent)
  {
    UnrelatedCall(s.opts, s.queue, sent, c);
    var q' := Apply(s.opts, s.queue, c).q;
    if forall e :: e in s.queue.pending + s.queue.inFlight ==> e.id != KEEP_ALIVE_ID {
      var other: Time := if sent == 0 then 1 else 0;
      UnrelatedCall(s.opts, s.queue, other, c);
      forall e | e in q'.pending + q'.inFlight
        ensures e.id != KEEP_ALIVE_ID
      {
        assert e.id == KEEP_ALIVE_ID ==> e.sentAt == sent && e.sentAt == other;
      }
    }
  }

  lemma DeliveryTracks(s: Session, sent: Time, channel: Channel, message: Octets, now: Time)
    requires Sound(s.queue) && Tracks(s.queue, sent)
    ensures var r := Deliver(s, channel, message, now).s;
            && Undisturbed(s.queue, r.queue, sent)
            && r.(queue := s.queue, readiness := s.readiness) == s
  {
    var c := RespondCall(ResponseId(s.queue, channel, message), message, now);
    var r := OnQueue(s, c);
    var after := Query.FoldMessage(s.readiness, message);
    UnrelatedOpCall(s, sent, c);
    UnrelatedOpCall(r.s.(readiness := after), sent, ReadyCall(after.Ready(), now));
  }

  lemma {:induction false} RunPulses(att: nat, interval: nat, opts: Options, d: nat, ops: seq<Op>)
    requires att >= 3 && forall k :: 0 <= k < |ops| ==> KeepsLink(ops[k])
    requires TicksRegularly(Start(att, interval, opts), d, ops)
    ensures var h := Start(att, interval, opts);
            && Pulsing(After(h, ops).s, PulseOf(h, ops))
            && After(h, ops).s.opts == opts && After(h, ops).s.interval == interval
  {
    var h := Start(att, interval, opts);
    EveryRunConsistent(att, interval, opts, ops);
    if ops != [] {
      var front, op := ops[..|ops| - 1], ops[|ops| - 1];
      RunPulses(att, interval, opts, d, front);
      var s, p := After(h, front).s, PulseOf(h, front);
      if op.TickOp? {
        TickPulses(s, p, d, op.now);
      } else {
        OtherOpPulses(s, p, op);
      }
    }
  }

  function Max(a: nat, b: nat): nat {
    if a >= b then a else b
  }

  /** Keep-alive never starves. In a connected run whose callers leave the LED
      setting alone and whose ticks are at most `d` apart, every tick comes less
      than writeTimeout + interval + d after the last keep-alive was transmitted
      (or the timer was anchored; if both are zero, no more than d after): whether the camera answers or not, whether
      the gate is open or shut, and whatever else is outstanding. */
  lemma KeepAliveNeverStarves(att: nat, interval: nat, opts: Options, d: nat, ops: seq<Op>, now: Time)
    requires att >= 3 && forall k :: 0 <= k < |ops| ==> KeepsLink(ops[k])
    requires TicksRegularly(Start(att, interval, opts), d, ops + [TickOp(now)])
    ensures var h := Start(att, interval, opts);
            After(h, ops).s.started ==> now < PulseOf(h, ops).lastBeat + Max(opts.writeTimeout + interval, 1) + d
  {
    var all := ops + [TickOp(now)];
    assert all[..|all| - 1] == ops && all[|all| - 1] == TickOp(now);
    RunPulses(att, interval, opts, d, ops);
  }

  /** With the default timeouts and a 500 ms tick that is 8.5 s, against a drop
      after 10 s. */
  lemma DefaultsHoldTheLink(att: nat, ops: seq<Op>, now: Time)
    requires att >= 3 && forall k :: 0 <= k < |ops| ==> KeepsLink(ops[k])
    requires TicksRegularly(Start(att, 3000, Options(5000, 30000)), 500, ops + [TickOp(now)])
    ensures var h := Start(att, 3000, Options(5000, 30000));
            After(h, ops).s.started ==> now - PulseOf(h, ops).lastBeat < 8500 < 10000
  {
    KeepAliveNeverStarves(att, 3000, Options(5000, 30000), 500, ops, now);
  }
}
