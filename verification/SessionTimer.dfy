/** When the keep-alive timer fires: read off the operations alone. */
module SessionTimer {
  import opened Bytes
  import opened Millis
  import opened Framing
  import opened Correlation
  import opened Queue
  import opened QueuePass
  import opened Session
  import opened SessionHistory
  import opened SessionKeepAlive
  import Query

  /** The latest tick that anchored the timer or fired it, since construction or
      the last disconnect. The first tick anchors; a later one fires if it comes
      at least `interval` after the latest such tick. */
  function Anchor(interval: nat, ops: seq<Op>): Query.Option<Time> {
    if ops == [] then Query.None
    else AnchorAfter(interval, Anchor(interval, ops[..|ops| - 1]), ops[|ops| - 1])
  }

  function AnchorAfter(interval: nat, before: Query.Option<Time>, op: Op): Query.Option<Time> {
    match op
    case TickOp(now) =>
      if before.Some? && (now as int - before.value) % TWO_TO_64 < interval then before else Query.Some(now)
    case DisconnectOp => Query.None
    case _ => before
  }

  /** Whether a tick at `now`, after `ops`, fires the timer. */
  predicate Fires(interval: nat, ops: seq<Op>, now: Time) {
    var anchor := Anchor(interval, ops);
    anchor.Some? && (now as int - anchor.value) % TWO_TO_64 >= interval
  }

  /** The submission of the timer: setting 91 with the one-byte value 66, on the
      settings channel, at `now`. */
  function Beat(now: Time, sent: Time): Entry {
    Entry(0x15B, [91, 1, 66], KeepAlive, 0x15B, now, sent)
  }

  /** Among `events` it is either written at once or rejected. */
  ghost predicate SubmitsBeat(events: seq<Callback>, now: Time) {
    || (exists x :: x in events && x.Sent? && x.entry == Beat(now, now) && x.channel == 1)
    || Finished(Beat(now, 0), Rejected, []) in events
  }

  lemma OthersKeepTimer(s: Session, op: Op)
    requires !op.TickOp? && !op.DisconnectOp?
    ensures var r := Run(s, op).s;
            r.started == s.started && r.lastKeepAlive == s.lastKeepAlive && r.interval == s.interval
  {
    if op.FeedOp? && HeardIn(s, op) != [] {
      DeliveryKeepsTimer(s.(rx := s.rx[op.channel := IDLE]), op.channel, HeardIn(s, op)[0].message, op.now);
    }
  }

  lemma DeliveryKeepsTimer(s: Session, channel: Channel, message: Octets, now: Time)
    ensures var r := Deliver(s, channel, message, now).s;
            r.started == s.started && r.lastKeepAlive == s.lastKeepAlive && r.interval == s.interval
  {
  }

  predicate TimerAt(s: Session, interval: nat, anchor: Query.Option<Time>) {
    s.interval == interval && s.started == anchor.Some? && (s.started ==> s.lastKeepAlive == anchor.value)
  }

  lemma {:induction false} TimerIsAnchor(att: nat, interval: nat, opts: Options, ops: seq<Op>)
    ensures TimerAt(After(Start(att, interval, opts), ops).s, interval, Anchor(interval, ops))
  {
    if ops != [] {
      var front, op := ops[..|ops| - 1], ops[|ops| - 1];
      TimerIsAnchor(att, interval, opts, front);
      TimerStep(After(Start(att, interval, opts), front).s, interval, Anchor(interval, front), op);
    }
  }

  lemma TimerStep(s: Session, interval: nat, anchor: Query.Option<Time>, op: Op)
    requires TimerAt(s, interval, anchor)
    ensures TimerAt(Run(s, op).s, interval, AnchorAfter(interval, anchor, op))
  {
    match op
    case TickOp(now) => ElapsedIsModular(now, s.lastKeepAlive);
    case DisconnectOp =>
    case _ => OthersKeepTimer(s, op);
  }

  /** Over every run: a tick submits a keep-alive if and only if there has been a
      tick since construction or the last disconnect and at least `interval` has
      passed since the latest one that anchored the timer or submitted. */
  lemma TimerFiresIff(att: nat, interval: nat, opts: Options, ops: seq<Op>, now: Time)
    ensures SubmitsBeat(Run(After(Start(att, interval, opts), ops).s, TickOp(now)).events, now)
       <==> Fires(interval, ops, now)
  {
    var h := After(Start(att, interval, opts), ops);
    EveryRunConsistent(att, interval, opts, ops);
    TimerIsAnchor(att, interval, opts, ops);
    FiresIsDue(h.s, interval, ops, now);
    DueTickSubmits(h.s, now);
  }

  lemma FiresIsDue(s: Session, interval: nat, ops: seq<Op>, now: Time)
    requires TimerAt(s, interval, Anchor(interval, ops))
    ensures Fires(interval, ops, now) <==> Due(s, now)
  {
    ElapsedIsModular(now, s.lastKeepAlive);
  }

  lemma DueTickSubmits(s: Session, now: Time)
    requires Sound(s.queue) && Quiet(s.queue)
    ensures SubmitsBeat(Run(s, TickOp(now)).events, now) <==> Due(s, now)
  {
    var ticked := Relay(s.att, Apply(s.opts, s.queue, TickCall(now)).events);
    QueueTickIsNoBeat(s, now);
    if Due(s, now) {
      DueTickEvents(s, now);
      BeatSubmitted(s, now);
    } else {
      assert Run(s, TickOp(now)).events == ticked;
    }
  }

  /** The queue's own part of a tick never looks like the timer's submission. */
  lemma QueueTickIsNoBeat(s: Session, now: Time)
    requires Sound(s.queue) && Quiet(s.queue)
    ensures !SubmitsBeat(Relay(s.att, Apply(s.opts, s.queue, TickCall(now)).events), now)
  {
    var q1 := WithoutExpired(s.opts, s.queue, now);
    var events := Apply(s.opts, s.queue, TickCall(now)).events;
    ExpiryKeepsSound(s.opts, s.queue, now);
    PumpMoves(q1, now);
    CompletionsOf(Expired(s.opts, s.queue, now), TimedOut, []);
    RelayMember(s.att, events);
    forall p | p in q1.pending
      ensures p.priority == Queued
    {
      assert p in s.queue.pending;
    }
    forall x | x in Relay(s.att, events)
      ensures (x.Sent? ==> x.entry.priority == Queued) && (x.Finished? ==> x.outcome == TimedOut)
    {
      var e :| e in events && x == RelayOne(s.att, e);
    }
  }

  lemma BeatIsSubmission(now: Time)
    ensures NewEntry(KeepAliveCall(now)) == Beat(now, 0)
  {
  }

  lemma BeatSubmitted(s: Session, now: Time)
    requires Sound(s.queue) && Due(s, now)
    ensures var q1 := Apply(s.opts, s.queue, TickCall(now)).q;
            SubmitsBeat(Relay(s.att, Apply(s.opts, q1, KeepAliveCall(now)).events), now)
  {
    var q1, c := Apply(s.opts, s.queue, TickCall(now)).q, KeepAliveCall(now);
    var events := Apply(s.opts, q1, c).events;
    GateUnmoved(s.opts, s.queue, TickCall(now));
    ChannelRecovered(1, 91, 0);
    BeatIsSubmission(now);
    if IsDuplicate(q1, 0x15B) {
      assert events == [Completed(Beat(now, 0), Rejected, [])];
      RelayContains(s.att, events, Completed(Beat(now, 0), Rejected, []));
    } else {
      ExpressGoesOut(q1, NewEntry(c));
      RelayContains(s.att, events, Wrote(Beat(now, now)));
    }
  }

  // --- How often ----------------------------------------------------------

  /** The latest tick of `ops`, or `t`. */
  function LatestTick(t: Time, ops: seq<Op>): Time {
    if ops == [] then t
    else if ops[|ops| - 1].TickOp? then ops[|ops| - 1].now
    else LatestTick(t, ops[..|ops| - 1])
  }

  /** Ticks from `t` on, none before an earlier one, and no disconnect. */
  predicate TicksForward(t: Time, ops: seq<Op>) {
    ops == []
    || (&& TicksForward(t, ops[..|ops| - 1]) && !ops[|ops| - 1].DisconnectOp?
        && (ops[|ops| - 1].TickOp? ==> LatestTick(t, ops[..|ops| - 1]) <= ops[|ops| - 1].now))
  }

  lemma {:induction false} AnchorMovesOn(interval: nat, before: seq<Op>, t: Time, ops: seq<Op>)
    requires Anchor(interval, before) == Query.Some(t) && TicksForward(t, ops)
    ensures var anchor := Anchor(interval, before + ops);
            anchor.Some? && t <= anchor.value <= LatestTick(t, ops)
    decreases |ops|
  {
    if ops == [] {
      assert before + ops == before;
    } else {
      assert (before + ops)[..|before + ops| - 1] == before + ops[..|ops| - 1];
      AnchorMovesOn(interval, before, t, ops[..|ops| - 1]);
    }
  }

  /** Two keep-alives of the timer with no disconnect between them are at least
      `interval` apart. */
  lemma FiresApart(interval: nat, before: seq<Op>, first: Time, between: seq<Op>, second: Time)
    requires Fires(interval, before, first)
    requires Fires(interval, before + [TickOp(first)] + between, second)
    requires TicksForward(first, between) && LatestTick(first, between) <= second
    ensures first + interval <= second
  {
    var ops := before + [TickOp(first)];
    assert ops[..|ops| - 1] == before;
    AnchorMovesOn(interval, ops, first, between);
  }

  /** What it looks like on the wire, in one packet. */
  lemma BeatOnTheWire(att: nat)
    requires att >= 5
    ensures Fragments([91, 1, 66], att) == [[0x20, 3, 91, 1, 66]]
  {
    var data: Octets := [91, 1, 66];
    assert data[..3] == data && data[3..] == [];
    assert FirstHeader(3) == [0x20, 3] && Min(att - 2, 3) == 3 && Continuations([], att - 1) == [];
    assert Fragments(data, att) == [FirstHeader(3) + data[..3]] + Continuations(data[3..], att - 1);
    assert [0x20, 3] + data == [0x20, 3, 91, 1, 66] && [[0x20, 3] + data] + [] == [[0x20, 3] + data];
  }
}
