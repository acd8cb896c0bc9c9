/** The queue's deadlines, for a whole session. */
module SessionTiming {
  import opened Millis
  import opened Queue
  import opened Reentrancy
  import opened QueueTiming
  import opened Session
  import opened SessionHistory

  predicate Untimed(op: Op) {
    op.AttOp? || op.DisconnectOp?
  }

  /** No operation comes before an earlier one, or more than `d` after the last
      tick. */
  predicate InTime(d: nat, clock: Clock, op: Op) {
    Untimed(op) || clock.now <= op.now <= clock.lastTick + d
  }

  function ClockOn(clock: Clock, op: Op): Clock {
    if Untimed(op) then clock else if op.TickOp? then Clock(op.now, op.now) else clock.(now := op.now)
  }

  function ClockOver(clock: Clock, ops: seq<Op>): Clock {
    if ops == [] then clock else ClockOn(ClockOver(clock, ops[..|ops| - 1]), ops[|ops| - 1])
  }

  predicate InTimeRun(d: nat, clock: Clock, ops: seq<Op>) {
    ops == []
    || (&& InTimeRun(d, clock, ops[..|ops| - 1])
        && InTime(d, ClockOver(clock, ops[..|ops| - 1]), ops[|ops| - 1]))
  }

  /** The calls of one operation are timely, one after the other. */
  lemma CallsTimely(d: nat, clock: Clock, s: Session, op: Op)
    requires InTime(d, clock, op) && clock.lastTick <= clock.now
    ensures var calls := QueueCalls(s, op);
            && |calls| <= 2
            && (|calls| >= 1 ==> Timely(d, clock, calls[0]))
            && (|calls| == 2 ==> Timely(d, Advance(clock, calls[0]), calls[1]))
            && (|calls| >= 1 ==> Advance(clock, calls[0]).now == ClockOn(clock, op).now)
            && (|calls| == 1 ==> Advance(clock, calls[0]) == ClockOn(clock, op))
            && (|calls| == 2 ==> Advance(Advance(clock, calls[0]), calls[1]) == ClockOn(clock, op))
  {
  }

  /** A clock that moved on with no call in between. */
  lemma ClockMoves(opts: Options, d: nat, clock: Clock, op: Op, q: State)
    requires OnTime(opts, d, clock, q) && InTime(d, clock, op) && !op.TickOp?
    ensures OnTime(opts, d, ClockOn(clock, op), q)
  {
  }

  lemma OpOnTime(d: nat, clock: Clock, s: Session, op: Op)
    requires Sound(s.queue) && OnTime(s.opts, d, clock, s.queue) && InTime(d, clock, op)
    ensures OnTime(s.opts, d, ClockOn(clock, op), Run(s, op).s.queue)
  {
    var q, calls := s.queue, QueueCalls(s, op);
    CallsTimely(d, clock, s, op);
    OpIsQueueRun(s, op);
    if |calls| == 0 {
      ClockMoves(s.opts, d, clock, op, q);
    } else if |calls| == 1 {
      assert calls == [calls[0]];
      OneOnTime(s.opts, d, clock, q, calls[0]);
    } else {
      assert calls == [calls[0], calls[1]];
      TwoOnTime(s.opts, d, clock, q, calls[0], calls[1]);
    }
  }

  lemma OneOnTime(opts: Options, d: nat, clock: Clock, q: State, c: Call)
    requires Sound(q) && OnTime(opts, d, clock, q) && Timely(d, clock, c)
    ensures Sound(QueueAfter(opts, q, [c]))
    ensures OnTime(opts, d, Advance(clock, c), QueueAfter(opts, q, [c]))
  {
    CallAlone(opts, q, c);
    CallOnTime(opts, d, clock, q, c);
    GateUnmoved(opts, q, c);
  }

  lemma TwoOnTime(opts: Options, d: nat, clock: Clock, q: State, c: Call, c': Call)
    requires Sound(q) && OnTime(opts, d, clock, q)
    requires Timely(d, clock, c) && Timely(d, Advance(clock, c), c')
    ensures OnTime(opts, d, Advance(Advance(clock, c), c'), QueueAfter(opts, q, [c, c']))
  {
    OneOnTime(opts, d, clock, q, c);
    CallAlone(opts, q, c);
    CallThen(opts, q, c, c');
    CallOnTime(opts, d, Advance(clock, c), Apply(opts, q, c).q, c');
  }

  lemma {:induction false} SessionOnTime(att: nat, interval: nat, opts: Options, d: nat, start: Time, ops: seq<Op>)
    requires InTimeRun(d, Clock(start, start), ops)
    ensures OnTime(opts, d, ClockOver(Clock(start, start), ops), After(Start(att, interval, opts), ops).s.queue)
  {
    if ops != [] {
      var front := ops[..|ops| - 1];
      SessionOnTime(att, interval, opts, d, start, front);
      EveryRunConsistent(att, interval, opts, front);
      OpOnTime(d, ClockOver(Clock(start, start), front), After(Start(att, interval, opts), front).s, ops[|ops| - 1]);
    }
  }

  /** Outcomes of accepted commands reported at `now` are in time. */
  ghost predicate ReportsInTime(bound: nat, now: Time, events: seq<Callback>) {
    forall x :: x in events && x.Finished? && x.outcome != Rejected ==> now < x.entry.queuedAt + bound
  }

  lemma OpPunctual(d: nat, clock: Clock, h: History, op: Op)
    requires Deadline(h.s.opts) && Consistent(h) && OnTime(h.s.opts, d, clock, h.s.queue) && InTime(d, clock, op)
    ensures ReportsInTime(Bound(h.s.opts, d), ClockOn(clock, op).now, Run(h.s, op).events)
  {
    var opts, q, calls := h.s.opts, h.s.queue, QueueCalls(h.s, op);
    var qs, now := CallEvents(opts, q, calls), ClockOn(clock, op).now;
    CallsTimely(d, clock, h.s, op);
    OpIsQueueRun(h.s, op);
    EmbeddedMembers(h.s.att, Run(h.s, op).events, qs);
    assert Punctual(opts, d, now, qs) by {
      CallsPunctual(opts, d, clock, q, calls, now);
    }
  }

  lemma CallsPunctual(opts: Options, d: nat, clock: Clock, q: State, calls: seq<Call>, now: Time)
    requires Deadline(opts) && Sound(q) && OnTime(opts, d, clock, q) && |calls| <= 2
    requires |calls| >= 1 ==> Timely(d, clock, calls[0]) && Advance(clock, calls[0]).now == now
    requires |calls| == 2 ==>
               var c := Advance(clock, calls[0]); Timely(d, c, calls[1]) && Advance(c, calls[1]).now == now
    ensures Punctual(opts, d, now, CallEvents(opts, q, calls))
  {
    if |calls| == 1 {
      assert calls == [calls[0]];
      CallAlone(opts, q, calls[0]);
      CallOnTime(opts, d, clock, q, calls[0]);
    } else if |calls| == 2 {
      assert calls == [calls[0], calls[1]];
      CallThen(opts, q, calls[0], calls[1]);
      CallOnTime(opts, d, clock, q, calls[0]);
      GateUnmoved(opts, q, calls[0]);
      CallOnTime(opts, d, Advance(clock, calls[0]), Apply(opts, q, calls[0]).q, calls[1]);
    }
  }

  /** Every outcome that a session reports of a command it accepted is reported
      less than queueTimeout + writeTimeout + 2d after the submission. */
  lemma SessionPunctual(att: nat, interval: nat, opts: Options, d: nat, start: Time, ops: seq<Op>, op: Op)
    requires Deadline(opts) && InTimeRun(d, Clock(start, start), ops)
    requires InTime(d, ClockOver(Clock(start, start), ops), op)
    ensures var now := ClockOn(ClockOver(Clock(start, start), ops), op).now;
            ReportsInTime(Bound(opts, d), now, Run(After(Start(att, interval, opts), ops).s, op).events)
  {
    SessionOnTime(att, interval, opts, d, start, ops);
    EveryRunConsistent(att, interval, opts, ops);
    OpPunctual(d, ClockOver(Clock(start, start), ops), After(Start(att, interval, opts), ops), op);
  }

  /** And by the end of the first operation at that age it has been reported,
      exactly as often as it was submitted. */
  lemma SessionBoundedCompletion(att: nat, interval: nat, opts: Options, d: nat, start: Time, ops: seq<Op>, e: Entry)
    requires Deadline(opts) && InTimeRun(d, Clock(start, start), ops)
    requires e in After(Start(att, interval, opts), ops).m.accepted
    requires e.queuedAt + Bound(opts, d) <= ClockOver(Clock(start, start), ops).now
    ensures var h := After(Start(att, interval, opts), ops);
            Count(FinishedEntries(h.log), Origin(e)) == Count(h.m.accepted, Origin(e)) > 0
  {
    var h := After(Start(att, interval, opts), ops);
    SessionOnTime(att, interval, opts, d, start, ops);
    EveryRunConsistent(att, interval, opts, ops);
    CompletedByNow(h.m, e);
  }
}
