/** No command of a session waits for ever behind an open gate. */
module SessionWaiting {
  import opened Millis
  import opened Queue
  import opened QueuePass
  import opened Reentrancy
  import opened QueueTiming
  import opened Session
  import opened SessionHistory
  import opened SessionTiming

  /** Readiness is true after every operation. */
  ghost predicate StaysReady(h: History, ops: seq<Op>) {
    After(h, ops).s.readiness.Ready() && (ops != [] ==> StaysReady(h, ops[..|ops| - 1]))
  }

  ghost predicate StaysQueued(h: History, ops: seq<Op>, e: Entry) {
    e in After(h, ops).s.queue.pending && (ops != [] ==> StaysQueued(h, ops[..|ops| - 1], e))
  }

  /** While readiness holds, an operation makes at most one call on the queue, or
      ticks it and adds a keep-alive. */
  lemma ReadyOpCalls(h: History, op: Op)
    requires Consistent(h) && h.s.readiness.Ready() && Run(h.s, op).s.readiness.Ready()
    ensures var calls := QueueCalls(h.s, op);
            && |calls| <= 2
            && (|calls| >= 1 ==> KeepsOpen(calls[0]))
            && (|calls| == 2 ==> op.TickOp? && calls == [TickCall(op.now), KeepAliveCall(op.now)])
  {
    if op.FeedOp? && HeardIn(h.s, op) != [] {
      FeedMovesGate(h.s, op);
    }
  }

  lemma TurnOverOp(d: nat, clock: Clock, h: History, op: Op, e: Entry, i: nat, holder: Entry)
    returns (i': nat, holder': Entry)
    requires Consistent(h) && OnTime(h.s.opts, d, clock, h.s.queue) && InTime(d, clock, op)
    requires h.s.readiness.Ready() && Run(h.s, op).s.readiness.Ready()
    requires Waiting(h.s.queue, e, i, holder) && e in Run(h.s, op).s.queue.pending
    ensures Waiting(Run(h.s, op).s.queue, e, i', holder')
    ensures Turn(h.s.opts, d, i', holder') <= Turn(h.s.opts, d, i, holder)
  {
    var opts, q, calls := h.s.opts, h.s.queue, QueueCalls(h.s, op);
    CallsTimely(d, clock, h.s, op);
    ReadyOpCalls(h, op);
    OpIsQueueRun(h.s, op);
    if |calls| == 0 {
      i', holder' := i, holder;
    } else if |calls| == 1 {
      assert calls == [calls[0]];
      CallAlone(opts, q, calls[0]);
      i', holder' := TurnHolds(opts, d, clock, q, calls[0], e, i, holder);
    } else {
      CallThen(opts, q, calls[0], calls[1]);
      i', holder' := TurnOverTwo(opts, d, clock, h.m, calls[0], calls[1], e, i, holder);
    }
  }

  lemma TurnOverTwo(opts: Options, d: nat, clock: Clock, m: Machine, c: Call, c': Call, e: Entry, i: nat, h: Entry)
    returns (i': nat, h': Entry)
    requires Idle(m) && Invariant(m) && m.q.ready && OnTime(opts, d, clock, m.q)
    requires Timely(d, clock, c) && Timely(d, Advance(clock, c), c')
    requires KeepsOpen(c) && c'.SubmitCall? && c'.priority == KeepAlive
    requires var q1 := Apply(opts, m.q, c).q; Waiting(m.q, e, i, h) && e in Apply(opts, q1, c').q.pending
    ensures var q1 := Apply(opts, m.q, c).q; Waiting(Apply(opts, q1, c').q, e, i', h')
    ensures Turn(opts, d, i', h') <= Turn(opts, d, i, h)
  {
    var m1 := AfterCall(opts, m, c);
    CallKeepsInvariant(opts, m, c);
    CallOnTime(opts, d, clock, m.q, c);
    GateStaysOpen(opts, m.q, c);
    KeepAliveAddsNothing(m1.q, NewEntry(c'), e);
    var i1, h1 := TurnHolds(opts, d, clock, m.q, c, e, i, h);
    i', h' := TurnHolds(opts, d, Advance(clock, c), m1.q, c', e, i1, h1);
  }

  /** What is pending after a keep-alive's submission was pending before. */
  lemma KeepAliveAddsNothing(q: State, ka: Entry, e: Entry)
    requires Sound(q) && ka.priority == KeepAlive && e in Submit(q, ka).q.pending
    ensures e in q.pending
  {
    if !IsDuplicate(q, ka.id) {
      EnqueueKeepsSound(q, ka);
      PumpIsOnePass(Enqueue(q, ka), ka.queuedAt);
      PassMoves(Enqueue(q, ka).pending, SlotFree(Enqueue(q, ka)));
    }
  }

  lemma {:induction false} TurnOverOps(att: nat, interval: nat, opts: Options, d: nat, start: Time,
                                       before: seq<Op>, ops: seq<Op>, e: Entry, i: nat, holder: Entry)
    returns (i': nat, holder': Entry)
    requires InTimeRun(d, Clock(start, start), before + ops)
    requires var h := After(Start(att, interval, opts), before);
             StaysReady(h, ops) && StaysQueued(h, ops, e) && Waiting(h.s.queue, e, i, holder)
    ensures Waiting(After(Start(att, interval, opts), before + ops).s.queue, e, i', holder')
    ensures Turn(opts, d, i', holder') <= Turn(opts, d, i, holder)
    decreases |ops|
  {
    var h0 := Start(att, interval, opts);
    if ops == [] {
      assert before + ops == before;
      i', holder' := i, holder;
    } else {
      var front, op := ops[..|ops| - 1], ops[|ops| - 1];
      var all := before + front;
      assert (before + ops)[..|before + ops| - 1] == all;
      var i1, holder1 := TurnOverOps(att, interval, opts, d, start, before, front, e, i, holder);
      SessionOnTime(att, interval, opts, d, start, all);
      EveryRunConsistent(att, interval, opts, all);
      RunsCompose(h0, before, front);
      RunsCompose(h0, before, ops);
      i', holder' := TurnOverOp(d, ClockOver(Clock(start, start), all), After(h0, all), op, e, i1, holder1);
    }
  }

  lemma {:induction false} RunsCompose(h: History, a: seq<Op>, b: seq<Op>)
    ensures After(h, a + b) == After(After(h, a), b)
    decreases |b|
  {
    if b == [] {
      assert a + b == a;
    } else {
      assert (a + b)[..|a + b| - 1] == a + b[..|b| - 1];
      RunsCompose(h, a, b[..|b| - 1]);
    }
  }

  lemma {:induction false} ReadyAtFirst(h: History, ops: seq<Op>)
    requires StaysReady(h, ops)
    ensures h.s.readiness.Ready()
  {
    if ops != [] {
      ReadyAtFirst(h, ops[..|ops| - 1]);
    }
  }

  lemma {:induction false} InTimePrefix(d: nat, clock: Clock, a: seq<Op>, b: seq<Op>)
    requires InTimeRun(d, clock, a + b)
    ensures InTimeRun(d, clock, a)
    decreases |b|
  {
    if b == [] {
      assert a + b == a;
    } else {
      assert (a + b)[..|a + b| - 1] == a + b[..|b| - 1];
      InTimePrefix(d, clock, a, b[..|b| - 1]);
    }
  }

  /** While readiness holds, an ordinary command that stays pending with `i`
      pending commands ahead of it waits less than (i + 1) slots of
      writeTimeout + d each, whatever else the session is asked or told. */
  lemma SessionNoWedging(att: nat, interval: nat, opts: Options, d: nat, start: Time,
                         before: seq<Op>, ops: seq<Op>, e: Entry, i: nat)
    requires InTimeRun(d, Clock(start, start), before + ops)
    requires var h := After(Start(att, interval, opts), before);
             && StaysReady(h, ops) && StaysQueued(h, ops, e)
             && i < |h.s.queue.pending| && h.s.queue.pending[i] == e
    ensures var clock := Clock(start, start);
            ClockOver(clock, before + ops).now < ClockOver(clock, before).now + (i + 1) * (WriteLimit(opts) + d)
  {
    var clock := Clock(start, start);
    var holder := HolderBefore(att, interval, opts, d, start, before, ops, e, i);
    var i', holder' := TurnOverOps(att, interval, opts, d, start, before, ops, e, i, holder);
    SessionOnTime(att, interval, opts, d, start, before + ops);
    var q := After(Start(att, interval, opts), before + ops).s.queue;
    TurnNotCome(opts, d, ClockOver(clock, before).now, ClockOver(clock, before + ops), q, e, i, holder, i', holder');
  }

  lemma TurnNotCome(opts: Options, d: nat, since: nat, clock: Clock, q: State, e: Entry,
                    i: nat, holder: Entry, i': nat, holder': Entry)
    requires OnTime(opts, d, clock, q) && Waiting(q, e, i', holder')
    requires holder.sentAt <= since && Turn(opts, d, i', holder') <= Turn(opts, d, i, holder)
    ensures clock.now < since + (i + 1) * (WriteLimit(opts) + d)
  {
    BeforeTurn(opts, d, clock, i', holder');
  }

  /** Who holds the slot at first, and since when. */
  lemma HolderBefore(att: nat, interval: nat, opts: Options, d: nat, start: Time,
                     before: seq<Op>, ops: seq<Op>, e: Entry, i: nat)
    returns (holder: Entry)
    requires InTimeRun(d, Clock(start, start), before + ops)
    requires var h := After(Start(att, interval, opts), before);
             StaysReady(h, ops) && i < |h.s.queue.pending| && h.s.queue.pending[i] == e
    ensures Waiting(After(Start(att, interval, opts), before).s.queue, e, i, holder)
    ensures holder.sentAt <= ClockOver(Clock(start, start), before).now
  {
    var h := After(Start(att, interval, opts), before);
    InTimePrefix(d, Clock(start, start), before, ops);
    SessionOnTime(att, interval, opts, d, start, before);
    EveryRunConsistent(att, interval, opts, before);
    ReadyAtFirst(h, ops);
    holder := SlotHolder(h.s.queue);
  }

  lemma SlotHolder(q: State) returns (holder: Entry)
    requires Quiet(q) && q.ready && q.pending != []
    ensures holder in q.inFlight && holder.priority == Queued
  {
    var k :| 0 <= k < |q.inFlight| && q.inFlight[k].priority == Queued;
    holder := q.inFlight[k];
  }

  // --- How the wait ends --------------------------------------------------

  /** Everything a session reports over `ops`. */
  function EventsOver(h: History, ops: seq<Op>): seq<Callback> {
    if ops == [] then []
    else
      var front := ops[..|ops| - 1];
      EventsOver(h, front) + Run(After(h, front).s, ops[|ops| - 1]).events
  }

  /** `e` was transmitted or, if there is a queue timeout, reported as timed
      out. */
  ghost predicate ReportedReleased(opts: Options, events: seq<Callback>, e: Entry) {
    || (exists x :: x in events && SendsEntry(x, e))
    || (Deadline(opts) && Finished(e, TimedOut, []) in events)
  }

  predicate SendsEntry(x: Callback, e: Entry) {
    x.Sent? && x.entry == Stamp(e, x.entry.sentAt)
  }

  lemma OpReleases(h: History, op: Op, e: Entry)
    requires Consistent(h) && e in h.s.queue.pending && !op.DisconnectOp?
    ensures e in Run(h.s, op).s.queue.pending || ReportedReleased(h.s.opts, Run(h.s, op).events, e)
  {
    var opts, q, calls := h.s.opts, h.s.queue, QueueCalls(h.s, op);
    OpIsQueueRun(h.s, op);
    EmbeddedMembers(h.s.att, Run(h.s, op).events, CallEvents(opts, q, calls));
    CallsRelease(opts, q, calls, e);
    RelayReleases(h.s.att, opts, CallEvents(opts, q, calls), Run(h.s, op).events, e);
  }

  lemma RelayReleases(att: nat, opts: Options, qs: seq<Event>, events: seq<Callback>, e: Entry)
    requires forall ev :: ev in qs ==> RelayOne(att, ev) in events
    ensures Released(opts, qs, e) ==> ReportedReleased(opts, events, e)
  {
    if now: Time :| Wrote(Stamp(e, now)) in qs {
      var x := RelayOne(att, Wrote(Stamp(e, now)));
      assert x in events && SendsEntry(x, e);
    } else if Released(opts, qs, e) {
      assert RelayOne(att, Completed(e, TimedOut, [])) in events;
    }
  }

  lemma CallsRelease(opts: Options, q: State, calls: seq<Call>, e: Entry)
    requires Sound(q) && e in q.pending && |calls| <= 2
    requires forall k :: 0 <= k < |calls| ==> !calls[k].CancelCall?
    ensures e in QueueAfter(opts, q, calls).pending || Released(opts, CallEvents(opts, q, calls), e)
  {
    if |calls| >= 1 {
      var c := calls[0];
      CallReleases(opts, q, c, e);
      GateUnmoved(opts, q, c);
      if |calls| == 1 {
        assert calls == [c];
        CallAlone(opts, q, c);
      } else {
        assert calls == [c, calls[1]];
        CallThen(opts, q, c, calls[1]);
        var q1 := Apply(opts, q, c).q;
        if e in q1.pending {
          CallReleases(opts, q1, calls[1], e);
        }
      }
    }
  }

  lemma NotReadyAfterDrop(h: History)
    ensures !Next(h, DisconnectOp).s.readiness.Ready()
  {
  }

  lemma {:induction false} AfterConsistent(h: History, ops: seq<Op>)
    requires Consistent(h)
    ensures Consistent(After(h, ops)) && After(h, ops).s.opts == h.s.opts
  {
    if ops != [] {
      AfterConsistent(h, ops[..|ops| - 1]);
      OpKeepsConsistent(After(h, ops[..|ops| - 1]), ops[|ops| - 1]);
    }
  }

  lemma ReadyStepReleases(h: History, op: Op, e: Entry)
    requires Consistent(h) && e in h.s.queue.pending && Next(h, op).s.readiness.Ready()
    ensures e in Next(h, op).s.queue.pending || ReportedReleased(h.s.opts, Run(h.s, op).events, e)
  {
    if op.DisconnectOp? {
      NotReadyAfterDrop(h);
    } else {
      OpReleases(h, op, e);
    }
  }

  lemma ReportedLater(opts: Options, a: seq<Callback>, b: seq<Callback>, e: Entry)
    requires ReportedReleased(opts, a, e) || ReportedReleased(opts, b, e)
    ensures ReportedReleased(opts, a + b, e)
  {
    if x :| x in a && SendsEntry(x, e) {
      assert x in a + b;
    } else if x :| x in b && SendsEntry(x, e) {
      assert x in a + b;
    }
  }

  lemma {:induction false} QueuedOrReleased(h: History, ops: seq<Op>, e: Entry)
    requires Consistent(h) && e in h.s.queue.pending && StaysReady(h, ops)
    ensures StaysQueued(h, ops, e) || ReportedReleased(h.s.opts, EventsOver(h, ops), e)
  {
    if ops != [] {
      var front, op := ops[..|ops| - 1], ops[|ops| - 1];
      var h1 := After(h, front);
      QueuedOrReleased(h, front, e);
      AfterConsistent(h, front);
      if StaysQueued(h, front, e) {
        ReadyStepReleases(h1, op, e);
      }
      if ReportedReleased(h.s.opts, EventsOver(h, front), e) || ReportedReleased(h.s.opts, Run(h1.s, op).events, e) {
        ReportedLater(h.s.opts, EventsOver(h, front), Run(h1.s, op).events, e);
      }
    }
  }

  /** So while readiness holds, a pending command has by its turn, at the latest,
      been transmitted or reported as timed out; without a queue timeout it has
      been transmitted. */
  lemma SessionReleasedInTurn(att: nat, interval: nat, opts: Options, d: nat, start: Time,
                              before: seq<Op>, ops: seq<Op>, e: Entry, i: nat)
    requires InTimeRun(d, Clock(start, start), before + ops)
    requires var h := After(Start(att, interval, opts), before);
             StaysReady(h, ops) && i < |h.s.queue.pending| && h.s.queue.pending[i] == e
    requires var clock := Clock(start, start);
             ClockOver(clock, before).now + (i + 1) * (WriteLimit(opts) + d) <= ClockOver(clock, before + ops).now
    ensures ReportedReleased(opts, EventsOver(After(Start(att, interval, opts), before), ops), e)
  {
    EveryRunConsistent(att, interval, opts, before);
    QueuedOrReleased(After(Start(att, interval, opts), before), ops, e);
    if StaysQueued(After(Start(att, interval, opts), before), ops, e) {
      SessionNoWedging(att, interval, opts, d, start, before, ops, e, i);
    }
  }
}
