/** What ticking the queue often enough guarantees.

    Time never runs backwards here and the owner ticks at most `d` milliseconds
    apart; callbacks just return. */
module QueueTiming {
  import opened Bytes
  import opened Millis
  import opened Sequences
  import opened Queue
  import opened QueuePass
  import opened Reentrancy

  /** The last tick, and the latest time of any call. */
  datatype Clock = Clock(lastTick: Time, now: Time)

  predicate Timeless(c: Call) {
    c.CancelCall? || (c.ReadyCall? && !c.ready)
  }

  /** No call comes before an earlier one, or more than `d` after the last
      tick. */
  predicate Timely(d: nat, clock: Clock, c: Call) {
    Timeless(c) || clock.now <= c.now <= clock.lastTick + d
  }

  function Advance(clock: Clock, c: Call): Clock {
    if Timeless(c) then clock
    else if c.TickCall? then Clock(c.now, c.now)
    else clock.(now := c.now)
  }

  function ClockAfter(clock: Clock, calls: seq<Call>): Clock {
    if calls == [] then clock
    else Advance(ClockAfter(clock, calls[..|calls| - 1]), calls[|calls| - 1])
  }

  predicate TimelyRun(d: nat, clock: Clock, calls: seq<Call>) {
    calls == []
    || (&& TimelyRun(d, clock, calls[..|calls| - 1])
        && Timely(d, ClockAfter(clock, calls[..|calls| - 1]), calls[|calls| - 1]))
  }

  // --- The deadlines ------------------------------------------------------

  /** A write timeout of zero ends a command at the next tick, like one of 1. */
  function WriteLimit(opts: Options): (limit: nat)
    ensures limit > 0 && limit >= opts.writeTimeout
  {
    if opts.writeTimeout == 0 then 1 else opts.writeTimeout
  }

  /** Without a queue timeout a pending command has no deadline. */
  predicate Deadline(opts: Options) {
    opts.queueTimeout > 0
  }

  ghost predicate PendingOnTime(opts: Options, clock: Clock, e: Entry) {
    e.queuedAt <= clock.now && (Deadline(opts) ==> clock.lastTick < e.queuedAt + opts.queueTimeout)
  }

  ghost predicate InFlightOnTime(opts: Options, d: nat, clock: Clock, e: Entry) {
    && e.queuedAt <= e.sentAt <= clock.now
    && clock.lastTick < e.sentAt + WriteLimit(opts)
    && (Deadline(opts) ==> e.sentAt < e.queuedAt + opts.queueTimeout + d)
  }

  /** As of the last tick nothing outstanding had reached its timeout. */
  ghost predicate OnTime(opts: Options, d: nat, clock: Clock, q: State) {
    && clock.lastTick <= clock.now <= clock.lastTick + d
    && (forall e :: e in q.pending ==> PendingOnTime(opts, clock, e))
    && (forall e :: e in q.inFlight ==> InFlightOnTime(opts, d, clock, e))
  }

  /** The longest a command can stay outstanding. */
  function Bound(opts: Options, d: nat): nat {
    opts.queueTimeout + WriteLimit(opts) + 2 * d
  }

  lemma PumpOnTime(opts: Options, d: nat, clock: Clock, q: State)
    requires Sound(q) && OnTime(opts, d, clock, q)
    ensures OnTime(opts, d, clock, Pump(q, clock.now).q)
    ensures forall ev :: ev in Pump(q, clock.now).events ==> ev.Wrote?
  {
    PumpMoves(q, clock.now);
  }

  /** Completions that a call makes on behalf of accepted submissions. */
  ghost predicate Punctual(opts: Options, d: nat, now: nat, events: seq<Event>) {
    forall ev :: ev in events && ev.Completed? && ev.outcome != Rejected && Deadline(opts) ==>
      now < ev.entry.queuedAt + Bound(opts, d)
  }

  /** One call keeps everything on time, and what it completes is on time. */
  lemma CallOnTime(opts: Options, d: nat, clock: Clock, q: State, c: Call)
    requires Sound(q) && OnTime(opts, d, clock, q) && Timely(d, clock, c)
    ensures OnTime(opts, d, Advance(clock, c), Apply(opts, q, c).q)
    ensures Punctual(opts, d, Advance(clock, c).now, Apply(opts, q, c).events)
  {
    match c
    case SubmitCall(_, _, _, _, _) => SubmitOnTime(opts, d, clock, q, NewEntry(c));
    case ReadyCall(ready, now) =>
      if ready {
        PumpOnTime(opts, d, clock.(now := now), q.(ready := true));
      }
    case RespondCall(id, data, now) => RespondOnTime(opts, d, clock, q, id, data, now);
    case TickCall(now) => TickOnTime(opts, d, clock, q, now);
    case CancelCall => CompletionsOf(q.inFlight + q.pending, Canceled, []);
  }

  lemma EnqueueOnTime(opts: Options, d: nat, clock: Clock, q: State, e: Entry)
    requires OnTime(opts, d, clock, q)
    requires clock.now <= e.queuedAt <= clock.lastTick + d
    ensures OnTime(opts, d, clock.(now := e.queuedAt), Enqueue(q, e))
  {
    forall x | x in Enqueue(q, e).pending
      ensures x == e || x in q.pending
    {
    }
  }

  lemma SubmitOnTime(opts: Options, d: nat, clock: Clock, q: State, e: Entry)
    requires Sound(q) && OnTime(opts, d, clock, q)
    requires clock.now <= e.queuedAt <= clock.lastTick + d
    ensures OnTime(opts, d, clock.(now := e.queuedAt), Submit(q, e).q)
    ensures Punctual(opts, d, e.queuedAt, Submit(q, e).events)
  {
    var moved := clock.(now := e.queuedAt);
    if IsDuplicate(q, e.id) {
      assert OnTime(opts, d, moved, q);
    } else {
      EnqueueOnTime(opts, d, clock, q, e);
      EnqueueKeepsSound(q, e);
      PumpOnTime(opts, d, moved, Enqueue(q, e));
    }
  }

  lemma RespondOnTime(opts: Options, d: nat, clock: Clock, q: State, id: nat, data: Octets, now: Time)
    requires Sound(q) && OnTime(opts, d, clock, q)
    requires clock.now <= now <= clock.lastTick + d
    ensures OnTime(opts, d, clock.(now := now), Respond(q, id, data, now).q)
    ensures Punctual(opts, d, now, Respond(q, id, data, now).events)
  {
    var k := IndexOf(q.inFlight, id);
    if k < |q.inFlight| {
      var q1 := q.(inFlight := RemoveAt(q.inFlight, k));
      assert q.inFlight[k] in q.inFlight;
      assert forall x :: x in q1.inFlight ==> x in q.inFlight;
      assert OnTime(opts, d, clock.(now := now), q1);
      RemovalKeepsSound(q, k);
      PumpOnTime(opts, d, clock.(now := now), q1);
    }
  }

  lemma TickOnTime(opts: Options, d: nat, clock: Clock, q: State, now: Time)
    requires Sound(q) && OnTime(opts, d, clock, q) && clock.now <= now <= clock.lastTick + d
    ensures OnTime(opts, d, Clock(now, now), Tick(opts, q, now).q)
    ensures Punctual(opts, d, now, Tick(opts, q, now).events)
  {
    var q1 := WithoutExpired(opts, q, now);
    ExpiryKeepsSound(opts, q, now);
    assert OnTime(opts, d, Clock(now, now), q1);
    PumpOnTime(opts, d, Clock(now, now), q1);
    CompletionsOf(Expired(opts, q, now), TimedOut, []);
  }

  lemma {:induction false} RunOnTime(opts: Options, d: nat, m: Machine, clock: Clock, calls: seq<Call>)
    requires TimelyRun(d, clock, calls)
    requires Idle(m) && Invariant(m) && OnTime(opts, d, clock, m.q)
    ensures Idle(AfterCalls(opts, m, calls)) && Invariant(AfterCalls(opts, m, calls))
    ensures OnTime(opts, d, ClockAfter(clock, calls), AfterCalls(opts, m, calls).q)
  {
    CallsKeepInvariant(opts, m, calls);
    if calls != [] {
      var front, n := calls[..|calls| - 1], |calls| - 1;
      RunOnTime(opts, d, m, clock, front);
      CallOnTime(opts, d, ClockAfter(clock, front), AfterCalls(opts, m, front).q, calls[n]);
    }
  }

  /** A fresh queue, first used at `start`. */
  lemma FreshOnTime(opts: Options, d: nat, start: Time, calls: seq<Call>)
    requires TimelyRun(d, Clock(start, start), calls)
    ensures var m := AfterCalls(opts, INITIAL, calls);
            Idle(m) && Invariant(m) && OnTime(opts, d, ClockAfter(Clock(start, start), calls), m.q)
  {
    InitialInvariant();
    RunOnTime(opts, d, INITIAL, Clock(start, start), calls);
  }

  /** Every accepted command is completed, and less than
      queueTimeout + writeTimeout + 2d after it was submitted: nothing older is
      still outstanding at the end of a run, nothing older is completed by the
      next call, and what is no longer outstanding has been completed. */
  lemma BoundedCompletion(opts: Options, d: nat, start: Time, calls: seq<Call>)
    requires Deadline(opts) && TimelyRun(d, Clock(start, start), calls)
    ensures var m, now := AfterCalls(opts, INITIAL, calls), ClockAfter(Clock(start, start), calls).now;
            && (forall e :: e in m.q.pending + m.q.inFlight ==> now < e.queuedAt + Bound(opts, d))
            && (forall e :: e in m.accepted && e.queuedAt + Bound(opts, d) <= now ==>
                  Count(Retired(m.events), Origin(e)) == Count(m.accepted, Origin(e)) > 0)
    ensures forall c :: Timely(d, ClockAfter(Clock(start, start), calls), c) ==>
              Punctual(opts, d, Advance(ClockAfter(Clock(start, start), calls), c).now,
                       Apply(opts, AfterCalls(opts, INITIAL, calls).q, c).events)
  {
    var m, clock := AfterCalls(opts, INITIAL, calls), ClockAfter(Clock(start, start), calls);
    FreshOnTime(opts, d, start, calls);
    forall e | e in m.accepted && e.queuedAt + Bound(opts, d) <= clock.now
      ensures Count(Retired(m.events), Origin(e)) == Count(m.accepted, Origin(e)) > 0
    {
      CompletedByNow(m, e);
    }
    forall c | Timely(d, clock, c)
      ensures Punctual(opts, d, Advance(clock, c).now, Apply(opts, m.q, c).events)
    {
      CallOnTime(opts, d, clock, m.q, c);
    }
  }

  /** Without a queue timeout there is no bound at all: behind the shut gate of
      a fresh queue an ordinary command is still pending after any ticks. */
  lemma {:induction false} WaitsForever(opts: Options, c: Call, ticks: seq<Call>)
    requires !Deadline(opts) && c.SubmitCall? && c.priority == Queued
    requires forall k :: 0 <= k < |ticks| ==> ticks[k].TickCall?
    ensures AfterCalls(opts, AfterCall(opts, INITIAL, c), ticks).q == State(false, [NewEntry(c)], [])
  {
    if ticks == [] {
      WaitsAtFirst(NewEntry(c));
    } else {
      var n := |ticks| - 1;
      WaitsForever(opts, c, ticks[..n]);
      WaitsOn(opts, NewEntry(c), ticks[n].now);
    }
  }

  lemma WaitsAtFirst(e: Entry)
    requires e.priority == Queued
    ensures Submit(EMPTY, e).q == State(false, [e], [])
  {
    assert Enqueue(EMPTY, e) == State(false, [e], []);
    PumpOrdinary(State(false, [e], []), e.queuedAt);
  }

  lemma WaitsOn(opts: Options, e: Entry, now: Time)
    requires !Deadline(opts) && e.priority == Queued
    ensures Tick(opts, State(false, [e], []), now).q == State(false, [e], [])
  {
    RejectNone([e], x => WaitExpired(opts, now, x));
    assert WithoutExpired(opts, State(false, [e], []), now) == State(false, [e], []);
    PumpOrdinary(State(false, [e], []), now);
  }

  /** What was accepted and is no longer outstanding has been completed. */
  lemma CompletedByNow(m: Machine, e: Entry)
    requires Idle(m) && Invariant(m) && e in m.accepted
    requires forall x :: x in m.q.pending + m.q.inFlight ==> x.queuedAt != e.queuedAt
    ensures Count(Retired(m.events), Origin(e)) == Count(m.accepted, Origin(e)) > 0
  {
    forall x | x in m.q.pending || x in m.q.inFlight
      ensures x.queuedAt != e.queuedAt
    {
      assert x in m.q.pending + m.q.inFlight;
    }
    NoneOutstanding(m.q.pending, e);
    NoneOutstanding(m.q.inFlight, e);
    assert Owed(m.stack, Origin(e)) == 0;
    var i :| 0 <= i < |m.accepted| && m.accepted[i] == e;
    CountMember(m.accepted, i);
  }

  lemma NoneOutstanding(es: seq<Entry>, e: Entry)
    requires forall x :: x in es ==> x.queuedAt != e.queuedAt
    ensures Count(es, Origin(e)) == 0
  {
    forall i | 0 <= i < |es|
      ensures Origin(es[i]) != Origin(e)
    {
      assert es[i] in es;
    }
    CountNone(es, Origin(e));
  }

  // --- No wedging ---------------------------------------------------------

  /** `e` waits at position `i`, behind `h`, the ordinary command in flight. */
  ghost predicate Waiting(q: State, e: Entry, i: nat, h: Entry) {
    i < |q.pending| && q.pending[i] == e && h in q.inFlight && h.priority == Queued
  }

  /** With `i` commands pending before it and one in flight, the latest that a
      command's turn can come. */
  function Turn(opts: Options, d: nat, i: nat, h: Entry): nat {
    h.sentAt + (i + 1) * (WriteLimit(opts) + d)
  }

  predicate KeepsOpen(c: Call) {
    !c.CancelCall? && !(c.ReadyCall? && !c.ready)
  }

  lemma TurnLater(opts: Options, d: nat, i: nat, h: Entry, i': nat, h': Entry)
    requires i' < i && h'.sentAt < h.sentAt + WriteLimit(opts) + d
    ensures Turn(opts, d, i', h') <= Turn(opts, d, i, h)
  {
    var slot := WriteLimit(opts) + d;
    assert (i + 1) * slot == slot + i * slot;
    MulMonotone(i' + 1, i, slot);
  }

  lemma MulMonotone(a: nat, b: nat, k: nat)
    requires a <= b
    ensures a * k <= b * k
  {
  }

  lemma TurnSameHolder(opts: Options, d: nat, i: nat, h: Entry, i': nat)
    requires i' <= i
    ensures Turn(opts, d, i', h) <= Turn(opts, d, i, h)
  {
    MulMonotone(i' + 1, i + 1, WriteLimit(opts) + d);
  }

  lemma MemberIsHeld(es: seq<Entry>, e: Entry)
    requires e in es && e.priority == Queued
    ensures HasQueued(es)
  {
    var i :| 0 <= i < |es| && es[i] == e;
    assert es[i].priority == Queued;
  }

  lemma OnlyHolder(es: seq<Entry>, a: Entry, b: Entry)
    requires OneQueued(es) && a in es && b in es && a.priority == Queued && b.priority == Queued
    ensures a == b
  {
  }

  lemma PositionUnique(es: seq<Entry>, i: nat, j: nat)
    requires DistinctIds(es) && i < |es| && j < |es| && es[i] == es[j]
    ensures i == j
  {
  }

  /** While the gate stays open a waiting command's turn never moves back. */
  lemma TurnHolds(opts: Options, d: nat, clock: Clock, q: State, c: Call, e: Entry, i: nat, h: Entry)
    returns (i': nat, h': Entry)
    requires Sound(q) && Quiet(q) && q.ready && OnTime(opts, d, clock, q)
    requires Timely(d, clock, c) && KeepsOpen(c)
    requires Waiting(q, e, i, h) && e in Apply(opts, q, c).q.pending
    ensures Waiting(Apply(opts, q, c).q, e, i', h') && Turn(opts, d, i', h') <= Turn(opts, d, i, h)
  {
    MemberIsHeld(q.inFlight, h);
    DistinctParts(q.pending, q.inFlight);
    match c
    case SubmitCall(_, _, _, _, _) =>
      i', h' := i, h;
      SubmitKeepsPlace(q, NewEntry(c), i);
    case ReadyCall(_, now) =>
      i', h' := i, h;
      assert q.(ready := true) == q;
      PumpOrdinary(q, now);
    case RespondCall(id, data, now) =>
      i', h' := RespondTurn(opts, d, clock, q, id, data, now, e, i, h);
    case TickCall(now) =>
      i', h' := TickTurn(opts, d, clock, q, now, e, i, h);
  }

  /** A submission never disturbs the order of a quiet queue whose slot is
      taken. */
  lemma SubmitKeepsPlace(q: State, e: Entry, i: nat)
    requires Sound(q) && Quiet(q) && HasQueued(q.inFlight) && i < |q.pending|
    ensures var q' := Submit(q, e).q;
            && i < |q'.pending| && q'.pending[i] == q.pending[i]
            && forall x :: x in q.inFlight ==> x in q'.inFlight
  {
    if !IsDuplicate(q, e.id) {
      var q1 := Enqueue(q, e);
      EnqueueKeepsSound(q, e);
      PumpIsOnePass(q1, e.queuedAt);
      assert q.pending + [] == q.pending;
      PassSkips(q.pending, [], false);
      PassSkips(q.pending, [e], false);
      if e.priority == KeepAlive {
        assert ([e] + q.pending)[1..] == q.pending;
      } else {
        assert [e][1..] == [];
      }
    }
  }

  lemma RespondTurn(opts: Options, d: nat, clock: Clock, q: State, id: nat, data: Octets, now: Time,
                    e: Entry, i: nat, h: Entry)
    returns (i': nat, h': Entry)
    requires Sound(q) && Quiet(q) && q.ready && OnTime(opts, d, clock, q)
    requires clock.now <= now <= clock.lastTick + d
    requires Waiting(q, e, i, h) && e in Respond(q, id, data, now).q.pending
    ensures Waiting(Respond(q, id, data, now).q, e, i', h') && Turn(opts, d, i', h') <= Turn(opts, d, i, h)
  {
    i', h' := i, h;
    var k := IndexOf(q.inFlight, id);
    if k < |q.inFlight| {
      var q1 := q.(inFlight := RemoveAt(q.inFlight, k));
      RemovalKeepsSound(q, k);
      PumpOrdinary(q1, now);
      if h in q1.inFlight {
        MemberIsHeld(q1.inFlight, h);
      } else {
        HolderGone(q, q1, h);
        i', h' := SlotPasses(opts, d, clock, q, q1, now, e, i, h, i);
      }
    }
  }

  lemma HolderGone(q: State, q1: State, h: Entry)
    requires Sound(q) && h in q.inFlight && h.priority == Queued && h !in q1.inFlight
    requires forall x :: x in q1.inFlight ==> x in q.inFlight
    ensures !HasQueued(q1.inFlight)
  {
    if HasQueued(q1.inFlight) {
      var k :| 0 <= k < |q1.inFlight| && q1.inFlight[k].priority == Queued;
      OnlyHolder(q.inFlight, q1.inFlight[k], h);
    }
  }

  /** The slot is free and goes to the oldest pending command at once. */
  lemma SlotPasses(opts: Options, d: nat, clock: Clock, q: State, q1: State, now: Time,
                   e: Entry, i: nat, h: Entry, j: nat)
    returns (i': nat, h': Entry)
    requires OnTime(opts, d, clock, q) && clock.now <= now <= clock.lastTick + d && h in q.inFlight
    requires Sound(q1) && SlotFree(q1) && forall k :: 0 <= k < |q1.pending| ==> q1.pending[k].priority == Queued
    requires j <= i && j < |q1.pending| && q1.pending[j] == e && e in Pump(q1, now).q.pending
    ensures Waiting(Pump(q1, now).q, e, i', h') && Turn(opts, d, i', h') <= Turn(opts, d, i, h)
  {
    PumpOrdinary(q1, now);
    DistinctParts(q1.pending, q1.inFlight);
    var first := Stamp(q1.pending[0], now);
    var p :| 0 <= p < |q1.pending[1..]| && q1.pending[1..][p] == e;
    PositionUnique(q1.pending, j, p + 1);
    i', h' := p, first;
    assert (q1.inFlight + [first])[|q1.inFlight|] == first;
    TurnLater(opts, d, i, h, i', h');
  }

  lemma TickTurn(opts: Options, d: nat, clock: Clock, q: State, now: Time, e: Entry, i: nat, h: Entry)
    returns (i': nat, h': Entry)
    requires Sound(q) && Quiet(q) && q.ready && OnTime(opts, d, clock, q)
    requires clock.now <= now <= clock.lastTick + d
    requires Waiting(q, e, i, h) && e in Tick(opts, q, now).q.pending
    ensures Waiting(Tick(opts, q, now).q, e, i', h') && Turn(opts, d, i', h') <= Turn(opts, d, i, h)
  {
    var q1 := WithoutExpired(opts, q, now);
    ExpiryKeepsSound(opts, q, now);
    DistinctParts(q.pending, q.inFlight);
    forall k | 0 <= k < |q1.pending|
      ensures q1.pending[k].priority == Queued
    {
      assert q1.pending[k] in q.pending;
    }
    PumpOrdinary(q1, now);
    PumpMoves(q1, now);
    assert e in q1.pending;
    var j := PlaceAfterExpiry(opts, q, now, e, i);
    if h in q1.inFlight {
      MemberIsHeld(q1.inFlight, h);
      i', h' := j, h;
      TurnSameHolder(opts, d, i, h, j);
    } else {
      HolderGone(q, q1, h);
      i', h' := SlotPasses(opts, d, clock, q, q1, now, e, i, h, j);
    }
  }

  lemma PlaceAfterExpiry(opts: Options, q: State, now: Time, e: Entry, i: nat) returns (j: nat)
    requires DistinctIds(q.pending) && i < |q.pending| && q.pending[i] == e
    requires e in WithoutExpired(opts, q, now).pending
    ensures j <= i && j < |WithoutExpired(opts, q, now).pending| && WithoutExpired(opts, q, now).pending[j] == e
  {
    var kept := WithoutExpired(opts, q, now).pending;
    j :| 0 <= j < |kept| && kept[j] == e;
    RejectSubsequence(q.pending, x => WaitExpired(opts, now, x));
    var f :| Embeds(f, kept, q.pending);
    PositionUnique(q.pending, f[j], i);
    EmbeddingClimbs(f, kept, q.pending, j);
  }

  lemma {:induction false} EmbeddingClimbs<T>(f: seq<nat>, a: seq<T>, b: seq<T>, j: nat)
    requires Embeds(f, a, b) && j < |f|
    ensures j <= f[j]
  {
    if j > 0 {
      EmbeddingClimbs(f, a, b, j - 1);
    }
  }

  /** `e` is pending before `calls` and after each of them. */
  predicate StaysPending(opts: Options, m: Machine, calls: seq<Call>, e: Entry) {
    e in AfterCalls(opts, m, calls).q.pending && (calls != [] ==> StaysPending(opts, m, calls[..|calls| - 1], e))
  }

  /** No call of the run shuts the gate. */
  predicate StaysOpen(calls: seq<Call>) {
    calls != [] ==> KeepsOpen(calls[|calls| - 1]) && StaysOpen(calls[..|calls| - 1])
  }

  /** While the gate stays open, a command that stays pending with `i` pending
      commands ahead of it and one in flight waits less than (i + 1) slots of
      writeTimeout + d each, whatever else is submitted, answered or timed out
      meanwhile. At that age, then, it has been transmitted or has timed out. */
  lemma NoWedging(opts: Options, d: nat, start: Time, before: seq<Call>, calls: seq<Call>, e: Entry, i: nat)
    requires var clock := Clock(start, start);
             TimelyRun(d, clock, before) && TimelyRun(d, ClockAfter(clock, before), calls)
    requires StaysOpen(calls)
    requires var m := AfterCalls(opts, INITIAL, before);
             && m.q.ready && i < |m.q.pending| && m.q.pending[i] == e
             && StaysPending(opts, m, calls, e)
    ensures var clock := ClockAfter(Clock(start, start), before);
            ClockAfter(clock, calls).now < clock.now + (i + 1) * (WriteLimit(opts) + d)
  {
    FreshOnTime(opts, d, start, before);
    WaitsForTurn(opts, d, AfterCalls(opts, INITIAL, before), ClockAfter(Clock(start, start), before), calls, e, i);
  }

  /** The callbacks of a run. */
  function During(opts: Options, m: Machine, calls: seq<Call>): seq<Event> {
    if calls == [] then []
    else
      var front, n := calls[..|calls| - 1], |calls| - 1;
      During(opts, m, front) + Apply(opts, AfterCalls(opts, m, front).q, calls[n]).events
  }

  /** `e` was transmitted or, if there is a queue timeout, timed out. */
  ghost predicate Released(opts: Options, events: seq<Event>, e: Entry) {
    || (exists now: Time :: Wrote(Stamp(e, now)) in events)
    || (Deadline(opts) && Completed(e, TimedOut, []) in events)
  }

  /** So by its turn, at the latest, a command behind an open gate has been
      transmitted or has timed out; without a queue timeout it has been
      transmitted. */
  lemma ReleasedInTurn(opts: Options, d: nat, start: Time, before: seq<Call>, calls: seq<Call>, e: Entry, i: nat)
    requires var clock := Clock(start, start);
             TimelyRun(d, clock, before) && TimelyRun(d, ClockAfter(clock, before), calls)
    requires StaysOpen(calls)
    requires var m := AfterCalls(opts, INITIAL, before);
             m.q.ready && i < |m.q.pending| && m.q.pending[i] == e
    requires var clock := ClockAfter(Clock(start, start), before);
             clock.now + (i + 1) * (WriteLimit(opts) + d) <= ClockAfter(clock, calls).now
    ensures Released(opts, During(opts, AfterCalls(opts, INITIAL, before), calls), e)
  {
    var m := AfterCalls(opts, INITIAL, before);
    FreshOnTime(opts, d, start, before);
    StaysOrReleased(opts, m, calls, e);
    if StaysPending(opts, m, calls, e) {
      NoWedging(opts, d, start, before, calls, e, i);
    }
  }

  lemma {:induction false} StaysOrReleased(opts: Options, m: Machine, calls: seq<Call>, e: Entry)
    requires Idle(m) && Invariant(m) && e in m.q.pending && StaysOpen(calls)
    ensures StaysPending(opts, m, calls, e) || Released(opts, During(opts, m, calls), e)
  {
    if calls != [] {
      var front, n := calls[..|calls| - 1], |calls| - 1;
      StaysOrReleased(opts, m, front, e);
      CallsKeepInvariant(opts, m, front);
      if StaysPending(opts, m, front, e) {
        assert e in AfterCalls(opts, m, front).q.pending;
        CallReleases(opts, AfterCalls(opts, m, front).q, calls[n], e);
      }
    }
  }

  /** Unless everything is canceled, a pending command leaves only by being sent
      or by timing out. */
  lemma CallReleases(opts: Options, q: State, c: Call, e: Entry)
    requires Sound(q) && e in q.pending && !c.CancelCall?
    ensures var r := Apply(opts, q, c);
            e in r.q.pending || Released(opts, r.events, e)
  {
    OpeningKeepsSound(opts, q, c);
    match c
    case SubmitCall(_, _, _, _, _) =>
      if !IsDuplicate(q, c.id) {
        PumpReleases(Enqueue(q, NewEntry(c)), c.now, e);
      }
    case ReadyCall(ready, now) =>
      if ready {
        PumpReleases(q.(ready := true), now, e);
      }
    case RespondCall(id, data, now) =>
      var k := IndexOf(q.inFlight, id);
      if k < |q.inFlight| {
        PumpReleases(q.(inFlight := RemoveAt(q.inFlight, k)), now, e);
      }
    case TickCall(now) =>
      if WaitExpired(opts, now, e) {
        assert e in Expired(opts, q, now);
        CompletionFor(Expired(opts, q, now), TimedOut, [], e);
      } else {
        PumpReleases(WithoutExpired(opts, q, now), now, e);
      }
  }

  lemma {:induction false} CompletionFor(es: seq<Entry>, outcome: Outcome, data: Octets, e: Entry)
    requires e in es
    ensures Completed(e, outcome, data) in Completions(es, outcome, data)
  {
    if es[0] != e {
      CompletionFor(es[1..], outcome, data, e);
    }
  }

  lemma PumpReleases(q: State, now: Time, e: Entry)
    requires Sound(q) && e in q.pending
    ensures e in Pump(q, now).q.pending || Wrote(Stamp(e, now)) in Pump(q, now).events
  {
    var free := SlotFree(q);
    PumpIsOnePass(q, now);
    PassSplits(q.pending, free, e);
    var sends := PassSends(q.pending, free);
    if e in sends {
      var k :| 0 <= k < |sends| && sends[k] == e;
      WritesOnly(StampAll(sends, now));
      assert Writes(StampAll(sends, now))[k] == Wrote(Stamp(e, now));
    }
  }

  lemma WaitsForTurn(opts: Options, d: nat, m: Machine, clock: Clock, calls: seq<Call>, e: Entry, i: nat)
    requires TimelyRun(d, clock, calls) && StaysOpen(calls)
    requires Idle(m) && Invariant(m) && OnTime(opts, d, clock, m.q)
    requires m.q.ready && i < |m.q.pending| && m.q.pending[i] == e
    requires StaysPending(opts, m, calls, e)
    ensures ClockAfter(clock, calls).now < clock.now + (i + 1) * (WriteLimit(opts) + d)
  {
    var k :| 0 <= k < |m.q.inFlight| && m.q.inFlight[k].priority == Queued;
    var h := m.q.inFlight[k];
    assert h in m.q.inFlight;
    var i', h' := TurnOverRun(opts, d, m, clock, calls, e, i, h);
    RunOnTime(opts, d, m, clock, calls);
    BeforeTurn(opts, d, ClockAfter(clock, calls), i', h');
  }

  lemma BeforeTurn(opts: Options, d: nat, clock: Clock, i: nat, h: Entry)
    requires clock.now <= clock.lastTick + d && InFlightOnTime(opts, d, clock, h)
    ensures clock.now < Turn(opts, d, i, h)
  {
    MulMonotone(1, i + 1, WriteLimit(opts) + d);
  }

  lemma {:induction false} TurnOverRun(opts: Options, d: nat, m: Machine, clock: Clock, calls: seq<Call>,
                                       e: Entry, i: nat, h: Entry)
    returns (i': nat, h': Entry)
    requires TimelyRun(d, clock, calls) && StaysOpen(calls)
    requires Idle(m) && Invariant(m) && OnTime(opts, d, clock, m.q)
    requires m.q.ready && Waiting(m.q, e, i, h)
    requires StaysPending(opts, m, calls, e)
    ensures AfterCalls(opts, m, calls).q.ready
    ensures Waiting(AfterCalls(opts, m, calls).q, e, i', h')
    ensures Turn(opts, d, i', h') <= Turn(opts, d, i, h)
    decreases |calls|
  {
    if calls == [] {
      i', h' := i, h;
    } else {
      var n := |calls| - 1;
      var front, c := calls[..n], calls[n];
      var i1, h1 := TurnOverRun(opts, d, m, clock, front, e, i, h);
      RunOnTime(opts, d, m, clock, front);
      var q := AfterCalls(opts, m, front).q;
      GateStaysOpen(opts, q, c);
      i', h' := TurnHolds(opts, d, ClockAfter(clock, front), q, c, e, i1, h1);
    }
  }

  lemma GateStaysOpen(opts: Options, q: State, c: Call)
    requires Sound(q) && q.ready && KeepsOpen(c)
    ensures Apply(opts, q, c).q.ready
  {
    OpeningKeepsSound(opts, q, c);
    match c
    case SubmitCall(_, _, _, _, _) =>
      if !IsDuplicate(q, c.id) {
        PumpMoves(Enqueue(q, NewEntry(c)), c.now);
      }
    case ReadyCall(_, now) => PumpMoves(q.(ready := true), now);
    case RespondCall(id, data, now) =>
      var k := IndexOf(q.inFlight, id);
      if k < |q.inFlight| {
        PumpMoves(q.(inFlight := RemoveAt(q.inFlight, k)), now);
      }
    case TickCall(now) => PumpMoves(WithoutExpired(opts, q, now), now);
  }
}
