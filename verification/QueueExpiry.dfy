/** Commands time out when they are due, and no sooner. */
module QueueExpiry {
  import opened Bytes
  import opened Millis
  import opened Queue
  import opened QueuePass
  import opened Reentrancy

  /** Milliseconds from `since` to `now` on a clock that wraps. */
  function Age(now: Time, since: Time): nat {
    (now as int - since) % TWO_TO_64
  }

  /** `e` is due at `now`: in flight for the write timeout since it was sent, or
      pending for the queue timeout, if there is one, since it was submitted. */
  ghost predicate IsDue(opts: Options, q: State, now: Time, e: Entry) {
    || (e in q.inFlight && Age(now, e.sentAt) >= opts.writeTimeout)
    || (e in q.pending && opts.queueTimeout > 0 && Age(now, e.queuedAt) >= opts.queueTimeout)
  }

  // --- One tick -----------------------------------------------------------

  lemma ExpiredIff(opts: Options, q: State, now: Time, e: Entry)
    ensures e in Expired(opts, q, now) <==> IsDue(opts, q, now, e)
    ensures e in WithoutExpired(opts, q, now).inFlight
       <==> e in q.inFlight && Age(now, e.sentAt) < opts.writeTimeout
    ensures e in WithoutExpired(opts, q, now).pending
       <==> e in q.pending && (opts.queueTimeout == 0 || Age(now, e.queuedAt) < opts.queueTimeout)
  {
    ElapsedIsModular(now, e.sentAt);
    ElapsedIsModular(now, e.queuedAt);
  }

  lemma {:induction false} CompletionIff(es: seq<Entry>, outcome: Outcome, data: Octets)
    ensures forall e :: Completed(e, outcome, data) in Completions(es, outcome, data) <==> e in es
  {
    if es != [] {
      CompletionIff(es[1..], outcome, data);
    }
  }

  /** A tick reports as timed out exactly what is due, with no data, and makes no
      other completion. */
  lemma TimedOutIff(opts: Options, q: State, now: Time, e: Entry)
    requires Sound(q)
    ensures Completed(e, TimedOut, []) in Tick(opts, q, now).events <==> IsDue(opts, q, now, e)
    ensures forall ev :: ev in Tick(opts, q, now).events && ev.Completed? ==>
              ev.outcome == TimedOut && ev.response == []
  {
    var expired, q1 := Expired(opts, q, now), WithoutExpired(opts, q, now);
    ExpiryKeepsSound(opts, q, now);
    PumpMoves(q1, now);
    ExpiredIff(opts, q, now, e);
    CompletionIff(expired, TimedOut, []);
    CompletionsOf(expired, TimedOut, []);
  }

  /** What is not due stays: in flight where it was, or pending, unless the tick
      sends it. */
  lemma OthersStay(opts: Options, q: State, now: Time, e: Entry)
    requires Sound(q) && !IsDue(opts, q, now, e)
    ensures var q' := Tick(opts, q, now).q;
            && (e in q.inFlight ==> e in q'.inFlight)
            && (e in q.pending ==> e in q'.pending || e.(sentAt := now) in q'.inFlight)
  {
    var q1 := WithoutExpired(opts, q, now);
    ExpiryKeepsSound(opts, q, now);
    ExpiredIff(opts, q, now, e);
    PumpMoves(q1, now);
    if e in q.pending {
      PumpKeepsOrSends(q1, now, e);
    }
  }

  lemma PumpKeepsOrSends(q: State, now: Time, e: Entry)
    requires Sound(q) && e in q.pending
    ensures e in Pump(q, now).q.pending || e.(sentAt := now) in Pump(q, now).q.inFlight
  {
    var free := SlotFree(q);
    PumpIsOnePass(q, now);
    PassSplits(q.pending, free, e);
    var sends := PassSends(q.pending, free);
    if e in sends {
      var k :| 0 <= k < |sends| && sends[k] == e;
      assert StampAll(sends, now)[k] == Stamp(e, now);
      assert Stamp(e, now) in q.inFlight + StampAll(sends, now);
    }
  }

  /** And what is due is gone. */
  lemma DueLeaves(opts: Options, q: State, now: Time, e: Entry)
    requires Sound(q) && IsDue(opts, q, now, e)
    ensures !HasId(Tick(opts, q, now).q.pending, e.id) && !HasId(Tick(opts, q, now).q.inFlight, e.id)
  {
    var q1, q' := WithoutExpired(opts, q, now), Tick(opts, q, now).q;
    ExpiryKeepsSound(opts, q, now);
    PumpMoves(q1, now);
    DistinctParts(q.pending, q.inFlight);
    forall x | x in q1.pending || x in q1.inFlight
      ensures x.id != e.id
    {
      ExpiredIff(opts, q, now, x);
      if x.id == e.id {
        SameId(q, x, e);
      }
    }
    forall i | 0 <= i < |q'.pending|
      ensures q'.pending[i].id != e.id
    {
      assert q'.pending[i] in q1.pending;
    }
    forall i | 0 <= i < |q'.inFlight|
      ensures q'.inFlight[i].id != e.id
    {
      var x := q'.inFlight[i];
      assert x in q'.inFlight;
      if x !in q1.inFlight {
        var p :| p in q1.pending && x == Stamp(p, now);
      }
    }
  }

  /** An id names at most one outstanding command. */
  lemma SameId(q: State, a: Entry, b: Entry)
    requires Sound(q) && a.id == b.id
    requires (a in q.pending || a in q.inFlight) && (b in q.pending || b in q.inFlight)
    ensures a == b && (a in q.pending <==> b in q.pending)
    ensures a in q.pending ==> a !in q.inFlight
  {
    DistinctParts(q.pending, q.inFlight);
    if a in q.pending && b in q.pending {
      var i :| 0 <= i < |q.pending| && q.pending[i] == a;
      var j :| 0 <= j < |q.pending| && q.pending[j] == b;
    }
    if a in q.inFlight && b in q.inFlight {
      var i :| 0 <= i < |q.inFlight| && q.inFlight[i] == a;
      var j :| 0 <= j < |q.inFlight| && q.inFlight[j] == b;
    }
  }

  // --- Whole runs, with callbacks that may call back in -------------------

  /** At some move of the run, the `k`-th, a tick found `e` due. */
  ghost predicate WasDue(opts: Options, moves: seq<Move>, e: Entry) {
    exists k: nat :: k < |moves| && FindsDue(opts, Execute(opts, INITIAL, moves[..k]).q, moves[k], e)
  }

  ghost predicate FindsDue(opts: Options, q: State, move: Move, e: Entry) {
    move.Enter? && move.call.TickCall? && IsDue(opts, q, move.call.now, e)
  }

  /** At some move `e` was submitted, at the time it carries. */
  ghost predicate WasSubmitted(moves: seq<Move>, e: Entry) {
    exists k: nat :: k < |moves| && moves[k] == Enter(SubmitCall(e.id, e.payload, e.priority, e.done, e.queuedAt))
  }

  /** At some move a call was made at the time `t` that is not a cancellation. */
  ghost predicate WasCalled(moves: seq<Move>, t: Time) {
    exists k: nat :: k < |moves| && moves[k].Enter? && !moves[k].call.CancelCall? && moves[k].call.now == t
  }

  /** Everything the machine holds has its times from the calls of the run. */
  ghost predicate Dated(opts: Options, moves: seq<Move>, m: Machine) {
    && (forall e :: e in m.q.pending ==> WasSubmitted(moves, e))
    && (forall e :: e in m.q.inFlight ==> WasSubmitted(moves, e) && WasCalled(moves, e.sentAt))
    && (forall ev :: ev in m.events && ev.Wrote? ==> WasSubmitted(moves, ev.entry) && WasCalled(moves, ev.entry.sentAt))
    && (forall ev :: ev in m.events && ev.Completed? && ev.outcome == TimedOut ==> WasDue(opts, moves, ev.entry))
    && (forall k :: 0 <= k < |m.stack| ==> DatedFrame(opts, moves, m.stack[k]))
  }

  ghost predicate DatedFrame(opts: Options, moves: seq<Move>, f: Frame) {
    match f
    case Pumping(now) => WasCalled(moves, now)
    case Completing(todo, outcome, _, after) =>
      && (after.ThenPump? ==> WasCalled(moves, after.now))
      && (outcome == TimedOut ==> forall e :: e in todo ==> WasDue(opts, moves, e))
  }

  lemma WasMore(opts: Options, moves: seq<Move>, move: Move)
    ensures forall e :: WasDue(opts, moves, e) ==> WasDue(opts, moves + [move], e)
    ensures forall e :: WasSubmitted(moves, e) ==> WasSubmitted(moves + [move], e)
    ensures forall t :: WasCalled(moves, t) ==> WasCalled(moves + [move], t)
  {
    var more := moves + [move];
    forall e | WasDue(opts, moves, e)
      ensures WasDue(opts, more, e)
    {
      var k: nat :| k < |moves| && FindsDue(opts, Execute(opts, INITIAL, moves[..k]).q, moves[k], e);
      assert more[..k] == moves[..k] && more[k] == moves[k];
    }
    forall e | WasSubmitted(moves, e)
      ensures WasSubmitted(more, e)
    {
      var k: nat :| k < |moves| && moves[k] == Enter(SubmitCall(e.id, e.payload, e.priority, e.done, e.queuedAt));
      assert more[k] == moves[k];
    }
    forall t | WasCalled(moves, t)
      ensures WasCalled(more, t)
    {
      var k: nat :| k < |moves| && moves[k].Enter? && !moves[k].call.CancelCall? && moves[k].call.now == t;
      assert more[k] == moves[k];
    }
  }

  lemma DatedMore(opts: Options, moves: seq<Move>, move: Move, m: Machine)
    requires Dated(opts, moves, m)
    ensures Dated(opts, moves + [move], m)
  {
    WasMore(opts, moves, move);
  }

  /** Whatever callbacks do: a command in flight, or written, was submitted when
      it says and sent at the time of a call; and no command is ever reported
      timed out unless some tick of the run found it due. */
  lemma {:induction false} EveryRunDated(opts: Options, moves: seq<Move>)
    ensures Dated(opts, moves, Execute(opts, INITIAL, moves))
  {
    if moves != [] {
      var front, move := moves[..|moves| - 1], moves[|moves| - 1];
      var m := Execute(opts, INITIAL, front);
      EveryRunDated(opts, front);
      assert moves == front + [move];
      DatedMore(opts, front, move, m);
      if move.Enter? {
        EnterDated(opts, front, move, m);
      } else {
        ContinueDated(opts, moves, m);
      }
    }
  }

  lemma EnterDated(opts: Options, front: seq<Move>, move: Move, m: Machine)
    requires move.Enter? && m == Execute(opts, INITIAL, front)
    requires Dated(opts, front + [move], m)
    ensures Dated(opts, front + [move], Begin(opts, m, move.call))
  {
    var moves, c, n := front + [move], move.call, |front|;
    var m', frames := Begin(opts, m, c), Pushed(opts, m.q, c);
    assert moves[..n] == front && moves[n] == move;
    if !c.CancelCall? {
      assert WasCalled(moves, c.now);
    }
    if c.SubmitCall? {
      assert moves[n] == Enter(SubmitCall(c.id, c.payload, c.priority, c.done, c.now));
      assert WasSubmitted(moves, NewEntry(c));
    }
    if c.TickCall? {
      TickFindsDue(opts, moves, n, m.q, c.now);
    }
    EnteredFrames(opts, moves, m.q, c);
    StackDated(opts, moves, frames, m.stack);
    OpeningHolds(opts, m.q, c);
  }

  lemma EnteredFrames(opts: Options, moves: seq<Move>, q: State, c: Call)
    requires !c.CancelCall? ==> WasCalled(moves, c.now)
    requires c.TickCall? ==> forall e :: e in Expired(opts, q, c.now) ==> WasDue(opts, moves, e)
    ensures forall k :: 0 <= k < |Pushed(opts, q, c)| ==> DatedFrame(opts, moves, Pushed(opts, q, c)[k])
  {
  }

  lemma StackDated(opts: Options, moves: seq<Move>, frames: seq<Frame>, stack: seq<Frame>)
    requires forall k :: 0 <= k < |frames| ==> DatedFrame(opts, moves, frames[k])
    requires forall k :: 0 <= k < |stack| ==> DatedFrame(opts, moves, stack[k])
    ensures forall k :: 0 <= k < |frames + stack| ==> DatedFrame(opts, moves, (frames + stack)[k])
  {
  }

  lemma TickFindsDue(opts: Options, moves: seq<Move>, n: nat, q: State, now: Time)
    requires n < |moves| && q == Execute(opts, INITIAL, moves[..n]).q && moves[n] == Enter(TickCall(now))
    ensures forall e :: e in Expired(opts, q, now) ==> WasDue(opts, moves, e)
  {
    forall e | e in Expired(opts, q, now)
      ensures WasDue(opts, moves, e)
    {
      ExpiredIff(opts, q, now, e);
      assert FindsDue(opts, Execute(opts, INITIAL, moves[..n]).q, moves[n], e);
    }
  }

  /** Entering a call brings nothing into the queue but its own submission. */
  lemma OpeningHolds(opts: Options, q: State, c: Call)
    ensures var q' := Opening(opts, q, c);
            && (forall e :: e in q'.pending ==> e in q.pending || (c.SubmitCall? && e == NewEntry(c)))
            && (forall e :: e in q'.inFlight ==> e in q.inFlight)
  {
  }

  lemma ContinueDated(opts: Options, moves: seq<Move>, m: Machine)
    requires Dated(opts, moves, m)
    ensures Dated(opts, moves, Continue(m))
  {
    if m.stack != [] {
      var m', f := Continue(m), m.stack[0];
      assert DatedFrame(opts, moves, f);
      match f
      case Pumping(now) =>
        assert forall k :: 0 <= k < |m.stack[1..]| ==> m.stack[1..][k] == m.stack[k + 1];
        var i := FirstSendable(m.q, 0);
        if i < |m.q.pending| {
          SentDated(moves, m.q, i, now);
        }
      case Completing(todo, outcome, data, after) =>
        forall k | 0 <= k < |m'.stack|
          ensures DatedFrame(opts, moves, m'.stack[k])
        {
          if k > 0 || (todo == [] && after.Return?) {
            assert m'.stack[k] == m.stack[if todo == [] && after.Return? then k + 1 else k];
          }
        }
    }
  }

  lemma SentDated(moves: seq<Move>, q: State, i: nat, now: Time)
    requires i < |q.pending| && WasCalled(moves, now) && WasSubmitted(moves, q.pending[i])
    ensures WasSubmitted(moves, Stamp(q.pending[i], now))
    ensures forall e :: e in SendAt(q, i, now).pending ==> e in q.pending
    ensures forall e :: e in SendAt(q, i, now).inFlight ==> e in q.inFlight || e == Stamp(q.pending[i], now)
  {
    var e := q.pending[i];
    var k: nat :| k < |moves| && moves[k] == Enter(SubmitCall(e.id, e.payload, e.priority, e.done, e.queuedAt));
  }

  /** So over every run: a command that is reported timed out was submitted at
      `queuedAt` by some call; and some tick found it pending for the queue
      timeout since then, or in flight for the write timeout since `sentAt`, the
      time of some call. */
  lemma NeverTimesOutEarly(opts: Options, moves: seq<Move>, e: Entry, data: Octets)
    requires Completed(e, TimedOut, data) in Execute(opts, INITIAL, moves).events
    ensures exists k: nat :: k < |moves| && FindsDue(opts, Execute(opts, INITIAL, moves[..k]).q, moves[k], e)
                          && WasSubmitted(moves, e)
                          && (e in Execute(opts, INITIAL, moves[..k]).q.inFlight ==> WasCalled(moves, e.sentAt))
  {
    EveryRunDated(opts, moves);
    assert Completed(e, TimedOut, data).outcome == TimedOut;
    var k: nat :| k < |moves| && FindsDue(opts, Execute(opts, INITIAL, moves[..k]).q, moves[k], e);
    EveryRunDated(opts, moves[..k]);
    WasPrefix(moves, k);
  }

  lemma WasPrefix(moves: seq<Move>, n: nat)
    requires n <= |moves|
    ensures forall e :: WasSubmitted(moves[..n], e) ==> WasSubmitted(moves, e)
    ensures forall t :: WasCalled(moves[..n], t) ==> WasCalled(moves, t)
  {
    forall e | WasSubmitted(moves[..n], e)
      ensures WasSubmitted(moves, e)
    {
      var k: nat :| k < n && moves[..n][k] == Enter(SubmitCall(e.id, e.payload, e.priority, e.done, e.queuedAt));
      assert moves[k] == moves[..n][k];
    }
    forall t | WasCalled(moves[..n], t)
      ensures WasCalled(moves, t)
    {
      var k: nat :| k < n && moves[..n][k].Enter? && !moves[..n][k].call.CancelCall? && moves[..n][k].call.now == t;
      assert moves[k] == moves[..n][k];
    }
  }
}
