/** What each call of the queue answers and reports, and in which order, in
    plain terms. */
module QueueAnswers {
  import opened Bytes
  import opened Millis
  import opened Sequences
  import opened Queue
  import opened QueuePass
  import opened Reentrancy
  import opened QueueExpiry

  // --- Submit -------------------------------------------------------------

  /** Some command with `id` is pending or in flight. */
  ghost predicate Outstanding(q: State, id: nat) {
    exists x :: (x in q.pending || x in q.inFlight) && x.id == id
  }

  lemma OutstandingIff(q: State, id: nat)
    ensures Outstanding(q, id) <==> IsDuplicate(q, id)
  {
    if HasId(q.pending, id) {
      var i :| 0 <= i < |q.pending| && q.pending[i].id == id;
      assert q.pending[i] in q.pending;
    }
    if HasId(q.inFlight, id) {
      var i :| 0 <= i < |q.inFlight| && q.inFlight[i].id == id;
      assert q.inFlight[i] in q.inFlight;
    }
    if x :| x in q.pending && x.id == id {
      var i :| 0 <= i < |q.pending| && q.pending[i] == x;
      assert q.pending[i].id == id;
    }
    if x :| x in q.inFlight && x.id == id {
      var i :| 0 <= i < |q.inFlight| && q.inFlight[i] == x;
      assert q.inFlight[i].id == id;
    }
  }

  /** A queue takes a command exactly if its id is not outstanding. It then holds
      it, pending or just sent; otherwise it reports the rejection, with no data,
      and nothing else happens. */
  lemma SubmitAnswers(q: State, e: Entry)
    requires Sound(q)
    ensures var r := Submit(q, e);
            && (r.result <==> !Outstanding(q, e.id))
            && (!r.result ==> r.q == q && r.events == [Completed(e, Rejected, [])])
            && (r.result ==> e in r.q.pending || e.(sentAt := e.queuedAt) in r.q.inFlight)
  {
    OutstandingIff(q, e.id);
    if !IsDuplicate(q, e.id) {
      var q1 := Enqueue(q, e);
      EnqueueKeepsSound(q, e);
      PumpResult(q1, e.queuedAt);
      PumpKeepsOrSends(q1, e.queuedAt, e);
    }
  }

  /** A keep-alive that is taken is the very first thing to be written, whatever
      else was waiting. */
  lemma KeepAliveGoesFirst(q: State, e: Entry)
    requires Sound(q) && e.priority == KeepAlive && !Outstanding(q, e.id)
    ensures var events := Submit(q, e).events;
            events != [] && events[0] == Wrote(e.(sentAt := e.queuedAt))
  {
    OutstandingIff(q, e.id);
    var q1 := Enqueue(q, e);
    assert q1.pending[0] == e && CanSend(q1, e);
  }

  /** Anything else that is taken and written at once is written last. */
  lemma OthersGoLast(q: State, e: Entry)
    requires Sound(q) && e.priority != KeepAlive && !Outstanding(q, e.id)
    ensures var events := Submit(q, e).events;
            Wrote(e.(sentAt := e.queuedAt)) in events ==> events[|events| - 1] == Wrote(e.(sentAt := e.queuedAt))
  {
    var q1 := Enqueue(q, e);
    OutstandingIff(q, e.id);
    EnqueueKeepsSound(q, e);
    PumpIsOnePass(q1, e.queuedAt);
    forall x | x in q.pending
      ensures x.id != e.id
    {
      assert !(x.id == e.id);
    }
    LastOfPass(q.pending, SlotFree(q1), e, e.queuedAt);
  }

  lemma LastOfPass(es: seq<Entry>, free: bool, e: Entry, now: Time)
    requires forall x :: x in es ==> x.id != e.id
    ensures var events := Writes(StampAll(PassSends(es + [e], free), now));
            Wrote(e.(sentAt := now)) in events ==> events[|events| - 1] == Wrote(e.(sentAt := now))
  {
    var sends := PassSends(es + [e], free);
    var sent := StampAll(sends, now);
    WritesOnly(sent);
    PassAppended(es, free, e);
    PassMoves(es, free);
    if Wrote(e.(sentAt := now)) in Writes(sent) {
      var k :| 0 <= k < |sent| && Writes(sent)[k] == Wrote(e.(sentAt := now));
      assert sends[k].id == e.id && sends[k] in sends;
    }
  }

  /** A pass treats an appended entry last. */
  lemma {:induction false} PassAppended(es: seq<Entry>, free: bool, e: Entry)
    ensures PassSends(es + [e], free) == PassSends(es, free)
         || PassSends(es + [e], free) == PassSends(es, free) + [e]
  {
    if es == [] {
      assert es + [e] == [e] && [e][1..] == [];
    } else {
      assert (es + [e])[0] == es[0] && (es + [e])[1..] == es[1..] + [e];
      PassAppended(es[1..], free, e);
      PassAppended(es[1..], false, e);
    }
  }

  // --- Respond ------------------------------------------------------------

  /** A response resolves the command in flight under its id, and is handled
      exactly if there is one: its completion, with the data, comes first, then
      only writes. Otherwise nothing happens. */
  lemma RespondAnswers(q: State, id: nat, data: Octets, now: Time)
    requires Sound(q)
    ensures var r := Respond(q, id, data, now);
            && (r.result <==> exists e :: e in q.inFlight && e.id == id)
            && (!r.result ==> r.q == q && r.events == [])
            && (forall e :: e in q.inFlight && e.id == id ==>
                  && r.events != [] && r.events[0] == Completed(e, Responded, data)
                  && !HasId(r.q.inFlight, id) && !HasId(r.q.pending, id))
            && (forall k :: 1 <= k < |r.events| ==> r.events[k].Wrote?)
  {
    var k := IndexOf(q.inFlight, id);
    var r := Respond(q, id, data, now);
    if k < |q.inFlight| {
      var q1 := q.(inFlight := RemoveAt(q.inFlight, k));
      assert q.inFlight[k] in q.inFlight;
      RemovalKeepsSound(q, k);
      PumpMoves(q1, now);
      assert r.events[1..] == Pump(q1, now).events;
      assert forall j :: 1 <= j < |r.events| ==> r.events[j] == r.events[1..][j - 1];
      forall e | e in q.inFlight && e.id == id
        ensures e == q.inFlight[k]
      {
        SameId(q, e, q.inFlight[k]);
      }
      NoLonger(q, k, id);
      PumpKeepsOut(q1, now, id);
    } else {
      forall e | e in q.inFlight
        ensures e.id != id
      {
        var i :| 0 <= i < |q.inFlight| && q.inFlight[i] == e;
      }
    }
  }

  lemma NoLonger(q: State, k: nat, id: nat)
    requires Sound(q) && k < |q.inFlight| && q.inFlight[k].id == id
    ensures !HasId(RemoveAt(q.inFlight, k), id) && !HasId(q.pending, id)
  {
    DistinctParts(q.pending, q.inFlight);
    var rest := RemoveAt(q.inFlight, k);
    forall i | 0 <= i < |rest|
      ensures rest[i].id != id
    {
      assert rest[i] == q.inFlight[if i < k then i else i + 1];
    }
  }

  lemma PumpKeepsOut(q: State, now: Time, id: nat)
    requires Sound(q) && !HasId(q.inFlight, id) && !HasId(q.pending, id)
    ensures !HasId(Pump(q, now).q.inFlight, id) && !HasId(Pump(q, now).q.pending, id)
  {
    var q' := Pump(q, now).q;
    PumpMoves(q, now);
    OutstandingIff(q, id);
    forall i | 0 <= i < |q'.pending|
      ensures q'.pending[i].id != id
    {
      assert q'.pending[i] in q.pending;
    }
    forall i | 0 <= i < |q'.inFlight|
      ensures q'.inFlight[i].id != id
    {
      assert q'.inFlight[i] in q'.inFlight;
      if q'.inFlight[i] !in q.inFlight {
        var p :| p in q.pending && q'.inFlight[i] == Stamp(p, now);
      }
    }
  }

  // --- The gate -----------------------------------------------------------

  /** The gate is as told. Shutting it does nothing else; opening it lets out what
      may go. */
  lemma GateAnswers(q: State, ready: bool, now: Time)
    requires Sound(q)
    ensures var r := SetReady(q, ready, now);
            && r.q.ready == ready
            && (!ready ==> r.q == State(false, q.pending, q.inFlight) && r.events == [])
            && (ready ==> forall i :: 0 <= i < |r.q.pending| ==>
                  r.q.pending[i].priority == Queued && HasQueued(r.q.inFlight))
  {
    if ready {
      var q1 := q.(ready := true);
      PumpMoves(q1, now);
      PumpQuiets(q1, now);
    }
  }

  lemma {:induction false} PumpQuiets(q: State, now: Time)
    requires Sound(q)
    ensures Quiet(Pump(q, now).q)
    decreases |q.pending|
  {
    var i := FirstSendable(q, 0);
    if i == |q.pending| {
      NothingSendable(q);
    } else {
      SendKeepsSound(q, i, now);
      PumpQuiets(SendAt(q, i, now), now);
    }
  }

  // --- Tick and cancel ----------------------------------------------------

  /** Reports of one outcome, with no data. */
  function Reports(es: seq<Entry>, outcome: Outcome): (events: seq<Event>)
    ensures |events| == |es|
    ensures forall k :: 0 <= k < |es| ==> events[k] == Completed(es[k], outcome, [])
  {
    if es == [] then [] else [Completed(es[0], outcome, [])] + Reports(es[1..], outcome)
  }

  lemma {:induction false} ReportsAreCompletions(es: seq<Entry>, outcome: Outcome)
    ensures Completions(es, outcome, []) == Reports(es, outcome)
  {
    if es != [] {
      ReportsAreCompletions(es[1..], outcome);
    }
  }

  lemma {:induction false} FilterSame<T>(s: seq<T>, p: T -> bool, p': T -> bool)
    requires forall x :: x in s ==> p(x) == p'(x)
    ensures Filter(s, p) == Filter(s, p')
  {
    if s != [] {
      FilterSame(s[1..], p, p');
    }
  }

  /** In flight for the write timeout. */
  function Unanswered(opts: Options, q: State, now: Time): seq<Entry> {
    Filter(q.inFlight, (e: Entry) => Age(now, e.sentAt) >= opts.writeTimeout)
  }

  /** Pending for the queue timeout. */
  function Unsent(opts: Options, q: State, now: Time): seq<Entry> {
    Filter(q.pending, (e: Entry) => opts.queueTimeout > 0 && Age(now, e.queuedAt) >= opts.queueTimeout)
  }

  lemma ExpiredInOrder(opts: Options, q: State, now: Time)
    ensures Expired(opts, q, now) == Unanswered(opts, q, now) + Unsent(opts, q, now)
  {
    forall e: Entry
      ensures WriteExpired(opts, now, e) == (Age(now, e.sentAt) >= opts.writeTimeout)
      ensures WaitExpired(opts, now, e) == (opts.queueTimeout > 0 && Age(now, e.queuedAt) >= opts.queueTimeout)
    {
      ElapsedIsModular(now, e.sentAt);
      ElapsedIsModular(now, e.queuedAt);
    }
    FilterSame(q.inFlight, e => WriteExpired(opts, now, e), (e: Entry) => Age(now, e.sentAt) >= opts.writeTimeout);
    FilterSame(q.pending, e => WaitExpired(opts, now, e),
               (e: Entry) => opts.queueTimeout > 0 && Age(now, e.queuedAt) >= opts.queueTimeout);
  }

  /** A tick first reports what was in flight for the write timeout, then what was
      pending for the queue timeout, each in queue order; then it only writes. */
  lemma TickReports(opts: Options, q: State, now: Time)
    requires Sound(q)
    ensures var events := Tick(opts, q, now).events;
            var reports := Reports(Unanswered(opts, q, now), TimedOut) + Reports(Unsent(opts, q, now), TimedOut);
            reports <= events && forall k :: |reports| <= k < |events| ==> events[k].Wrote?
  {
    var unanswered, unsent := Unanswered(opts, q, now), Unsent(opts, q, now);
    var q1 := WithoutExpired(opts, q, now);
    ExpiredInOrder(opts, q, now);
    ReportsAreCompletions(unanswered + unsent, TimedOut);
    ReportsAppend(unanswered, unsent, TimedOut);
    ExpiryKeepsSound(opts, q, now);
    PumpOnlyWrites(q1, now);
    TickTail(Reports(unanswered + unsent, TimedOut), Pump(q1, now).events, Tick(opts, q, now).events);
  }

  lemma PumpOnlyWrites(q: State, now: Time)
    requires Sound(q)
    ensures forall ev :: ev in Pump(q, now).events ==> ev.Wrote?
  {
    PumpMoves(q, now);
  }

  lemma ReportsAppend(a: seq<Entry>, b: seq<Entry>, outcome: Outcome)
    ensures Reports(a + b, outcome) == Reports(a, outcome) + Reports(b, outcome)
  {
    var x, y := Reports(a + b, outcome), Reports(a, outcome) + Reports(b, outcome);
    forall k | 0 <= k < |x|
      ensures x[k] == y[k]
    {
      assert x[k] == Completed((a + b)[k], outcome, []);
    }
  }

  lemma TickTail(reports: seq<Event>, writes: seq<Event>, events: seq<Event>)
    requires events == reports + writes && forall ev :: ev in writes ==> ev.Wrote?
    ensures reports <= events && forall k :: |reports| <= k < |events| ==> events[k].Wrote?
  {
    forall k | |reports| <= k < |events|
      ensures events[k].Wrote?
    {
      assert events[k] == writes[k - |reports|];
    }
  }

  /** Canceling empties the queue, leaves the gate, and reports everything as
      canceled: in flight first, then pending, each in queue order. */
  lemma CancelReports(q: State)
    ensures CancelAll(q).events == Reports(q.inFlight, Canceled) + Reports(q.pending, Canceled)
    ensures CancelAll(q).q == State(q.ready, [], [])
  {
    ReportsAreCompletions(q.inFlight + q.pending, Canceled);
    ReportsAppend(q.inFlight, q.pending, Canceled);
  }
}
