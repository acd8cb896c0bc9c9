/** The restart-from-front loop of the queue is one pass over the pending
    entries. */
module QueuePass {
  import opened Bytes
  import opened Millis
  import opened Sequences
  import opened Queue

  /** Whether an ordinary command could go out now. */
  predicate SlotFree(q: State) {
    q.ready && !HasQueued(q.inFlight)
  }

  /** What a single left-to-right pass sends: every fastpass and keep-alive
      entry, and the first ordinary one if the slot is free. */
  function PassSends(es: seq<Entry>, free: bool): seq<Entry> {
    if es == [] then []
    else if es[0].priority != Queued then [es[0]] + PassSends(es[1..], free)
    else if free then [es[0]] + PassSends(es[1..], false)
    else PassSends(es[1..], false)
  }

  function PassKeeps(es: seq<Entry>, free: bool): seq<Entry> {
    if es == [] then []
    else if es[0].priority != Queued then PassKeeps(es[1..], free)
    else if free then PassKeeps(es[1..], false)
    else [es[0]] + PassKeeps(es[1..], false)
  }

  function StampAll(es: seq<Entry>, now: Time): (r: seq<Entry>)
    ensures |r| == |es|
    ensures forall k :: 0 <= k < |es| ==> r[k] == Stamp(es[k], now)
  {
    if es == [] then [] else [Stamp(es[0], now)] + StampAll(es[1..], now)
  }

  function Writes(es: seq<Entry>): (r: seq<Event>)
    ensures |r| == |es|
  {
    if es == [] then [] else [Wrote(es[0])] + Writes(es[1..])
  }

  lemma {:induction false} PassSkips(before: seq<Entry>, es: seq<Entry>, free: bool)
    requires forall x :: x in before ==> x.priority == Queued
    requires before != [] ==> !free
    ensures PassSends(before + es, free) == PassSends(es, free)
    ensures PassKeeps(before + es, free) == before + PassKeeps(es, free)
  {
    if before == [] {
      assert before + es == es;
    } else {
      assert (before + es)[0] == before[0] && (before + es)[1..] == before[1..] + es;
      PassSkips(before[1..], es, free);
    }
  }

  /** On a sound queue the loop that starts over after every send, and scans
      again from the front, does what one pass does. */
  lemma {:induction false} PumpIsOnePass(q: State, now: Time)
    requires Sound(q)
    ensures var free := SlotFree(q);
            var sent := StampAll(PassSends(q.pending, free), now);
            && Pump(q, now).q == State(q.ready, PassKeeps(q.pending, free), q.inFlight + sent)
            && Pump(q, now).events == Writes(sent)
    decreases |q.pending|
  {
    var i, free := FirstSendable(q, 0), SlotFree(q);
    var before := q.pending[..i];
    DistinctParts(q.pending, q.inFlight);
    forall x | x in before
      ensures x.priority == Queued && !free
    {
      var j :| 0 <= j < i && before[j] == x;
      assert !CanSend(q, q.pending[j]);
    }
    if i == |q.pending| {
      assert before + [] == q.pending && before + [] == before && q.inFlight + [] == q.inFlight;
      PassSkips(before, [], free);
    } else {
      assert i > 0 ==> before[0] in before;
      PassSendsOne(q, i, now);
      var q1 := SendAt(q, i, now);
      SendKeepsSound(q, i, now);
      PumpIsOnePass(q1, now);
      var e, rest := Stamp(q.pending[i], now), StampAll(PassSends(q1.pending, SlotFree(q1)), now);
      Assoc(q.inFlight, [e], rest);
    }
  }

  lemma PassSendsOne(q: State, i: nat, now: Time)
    requires i < |q.pending| && CanSend(q, q.pending[i])
    requires i > 0 ==> !SlotFree(q)
    requires forall j :: 0 <= j < i ==> q.pending[j].priority == Queued
    ensures var q1 := SendAt(q, i, now);
            && PassSends(q.pending, SlotFree(q)) == [q.pending[i]] + PassSends(q1.pending, SlotFree(q1))
            && PassKeeps(q.pending, SlotFree(q)) == PassKeeps(q1.pending, SlotFree(q1))
  {
    var q1, e := SendAt(q, i, now), q.pending[i];
    var before, after := q.pending[..i], q.pending[i + 1..];
    assert q.pending == before + ([e] + after);
    SlotAfterSend(q, i, now);
    PassSkips(before, [e] + after, SlotFree(q));
    PassSkips(before, after, SlotFree(q1));
    assert ([e] + after)[1..] == after;
  }

  lemma SlotAfterSend(q: State, i: nat, now: Time)
    requires i < |q.pending|
    ensures SlotFree(SendAt(q, i, now)) <==> SlotFree(q) && q.pending[i].priority != Queued
  {
    var q1 := SendAt(q, i, now);
    assert q1.inFlight[|q.inFlight|] == Stamp(q.pending[i], now);
    assert forall k :: 0 <= k < |q.inFlight| ==> q1.inFlight[k] == q.inFlight[k];
  }

  // --- Where entries go ---------------------------------------------------

  lemma {:induction false} PassMoves(es: seq<Entry>, free: bool)
    ensures forall x :: x in PassKeeps(es, free) ==> x in es && x.priority == Queued
    ensures forall x :: x in PassSends(es, free) ==> x in es
  {
    if es != [] {
      PassMoves(es[1..], free);
      PassMoves(es[1..], false);
    }
  }

  /** A pump only moves entries from pending to in flight, stamped. */
  lemma PumpMoves(q: State, now: Time)
    requires Sound(q)
    ensures var q' := Pump(q, now).q;
            && q'.ready == q.ready
            && (forall x :: x in q'.pending ==> x in q.pending)
            && (forall x :: x in q'.inFlight ==> x in q.inFlight || exists p :: p in q.pending && x == Stamp(p, now))
            && (forall x :: x in q.inFlight ==> x in q'.inFlight)
            && (forall ev :: ev in Pump(q, now).events ==>
                  ev.Wrote? && exists p :: p in q.pending && ev.entry == Stamp(p, now))
  {
    PumpIsOnePass(q, now);
    PassMoves(q.pending, SlotFree(q));
    SendsStamped(q.pending, PassSends(q.pending, SlotFree(q)), now);
  }

  lemma SendsStamped(es: seq<Entry>, sends: seq<Entry>, now: Time)
    requires forall x :: x in sends ==> x in es
    ensures forall x :: x in StampAll(sends, now) ==> exists p :: p in es && x == Stamp(p, now)
    ensures forall ev :: ev in Writes(StampAll(sends, now)) ==>
              ev.Wrote? && exists p :: p in es && ev.entry == Stamp(p, now)
  {
    var sent := StampAll(sends, now);
    WritesOnly(sent);
    forall x | x in sent
      ensures exists p :: p in es && x == Stamp(p, now)
    {
      var k :| 0 <= k < |sent| && sent[k] == x;
      assert sends[k] in es;
    }
    forall ev | ev in Writes(sent)
      ensures ev.Wrote? && ev.entry in sent
    {
      var k :| 0 <= k < |sent| && Writes(sent)[k] == ev;
      assert sent[k] in sent;
    }
  }

  lemma {:induction false} CompletionsOf(es: seq<Entry>, outcome: Outcome, data: Octets)
    ensures forall ev :: ev in Completions(es, outcome, data) ==>
              ev.Completed? && ev.outcome == outcome && ev.response == data && ev.entry in es
  {
    if es != [] {
      CompletionsOf(es[1..], outcome, data);
    }
  }

  lemma {:induction false} WritesOnly(es: seq<Entry>)
    ensures forall ev :: ev in Writes(es) ==> ev.Wrote?
    ensures forall k :: 0 <= k < |es| ==> Writes(es)[k] == Wrote(es[k])
  {
    if es != [] {
      WritesOnly(es[1..]);
    }
  }

  /** When only ordinary commands wait, a pump sends the oldest one or nothing. */
  lemma PumpOrdinary(q: State, now: Time)
    requires Sound(q) && forall i :: 0 <= i < |q.pending| ==> q.pending[i].priority == Queued
    ensures Pump(q, now).q ==
            if SlotFree(q) && q.pending != []
            then State(q.ready, q.pending[1..], q.inFlight + [Stamp(q.pending[0], now)])
            else q
    ensures Pump(q, now).events ==
            if SlotFree(q) && q.pending != [] then [Wrote(Stamp(q.pending[0], now))] else []
  {
    PumpIsOnePass(q, now);
    if q.pending != [] {
      if SlotFree(q) {
        var rest := q.pending[1..];
        assert rest + [] == rest;
        PassSkips(rest, [], false);
        assert PassSends(q.pending, true) == [q.pending[0]];
      } else {
        assert q.pending + [] == q.pending;
        PassSkips(q.pending, [], false);
        assert q.inFlight + [] == q.inFlight;
      }
    } else {
      assert q.inFlight + [] == q.inFlight;
    }
  }

  lemma {:induction false} PassSendsExpress(es: seq<Entry>, free: bool, e: Entry)
    requires e in es && e.priority != Queued
    ensures e in PassSends(es, free)
  {
    if es[0] != e {
      PassSendsExpress(es[1..], free, e);
      PassSendsExpress(es[1..], false, e);
    }
  }

  /** Fastpass and keep-alive commands never wait: unless its id is outstanding
      already, such a command is written inside its own submission, whatever
      the gate and the slot. */
  lemma ExpressGoesOut(q: State, e: Entry)
    requires Sound(q) && e.priority != Queued
    ensures Wrote(Stamp(e, e.queuedAt)) in Submit(q, e).events <==> !IsDuplicate(q, e.id)
    ensures !IsDuplicate(q, e.id) ==> Stamp(e, e.queuedAt) in Submit(q, e).q.inFlight
  {
    if !IsDuplicate(q, e.id) {
      var q1 := Enqueue(q, e);
      EnqueueKeepsSound(q, e);
      PumpIsOnePass(q1, e.queuedAt);
      var sends := PassSends(q1.pending, SlotFree(q1));
      PassSendsExpress(q1.pending, SlotFree(q1), e);
      var sent := StampAll(sends, e.queuedAt);
      var k :| 0 <= k < |sends| && sends[k] == e;
      WritesOnly(sent);
      assert Writes(sent)[k] == Wrote(Stamp(e, e.queuedAt));
      assert sent[k] in q.inFlight + sent;
    }
  }

  lemma {:induction false} PassSplits(es: seq<Entry>, free: bool, e: Entry)
    requires e in es
    ensures e in PassKeeps(es, free) || e in PassSends(es, free)
  {
    if es[0] != e {
      PassSplits(es[1..], free, e);
      PassSplits(es[1..], false, e);
    }
  }
}
