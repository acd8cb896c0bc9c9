/** The ready-gated command queue: native/src/command_queue.cpp.

    `Queue` is the value of the object's fields, the functions on it say what
    one call does when no callback calls back in, and class `CommandQueue` has
    the original's loops and is proved equal to those functions. Calls back in
    are the subject of module Reentrancy. */
module Queue {
  import opened Bytes
  import opened Millis
  import opened Sequences

  datatype Priority = Queued | Fastpass | KeepAlive

  datatype Outcome = Responded | TimedOut | Canceled | Rejected

  datatype Options = Options(writeTimeout: nat, queueTimeout: nat)

  /** A command. `done` stands for the caller's completion callback. */
  datatype Entry = Entry(id: nat, payload: Octets, priority: Priority, done: nat, queuedAt: Time, sentAt: Time)

  /** The calls that the queue makes on its owner: the write callback, and the
      completion callback `entry.done` with its two arguments. */
  datatype Event =
    | Wrote(entry: Entry)
    | Completed(entry: Entry, outcome: Outcome, response: Octets)

  datatype State = State(ready: bool, pending: seq<Entry>, inFlight: seq<Entry>)

  const EMPTY := State(false, [], [])

  /** What a call leaves behind, the callbacks it made in order, and the value
      it returned. */
  datatype Outcomes = Outcomes(q: State, events: seq<Event>, result: bool)

  // --- Lookups ------------------------------------------------------------

  predicate HasId(es: seq<Entry>, id: nat) {
    exists i :: 0 <= i < |es| && es[i].id == id
  }

  predicate HasQueued(es: seq<Entry>) {
    exists i :: 0 <= i < |es| && es[i].priority == Queued
  }

  /** The first position that holds `id`, or the length. */
  function IndexOf(es: seq<Entry>, id: nat): (k: nat)
    ensures k <= |es|
    ensures k < |es| ==> es[k].id == id
    ensures forall i :: 0 <= i < k ==> es[i].id != id
  {
    if es == [] then 0
    else if es[0].id == id then 0
    else
      var k := IndexOf(es[1..], id);
      assert forall i :: 1 <= i < k + 1 ==> es[i] == es[1..][i - 1];
      k + 1
  }

  // --- Sending ------------------------------------------------------------

  predicate CanSend(q: State, e: Entry) {
    && !HasId(q.inFlight, e.id)
    && (e.priority == Queued ==> q.ready && !HasQueued(q.inFlight))
  }

  /** The first pending entry at or after `k` that may be sent, or the length. */
  function FirstSendable(q: State, k: nat): (i: nat)
    requires k <= |q.pending|
    ensures k <= i <= |q.pending|
    ensures i < |q.pending| ==> CanSend(q, q.pending[i])
    ensures forall j :: k <= j < i ==> !CanSend(q, q.pending[j])
    decreases |q.pending| - k
  {
    if k == |q.pending| || CanSend(q, q.pending[k]) then k else FirstSendable(q, k + 1)
  }

  function Stamp(e: Entry, now: Time): Entry {
    e.(sentAt := now)
  }

  function SendAt(q: State, i: nat, now: Time): State
    requires i < |q.pending|
  {
    q.(pending := RemoveAt(q.pending, i), inFlight := q.inFlight + [Stamp(q.pending[i], now)])
  }

  /** The restart-from-front loop. */
  function Pump(q: State, now: Time): (r: Outcomes)
    ensures |r.q.pending| <= |q.pending|
    decreases |q.pending|
  {
    var i := FirstSendable(q, 0);
    if i == |q.pending| then Outcomes(q, [], true)
    else
      var r := Pump(SendAt(q, i, now), now);
      r.(events := [Wrote(Stamp(q.pending[i], now))] + r.events)
  }

  // --- The operations -----------------------------------------------------

  predicate IsDuplicate(q: State, id: nat) {
    HasId(q.inFlight, id) || HasId(q.pending, id)
  }

  function Enqueue(q: State, e: Entry): State {
    q.(pending := if e.priority == KeepAlive then [e] + q.pending else q.pending + [e])
  }

  function Submit(q: State, e: Entry): Outcomes {
    if IsDuplicate(q, e.id) then Outcomes(q, [Completed(e, Rejected, [])], false)
    else Pump(Enqueue(q, e), e.queuedAt)
  }

  function SetReady(q: State, ready: bool, now: Time): Outcomes {
    var q1 := q.(ready := ready);
    if ready then Pump(q1, now) else Outcomes(q1, [], true)
  }

  function Respond(q: State, id: nat, data: Octets, now: Time): Outcomes {
    var k := IndexOf(q.inFlight, id);
    if k == |q.inFlight| then Outcomes(q, [], false)
    else
      var r := Pump(q.(inFlight := RemoveAt(q.inFlight, k)), now);
      Outcomes(r.q, [Completed(q.inFlight[k], Responded, data)] + r.events, true)
  }

  predicate WriteExpired(opts: Options, now: Time, e: Entry) {
    Elapsed(now, e.sentAt) >= opts.writeTimeout
  }

  predicate WaitExpired(opts: Options, now: Time, e: Entry) {
    opts.queueTimeout != 0 && Elapsed(now, e.queuedAt) >= opts.queueTimeout
  }

  function Expired(opts: Options, q: State, now: Time): seq<Entry> {
    Filter(q.inFlight, e => WriteExpired(opts, now, e)) + Filter(q.pending, e => WaitExpired(opts, now, e))
  }

  function WithoutExpired(opts: Options, q: State, now: Time): State {
    State(q.ready,
          Reject(q.pending, e => WaitExpired(opts, now, e)),
          Reject(q.inFlight, e => WriteExpired(opts, now, e)))
  }

  function Completions(es: seq<Entry>, outcome: Outcome, data: Octets): (events: seq<Event>)
    ensures |events| == |es|
  {
    if es == [] then [] else [Completed(es[0], outcome, data)] + Completions(es[1..], outcome, data)
  }

  function Tick(opts: Options, q: State, now: Time): Outcomes {
    var r := Pump(WithoutExpired(opts, q, now), now);
    Outcomes(r.q, Completions(Expired(opts, q, now), TimedOut, []) + r.events, true)
  }

  function CancelAll(q: State): Outcomes {
    Outcomes(State(q.ready, [], []), Completions(q.inFlight + q.pending, Canceled, []), true)
  }

  // --- Calls --------------------------------------------------------------

  datatype Call =
    | SubmitCall(id: nat, payload: Octets, priority: Priority, done: nat, now: Time)
    | ReadyCall(ready: bool, now: Time)
    | RespondCall(id: nat, data: Octets, now: Time)
    | TickCall(now: Time)
    | CancelCall

  function NewEntry(c: Call): Entry
    requires c.SubmitCall?
  {
    Entry(c.id, c.payload, c.priority, c.done, c.now, 0)
  }

  function Apply(opts: Options, q: State, c: Call): Outcomes {
    match c
    case SubmitCall(_, _, _, _, _) => Submit(q, NewEntry(c))
    case ReadyCall(ready, now) => SetReady(q, ready, now)
    case RespondCall(id, data, now) => Respond(q, id, data, now)
    case TickCall(now) => Tick(opts, q, now)
    case CancelCall => CancelAll(q)
  }

  /** The submission that a call makes and the queue takes on, if any. */
  function Accepts(q: State, c: Call): seq<Entry> {
    if c.SubmitCall? && !IsDuplicate(q, c.id) then [NewEntry(c)] else []
  }

  // --- What holds at every callback ---------------------------------------

  predicate DistinctIds(es: seq<Entry>) {
    forall i, j :: 0 <= i < j < |es| ==> es[i].id != es[j].id
  }

  predicate OneQueued(es: seq<Entry>) {
    forall i, j :: 0 <= i < j < |es| ==> es[i].priority != Queued || es[j].priority != Queued
  }

  /** No id is outstanding twice, and at most one ordinary command is in
      flight. */
  ghost predicate Sound(q: State) {
    DistinctIds(q.pending + q.inFlight) && OneQueued(q.inFlight)
  }

  /** Between outermost calls: only ordinary commands wait, and they wait for
      the gate or for the ordinary command in flight. */
  ghost predicate Quiet(q: State) {
    && (forall i :: 0 <= i < |q.pending| ==> q.pending[i].priority == Queued)
    && (q.ready && q.pending != [] ==> HasQueued(q.inFlight))
  }

  lemma DistinctParts(a: seq<Entry>, b: seq<Entry>)
    ensures DistinctIds(a + b) <==>
      && DistinctIds(a) && DistinctIds(b)
      && forall i, j :: 0 <= i < |a| && 0 <= j < |b| ==> a[i].id != b[j].id
  {
    var s := a + b;
    if DistinctIds(s) {
      forall i, j | 0 <= i < j < |b|
        ensures b[i].id != b[j].id
      {
        assert s[|a| + i] == b[i] && s[|a| + j] == b[j];
      }
      forall i, j | 0 <= i < |a| && 0 <= j < |b|
        ensures a[i].id != b[j].id
      {
        assert s[i] == a[i] && s[|a| + j] == b[j];
      }
      assert forall i :: 0 <= i < |a| ==> a[i] == s[i];
    }
  }

  /** Sending a sendable entry keeps the state sound. */
  lemma SendKeepsSound(q: State, i: nat, now: Time)
    requires Sound(q) && i < |q.pending| && CanSend(q, q.pending[i])
    ensures Sound(SendAt(q, i, now))
  {
    var q' := SendAt(q, i, now);
    DistinctParts(q.pending, q.inFlight);
    DistinctParts(q'.pending, q'.inFlight);
    assert forall k :: 0 <= k < |q.inFlight| ==> q'.inFlight[k] == q.inFlight[k];
    assert forall k :: 0 <= k < |q'.pending| ==> q'.pending[k] == q.pending[if k < i then k else k + 1];
  }

  lemma EnqueueKeepsSound(q: State, e: Entry)
    requires Sound(q) && !IsDuplicate(q, e.id)
    ensures Sound(Enqueue(q, e))
  {
    var q' := Enqueue(q, e);
    DistinctParts(q.pending, q.inFlight);
    DistinctParts(q'.pending, q'.inFlight);
  }

  /** Dropping entries keeps the state sound. */
  lemma DropKeepsSound(q: State, q': State)
    requires Sound(q) && Subsequence(q'.pending, q.pending) && Subsequence(q'.inFlight, q.inFlight)
    ensures Sound(q')
  {
    DistinctParts(q.pending, q.inFlight);
    DistinctParts(q'.pending, q'.inFlight);
    var f :| Embeds(f, q'.pending, q.pending);
    var g :| Embeds(g, q'.inFlight, q.inFlight);
  }

  lemma RemovalKeepsSound(q: State, k: nat)
    requires Sound(q) && k < |q.inFlight|
    ensures Sound(q.(inFlight := RemoveAt(q.inFlight, k)))
  {
    SubsequenceSelf(q.pending);
    RemoveAtSubsequence(q.inFlight, k);
    DropKeepsSound(q, q.(inFlight := RemoveAt(q.inFlight, k)));
  }

  lemma ExpiryKeepsSound(opts: Options, q: State, now: Time)
    requires Sound(q)
    ensures Sound(WithoutExpired(opts, q, now))
  {
    RejectSubsequence(q.pending, e => WaitExpired(opts, now, e));
    RejectSubsequence(q.inFlight, e => WriteExpired(opts, now, e));
    DropKeepsSound(q, WithoutExpired(opts, q, now));
  }

  // --- The object ---------------------------------------------------------

  class CommandQueue {
    const opts: Options
    var ready: bool
    var pending: seq<Entry>
    var inFlight: seq<Entry>

    /** Every callback made so far, in order. */
    var calls: seq<Event>

    function Value(): State
      reads this
    {
      State(ready, pending, inFlight)
    }

    constructor (opts: Options)
      ensures this.opts == opts && Value() == EMPTY && calls == [] && Sound(Value())
    {
      this.opts := opts;
      ready, pending, inFlight, calls := false, [], [], [];
    }

    /** Stands for the call of the write callback. Whoever is called sees a
        sound queue. */
    method InvokeWrite(e: Entry)
      requires Sound(Value())
      modifies this`calls
      ensures calls == old(calls) + [Wrote(e)]
    {
      calls := calls + [Wrote(e)];
    }

    /** Stands for the call of a completion callback, likewise. */
    method InvokeDone(e: Entry, outcome: Outcome, data: Octets)
      requires Sound(Value())
      modifies this`calls
      ensures calls == old(calls) + [Completed(e, outcome, data)]
    {
      calls := calls + [Completed(e, outcome, data)];
    }

    method IsInFlight(id: nat) returns (found: bool)
      ensures found <==> HasId(inFlight, id)
    {
      for i := 0 to |inFlight|
        invariant forall j :: 0 <= j < i ==> inFlight[j].id != id
      {
        if inFlight[i].id == id {
          return true;
        }
      }
      return false;
    }

    method CanSendNow(e: Entry) returns (can: bool)
      ensures can <==> CanSend(Value(), e)
    {
      var outstanding := IsInFlight(e.id);
      if outstanding {
        return false;
      }
      match e.priority
      case KeepAlive => return true;
      case Fastpass => return true;
      case Queued =>
        if !ready {
          return false;
        }
        for i := 0 to |inFlight|
          invariant forall j :: 0 <= j < i ==> inFlight[j].priority != Queued
        {
          if inFlight[i].priority == Queued {
            return false;
          }
        }
        return true;
    }

    method Send(e: Entry, now: Time)
      requires Sound(Value().(inFlight := inFlight + [Stamp(e, now)]))
      modifies this`inFlight, this`calls
      ensures inFlight == old(inFlight) + [Stamp(e, now)]
      ensures calls == old(calls) + [Wrote(Stamp(e, now))]
    {
      inFlight := inFlight + [e.(sentAt := now)];
      InvokeWrite(e.(sentAt := now));
    }

    method DoPump(now: Time)
      requires Sound(Value())
      modifies this`pending, this`inFlight, this`calls
      ensures Sound(Value())
      ensures Value() == Pump(old(Value()), now).q
      ensures calls == old(calls) + Pump(old(Value()), now).events
    {
      var progressed := true;
      while progressed
        invariant Sound(Value())
        invariant Pump(Value(), now).q == Pump(old(Value()), now).q
        invariant calls + Pump(Value(), now).events == old(calls) + Pump(old(Value()), now).events
        invariant !progressed ==> FirstSendable(Value(), 0) == |pending|
        decreases |pending|, progressed
      {
        progressed := false;
        ghost var before, callsBefore := Value(), calls;
        var i := 0;
        while i < |pending|
          invariant i <= |pending| && Value() == before && calls == callsBefore
          invariant FirstSendable(before, 0) == FirstSendable(before, i)
        {
          var can := CanSendNow(pending[i]);
          if can {
            var e := pending[i];
            SendKeepsSound(before, i, now);
            pending := RemoveAt(pending, i);
            Send(e, now);
            progressed := true;
            break;
          }
          i := i + 1;
        }
        if progressed {
          Assoc(callsBefore, [Wrote(Stamp(before.pending[i], now))], Pump(Value(), now).events);
        }
      }
    }

    method DoSubmit(id: nat, payload: Octets, priority: Priority, done: nat, now: Time) returns (accepted: bool)
      requires Sound(Value())
      modifies this`pending, this`inFlight, this`calls
      ensures Sound(Value())
      ensures var r := Submit(old(Value()), Entry(id, payload, priority, done, now, 0));
              Value() == r.q && calls == old(calls) + r.events && accepted == r.result
    {
      var duplicate := IsInFlight(id);
      for i := 0 to |pending|
        invariant duplicate <==> HasId(inFlight, id) || HasId(pending[..i], id)
      {
        duplicate := duplicate || pending[i].id == id;
        assert pending[..i + 1] == pending[..i] + [pending[i]];
        assert HasId(pending[..i + 1], id) <==> HasId(pending[..i], id) || pending[i].id == id by {
          assert pending[..i + 1][i] == pending[i];
          assert forall k :: 0 <= k < i ==> pending[..i + 1][k] == pending[..i][k];
        }
      }
      assert pending[..|pending|] == pending;
      var e := Entry(id, payload, priority, done, now, 0);
      if duplicate {
        InvokeDone(e, Rejected, []);
        return false;
      }
      EnqueueKeepsSound(Value(), e);
      if priority == KeepAlive {
        pending := [e] + pending;
      } else {
        pending := pending + [e];
      }
      DoPump(now);
      PumpResult(Enqueue(old(Value()), e), now);
      return true;
    }

    method DoSetReady(ready: bool, now: Time)
      requires Sound(Value())
      modifies this
      ensures Sound(Value())
      ensures var r := SetReady(old(Value()), ready, now);
              Value() == r.q && calls == old(calls) + r.events
    {
      this.ready := ready;
      if ready {
        DoPump(now);
      }
    }

    method FindInFlight(id: nat) returns (k: nat)
      ensures k == IndexOf(inFlight, id)
    {
      k := 0;
      while k < |inFlight| && inFlight[k].id != id
        invariant k <= |inFlight|
        invariant forall j :: 0 <= j < k ==> inFlight[j].id != id
      {
        k := k + 1;
      }
    }

    method DoRespond(id: nat, data: Octets, now: Time) returns (handled: bool)
      requires Sound(Value())
      modifies this`pending, this`inFlight, this`calls
      ensures Sound(Value())
      ensures var r := Respond(old(Value()), id, data, now);
              Value() == r.q && calls == old(calls) + r.events && handled == r.result
    {
      var k := FindInFlight(id);
      if k == |inFlight| {
        return false;
      }
      var e := inFlight[k];
      RemovalKeepsSound(Value(), k);
      inFlight := RemoveAt(inFlight, k);
      InvokeDone(e, Responded, data);
      ghost var released := Pump(Value(), now).events;
      DoPump(now);
      Assoc(old(calls), [Completed(e, Responded, data)], released);
      return true;
    }

    /** The first erase-while-iterating loop of `DoTick`. */
    method ExpireInFlight(now: Time) returns (expired: seq<Entry>)
      modifies this`inFlight
      ensures inFlight == Reject(old(inFlight), e => WriteExpired(opts, now, e))
      ensures expired == Filter(old(inFlight), e => WriteExpired(opts, now, e))
    {
      ghost var es, p := inFlight, e => WriteExpired(opts, now, e);
      ghost var n := 0;
      expired := [];
      var i := 0;
      while i < |inFlight|
        invariant Erasing(es, p, n, inFlight, i, expired)
        decreases |inFlight| - i
      {
        EraseStep(es, p, n, inFlight, i, expired);
        n := n + 1;
        if WriteExpired(opts, now, inFlight[i]) {
          expired := expired + [inFlight[i]];
          inFlight := RemoveAt(inFlight, i);
        } else {
          i := i + 1;
        }
      }
      EraseDone(es, p, n, inFlight, i, expired);
    }

    /** The second one. */
    method ExpirePending(now: Time) returns (expired: seq<Entry>)
      modifies this`pending
      ensures pending == Reject(old(pending), e => WaitExpired(opts, now, e))
      ensures expired == Filter(old(pending), e => WaitExpired(opts, now, e))
    {
      ghost var es, p := pending, e => WaitExpired(opts, now, e);
      if opts.queueTimeout == 0 {
        RejectNone(es, p);
        FilterNone(es, p);
        return [];
      }
      ghost var n := 0;
      expired := [];
      var i := 0;
      while i < |pending|
        invariant Erasing(es, p, n, pending, i, expired)
        decreases |pending| - i
      {
        EraseStep(es, p, n, pending, i, expired);
        n := n + 1;
        if WaitExpired(opts, now, pending[i]) {
          expired := expired + [pending[i]];
          pending := RemoveAt(pending, i);
        } else {
          i := i + 1;
        }
      }
      EraseDone(es, p, n, pending, i, expired);
    }

    method DoTick(now: Time)
      requires Sound(Value())
      modifies this`pending, this`inFlight, this`calls
      ensures Sound(Value())
      ensures var r := Tick(opts, old(Value()), now);
              Value() == r.q && calls == old(calls) + r.events
    {
      var unanswered := ExpireInFlight(now);
      var unsent := ExpirePending(now);
      ExpiryKeepsSound(opts, old(Value()), now);
      CompleteAll(unanswered + unsent, TimedOut);
      ghost var completed := Completions(unanswered + unsent, TimedOut, []);
      ghost var released := Pump(Value(), now).events;
      DoPump(now);
      Assoc(old(calls), completed, released);
    }

    method CompleteAll(es: seq<Entry>, outcome: Outcome)
      requires Sound(Value())
      modifies this`calls
      ensures calls == old(calls) + Completions(es, outcome, [])
    {
      for i := 0 to |es|
        invariant calls + Completions(es[i..], outcome, []) == old(calls) + Completions(es, outcome, [])
      {
        assert es[i..][0] == es[i] && es[i..][1..] == es[i + 1..];
        InvokeDone(es[i], outcome, []);
      }
    }

    method DoCancelAll()
      requires Sound(Value())
      modifies this`pending, this`inFlight, this`calls
      ensures Sound(Value())
      ensures var r := CancelAll(old(Value()));
              Value() == r.q && calls == old(calls) + r.events
    {
      var canceled := inFlight + pending;
      inFlight := [];
      pending := [];
      CompleteAll(canceled, Canceled);
    }
  }

  lemma {:induction false} PumpResult(q: State, now: Time)
    ensures Pump(q, now).result
    decreases |q.pending|
  {
    var i := FirstSendable(q, 0);
    if i < |q.pending| {
      PumpResult(SendAt(q, i, now), now);
    }
  }
}
