/** The command queue when callbacks call back in.

    A callback may make any call on the queue, at any depth, before it returns:
    that is how a completion handler retries. A `Machine` is the queue together
    with the calls that are still on the stack, and a move either makes a call
    or lets the innermost call run on to its next callback or to its end. Every
    safety property is proved for every sequence of moves. A call whose
    callbacks just return is the special case that module Queue states in one
    step, so its runs inherit all of it. */
module Reentrancy {
  import opened Bytes
  import opened Millis
  import opened Sequences
  import opened Queue

  datatype Afterwards = Return | ThenPump(now: Time)

  /** A call on the stack, by what it has left to do. */
  datatype Frame =
    | Pumping(now: Time)
    | Completing(todo: seq<Entry>, outcome: Outcome, data: Octets, after: Afterwards)

  /** `accepted` and `events` record the whole past. The owner has control when
      `ownerRuns`: outside every call, or inside a callback. */
  datatype Machine = Machine(
    q: State, stack: seq<Frame>, ownerRuns: bool, accepted: seq<Entry>, events: seq<Event>)

  const INITIAL := Machine(EMPTY, [], true, [], [])

  datatype Move = Enter(call: Call) | Resume

  predicate Enabled(m: Machine, move: Move) {
    if move.Enter? then m.ownerRuns else m.stack != []
  }

  /** The part of a call before its first callback. */
  function Opening(opts: Options, q: State, c: Call): State {
    match c
    case SubmitCall(id, _, _, _, _) => if IsDuplicate(q, id) then q else Enqueue(q, NewEntry(c))
    case ReadyCall(ready, _) => q.(ready := ready)
    case RespondCall(id, _, _) =>
      var k := IndexOf(q.inFlight, id);
      if k == |q.inFlight| then q else q.(inFlight := RemoveAt(q.inFlight, k))
    case TickCall(now) => WithoutExpired(opts, q, now)
    case CancelCall => State(q.ready, [], [])
  }

  /** The rest of it. */
  function Pushed(opts: Options, q: State, c: Call): seq<Frame> {
    match c
    case SubmitCall(id, _, _, _, now) =>
      if IsDuplicate(q, id) then [Completing([NewEntry(c)], Rejected, [], Return)] else [Pumping(now)]
    case ReadyCall(ready, now) => if ready then [Pumping(now)] else []
    case RespondCall(id, data, now) =>
      var k := IndexOf(q.inFlight, id);
      if k == |q.inFlight| then [] else [Completing([q.inFlight[k]], Responded, data, ThenPump(now))]
    case TickCall(now) => [Completing(Expired(opts, q, now), TimedOut, [], ThenPump(now))]
    case CancelCall => [Completing(q.inFlight + q.pending, Canceled, [], Return)]
  }

  function Begin(opts: Options, m: Machine, c: Call): Machine {
    var frames := Pushed(opts, m.q, c);
    Machine(Opening(opts, m.q, c), frames + m.stack, frames == [], m.accepted + Accepts(m.q, c), m.events)
  }

  function Continue(m: Machine): Machine {
    if m.stack == [] then m
    else
      match m.stack[0]
      case Pumping(now) =>
        var i := FirstSendable(m.q, 0);
        if i == |m.q.pending| then m.(stack := m.stack[1..], ownerRuns := true)
        else m.(q := SendAt(m.q, i, now), events := m.events + [Wrote(Stamp(m.q.pending[i], now))], ownerRuns := true)
      case Completing(todo, outcome, data, after) =>
        if todo != [] then
          m.(stack := [Completing(todo[1..], outcome, data, after)] + m.stack[1..],
             events := m.events + [Completed(todo[0], outcome, data)], ownerRuns := true)
        else
          match after
          case Return => m.(stack := m.stack[1..], ownerRuns := true)
          case ThenPump(now) => m.(stack := [Pumping(now)] + m.stack[1..], ownerRuns := false)
  }

  function Do(opts: Options, m: Machine, move: Move): Machine {
    match move
    case Enter(c) => Begin(opts, m, c)
    case Resume => Continue(m)
  }

  /** The machine after a sequence of moves. */
  function Execute(opts: Options, m: Machine, moves: seq<Move>): Machine {
    if moves == [] then m
    else Do(opts, Execute(opts, m, moves[..|moves| - 1]), moves[|moves| - 1])
  }

  ghost predicate Legal(opts: Options, m: Machine, moves: seq<Move>) {
    forall k :: 0 <= k < |moves| ==> Enabled(Execute(opts, m, moves[..k]), moves[k])
  }

  // --- Accounting ---------------------------------------------------------

  /** An entry as it was submitted. */
  function Origin(e: Entry): Entry {
    e.(sentAt := 0)
  }

  /** How many of `es` stem from the submission `o`. */
  function Count(es: seq<Entry>, o: Entry): nat {
    if es == [] then 0 else (if Origin(es[0]) == o then 1 else 0) + Count(es[1..], o)
  }

  /** The accepted submissions that have been completed, in order. */
  function Retired(events: seq<Event>): seq<Entry> {
    if events == [] then []
    else
      var last := events[|events| - 1];
      Retired(events[..|events| - 1]) + if last.Completed? && last.outcome != Rejected then [last.entry] else []
  }

  /** The commands that have been written, in order. */
  function Written(events: seq<Event>): seq<Entry> {
    if events == [] then []
    else
      var last := events[|events| - 1];
      Written(events[..|events| - 1]) + if last.Wrote? then [last.entry] else []
  }

  function OrdinaryOnly(es: seq<Entry>): seq<Entry> {
    if es == [] then []
    else (if es[0].priority == Queued then [Origin(es[0])] else []) + OrdinaryOnly(es[1..])
  }

  /** How many completions of `o` the calls on the stack have yet to make. */
  function Owed(stack: seq<Frame>, o: Entry): nat {
    if stack == [] then 0 else OwedBy(stack[0], o) + Owed(stack[1..], o)
  }

  function OwedBy(f: Frame, o: Entry): nat {
    if f.Completing? && f.outcome != Rejected then Count(f.todo, o) else 0
  }

  predicate OwesPump(f: Frame) {
    f.Pumping? || f.after.ThenPump?
  }

  // --- The invariants -----------------------------------------------------

  /** Between calls, and in callbacks of calls that end without a pump, nothing
      that could be sent is waiting. */
  ghost predicate Settled(m: Machine) {
    (forall k :: 0 <= k < |m.stack| ==> !OwesPump(m.stack[k])) ==> Quiet(m.q)
  }

  /** Every accepted submission is in exactly one place: completed, pending, in
      flight, or about to be completed by a call on the stack. */
  ghost predicate Conserved(m: Machine) {
    forall o :: Count(m.accepted, o)
      == Count(Retired(m.events), o) + Count(m.q.pending, o) + Count(m.q.inFlight, o) + Owed(m.stack, o)
  }

  /** Only accepted submissions are written, each at most once, and not while it
      is still pending. */
  ghost predicate WrittenOnce(m: Machine) {
    forall o :: Count(Written(m.events), o) + Count(m.q.pending, o) <= Count(m.accepted, o)
  }

  /** Ordinary commands are written in the order they were accepted. */
  ghost predicate Fifo(m: Machine) {
    Subsequence(OrdinaryOnly(Written(m.events)) + OrdinaryOnly(m.q.pending), OrdinaryOnly(m.accepted))
  }

  ghost predicate Invariant(m: Machine) {
    Sound(m.q) && Settled(m) && Conserved(m) && WrittenOnce(m) && Fifo(m)
  }

  lemma InitialInvariant()
    ensures Invariant(INITIAL)
  {
    var none: seq<Entry> := [];
    assert OrdinaryOnly(Written(INITIAL.events)) + OrdinaryOnly(INITIAL.q.pending) == none;
    SubsequenceSelf(none);
  }

  /** Whatever callbacks do, every state of every run satisfies the invariant:
      in particular the queue is sound whenever a callback runs, and quiet
      whenever no call is on the stack. */
  lemma {:induction false} EveryRun(opts: Options, moves: seq<Move>)
    requires Legal(opts, INITIAL, moves)
    ensures Invariant(Execute(opts, INITIAL, moves))
  {
    if moves == [] {
      InitialInvariant();
    } else {
      var front, n := moves[..|moves| - 1], |moves| - 1;
      assert forall k :: 0 <= k < n ==> front[..k] == moves[..k];
      EveryRun(opts, front);
      assert Enabled(Execute(opts, INITIAL, moves[..n]), moves[n]);
      MoveKeepsInvariant(opts, Execute(opts, INITIAL, front), moves[n]);
    }
  }

  lemma MoveKeepsInvariant(opts: Options, m: Machine, move: Move)
    requires Invariant(m) && Enabled(m, move)
    ensures Invariant(Do(opts, m, move))
  {
    match move
    case Enter(c) => BeginKeepsInvariant(opts, m, c);
    case Resume => ContinueKeepsInvariant(m);
  }

  // --- Entering a call ----------------------------------------------------

  lemma BeginKeepsInvariant(opts: Options, m: Machine, c: Call)
    requires Invariant(m)
    ensures Invariant(Begin(opts, m, c))
  {
    OpeningKeepsSound(opts, m.q, c);
    BeginSettles(opts, m, c);
    BeginConserves(opts, m, c);
    BeginFifo(opts, m, c);
  }

  lemma BeginSettles(opts: Options, m: Machine, c: Call)
    requires Settled(m)
    ensures Settled(Begin(opts, m, c))
  {
    var m', frames := Begin(opts, m, c), Pushed(opts, m.q, c);
    if forall k :: 0 <= k < |m'.stack| ==> !OwesPump(m'.stack[k]) {
      assert forall k :: 0 <= k < |m.stack| ==> m.stack[k] == m'.stack[|frames| + k];
      assert Quiet(m.q);
      if frames != [] {
        assert m'.stack[0] == frames[0];
        assert !OwesPump(frames[0]);
      }
    }
  }

  lemma BeginConserves(opts: Options, m: Machine, c: Call)
    requires Conserved(m) && WrittenOnce(m)
    ensures Conserved(Begin(opts, m, c)) && WrittenOnce(Begin(opts, m, c))
  {
    var m' := Begin(opts, m, c);
    forall o
      ensures Count(m'.accepted, o) == Count(m.accepted, o) + Count(Accepts(m.q, c), o)
      ensures Owed(m'.stack, o) == Owed(Pushed(opts, m.q, c), o) + Owed(m.stack, o)
      ensures Balance(opts, m.q, c, o)
    {
      CountAppend(m.accepted, Accepts(m.q, c), o);
      OwedAppend(Pushed(opts, m.q, c), m.stack, o);
      OpeningBalance(opts, m.q, c, o);
    }
  }

  lemma BeginFifo(opts: Options, m: Machine, c: Call)
    requires Fifo(m)
    ensures Fifo(Begin(opts, m, c))
  {
    var m' := Begin(opts, m, c);
    OpeningOrder(opts, m.q, c);
    OrdinaryAppend(m.accepted, Accepts(m.q, c));
    FifoGrows(OrdinaryOnly(Written(m.events)), OrdinaryOnly(m.q.pending), OrdinaryOnly(m'.q.pending),
              OrdinaryOnly(m.accepted), OrdinaryOnly(Accepts(m.q, c)));
  }

  lemma FifoGrows(w: seq<Entry>, p: seq<Entry>, p': seq<Entry>, a: seq<Entry>, x: seq<Entry>)
    requires Subsequence(w + p, a) && Subsequence(p', p + x)
    ensures Subsequence(w + p', a + x)
  {
    SubsequenceSelf(w);
    SubsequenceConcat(w, w, p', p + x);
    SubsequenceSelf(x);
    SubsequenceConcat(w + p, a, x, x);
    Assoc(w, p, x);
    SubsequenceTransitive(w + p', w + p + x, a + x);
  }

  lemma OpeningKeepsSound(opts: Options, q: State, c: Call)
    requires Sound(q)
    ensures Sound(Opening(opts, q, c))
  {
    match c
    case SubmitCall(id, _, _, _, _) =>
      if !IsDuplicate(q, id) {
        EnqueueKeepsSound(q, NewEntry(c));
      }
    case ReadyCall(_, _) =>
    case RespondCall(id, _, _) =>
      var k := IndexOf(q.inFlight, id);
      if k < |q.inFlight| {
        RemovalKeepsSound(q, k);
      }
    case TickCall(now) => ExpiryKeepsSound(opts, q, now);
    case CancelCall =>
  }

  /** Entering a call only moves entries: from the queue to the stack, and from
      the caller to the queue. */
  ghost predicate Balance(opts: Options, q: State, c: Call, o: Entry) {
    var q' := Opening(opts, q, c);
    && Count(q.pending, o) + Count(q.inFlight, o) + Count(Accepts(q, c), o)
       == Count(q'.pending, o) + Count(q'.inFlight, o) + Owed(Pushed(opts, q, c), o)
    && Count(q'.pending, o) <= Count(q.pending, o) + Count(Accepts(q, c), o)
  }

  lemma OpeningBalance(opts: Options, q: State, c: Call, o: Entry)
    ensures Balance(opts, q, c, o)
  {
    var frames := Pushed(opts, q, c);
    assert frames != [] ==> Owed(frames, o) == OwedBy(frames[0], o);
    match c
    case SubmitCall(id, _, _, _, now) =>
      CountAppend([NewEntry(c)], q.pending, o);
      CountAppend(q.pending, [NewEntry(c)], o);
    case ReadyCall(_, now) =>
    case RespondCall(id, data, now) =>
      var k := IndexOf(q.inFlight, id);
      if k < |q.inFlight| {
        CountRemoveAt(q.inFlight, k, o);
      }
    case TickCall(now) =>
      ExpiryBalance(opts, q, now, o);
    case CancelCall =>
      CountAppend(q.inFlight, q.pending, o);
  }

  lemma ExpiryBalance(opts: Options, q: State, now: Time, o: Entry)
    ensures var q' := WithoutExpired(opts, q, now);
            && Count(q.pending, o) + Count(q.inFlight, o)
               == Count(q'.pending, o) + Count(q'.inFlight, o) + Count(Expired(opts, q, now), o)
            && Count(q'.pending, o) <= Count(q.pending, o)
  {
    CountSplit(q.pending, e => WaitExpired(opts, now, e), o);
    CountSplit(q.inFlight, e => WriteExpired(opts, now, e), o);
    CountAppend(Filter(q.inFlight, e => WriteExpired(opts, now, e)),
                Filter(q.pending, e => WaitExpired(opts, now, e)), o);
  }

  /** A keep-alive jumps the queue, but it is not an ordinary command. */
  lemma EnqueueOrder(q: State, e: Entry)
    ensures OrdinaryOnly(Enqueue(q, e).pending) == OrdinaryOnly(q.pending) + OrdinaryOnly([e])
  {
    if e.priority == KeepAlive {
      OrdinaryAppend([e], q.pending);
      assert OrdinaryOnly([e]) == [];
    } else {
      OrdinaryAppend(q.pending, [e]);
    }
  }

  lemma OpeningOrder(opts: Options, q: State, c: Call)
    ensures Subsequence(OrdinaryOnly(Opening(opts, q, c).pending),
                        OrdinaryOnly(q.pending) + OrdinaryOnly(Accepts(q, c)))
  {
    var p, x := OrdinaryOnly(q.pending), OrdinaryOnly(Accepts(q, c));
    assert p + [] == p;
    SubsequenceSelf(p);
    match c
    case SubmitCall(id, _, _, _, _) =>
      if !IsDuplicate(q, id) {
        EnqueueOrder(q, NewEntry(c));
        SubsequenceSelf(p + x);
      }
    case ReadyCall(_, _) =>
    case RespondCall(_, _, _) =>
    case TickCall(now) =>
      OrdinaryReject(q.pending, e => WaitExpired(opts, now, e));
    case CancelCall =>
      SubsequenceEmpty(p);
  }

  // --- Running on ---------------------------------------------------------

  lemma ContinueKeepsInvariant(m: Machine)
    requires Invariant(m)
    ensures Invariant(Continue(m))
  {
    if m.stack != [] {
      match m.stack[0]
      case Pumping(now) =>
        if FirstSendable(m.q, 0) == |m.q.pending| {
          PumpEnds(m);
        } else {
          PumpSends(m);
        }
      case Completing(todo, outcome, data, after) =>
        CompletingKeepsInvariant(m);
    }
  }

  /** Nothing more can be sent, so the queue is quiet. */
  lemma NothingSendable(q: State)
    requires Sound(q) && FirstSendable(q, 0) == |q.pending|
    ensures Quiet(q)
  {
    DistinctParts(q.pending, q.inFlight);
    forall i | 0 <= i < |q.pending|
      ensures q.pending[i].priority == Queued && (q.ready ==> HasQueued(q.inFlight))
    {
      assert !CanSend(q, q.pending[i]);
    }
  }

  lemma PumpEnds(m: Machine)
    requires Invariant(m) && m.stack != [] && m.stack[0].Pumping?
    requires FirstSendable(m.q, 0) == |m.q.pending|
    ensures Invariant(Continue(m))
  {
    NothingSendable(m.q);
  }

  lemma PumpSends(m: Machine)
    requires Invariant(m) && m.stack != [] && m.stack[0].Pumping?
    requires FirstSendable(m.q, 0) < |m.q.pending|
    ensures Invariant(Continue(m))
  {
    var i, now := FirstSendable(m.q, 0), m.stack[0].now;
    SendKeepsSound(m.q, i, now);
    assert OwesPump(Continue(m).stack[0]);
    SendConserves(m, i, now);
    SendKeepsOrder(m, i, now);
  }

  lemma SendConserves(m: Machine, i: nat, now: Time)
    requires Conserved(m) && WrittenOnce(m) && i < |m.q.pending|
    ensures var m' := m.(q := SendAt(m.q, i, now), events := m.events + [Wrote(Stamp(m.q.pending[i], now))]);
            Conserved(m') && WrittenOnce(m')
  {
    var e := Stamp(m.q.pending[i], now);
    EventAppended(m.events, Wrote(e));
    forall o
      ensures Count(m.q.pending, o) == Count(RemoveAt(m.q.pending, i), o) + Count([e], o)
      ensures Count(m.q.inFlight + [e], o) == Count(m.q.inFlight, o) + Count([e], o)
      ensures Count(Written(m.events) + [e], o) == Count(Written(m.events), o) + Count([e], o)
    {
      CountRemoveAt(m.q.pending, i, o);
      CountAppend(m.q.inFlight, [e], o);
      CountAppend(Written(m.events), [e], o);
    }
  }

  lemma SendKeepsOrder(m: Machine, i: nat, now: Time)
    requires Sound(m.q) && Fifo(m) && i < |m.q.pending| && i == FirstSendable(m.q, 0)
    ensures Fifo(m.(q := SendAt(m.q, i, now), events := m.events + [Wrote(Stamp(m.q.pending[i], now))]))
  {
    var e := Stamp(m.q.pending[i], now);
    EventAppended(m.events, Wrote(e));
    OrdinaryAppend(Written(m.events), [e]);
    SendsFirstOrdinary(m.q, i);
    assert OrdinaryOnly([e]) == OrdinaryOnly([m.q.pending[i]]);
    Assoc(OrdinaryOnly(Written(m.events)), OrdinaryOnly([e]), OrdinaryOnly(RemoveAt(m.q.pending, i)));
  }

  /** When an ordinary command is sent, no older one is waiting. */
  lemma SendsFirstOrdinary(q: State, i: nat)
    requires Sound(q) && i < |q.pending| && i == FirstSendable(q, 0)
    ensures OrdinaryOnly(q.pending) == OrdinaryOnly([q.pending[i]]) + OrdinaryOnly(RemoveAt(q.pending, i))
  {
    var e, before, after := q.pending[i], q.pending[..i], q.pending[i + 1..];
    assert q.pending == before + ([e] + after);
    OrdinaryAppend(before, [e] + after);
    OrdinaryAppend([e], after);
    OrdinaryAppend(before, after);
    DistinctParts(q.pending, q.inFlight);
    if e.priority == Queued {
      assert CanSend(q, q.pending[0]);
      assert before == [];
    } else {
      assert OrdinaryOnly([e]) == [];
    }
  }

  lemma CompletingKeepsInvariant(m: Machine)
    requires Invariant(m) && m.stack != [] && m.stack[0].Completing?
    ensures Invariant(Continue(m))
  {
    var m', frame := Continue(m), m.stack[0];
    if frame.todo != [] {
      EventAppended(m.events, Completed(frame.todo[0], frame.outcome, frame.data));
      CompletionConserves(m);
      CompletionSettles(m);
    } else {
      EmptyFrameSettles(m);
      if frame.after.ThenPump? {
        assert m'.stack[1..] == m.stack[1..];
      }
    }
  }

  lemma CompletionSettles(m: Machine)
    requires Settled(m) && m.stack != [] && m.stack[0].Completing? && m.stack[0].todo != []
    ensures Settled(Continue(m))
  {
    var m' := Continue(m);
    if forall k :: 0 <= k < |m'.stack| ==> !OwesPump(m'.stack[k]) {
      assert !OwesPump(m'.stack[0]);
      assert forall k :: 1 <= k < |m.stack| ==> m.stack[k] == m'.stack[k];
    }
  }

  lemma EmptyFrameSettles(m: Machine)
    requires Settled(m) && m.stack != [] && m.stack[0].Completing? && m.stack[0].todo == []
    ensures Settled(Continue(m))
  {
    var m' := Continue(m);
    if m.stack[0].after.ThenPump? {
      assert OwesPump(m'.stack[0]);
    } else if forall k :: 0 <= k < |m'.stack| ==> !OwesPump(m'.stack[k]) {
      assert forall k :: 1 <= k < |m.stack| ==> m.stack[k] == m'.stack[k - 1];
    }
  }

  lemma CompletionConserves(m: Machine)
    requires Conserved(m) && m.stack != [] && m.stack[0].Completing? && m.stack[0].todo != []
    ensures Conserved(Continue(m))
  {
    var frame, rest := m.stack[0], m.stack[1..];
    var e := frame.todo[0];
    var stack' := Continue(m).stack;
    assert stack'[1..] == rest;
    EventAppended(m.events, Completed(e, frame.outcome, frame.data));
    forall o
      ensures Count(Retired(m.events) + [e], o) == Count(Retired(m.events), o) + Count([e], o)
      ensures Count(frame.todo, o) == Count([e], o) + Count(frame.todo[1..], o)
    {
      CountAppend(Retired(m.events), [e], o);
    }
  }

  // --- Calls whose callbacks just return ----------------------------------

  /** The machine after `n` moves that all let the stack run on. */
  function RunOn(m: Machine, n: nat): Machine
    decreases n
  {
    if n == 0 then m else RunOn(Continue(m), n - 1)
  }

  /** What module Queue says of one call, as a machine between calls. */
  function AfterCall(opts: Options, m: Machine, c: Call): Machine {
    var r := Apply(opts, m.q, c);
    Machine(r.q, [], true, m.accepted + Accepts(m.q, c), m.events + r.events)
  }

  predicate Idle(m: Machine) {
    m.stack == [] && m.ownerRuns
  }

  lemma {:induction false} PumpRunsOn(m: Machine) returns (n: nat)
    requires m.stack != [] && m.stack[0].Pumping?
    ensures var r := Pump(m.q, m.stack[0].now);
            RunOn(m, n) == m.(q := r.q, stack := m.stack[1..], ownerRuns := true, events := m.events + r.events)
    decreases |m.q.pending|
  {
    if FirstSendable(m.q, 0) == |m.q.pending| {
      n := 1;
      assert RunOn(m, 1) == RunOn(Continue(m), 0);
      assert m.events + [] == m.events;
    } else {
      var m1, i := Continue(m), FirstSendable(m.q, 0);
      var later := PumpRunsOn(m1);
      n := 1 + later;
      Assoc(m.events, [Wrote(Stamp(m.q.pending[i], m.stack[0].now))], Pump(m1.q, m.stack[0].now).events);
    }
  }

  lemma {:induction false} RunOnFurther(m: Machine, a: nat, b: nat)
    ensures RunOn(m, a + b) == RunOn(RunOn(m, a), b)
    decreases a
  {
    if a > 0 {
      RunOnFurther(Continue(m), a - 1, b);
    }
  }

  lemma {:induction false} CompletionsRunOn(m: Machine) returns (n: nat)
    requires m.stack != [] && m.stack[0].Completing?
    ensures var f := m.stack[0];
            var m' := m.(stack := m.stack[1..], ownerRuns := true,
                         events := m.events + Completions(f.todo, f.outcome, f.data));
            RunOn(m, n) == if f.after.Return? then m'
                           else m'.(stack := [Pumping(f.after.now)] + m.stack[1..], ownerRuns := false)
    decreases |m.stack[0].todo|
  {
    var f := m.stack[0];
    if f.todo == [] {
      n := 1;
      assert RunOn(m, 1) == RunOn(Continue(m), 0);
      assert m.events + [] == m.events;
    } else {
      var m1 := Continue(m);
      assert m1.stack[1..] == m.stack[1..];
      var later := CompletionsRunOn(m1);
      n := 1 + later;
      Assoc(m.events, [Completed(f.todo[0], f.outcome, f.data)], Completions(f.todo[1..], f.outcome, f.data));
    }
  }

  lemma FrameRunsOn(m: Machine) returns (n: nat)
    requires |m.stack| == 1 && m.stack[0].Completing?
    ensures var f := m.stack[0];
            var told := m.events + Completions(f.todo, f.outcome, f.data);
            RunOn(m, n) ==
              match f.after
              case Return => m.(stack := [], ownerRuns := true, events := told)
              case ThenPump(now) =>
                m.(q := Pump(m.q, now).q, stack := [], ownerRuns := true, events := told + Pump(m.q, now).events)
  {
    n := CompletionsRunOn(m);
    assert m.stack[1..] == [];
    if m.stack[0].after.ThenPump? {
      var m1 := RunOn(m, n);
      var b := PumpRunsOn(m1);
      RunOnFurther(m, n, b);
      n := n + b;
    }
  }

  /** A call whose callbacks just return is one run of the machine. */
  lemma CallIsARun(opts: Options, m: Machine, c: Call) returns (n: nat)
    requires Idle(m)
    ensures RunOn(Begin(opts, m, c), n) == AfterCall(opts, m, c)
  {
    var m1, frames := Begin(opts, m, c), Pushed(opts, m.q, c);
    assert m1.stack == frames;
    if frames == [] {
      n := 0;
      assert m.events + [] == m.events;
    } else if frames[0].Pumping? {
      n := PumpRunsOn(m1);
    } else {
      n := FrameRunsOn(m1);
      FrameEvents(opts, m, c);
    }
  }

  lemma FrameEvents(opts: Options, m: Machine, c: Call)
    requires Pushed(opts, m.q, c) != [] && Pushed(opts, m.q, c)[0].Completing?
    ensures var f := Pushed(opts, m.q, c)[0];
            var told := m.events + Completions(f.todo, f.outcome, f.data);
            m.events + Apply(opts, m.q, c).events ==
              if f.after.Return? then told else told + Pump(Opening(opts, m.q, c), f.after.now).events
  {
    var f := Pushed(opts, m.q, c)[0];
    if f.after.ThenPump? {
      Assoc(m.events, Completions(f.todo, f.outcome, f.data), Pump(Opening(opts, m.q, c), f.after.now).events);
    }
    if |f.todo| == 1 {
      assert f.todo[1..] == [];
      assert Completions(f.todo, f.outcome, f.data) == [Completed(f.todo[0], f.outcome, f.data)];
    }
  }

  lemma {:induction false} RunOnKeepsInvariant(m: Machine, n: nat)
    requires Invariant(m)
    ensures Invariant(RunOn(m, n))
    decreases n
  {
    if n > 0 {
      ContinueKeepsInvariant(m);
      RunOnKeepsInvariant(Continue(m), n - 1);
    }
  }

  /** So one call of module Queue keeps the queue sound and quiet, conserves
      submissions, and keeps the order of ordinary commands. */
  lemma CallKeepsInvariant(opts: Options, m: Machine, c: Call)
    requires Idle(m) && Invariant(m)
    ensures Invariant(AfterCall(opts, m, c))
  {
    BeginKeepsInvariant(opts, m, c);
    var n := CallIsARun(opts, m, c);
    RunOnKeepsInvariant(Begin(opts, m, c), n);
  }

  /** The record of a sequence of calls. */
  function AfterCalls(opts: Options, m: Machine, calls: seq<Call>): Machine {
    if calls == [] then m
    else AfterCall(opts, AfterCalls(opts, m, calls[..|calls| - 1]), calls[|calls| - 1])
  }

  lemma {:induction false} CallsKeepInvariant(opts: Options, m: Machine, calls: seq<Call>)
    requires Idle(m) && Invariant(m)
    ensures Idle(AfterCalls(opts, m, calls)) && Invariant(AfterCalls(opts, m, calls))
  {
    if calls != [] {
      CallsKeepInvariant(opts, m, calls[..|calls| - 1]);
      CallKeepsInvariant(opts, AfterCalls(opts, m, calls[..|calls| - 1]), calls[|calls| - 1]);
    }
  }

  // --- Exactly once -------------------------------------------------------

  predicate DistinctCallbacks(es: seq<Entry>) {
    forall i, j :: 0 <= i < j < |es| ==> es[i].done != es[j].done
  }

  /** When no two accepted submissions share a callback, no callback of an
      accepted submission is made twice, nothing is written twice, and at every
      moment each submission is in exactly one place. */
  lemma ExactlyOnce(opts: Options, moves: seq<Move>)
    requires Legal(opts, INITIAL, moves)
    ensures var m := Execute(opts, INITIAL, moves);
            DistinctCallbacks(m.accepted) ==>
              && DistinctCallbacks(Retired(m.events))
              && DistinctCallbacks(Written(m.events))
              && forall e <- m.accepted ::
                   Count(Retired(m.events), Origin(e)) + Count(m.q.pending, Origin(e)) + Count(m.q.inFlight, Origin(e))
                   + Owed(m.stack, Origin(e)) == 1
  {
    EveryRun(opts, moves);
    var m := Execute(opts, INITIAL, moves);
    if DistinctCallbacks(m.accepted) {
      DistinctWithin(Retired(m.events), m.accepted);
      DistinctWithin(Written(m.events), m.accepted);
      forall e | e in m.accepted
        ensures Count(m.accepted, Origin(e)) == 1
      {
        var i :| 0 <= i < |m.accepted| && m.accepted[i] == e;
        CountDistinct(m.accepted, i);
      }
    }
  }

  lemma DistinctWithin(es: seq<Entry>, accepted: seq<Entry>)
    requires DistinctCallbacks(accepted) && forall o :: Count(es, o) <= Count(accepted, o)
    ensures DistinctCallbacks(es)
  {
    forall i, j | 0 <= i < j < |es|
      ensures es[i].done != es[j].done
    {
      CountMember(es, i);
      CountMember(es, j);
      var a := CountWitness(accepted, Origin(es[i]));
      var b := CountWitness(accepted, Origin(es[j]));
      if es[i].done == es[j].done {
        assert a == b;
        CountTwice(es, i, j);
        CountDistinct(accepted, a);
      }
    }
  }

  lemma CountMember(es: seq<Entry>, i: nat)
    requires i < |es|
    ensures Count(es, Origin(es[i])) >= 1
  {
    CountRemoveAt(es, i, Origin(es[i]));
  }

  lemma CountTwice(es: seq<Entry>, i: nat, j: nat)
    requires i < j < |es| && Origin(es[i]) == Origin(es[j])
    ensures Count(es, Origin(es[i])) >= 2
  {
    CountRemoveAt(es, j, Origin(es[i]));
    CountMember(RemoveAt(es, j), i);
  }

  lemma {:induction false} CountWitness(es: seq<Entry>, o: Entry) returns (k: nat)
    requires Count(es, o) >= 1
    ensures k < |es| && Origin(es[k]) == o
  {
    if Origin(es[0]) == o {
      return 0;
    }
    var later := CountWitness(es[1..], o);
    return later + 1;
  }

  lemma CountDistinct(es: seq<Entry>, k: nat)
    requires DistinctCallbacks(es) && k < |es|
    ensures Count(es, Origin(es[k])) == 1
  {
    var others, o := RemoveAt(es, k), Origin(es[k]);
    CountRemoveAt(es, k, o);
    forall i | 0 <= i < |others|
      ensures Origin(others[i]) != o
    {
      assert others[i] == es[if i < k then i else i + 1];
    }
    CountNone(others, o);
  }

  lemma {:induction false} CountNone(es: seq<Entry>, o: Entry)
    requires forall i :: 0 <= i < |es| ==> Origin(es[i]) != o
    ensures Count(es, o) == 0
  {
    if es != [] {
      CountNone(es[1..], o);
    }
  }

  // --- Counting lemmas ----------------------------------------------------

  lemma EventAppended(events: seq<Event>, x: Event)
    ensures Retired(events + [x])
         == if x.Completed? && x.outcome != Rejected then Retired(events) + [x.entry] else Retired(events)
    ensures Written(events + [x]) == if x.Wrote? then Written(events) + [x.entry] else Written(events)
  {
    assert Retired(events) + [] == Retired(events) && Written(events) + [] == Written(events);
    assert (events + [x])[..|events|] == events;
  }

  lemma {:induction false} CountAppend(a: seq<Entry>, b: seq<Entry>, o: Entry)
    ensures Count(a + b, o) == Count(a, o) + Count(b, o)
  {
    if a == [] {
      assert a + b == b;
    } else {
      assert (a + b)[0] == a[0] && (a + b)[1..] == a[1..] + b;
      CountAppend(a[1..], b, o);
    }
  }

  lemma CountRemoveAt(es: seq<Entry>, k: nat, o: Entry)
    requires k < |es|
    ensures Count(es, o) == Count(RemoveAt(es, k), o) + Count([es[k]], o)
  {
    assert es == es[..k] + ([es[k]] + es[k + 1..]);
    CountAppend(es[..k], [es[k]] + es[k + 1..], o);
    CountAppend([es[k]], es[k + 1..], o);
    CountAppend(es[..k], es[k + 1..], o);
  }

  lemma {:induction false} CountSplit(es: seq<Entry>, p: Entry -> bool, o: Entry)
    ensures Count(Filter(es, p), o) + Count(Reject(es, p), o) == Count(es, o)
  {
    if es != [] {
      CountSplit(es[1..], p, o);
      CountAppend(if p(es[0]) then [es[0]] else [], Filter(es[1..], p), o);
      CountAppend(if !p(es[0]) then [es[0]] else [], Reject(es[1..], p), o);
    }
  }

  lemma {:induction false} OwedAppend(a: seq<Frame>, b: seq<Frame>, o: Entry)
    ensures Owed(a + b, o) == Owed(a, o) + Owed(b, o)
  {
    if a == [] {
      assert a + b == b;
    } else {
      assert (a + b)[0] == a[0] && (a + b)[1..] == a[1..] + b;
      OwedAppend(a[1..], b, o);
    }
  }

  lemma {:induction false} OrdinaryAppend(a: seq<Entry>, b: seq<Entry>)
    ensures OrdinaryOnly(a + b) == OrdinaryOnly(a) + OrdinaryOnly(b)
  {
    if a == [] {
      assert a + b == b;
    } else {
      assert (a + b)[0] == a[0] && (a + b)[1..] == a[1..] + b;
      OrdinaryAppend(a[1..], b);
    }
  }

  lemma {:induction false} OrdinaryNone(es: seq<Entry>)
    requires forall x :: x in es ==> x.priority != Queued
    ensures OrdinaryOnly(es) == []
  {
    if es != [] {
      OrdinaryNone(es[1..]);
    }
  }

  lemma {:induction false} OrdinaryReject(es: seq<Entry>, p: Entry -> bool)
    ensures Subsequence(OrdinaryOnly(Reject(es, p)), OrdinaryOnly(es))
  {
    if es == [] {
      SubsequenceSelf<Entry>([]);
    } else {
      OrdinaryReject(es[1..], p);
      var head := if p(es[0]) then [] else [es[0]];
      OrdinaryAppend(head, Reject(es[1..], p));
      assert es == [es[0]] + es[1..];
      OrdinaryAppend([es[0]], es[1..]);
      SubsequenceSelf(OrdinaryOnly([es[0]]));
      SubsequenceEmpty(OrdinaryOnly([es[0]]));
      SubsequenceConcat(OrdinaryOnly(head), OrdinaryOnly([es[0]]),
                        OrdinaryOnly(Reject(es[1..], p)), OrdinaryOnly(es[1..]));
    }
  }
}
