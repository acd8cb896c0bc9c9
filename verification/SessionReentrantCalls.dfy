/** A public call whose callbacks just return, made at any depth, is the one
    step that module Session says it is. */
module SessionReentrantCalls {
  import opened Bytes
  import opened Millis
  import opened Sequences
  import opened Correlation
  import opened Framing
  import opened Queue
  import opened Session
  import opened SessionHistory
  import opened SessionGate
  import opened SessionReentrancy
  import Reentrancy
  import Query

  /** `n` moves that all let the work run on. */
  function Steps(l: Live, n: nat): Live {
    Iterate(GoOn, l, n)
  }

  lemma StepsAdd(l: Live, a: nat, b: nat)
    ensures Steps(l, a + b) == Steps(Steps(l, a), b)
  {
    IterateAdd(GoOn, l, a, b);
  }

  // --- Writing ------------------------------------------------------------

  function PacketsOn(channel: Channel, packets: seq<Octets>): seq<Packet> {
    if packets == [] then [] else [Packet(channel, packets[0])] + PacketsOn(channel, packets[1..])
  }

  /** The packets of all commands that `events` send. */
  function PacketsOf(events: seq<Callback>): seq<Packet> {
    if events == [] then []
    else (if events[0].Sent? then PacketsOn(events[0].channel, events[0].packets) else []) + PacketsOf(events[1..])
  }

  lemma {:induction false} PacketsAppend(a: seq<Callback>, b: seq<Callback>)
    ensures PacketsOf(a + b) == PacketsOf(a) + PacketsOf(b)
  {
    if a == [] {
      assert a + b == b;
    } else {
      assert (a + b)[0] == a[0] && (a + b)[1..] == a[1..] + b;
      PacketsAppend(a[1..], b);
    }
  }

  lemma {:induction false} WritingRuns(l: Live) returns (n: nat)
    requires l.stack != [] && l.stack[0].Writing?
    ensures Steps(l, n) == l.(stack := l.stack[1..], ownerRuns := false,
                              wire := l.wire + PacketsOn(l.stack[0].channel, l.stack[0].todo))
    decreases |l.stack[0].todo|
  {
    var w, rest := l.stack[0], l.stack[1..];
    if w.todo == [] {
      n := 1;
      assert Steps(l, 1) == Steps(GoOn(l), 0);
      assert l.wire + [] == l.wire;
    } else {
      var l1 := GoOn(l);
      assert l1.stack[1..] == rest;
      var later := WritingRuns(l1);
      n := 1 + later;
      Assoc(l.wire, [Packet(w.channel, w.todo[0])], PacketsOn(w.channel, w.todo[1..]));
    }
  }

  // --- The queue ----------------------------------------------------------

  /** The session after its queue has become `m` and made the callbacks `qs`. */
  function Told(l: Live, m: Reentrancy.Machine, qs: seq<Event>): Live {
    WithQueue(l, m).(log := l.log + Relay(l.s.att, qs), wire := l.wire + PacketsOf(Relay(l.s.att, qs)))
  }

  lemma ToldOnce(l: Live, e: Event, qs: seq<Event>, m1: Reentrancy.Machine, m2: Reentrancy.Machine)
    ensures Told(Told(l, m1, [e]), m2, qs) == Told(l, m2, [e] + qs)
  {
    var x, xs := RelayOne(l.s.att, e), Relay(l.s.att, qs);
    assert Relay(l.s.att, [e]) == [x] + Relay(l.s.att, []) == [x];
    assert ([e] + qs)[1..] == qs;
    Assoc(l.log, [x], xs);
    PacketsAppend([x], xs);
    Assoc(l.wire, PacketsOf([x]), PacketsOf(xs));
  }

  lemma ToldNothing(l: Live, m: Reentrancy.Machine)
    ensures Told(l, m, []) == WithQueue(l, m)
  {
    assert l.log + [] == l.log && l.wire + [] == l.wire;
  }

  /** The queue's machine `m` after its innermost frame has come to its end,
      leaving `q` behind and making the callbacks `qs`. */
  function Ended(m: Reentrancy.Machine, q: State, qs: seq<Event>): Reentrancy.Machine
    requires m.stack != []
  {
    m.(q := q, stack := m.stack[1..], ownerRuns := true, events := m.events + qs)
  }

  lemma PumpEnds(l: Live)
    requires l.stack != [] && l.stack[0].InQueue? && l.m.stack != [] && l.m.stack[0].Pumping?
    requires FirstSendable(l.m.q, 0) == |l.m.q.pending|
    ensures Steps(l, 1) == Return(Told(l, Ended(l.m, l.m.q, []), []), l.stack[1..])
  {
    assert Steps(l, 1) == Steps(GoOn(l), 0);
    assert l.m.events + [] == l.m.events;
    ToldNothing(l, Ended(l.m, l.m.q, []));
  }

  lemma {:induction false} PumpRuns(l: Live) returns (n: nat)
    requires l.stack != [] && l.stack[0].InQueue? && l.m.stack != [] && l.m.stack[0].Pumping?
    ensures var r := Pump(l.m.q, l.m.stack[0].now);
            Steps(l, n) == Return(Told(l, Ended(l.m, r.q, r.events), r.events), l.stack[1..])
    decreases |l.m.q.pending|
  {
    var i := FirstSendable(l.m.q, 0);
    if i == |l.m.q.pending| {
      n := 1;
      PumpEnds(l);
    } else {
      var m1, l2, a := PumpSendsOne(l, i);
      var b := PumpRuns(l2);
      n := a + b;
      StepsAdd(l, a, b);
      PumpJoins(l, i, m1, l2);
    }
  }

  lemma PumpJoins(l: Live, i: nat, m1: Reentrancy.Machine, l2: Live)
    requires l.stack != [] && l.m.stack != [] && l.m.stack[0].Pumping?
    requires i == FirstSendable(l.m.q, 0) < |l.m.q.pending|
    requires var e := Wrote(Stamp(l.m.q.pending[i], l.m.stack[0].now));
             && m1 == l.m.(q := SendAt(l.m.q, i, l.m.stack[0].now), events := l.m.events + [e], ownerRuns := true)
             && l2 == Told(l, m1, [e]).(ownerRuns := false)
    ensures var r1, r := Pump(m1.q, l.m.stack[0].now), Pump(l.m.q, l.m.stack[0].now);
            Return(Told(l2, Ended(l2.m, r1.q, r1.events), r1.events), l2.stack[1..])
            == Return(Told(l, Ended(l.m, r.q, r.events), r.events), l.stack[1..])
  {
    var e, r1 := Wrote(Stamp(l.m.q.pending[i], l.m.stack[0].now)), Pump(m1.q, l.m.stack[0].now);
    FrameJoins(l, m1, e, r1.q, r1.events);
  }

  /** The pump sends the entry at `i`, and its packets are written. */
  lemma PumpSendsOne(l: Live, i: nat) returns (m1: Reentrancy.Machine, l2: Live, n: nat)
    requires l.stack != [] && l.stack[0].InQueue? && l.m.stack != [] && l.m.stack[0].Pumping?
    requires i == FirstSendable(l.m.q, 0) < |l.m.q.pending|
    ensures var e := Wrote(Stamp(l.m.q.pending[i], l.m.stack[0].now));
            && m1 == l.m.(q := SendAt(l.m.q, i, l.m.stack[0].now), events := l.m.events + [e], ownerRuns := true)
            && l2 == Told(l, m1, [e]).(ownerRuns := false)
    ensures Steps(l, n) == l2
  {
    var e := Wrote(Stamp(l.m.q.pending[i], l.m.stack[0].now));
    var x := RelayOne(l.s.att, e);
    m1 := Reentrancy.Continue(l.m);
    var l1 := PumpBegins(l, i, m1);
    var a := WritingRuns(l1);
    n := 1 + a;
    l2 := Told(l, m1, [e]).(ownerRuns := false);
    assert l1.stack[1..] == l.stack;
    ToldWrite(l, m1, e);
    assert Steps(l, n) == Steps(l1, a);
  }

  lemma ToldWrite(l: Live, m1: Reentrancy.Machine, e: Event)
    requires e.Wrote?
    ensures var x := RelayOne(l.s.att, e);
            Told(l, m1, [e]) == WithQueue(l, m1).(log := l.log + [x], wire := l.wire + PacketsOn(x.channel, x.packets))
  {
    var x := RelayOne(l.s.att, e);
    assert Relay(l.s.att, [e]) == [x] + Relay(l.s.att, []) == [x];
    assert PacketsOf([x]) == PacketsOn(x.channel, x.packets) + PacketsOf([]) == PacketsOn(x.channel, x.packets);
  }

  lemma PumpBegins(l: Live, i: nat, m1: Reentrancy.Machine) returns (l1: Live)
    requires l.stack != [] && l.stack[0].InQueue? && l.m.stack != [] && l.m.stack[0].Pumping?
    requires i == FirstSendable(l.m.q, 0) < |l.m.q.pending| && m1 == Reentrancy.Continue(l.m)
    ensures var x := RelayOne(l.s.att, Wrote(Stamp(l.m.q.pending[i], l.m.stack[0].now)));
            l1 == WithQueue(l, m1).(log := l.log + [x], stack := [Writing(x.channel, x.packets)] + l.stack,
                                    ownerRuns := false)
    ensures l1 == GoOn(l)
  {
    l1 := GoOn(l);
    assert m1.events[|l.m.events|] == Wrote(Stamp(l.m.q.pending[i], l.m.stack[0].now));
  }

  /** The first completion of a frame is made. */
  lemma CompletesOne(l: Live) returns (m1: Reentrancy.Machine)
    requires l.stack != [] && l.stack[0].InQueue? && l.m.stack != []
    requires l.m.stack[0].Completing? && l.m.stack[0].todo != []
    ensures var f := l.m.stack[0];
            var e := Completed(f.todo[0], f.outcome, f.data);
            && m1 == l.m.(stack := [f.(todo := f.todo[1..])] + l.m.stack[1..], ownerRuns := true,
                          events := l.m.events + [e])
            && GoOn(l) == Told(l, m1, [e]).(ownerRuns := true)
  {
    var f := l.m.stack[0];
    var e := Completed(f.todo[0], f.outcome, f.data);
    m1 := Reentrancy.Continue(l.m);
    assert m1.events[|l.m.events|] == e;
    assert Relay(l.s.att, [e]) == [RelayOne(l.s.att, e)];
    assert PacketsOf([RelayOne(l.s.att, e)]) == [] && l.wire + [] == l.wire;
  }

  function AfterFrame(q: State, after: Reentrancy.Afterwards): Outcomes {
    if after.Return? then Outcomes(q, [], true) else Pump(q, after.now)
  }

  lemma {:induction false} CompletingRuns(l: Live) returns (n: nat)
    requires l.stack != [] && l.stack[0].InQueue? && l.m.stack != [] && l.m.stack[0].Completing?
    ensures var f := l.m.stack[0];
            var r := AfterFrame(l.m.q, f.after);
            var qs := Completions(f.todo, f.outcome, f.data) + r.events;
            Steps(l, n) == Return(Told(l, Ended(l.m, r.q, qs), qs), l.stack[1..])
    decreases |l.m.stack[0].todo|
  {
    var m, f := l.m, l.m.stack[0];
    var r := AfterFrame(m.q, f.after);
    if f.todo == [] {
      n := EmptyFrameRuns(l);
      assert [] + r.events == r.events;
    } else {
      var e, rest := Completed(f.todo[0], f.outcome, f.data), Completions(f.todo[1..], f.outcome, f.data);
      var m1 := CompletesOne(l);
      var later := CompletingRuns(GoOn(l));
      n := 1 + later;
      Assoc([e], rest, r.events);
      FrameJoins(l, m1, e, r.q, rest + r.events);
    }
  }

  lemma FrameJoins(l: Live, m1: Reentrancy.Machine, e: Event, q: State, qs: seq<Event>)
    requires l.m.stack != [] && m1.stack != [] && m1.stack[1..] == l.m.stack[1..]
    requires m1.events == l.m.events + [e] && m1.accepted == l.m.accepted
    ensures Told(Told(l, m1, [e]).(ownerRuns := true), Ended(m1, q, qs), qs)
         == Told(l, Ended(l.m, q, [e] + qs), [e] + qs).(ownerRuns := true)
  {
    Assoc(l.m.events, [e], qs);
    ToldOnce(l, e, qs, m1, Ended(m1, q, qs));
  }

  lemma EmptyFrameRuns(l: Live) returns (n: nat)
    requires l.stack != [] && l.stack[0].InQueue? && l.m.stack != []
    requires l.m.stack[0].Completing? && l.m.stack[0].todo == []
    ensures var r := AfterFrame(l.m.q, l.m.stack[0].after);
            Steps(l, n) == Return(Told(l, Ended(l.m, r.q, r.events), r.events), l.stack[1..])
  {
    var m, f, l1 := l.m, l.m.stack[0], GoOn(l);
    if f.after.Return? {
      n := 1;
      assert Steps(l, 1) == Steps(l1, 0);
      assert m.events + [] == m.events;
      ToldNothing(l, Ended(m, m.q, []));
    } else {
      assert l1.m.stack[1..] == m.stack[1..];
      var a := PumpRuns(l1);
      n := 1 + a;
    }
  }

  /** The queue's machine after a call whose callbacks just return. */
  function Asked(opts: Options, m: Reentrancy.Machine, c: Call): Reentrancy.Machine {
    var r := Apply(opts, m.q, c);
    m.(q := r.q, ownerRuns := true, accepted := m.accepted + Accepts(m.q, c), events := m.events + r.events)
  }

  lemma AskRuns(l: Live, c: Call, rest: seq<Work>) returns (n: nat)
    ensures Steps(Ask(l, c, rest), n)
         == Return(Told(l, Asked(l.s.opts, l.m, c), Apply(l.s.opts, l.m.q, c).events), rest)
  {
    if Reentrancy.Pushed(l.s.opts, l.m.q, c) == [] {
      n := 0;
      assert [] + l.m.stack == l.m.stack && l.m.events + [] == l.m.events;
      ToldNothing(l, Asked(l.s.opts, l.m, c));
    } else {
      n := AskFrameRuns(l, c, rest);
    }
  }

  lemma AskFrameRuns(l: Live, c: Call, rest: seq<Work>) returns (n: nat)
    requires Reentrancy.Pushed(l.s.opts, l.m.q, c) != []
    ensures Steps(Ask(l, c, rest), n)
         == Return(Told(l, Asked(l.s.opts, l.m, c), Apply(l.s.opts, l.m.q, c).events), rest)
  {
    var m, l1 := Reentrancy.Begin(l.s.opts, l.m, c), Ask(l, c, rest);
    assert l1.stack[1..] == rest && m.stack[1..] == l.m.stack;
    var r := AskedFrame(l.s.opts, l.m.q, c);
    if m.stack[0].Pumping? {
      n := PumpRuns(l1);
    } else {
      n := CompletingRuns(l1);
    }
    AskEnds(l, c, rest, r.q, r.events);
  }

  lemma AskEnds(l: Live, c: Call, rest: seq<Work>, q: State, qs: seq<Event>)
    requires Reentrancy.Pushed(l.s.opts, l.m.q, c) != []
    requires q == Apply(l.s.opts, l.m.q, c).q && qs == Apply(l.s.opts, l.m.q, c).events
    ensures var l1 := Ask(l, c, rest);
            Return(Told(l1, Ended(l1.m, q, qs), qs), rest) == Return(Told(l, Asked(l.s.opts, l.m, c), qs), rest)
  {
    var m := Reentrancy.Begin(l.s.opts, l.m, c);
    assert m.stack[1..] == l.m.stack;
    assert Ended(m, q, qs) == Asked(l.s.opts, l.m, c);
  }

  /** What the frame of a call does is what the call does. */
  lemma AskedFrame(opts: Options, q: State, c: Call) returns (r: Outcomes)
    requires Reentrancy.Pushed(opts, q, c) != []
    ensures r == Apply(opts, q, c)
    ensures var f := Reentrancy.Pushed(opts, q, c)[0];
            var q1 := Reentrancy.Opening(opts, q, c);
            match f
            case Pumping(now) => r.q == Pump(q1, now).q && r.events == Pump(q1, now).events
            case Completing(todo, outcome, data, after) =>
              var told := Completions(todo, outcome, data);
              if after.Return? then r.q == q1 && r.events == told + []
              else r.q == Pump(q1, after.now).q && r.events == told + Pump(q1, after.now).events
  {
    r := Apply(opts, q, c);
    var f := Reentrancy.Pushed(opts, q, c)[0];
    if f.Completing? {
      var told := Completions(f.todo, f.outcome, f.data);
      assert told + [] == told;
      if |f.todo| == 1 {
        assert f.todo[1..] == [];
        assert told == [Completed(f.todo[0], f.outcome, f.data)];
      }
    }
  }

  // --- Public calls -------------------------------------------------------

  /** From `l` to `l'` the session took the step `r`, and `stack` is left to do. */
  predicate Does(l: Live, l': Live, r: Step, stack: seq<Work>) {
    && l'.s == r.s && l'.m.q == r.s.queue && l'.m.stack == l.m.stack
    && l'.stack == stack && l'.ownerRuns == (stack == [] || !IsCode(stack[0]))
    && l'.log == l.log + r.events && l'.wire == l.wire + PacketsOf(r.events)
  }

  lemma AskDoes(l: Live, c: Call, rest: seq<Work>) returns (n: nat)
    requires l.s.queue == l.m.q
    ensures Does(l, Steps(Ask(l, c, rest), n), OnQueue(l.s, c), rest)
  {
    n := AskRuns(l, c, rest);
  }

  /** Nothing but the session's own fields changes. */
  lemma DoesSilently(l: Live, l': Live)
    requires l'.m == l.m && l'.log == l.log && l'.wire == l.wire && l'.s.queue == l.m.q
    requires l'.ownerRuns == (l'.stack == [] || !IsCode(l'.stack[0]))
    ensures Does(l, l', Step(l'.s, [], true), l'.stack)
  {
    assert l.log + [] == l.log && l.wire + [] == l.wire;
  }

  lemma DoesReport(l: Live, e: Callback, stack: seq<Work>)
    requires l.s.queue == l.m.q && !FromQueue(e) && (stack == [] || !IsCode(stack[0]))
    ensures Does(l, Report(l, e).(stack := stack, ownerRuns := true), Step(l.s, [e], true), stack)
  {
    assert [e][1..] == [] && PacketsOf([e]) == [] && l.wire + [] == l.wire;
  }

  lemma DoesBoth(l: Live, l1: Live, l2: Live, r1: Step, r2: Step, stack1: seq<Work>, stack2: seq<Work>)
    requires Does(l, l1, r1, stack1) && Does(l1, l2, r2, stack2)
    ensures Does(l, l2, r2.(events := r1.events + r2.events), stack2)
  {
    PacketsAppend(r1.events, r2.events);
    Assoc(l.log, r1.events, r2.events);
    Assoc(l.wire, PacketsOf(r1.events), PacketsOf(r2.events));
  }

  /** The owner has control, in a callback or outside. */
  predicate Owned(l: Live) {
    l.ownerRuns && l.s.queue == l.m.q && (l.stack == [] || !IsCode(l.stack[0]))
  }

  /** The session after `op`, by module Session. */
  predicate DoesOp(l: Live, l': Live, op: Op) {
    Does(l, l', Run(l.s, op), l.stack)
  }

  function ReplyCall(l: Live, channel: Channel, message: Octets, now: Time): Call {
    RespondCall(ResponseId(l.s.queue, channel, message), message, now)
  }

  predicate IsReplyTo(l: Live, channel: Channel, message: Octets) {
    HasId(l.s.queue.inFlight, ResponseId(l.s.queue, channel, message))
  }

  lemma ReplyUnfolds(l: Live, channel: Channel, message: Octets, now: Time)
    requires IsReplyTo(l, channel, message)
    ensures var c := ReplyCall(l, channel, message, now);
            var r := OnQueue(l.s, c);
            var f := FoldReply(r.s, message, now);
            && EnterDelivery(l, channel, message, now) == Ask(l, c, [Replied(message, now)] + l.stack)
            && Deliver(l.s, channel, message, now) == Step(f.s, r.events + f.events, true)
  {
    RespondHandles(l.s.queue, ResponseId(l.s.queue, channel, message), message, now);
  }

  lemma ReplyRuns(l: Live, channel: Channel, message: Octets, now: Time) returns (n: nat)
    requires Owned(l) && IsReplyTo(l, channel, message)
    ensures Does(l, Steps(EnterDelivery(l, channel, message, now), n), Deliver(l.s, channel, message, now), l.stack)
  {
    var c, stack := ReplyCall(l, channel, message, now), [Replied(message, now)] + l.stack;
    var l0, r := Ask(l, c, stack), OnQueue(l.s, c);
    ReplyUnfolds(l, channel, message, now);
    var a := AskDoes(l, c, stack);
    var b := FoldRuns(Steps(l0, a), message, now, l.stack);
    n := a + b;
    StepsAdd(l0, a, b);
    DoesBoth(l, Steps(l0, a), Steps(l0, n), r, FoldReply(r.s, message, now), stack, l.stack);
  }

  lemma FoldRuns(l: Live, message: Octets, now: Time, rest: seq<Work>) returns (n: nat)
    requires l.s.queue == l.m.q && l.stack == [Replied(message, now)] + rest
    requires rest == [] || !IsCode(rest[0])
    ensures Does(l, Steps(l, n), FoldReply(l.s, message, now), rest)
  {
    var folded := FoldIn(l, message);
    assert l.stack[1..] == rest;
    if folded.s.readiness.Ready() == l.s.readiness.Ready() {
      n := 1;
      assert Steps(l, 1) == Steps(GoOn(l), 0);
      DoesSilently(l, GoOn(l));
    } else {
      var change := ReadyChanged(folded.s.readiness.Ready());
      var w := ReplyReported(l.s.readiness.Ready(), now);
      var c := ReadyCall(folded.s.readiness.Ready(), now);
      var l1 := Report(folded, change).(stack := [w] + rest, ownerRuns := true);
      assert GoOn(l) == l1;
      var a := MovedGateRuns(l1, rest);
      n := 1 + a;
      assert Steps(l, n) == Steps(l1, a);
      DoesReport(folded, change, [w] + rest);
      DoesBoth(folded, l1, Steps(l1, a), Step(folded.s, [change], true), OnQueue(folded.s, c), [w] + rest, rest);
      DoesFrom(l, folded, Steps(l1, a), rest);
    }
  }

  /** Folding alone is no step. */
  lemma DoesFrom(l: Live, folded: Live, l2: Live, stack: seq<Work>)
    requires folded.m == l.m && folded.log == l.log && folded.wire == l.wire
    ensures forall r :: Does(folded, l2, r, stack) <==> Does(l, l2, r, stack)
  {
  }

  /** The ready callback of the reply path has returned, and the gate follows. */
  lemma MovedGateRuns(l: Live, rest: seq<Work>) returns (n: nat)
    requires l.s.queue == l.m.q && l.stack != [] && l.stack[0].ReplyReported? && l.stack[1..] == rest
    requires l.stack[0].was != l.s.readiness.Ready()
    ensures Does(l, Steps(l, n), OnQueue(l.s, ReadyCall(l.s.readiness.Ready(), l.stack[0].now)), rest)
  {
    var c := ReadyCall(l.s.readiness.Ready(), l.stack[0].now);
    assert GoOn(l) == Ask(l, c, rest);
    var a := AskDoes(l, c, rest);
    n := 1 + a;
    assert Steps(l, n) == Steps(GoOn(l), a);
  }

  lemma PushUnfolds(l: Live, channel: Channel, message: Octets, now: Time)
    requires !IsReplyTo(l, channel, message)
    ensures Deliver(l.s, channel, message, now) == FoldPush(l.s, channel, message, now)
    ensures var folded := FoldIn(l, message);
            EnterDelivery(l, channel, message, now) ==
              if folded.s.readiness.Ready() == l.s.readiness.Ready()
              then Report(folded, Pushed(channel, Query.Parse(message).response, message))
              else Ask(folded, ReadyCall(folded.s.readiness.Ready(), now), [PushGated(channel, message)] + l.stack)
  {
    var id := ResponseId(l.s.queue, channel, message);
    RespondHandles(l.s.queue, id, message, now);
    assert OnQueue(l.s, RespondCall(id, message, now)) == Step(l.s, [], false);
    var f := FoldPush(l.s, channel, message, now);
    assert f == Step(f.s, [] + f.events, true);
  }

  lemma PushRuns(l: Live, channel: Channel, message: Octets, now: Time) returns (n: nat)
    requires Owned(l) && !IsReplyTo(l, channel, message)
    ensures Does(l, Steps(EnterDelivery(l, channel, message, now), n), Deliver(l.s, channel, message, now), l.stack)
  {
    var folded, push := FoldIn(l, message), Pushed(channel, Query.Parse(message).response, message);
    PushUnfolds(l, channel, message, now);
    if folded.s.readiness.Ready() == l.s.readiness.Ready() {
      n := 0;
      DoesReport(folded, push, l.stack);
    } else {
      n := OpeningPushRuns(folded, channel, message, now);
      DoesFrom(l, folded, Steps(EnterDelivery(l, channel, message, now), n), l.stack);
    }
  }

  lemma OpeningPushRuns(l: Live, channel: Channel, message: Octets, now: Time) returns (n: nat)
    requires Owned(l)
    ensures var ready := l.s.readiness.Ready();
            var c := ReadyCall(ready, now);
            var r := OnQueue(l.s, c);
            var push := Pushed(channel, Query.Parse(message).response, message);
            Does(l, Steps(Ask(l, c, [PushGated(channel, message)] + l.stack), n),
                 Step(r.s, r.events + [ReadyChanged(ready)] + [push], true), l.stack)
  {
    var ready, push := l.s.readiness.Ready(), Pushed(channel, Query.Parse(message).response, message);
    var c, stack := ReadyCall(ready, now), [PushGated(channel, message)] + l.stack;
    var stack' := [PushReported(channel, message)] + l.stack;
    var l0, r := Ask(l, c, stack), OnQueue(l.s, c);
    var a := AskDoes(l, c, stack);
    n := a + 2;
    StepsAdd(l0, a, 2);
    GateKeepsReadiness(l.s, c);
    var l1 := Steps(l0, a);
    var l2, l3 := ReportAndPush(l1, channel, message, l.stack);
    DoesBoth(l, l1, l2, r, Step(r.s, [ReadyChanged(ready)], true), stack, stack');
    DoesBoth(l, l2, l3, Step(r.s, r.events + [ReadyChanged(ready)], true), Step(r.s, [push], true), stack', l.stack);
  }

  lemma GateKeepsReadiness(s: Session, c: Call)
    ensures OnQueue(s, c).s.readiness == s.readiness
  {
  }

  /** The two callbacks that end the push path. */
  lemma ReportAndPush(l1: Live, channel: Channel, message: Octets, rest: seq<Work>) returns (l2: Live, l3: Live)
    requires l1.s.queue == l1.m.q && l1.stack == [PushGated(channel, message)] + rest
    requires rest == [] || !IsCode(rest[0])
    ensures l3 == Steps(l1, 2)
    ensures Does(l1, l2, Step(l1.s, [ReadyChanged(l1.s.readiness.Ready())], true),
                 [PushReported(channel, message)] + rest)
    ensures Does(l2, l3, Step(l1.s, [Pushed(channel, Query.Parse(message).response, message)], true), rest)
  {
    assert l1.stack[1..] == rest;
    l2 := GoOn(l1);
    assert l2.stack[1..] == rest;
    l3 := GoOn(l2);
    assert Steps(l1, 2) == Steps(l2, 1) == Steps(l3, 0);
    DoesReport(l1, ReadyChanged(l1.s.readiness.Ready()), [PushReported(channel, message)] + rest);
    DoesReport(l2, Pushed(channel, Query.Parse(message).response, message), rest);
  }

  lemma TickUnfolds(s: Session, now: Time)
    ensures var r := OnQueue(s, TickCall(now));
            DoTick(s, now) == AfterTick(r.s, now).(events := r.events + AfterTick(r.s, now).events, result := true)
  {
    var r := OnQueue(s, TickCall(now));
    assert r.events + [] == r.events;
  }

  lemma TickRuns(l: Live, now: Time) returns (n: nat)
    requires Owned(l)
    ensures Does(l, Steps(EnterOp(l, TickOp(now)), n), DoTick(l.s, now), l.stack)
  {
    var c, stack := TickCall(now), [Ticked(now)] + l.stack;
    var l0, r := Ask(l, c, stack), OnQueue(l.s, c);
    var a := AskDoes(l, c, stack);
    var l1 := Steps(l0, a);
    var b := KeepAliveRuns(l1, now, l.stack);
    n := a + b;
    StepsAdd(l0, a, b);
    TickUnfolds(l.s, now);
    DoesBoth(l, l1, Steps(l1, b), r, AfterTick(r.s, now), stack, l.stack);
  }

  /** What a tick does after the queue's part. */
  function AfterTick(s: Session, now: Time): Step {
    if !s.started then Step(s.(started := true, lastKeepAlive := now), [], true)
    else if !Due(s, now) then Step(s, [], true)
    else OnQueue(s.(lastKeepAlive := now), KeepAliveCall(now))
  }

  lemma KeepAliveRuns(l: Live, now: Time, rest: seq<Work>) returns (n: nat)
    requires l.s.queue == l.m.q && l.stack == [Ticked(now)] + rest
    ensures Does(l, Steps(l, n), AfterTick(l.s, now), rest)
  {
    assert l.stack[1..] == rest;
    var l1 := GoOn(l);
    if Due(l.s, now) {
      var fired := l.(s := l.s.(lastKeepAlive := now));
      assert l1 == Ask(fired, KeepAliveCall(now), rest);
      var a := AskDoes(fired, KeepAliveCall(now), rest);
      n := 1 + a;
      assert Steps(l, n) == Steps(l1, a);
    } else {
      n := 1;
      assert Steps(l, 1) == Steps(l1, 0);
      DoesSilently(l, l1);
    }
  }

  lemma DisconnectRuns(l: Live) returns (n: nat)
    requires Owned(l)
    ensures Does(l, Steps(EnterOp(l, DisconnectOp), n), Disconnect(l.s), l.stack)
  {
    var idle, stack := l.(s := l.s.(rx := ALL_IDLE)), [Cancelling] + l.stack;
    var l0, r := Ask(idle, CancelCall, stack), OnQueue(idle.s, CancelCall);
    var a := AskDoes(idle, CancelCall, stack);
    var l1 := Steps(l0, a);
    var b := ForgettingRuns(l1, l.stack);
    n := a + b;
    StepsAdd(l0, a, b);
    DoesBoth(idle, l1, Steps(l1, b), r, Forgetting(r.s), stack, l.stack);
    CancelKeepsReadiness(idle.s);
    DoesFrom(l, idle, Steps(l0, n), l.stack);
  }

  lemma CancelKeepsReadiness(s: Session)
    ensures OnQueue(s, CancelCall).s.readiness == s.readiness
  {
  }

  /** What a disconnect does after canceling everything. */
  function Forgetting(s: Session): Step {
    var shut := OnQueue(s.(readiness := Query.UNKNOWN), ReadyCall(false, 0)).s;
    Step(shut.(started := false), if s.readiness.Ready() then [ReadyChanged(false)] else [], true)
  }

  lemma ForgettingRuns(l: Live, rest: seq<Work>) returns (n: nat)
    requires l.s.queue == l.m.q && l.stack == [Cancelling] + rest && (rest == [] || !IsCode(rest[0]))
    ensures Does(l, Steps(l, n), Forgetting(l.s), rest)
  {
    assert l.stack[1..] == rest;
    var l1 := GoOn(l);
    ShutsAtOnce(Forget(l), rest);
    if l.s.readiness.Ready() {
      n := 2;
      assert l1.stack[1..] == rest;
      assert Steps(l, 2) == Steps(l1, 1) == Steps(GoOn(l1), 0);
      assert PacketsOf([ReadyChanged(false)]) == [] && l.wire + [] == l.wire;
    } else {
      n := 1;
      assert Steps(l, 1) == Steps(l1, 0);
      assert l.log + [] == l.log && l.wire + [] == l.wire;
    }
  }

  /** Shutting the gate makes no callback. */
  lemma ShutsAtOnce(l: Live, rest: seq<Work>)
    requires l.s.queue == l.m.q
    ensures var shut, r := Ask(l, ReadyCall(false, 0), rest), OnQueue(l.s, ReadyCall(false, 0));
            && shut.s == r.s && shut.m.q == r.s.queue && shut.m.stack == l.m.stack && r.events == []
            && shut == Return(shut, rest) && shut.log == l.log && shut.wire == l.wire
  {
    assert [] + l.m.stack == l.m.stack;
  }

  lemma FeedRuns(l: Live, channel: Channel, packet: Octets, now: Time) returns (n: nat)
    requires Owned(l)
    ensures Does(l, Steps(EnterFeed(l, channel, packet, now), n), Receive(l.s, channel, packet, now), l.stack)
  {
    n := 0;
    if channel >= CHANNEL_COUNT {
      DoesSilently(l, l);
    } else {
      var fed := Feed(l.s.rx[channel], packet);
      if fed.result == Complete {
        var l1 := l.(s := l.s.(rx := l.s.rx[channel := IDLE]));
        if IsReplyTo(l1, channel, fed.rx.buf) {
          n := ReplyRuns(l1, channel, fed.rx.buf, now);
        } else {
          n := PushRuns(l1, channel, fed.rx.buf, now);
        }
        DoesFrom(l, l1, Steps(EnterDelivery(l1, channel, fed.rx.buf, now), n), l.stack);
      } else {
        var l1 := l.(s := l.s.(rx := l.s.rx[channel := fed.rx]));
        if fed.result == NeedMore {
          DoesSilently(l, l1);
        } else {
          DoesReport(l1, FrameFailed(channel, fed.result), l.stack);
        }
      }
    }
  }

  /** A public call whose callbacks just return, at any depth, takes the step of
      module Session: same new state, same callbacks, same packets, and the work
      below it is where it was. */
  lemma OpIsARun(l: Live, op: Op) returns (n: nat)
    requires Owned(l)
    ensures DoesOp(l, Steps(EnterOp(l, op), n), op) && Owned(Steps(EnterOp(l, op), n))
  {
    match op
    case FeedOp(channel, packet, now) => n := FeedRuns(l, channel, packet, now);
    case SubmitOp(channel, payload, priority, now) =>
      if payload == [] {
        n := 0;
        DoesSilently(l, l);
      } else {
        n := AskDoes(l, QueueCalls(l.s, op)[0], l.stack);
      }
    case ProtobufOp(_, _, _, _, _, _) => n := AskDoes(l, QueueCalls(l.s, op)[0], l.stack);
    case TickOp(now) => n := TickRuns(l, now);
    case AttOp(bytes) =>
      n := 0;
      DoesSilently(l, EnterOp(l, op));
    case DisconnectOp => n := DisconnectRuns(l);
  }
}
