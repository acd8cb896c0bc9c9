/** Runs in which callbacks that call back in break what holds otherwise. */
module SessionReentrantExamples {
  import opened Bytes
  import opened Millis
  import opened Sequences
  import opened Correlation
  import opened Framing
  import opened Queue
  import opened QueuePass
  import opened Session
  import opened SessionHistory
  import opened SessionGate
  import opened SessionReentrancy
  import opened SessionReentrantGate
  import opened SessionReentrantReports
  import opened SessionReentrantWire
  import opened SessionReentrantCalls
  import Reentrancy
  import Query

  // --- Reaching a state ---------------------------------------------------

  ghost predicate Reachable(l0: Live, l: Live) {
    exists moves :: Legal(l0, moves) && Execute(l0, moves) == l
  }

  lemma ReachStart(l0: Live)
    ensures Reachable(l0, l0)
  {
    assert Legal(l0, []) && Execute(l0, []) == l0;
  }

  lemma ReachMove(l0: Live, l: Live, move: Move)
    requires Reachable(l0, l) && Enabled(l, move)
    ensures Reachable(l0, Do(l, move))
  {
    var moves :| Legal(l0, moves) && Execute(l0, moves) == l;
    var more := moves + [move];
    assert more[..|more| - 1] == moves;
    assert Legal(l0, more) && Execute(l0, more) == Do(l, move);
  }

  lemma ReachGo(l0: Live, l: Live)
    requires Reachable(l0, l)
    ensures Reachable(l0, GoOn(l))
  {
    ReachMove(l0, l, Go);
  }

  lemma ReachSteps(l0: Live, l: Live, n: nat)
    requires Reachable(l0, l)
    ensures Reachable(l0, Steps(l, n))
  {
    forall y | Reachable(l0, y)
      ensures Reachable(l0, GoOn(y))
    {
      ReachGo(l0, y);
    }
    IterateKeeps(y => Reachable(l0, y), GoOn, l, n);
  }

  lemma ReachTwo(l0: Live, l: Live)
    requires Reachable(l0, l)
    ensures Reachable(l0, GoOn(GoOn(l)))
  {
    ReachGo(l0, l);
    ReachGo(l0, GoOn(l));
  }

  /** A public call whose callbacks just return. */
  lemma ReachOp(l0: Live, l: Live, op: Op) returns (l': Live)
    requires Reachable(l0, l) && Owned(l)
    ensures Reachable(l0, l') && Owned(l') && DoesOp(l, l', op)
  {
    var n := OpIsARun(l, op);
    ReachMove(l0, l, Enter(op));
    ReachSteps(l0, EnterOp(l, op), n);
    l' := Steps(EnterOp(l, op), n);
  }

  // --- An ordinary command after "busy" -----------------------------------

  /** An ordinary command submitted in a callback is the next thing to be sent
      exactly if its id is free, the slot is free, and nothing else is ready to
      go; and the slot is free behind a gate that has not been shut yet. */
  lemma CallbackSendsIff(l: Live, channel: Channel, payload: Octets, now: Time)
    requires Safe(l) && payload != []
    ensures var id := CorrelationOf(channel, payload[0]);
            var e := Entry(id, payload, Queued, id, now, now);
            var l1 := EnterOp(l, SubmitOp(channel, payload, Queued, now));
            GoOn(l1).log == l.log + [RelayOne(l.s.att, Wrote(e))]
            <==> !IsDuplicate(l.m.q, id) && SlotFree(l.m.q) && FirstSendable(l.m.q, 0) == |l.m.q.pending|
  {
    var id := CorrelationOf(channel, payload[0]);
    var e := Entry(id, payload, Queued, id, now, 0);
    var c := SubmitCall(id, payload, Queued, id, now);
    var l1 := EnterOp(l, SubmitOp(channel, payload, Queued, now));
    assert l1 == Ask(l, c, l.stack);
    SubmissionAsked(l, c);
    if IsDuplicate(l.m.q, id) {
      DuplicateSendsNothing(l1, e);
    } else {
      AppendedSendable(l.m.q, e);
      PumpNext(l1, now, e);
    }
  }

  lemma SubmissionAsked(l: Live, c: Call)
    requires c.SubmitCall?
    ensures var l1 := Ask(l, c, l.stack);
            && l1.stack == [InQueue] + l.stack && l1.log == l.log && l1.s.att == l.s.att && l1.m.stack != []
            && if IsDuplicate(l.m.q, c.id)
               then l1.m.stack[0] == Reentrancy.Completing([NewEntry(c)], Rejected, [], Reentrancy.Return)
               else l1.m.stack[0] == Reentrancy.Pumping(c.now) && l1.m.q == Enqueue(l.m.q, NewEntry(c))
  {
  }

  lemma DuplicateSendsNothing(l1: Live, e: Entry)
    requires l1.stack != [] && l1.stack[0].InQueue? && l1.m.stack != []
    requires l1.m.stack[0] == Reentrancy.Completing([e], Rejected, [], Reentrancy.Return)
    ensures forall x: Callback :: x.Sent? ==> GoOn(l1).log != l1.log + [x]
  {
    var m1 := CompletesOne(l1);
    var x := RelayOne(l1.s.att, Completed(e, Rejected, []));
    assert GoOn(l1).log[|l1.log|] == x;
  }

  /** Where an appended ordinary entry stands. */
  lemma AppendedSendable(q: State, e: Entry)
    requires Sound(q) && !IsDuplicate(q, e.id) && e.priority == Queued
    ensures var q1 := Enqueue(q, e);
            var i := FirstSendable(q1, 0);
            && (i < |q1.pending| && q1.pending[i] == e <==> SlotFree(q) && FirstSendable(q, 0) == |q.pending|)
            && q1.pending == q.pending + [e]
  {
    var q1 := Enqueue(q, e);
    assert forall k :: 0 <= k < |q.pending| ==> q1.pending[k] == q.pending[k] && q.pending[k].id != e.id;
    assert q1.pending[|q.pending|] == e;
    assert CanSend(q1, e) <==> SlotFree(q);
    assert forall k :: 0 <= k < |q.pending| ==> (CanSend(q1, q1.pending[k]) <==> CanSend(q, q.pending[k]));
  }

  lemma PumpNext(l1: Live, now: Time, e: Entry)
    requires l1.stack != [] && l1.stack[0].InQueue? && l1.m.stack != [] && l1.m.stack[0] == Reentrancy.Pumping(now)
    requires e in l1.m.q.pending && e.sentAt == 0
    requires forall k :: 0 <= k < |l1.m.q.pending| ==> l1.m.q.pending[k].id == e.id ==> l1.m.q.pending[k] == e
    ensures var i := FirstSendable(l1.m.q, 0);
            GoOn(l1).log == l1.log + [RelayOne(l1.s.att, Wrote(Stamp(e, now)))]
            <==> i < |l1.m.q.pending| && l1.m.q.pending[i] == e
  {
    var i := FirstSendable(l1.m.q, 0);
    if i < |l1.m.q.pending| {
      var m1 := Reentrancy.Continue(l1.m);
      var l2 := PumpBegins(l1, i, m1);
      assert l2.log[|l1.log|] == RelayOne(l1.s.att, Wrote(Stamp(l1.m.q.pending[i], now)));
    } else {
      assert GoOn(l1).log == l1.log;
    }
  }

  function FastQuery(): Op {
    SubmitOp(QUERY, [0x13, 8], Fastpass, 0)
  }

  function BusyFeed(): Op {
    FeedOp(QUERY, [5] + BUSY_REPLY, 0)
  }

  /** The camera is ready, and a fastpass query has gone out. */
  lemma QueryOut(att: nat, interval: nat, opts: Options) returns (l: Live)
    ensures Reachable(Begin(att, interval, opts), l) && AwaitsReply(l)
  {
    var l0 := Begin(att, interval, opts);
    var id := CorrelationOf(QUERY, 0x13);
    var e := Entry(id, [0x13, 8], Fastpass, id, 0, 0);
    ReachStart(l0);
    ReadyAfterPush(l0.s);
    var l1 := ReachOp(l0, l0, AskAndSubmit()[0]);
    assert l1.s.queue == State(true, [], []);
    ExpressAlone(l1.s.queue, e);
    l := ReachOp(l0, l1, FastQuery());
    assert l.s.queue.inFlight == [Stamp(e, 0)];
    assert l.s.queue.inFlight[0].id == id;
  }

  /** The query is in flight alone. */
  predicate AwaitsReply(l: Live) {
    && Owned(l) && l.stack == [] && l.s.rx == ALL_IDLE && l.s.readiness == CLEAR
    && l.s.queue.ready && l.s.queue.pending == [] && |l.s.queue.inFlight| == 1
    && l.s.queue.inFlight[0].id == CorrelationOf(QUERY, 0x13)
  }

  function BusyCall(): Call {
    RespondCall(CorrelationOf(QUERY, 0x13), BUSY_REPLY, 0)
  }

  lemma BusyArrives(l: Live)
    requires AwaitsReply(l)
    ensures EnterOp(l, BusyFeed()) == Ask(l, BusyCall(), [Replied(BUSY_REPLY, 0)])
  {
    OnePacketMessage(IDLE, BUSY_REPLY);
    assert l.s.rx[QUERY := IDLE] == l.s.rx;
    assert HasId(l.s.queue.inFlight, CorrelationOf(QUERY, 0x13));
    assert !HasId(l.s.queue.inFlight, WideId(QUERY, 0x13, 0));
    assert ResponseId(l.s.queue, QUERY, BUSY_REPLY) == CorrelationOf(QUERY, 0x13);
    ReplyUnfolds(l, QUERY, BUSY_REPLY, 0);
    assert [Replied(BUSY_REPLY, 0)] + l.stack == [Replied(BUSY_REPLY, 0)];
  }

  lemma BusyFolds(l: Live)
    requires l.stack == [Replied(BUSY_REPLY, 0)] && l.s.readiness == CLEAR
    ensures var l' := GoOn(l);
            && l'.stack == [ReplyReported(true, 0)] && l'.ownerRuns && !l'.s.readiness.Ready()
            && l'.s.queue == l.s.queue && l'.m == l.m
  {
    BusyReport();
    assert l.stack[1..] == [];
  }

  /** The answer to the query says "busy": its ready callback is running. */
  lemma BusyCallback(att: nat, interval: nat, opts: Options) returns (l: Live)
    ensures Reachable(Begin(att, interval, opts), l) && l.ownerRuns && l.stack == [ReplyReported(true, 0)]
    ensures l.s.queue == State(true, [], []) && l.m.q == l.s.queue && !l.s.readiness.Ready()
  {
    var l0 := Begin(att, interval, opts);
    var l1 := QueryOut(att, interval, opts);
    ReachMove(l0, l1, Enter(BusyFeed()));
    BusyArrives(l1);
    var n := AskDoes(l1, BusyCall(), [Replied(BUSY_REPLY, 0)]);
    var l3 := Steps(EnterOp(l1, BusyFeed()), n);
    ReachSteps(l0, EnterOp(l1, BusyFeed()), n);
    SoleReplyEmpties(l1.s.queue, BusyCall());
    BusyFolds(l3);
    ReachGo(l0, l3);
    l := GoOn(l3);
  }

  lemma SoleReplyEmpties(q: State, c: Call)
    requires q.ready && q.pending == [] && |q.inFlight| == 1 && c.RespondCall? && c.id == q.inFlight[0].id
    ensures Respond(q, c.id, c.data, c.now).q == State(true, [], [])
  {
    assert RemoveAt(q.inFlight, 0) == [];
    assert IndexOf(q.inFlight, c.id) == 0;
    PumpOrdinary(State(true, [], []), c.now);
  }

  /** In that callback, which has just been told "not ready", an ordinary command
      is submitted, and it goes out. */
  lemma BusyCallbackSends(att: nat, interval: nat, opts: Options) returns (l: Live, op: Op)
    ensures Reachable(Begin(att, interval, opts), l) && l.ownerRuns && BusyNotYetShut(l)
    ensures Reachable(Begin(att, interval, opts), EnterOp(l, op))
    ensures BeginsOrdinary(EnterOp(l, op), GoOn(EnterOp(l, op)))
  {
    l := BusyCallback(att, interval, opts);
    op := SubmitOp(COMMAND, [1, 1], Queued, 0);
    ReachMove(Begin(att, interval, opts), l, Enter(op));
    ReachableSafe(att, interval, opts, l);
    FreeSlotSends(l, op);
  }

  lemma ReachableSafe(att: nat, interval: nat, opts: Options, l: Live)
    requires Reachable(Begin(att, interval, opts), l)
    ensures Safe(l)
  {
    var moves :| Legal(Begin(att, interval, opts), moves) && Execute(Begin(att, interval, opts), moves) == l;
    EveryRunSafe(att, interval, opts, moves);
  }

  lemma FreeSlotSends(l: Live, op: Op)
    requires Safe(l) && l.m.q == State(true, [], []) && op == SubmitOp(COMMAND, [1, 1], Queued, 0)
    ensures BeginsOrdinary(EnterOp(l, op), GoOn(EnterOp(l, op)))
  {
    var id := CorrelationOf(COMMAND, 1);
    CallbackSendsIff(l, COMMAND, [1, 1], 0);
    SubmissionAsked(l, SubmitCall(id, [1, 1], Queued, id, 0));
    assert EnterOp(l, op).log == l.log;
  }

  // --- A message in the middle of another ---------------------------------

  /** An express submission on a queue with nothing pending: its message begins
      with the next move. */
  lemma ExpressBegins(l: Live, channel: Channel, payload: Octets) returns (e: Entry)
    requires l.s.queue == l.m.q && l.m.q.pending == [] && payload != []
    requires !HasId(l.m.q.inFlight, CorrelationOf(channel, payload[0]))
    ensures e.payload == payload && e.id == CorrelationOf(channel, payload[0])
    ensures var l1 := EnterOp(l, SubmitOp(channel, payload, Fastpass, 0));
            var l2 := GoOn(l1);
            && l1.stack == [InQueue] + l.stack && l1.log == l.log && l1.wire == l.wire
            && l2.stack == [Writing(channel, Fragments(payload, l.s.att))] + l1.stack && !l2.ownerRuns
            && l2.log == l.log + [Sent(e, channel, Fragments(payload, l.s.att))]
            && l2.m.q == State(l.m.q.ready, [], l.m.q.inFlight + [e]) && l2.s.queue == l2.m.q && l2.s.att == l.s.att
  {
    var id := CorrelationOf(channel, payload[0]);
    e := Entry(id, payload, Fastpass, id, 0, 0);
    var l1 := EnterOp(l, SubmitOp(channel, payload, Fastpass, 0));
    assert l1 == Ask(l, SubmitCall(id, payload, Fastpass, id, 0), l.stack);
    assert l1.m.q.pending == [e] && RemoveAt([e], 0) == [];
    ChannelRecovered(channel, payload[0], 0);
    var l2 := PumpBegins(l1, 0, Reentrancy.Continue(l1.m));
  }

  /** The first of several packets is being written. */
  lemma HalfWritten(att: nat, interval: nat, opts: Options, channel: Channel, data: Octets) returns (l: Live)
    requires Sendable(data, att) && |Fragments(data, att)| > 1
    ensures Reachable(Begin(att, interval, opts), l) && l.ownerRuns && ToWrite(l.stack, channel) != []
    ensures l.s.queue == l.m.q && l.m.q.pending == [] && l.s.att == att
    ensures forall b: Byte :: b != data[0] ==> !HasId(l.m.q.inFlight, CorrelationOf(channel, b))
  {
    var l0, op := Begin(att, interval, opts), SubmitOp(channel, data, Fastpass, 0);
    ReachStart(l0);
    ReachMove(l0, l0, Enter(op));
    ReachTwo(l0, EnterOp(l0, op));
    l := FirstOfSeveral(l0, channel, data);
  }

  lemma FirstOfSeveral(l0: Live, channel: Channel, data: Octets) returns (l: Live)
    requires Sendable(data, l0.s.att) && |Fragments(data, l0.s.att)| > 1
    requires l0.s.queue == l0.m.q && l0.m.q.pending == [] && l0.m.q.inFlight == []
    ensures l == GoOn(GoOn(EnterOp(l0, SubmitOp(channel, data, Fastpass, 0))))
    ensures l.ownerRuns && ToWrite(l.stack, channel) != []
    ensures l.s.queue == l.m.q && l.m.q.pending == [] && l.s.att == l0.s.att
    ensures forall b: Byte :: b != data[0] ==> !HasId(l.m.q.inFlight, CorrelationOf(channel, b))
  {
    var e := ExpressBegins(l0, channel, data);
    l := FirstPacketOut(GoOn(EnterOp(l0, SubmitOp(channel, data, Fastpass, 0))), channel, Fragments(data, l0.s.att));
    assert l.m.q.inFlight == [] + [e] == [e];
  }

  /** In the write callback of the first of several packets another command is
      submitted on the same channel: its message begins in the middle. */
  lemma MessageInterrupted(att: nat, interval: nat, opts: Options, channel: Channel, data: Octets, other: Octets)
    returns (l: Live)
    requires Sendable(data, att) && Sendable(other, att) && |Fragments(data, att)| > 1 && data[0] != other[0]
    ensures Reachable(Begin(att, interval, opts), l) && Interrupts(l, Go, channel)
  {
    var l3 := HalfWritten(att, interval, opts, channel, data);
    var op := SubmitOp(channel, other, Fastpass, 0);
    ReachMove(Begin(att, interval, opts), l3, Enter(op));
    l := EnterOp(l3, op);
    var e' := ExpressBegins(l3, channel, other);
    Push(InQueue, l3.stack);
    assert GoOn(l).log[|l3.log|] == Sent(e', channel, Fragments(other, att));
  }

  lemma FirstPacketOut(l: Live, channel: Channel, packets: seq<Octets>) returns (l': Live)
    requires l.stack != [] && l.stack[0] == Writing(channel, packets) && |packets| > 1
    ensures l' == GoOn(l) && l'.ownerRuns && ToWrite(l'.stack, channel) != []
    ensures l'.m == l.m && l'.s == l.s && l'.log == l.log
    ensures l'.stack == [Writing(channel, packets[1..])] + l.stack[1..]
  {
    l' := GoOn(l);
    Push(Writing(channel, packets[1..]), l.stack[1..]);
  }

  // --- "Not ready" reported twice -----------------------------------------

  const BUSY_PUSH: Octets := [0x93, 0, 8, 1, 1]

  function ReadyFeed(): Op {
    AskAndSubmit()[0]
  }

  /** A command waits behind the shut gate. */
  lemma CommandPending(att: nat, interval: nat, opts: Options) returns (l: Live)
    ensures Reachable(Begin(att, interval, opts), l) && Owned(l) && l.stack == [] && l.m.stack == []
    ensures l.s == Fresh(att, interval, opts).(queue := State(false, [CommandEntry()], []))
    ensures Readies(l.log) == []
  {
    var l0 := Begin(att, interval, opts);
    ReachStart(l0);
    var op := SubmitOp(COMMAND, [1, 1], Queued, 0);
    var q1 := Enqueue(EMPTY, CommandEntry());
    assert q1 == State(false, [CommandEntry()], []);
    PumpOrdinary(q1, 0);
    l := ReachOp(l0, l0, op);
    assert l.log == [];
  }

  /** The camera reports ready. The gate opens, and the command's packet is being
      written; the ready callback has yet to be made. */
  lemma ReleasedByPush(att: nat, interval: nat, opts: Options) returns (l: Live)
    requires att >= MIN_ATT_PAYLOAD
    ensures Reachable(Begin(att, interval, opts), l) && Owned(l) && Readies(l.log) == []
    ensures l.stack == [Writing(COMMAND, []), InQueue, PushGated(QUERY, READY_PUSH)]
    ensures l.m.stack == [Reentrancy.Pumping(0)]
    ensures l.s == Fresh(att, interval, opts).(queue := State(true, [], [CommandEntry()]), readiness := CLEAR)
  {
    var l0 := Begin(att, interval, opts);
    var l1 := CommandPending(att, interval, opts);
    var l2 := PushArrives(l1);
    ReachMove(l0, l1, Enter(ReadyFeed()));
    ReachTwo(l0, l2);
    l := CommandReleased(l2);
  }

  lemma CommandReleased(l: Live) returns (l': Live)
    requires l.stack == [InQueue, PushGated(QUERY, READY_PUSH)] && l.m.stack == [Reentrancy.Pumping(0)]
    requires l.m.q == State(true, [CommandEntry()], []) && FirstSendable(l.m.q, 0) == 0 && l.s.queue == l.m.q
    requires l.s.att >= MIN_ATT_PAYLOAD
    ensures l' == GoOn(GoOn(l)) && Owned(l') && Readies(l'.log) == Readies(l.log)
    ensures l'.stack == [Writing(COMMAND, [])] + l.stack && l'.m.stack == l.m.stack
    ensures l'.s == l.s.(queue := State(true, [], [CommandEntry()]))
  {
    var x := RelayOne(l.s.att, Wrote(CommandEntry()));
    ChannelRecovered(COMMAND, 1, 0);
    var l1 := PumpBegins(l, 0, Reentrancy.Continue(l.m));
    assert l1.stack[1..] == l.stack;
    LogAppended(l.log, x);
    OnePacketCommand(l.s.att);
    assert RemoveAt([CommandEntry()], 0) == [] && [] + [CommandEntry()] == [CommandEntry()];
    l' := GoOn(l1);
  }

  lemma OnePacketCommand(att: nat)
    requires att >= MIN_ATT_PAYLOAD
    ensures |Fragments([1, 1], att)| == 1
  {
    var data: Octets := [1, 1];
    assert data[2..] == [];
    assert Fragments(data, att) == [FirstHeader(2) + data[..2]] + Continuations(data[2..], att - 1);
  }

  lemma PushArrives(l: Live) returns (l': Live)
    requires Owned(l) && l.stack == [] && l.m.stack == [] && l.s.rx == ALL_IDLE
    requires l.s.readiness == Query.UNKNOWN && l.s.queue == State(false, [CommandEntry()], [])
    ensures l' == EnterOp(l, ReadyFeed())
    ensures l'.stack == [InQueue, PushGated(QUERY, READY_PUSH)] && l'.m.stack == [Reentrancy.Pumping(0)]
    ensures l'.s == l.s.(queue := State(true, [CommandEntry()], []), readiness := CLEAR) && l'.m.q == l'.s.queue
    ensures l'.log == l.log && FirstSendable(l'.m.q, 0) == 0
  {
    OnePacketMessage(IDLE, READY_PUSH);
    assert l.s.rx[QUERY := IDLE] == l.s.rx;
    ReadyReport();
    PushUnfolds(l, QUERY, READY_PUSH, 0);
    l' := EnterOp(l, ReadyFeed());
    assert [PushGated(QUERY, READY_PUSH)] + l.stack == [PushGated(QUERY, READY_PUSH)];
    assert CanSend(l'.m.q, CommandEntry());
  }

  /** In the write callback a push says "busy": that is reported at once, and
      the earlier push then reports what has become of readiness. */
  lemma NotReadyTwice(att: nat, interval: nat, opts: Options) returns (l: Live)
    requires att >= MIN_ATT_PAYLOAD
    ensures Reachable(Begin(att, interval, opts), l) && l.ownerRuns && Readies(l.log) == [false, false]
  {
    var l0 := Begin(att, interval, opts);
    var l4 := ReleasedByPush(att, interval, opts);
    var op := FeedOp(QUERY, [5] + BUSY_PUSH, 0);
    var l5 := ReachOp(l0, l4, op);
    BusyPushArrives(l4.s);
    OpReportsChange(l4.s, op);
    ReadiesAppend(l4.log, Run(l4.s, op).events);
    assert Readies(l5.log) == [false];
    l := OuterPushReports(l5);
    ReachSteps(l0, l5, 3);
  }

  lemma BusyPushArrives(s: Session)
    requires s.rx == ALL_IDLE && s.readiness == CLEAR && s.queue == State(true, [], [CommandEntry()])
    ensures var r := Run(s, FeedOp(QUERY, [5] + BUSY_PUSH, 0)).s;
            !r.readiness.Ready() && r.queue == State(false, [], [CommandEntry()])
  {
    OnePacketMessage(IDLE, BUSY_PUSH);
    assert s.(rx := s.rx[QUERY := IDLE]) == s by {
      assert ALL_IDLE[QUERY := IDLE] == ALL_IDLE;
    }
    assert Run(s, FeedOp(QUERY, [5] + BUSY_PUSH, 0)) == Deliver(s, QUERY, BUSY_PUSH, 0);
    PushShutsGate(s);
  }

  lemma PushShutsGate(s: Session)
    requires s.readiness == CLEAR && s.queue == State(true, [], [CommandEntry()])
    ensures var r := Deliver(s, QUERY, BUSY_PUSH, 0).s;
            !r.readiness.Ready() && r.queue == State(false, [], [CommandEntry()])
  {
    BusyPushReport();
    var id := ResponseId(s.queue, QUERY, BUSY_PUSH);
    assert !HasId(s.queue.inFlight, id);
    RespondHandles(s.queue, id, BUSY_PUSH, 0);
  }

  lemma BusyPushReport()
    ensures !Query.FoldMessage(CLEAR, BUSY_PUSH).Ready()
  {
    var e := Query.Entry(8, [1]);
    var r := Query.Response(0x93, 0, [e]);
    assert Query.PrintEntries([e]) == [8, 1, 1] by {
      assert [e][1..] == [];
    }
    assert BUSY_PUSH == Query.Print(r);
    Query.ParseOkIff(BUSY_PUSH, r);
    var one: Octets := [1];
    assert one[..0] == [];
    assert BigEndian(one) == 1;
  }

  lemma OuterPushReports(l: Live) returns (l': Live)
    requires l.stack == [Writing(COMMAND, []), InQueue, PushGated(QUERY, READY_PUSH)]
    requires l.m.stack == [Reentrancy.Pumping(0)] && l.m.q.pending == [] && l.s.queue == l.m.q
    requires !l.s.readiness.Ready() && Readies(l.log) == [false]
    ensures l' == Steps(l, 3) && l'.ownerRuns && Readies(l'.log) == [false, false]
  {
    var l1 := GoOn(l);
    assert l1.stack == [InQueue, PushGated(QUERY, READY_PUSH)];
    var l2 := GoOn(l1);
    assert l2.stack == [PushGated(QUERY, READY_PUSH)] && l2.log == l.log && l2.s.readiness == l.s.readiness;
    l' := GoOn(l2);
    LogAppended(l.log, ReadyChanged(false));
    assert Steps(l, 3) == Steps(l1, 2) == Steps(l2, 1) == Steps(l', 0);
  }
}
