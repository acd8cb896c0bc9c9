/** Gate and readiness when callbacks call back into the session: exactly where
    the guarantees of module SessionGate end. */
module SessionReentrantGate {
  import opened Bytes
  import opened Millis
  import opened Correlation
  import opened Framing
  import opened Queue
  import opened Session
  import opened SessionHistory
  import opened SessionReentrancy
  import Reentrancy
  import Query

  // --- The gate and readiness ---------------------------------------------

  /** The innermost ready callback of the reply path that has not returned: the
      readiness from before its report. */
  function InnermostReport(stack: seq<Work>): Query.Option<bool> {
    if stack == [] then Query.None
    else if stack[0].ReplyReported? then Query.Some(stack[0].was)
    else InnermostReport(stack[1..])
  }

  predicate Matched(l: Live) {
    l.s.queue.ready == l.s.readiness.Ready()
  }

  /** The queue's gate is readiness, unless a reply's report of a change is being
      made and the change still stands. */
  predicate Gated(l: Live) {
    var report := InnermostReport(l.stack);
    report == Query.None || report == Query.Some(l.s.readiness.Ready()) ==> Matched(l)
  }

  /** Readiness is what the messages folded in say. */
  predicate Accounted(l: Live) {
    l.s.readiness == Query.Justified(l.folded)
  }

  lemma ContinueKeepsGate(m: Reentrancy.Machine)
    ensures Reentrancy.Continue(m).q.ready == m.q.ready
  {
  }

  lemma AskMovesGate(l: Live, c: Call, rest: seq<Work>)
    ensures var l' := Ask(l, c, rest);
            && l'.s.queue.ready == (if c.ReadyCall? then c.ready else l.m.q.ready)
            && l'.s.readiness == l.s.readiness && l'.folded == l.folded
            && InnermostReport(l'.stack) == InnermostReport(rest)
            && l'.log == l.log
  {
    assert ([InQueue] + rest)[1..] == rest;
  }

  lemma PushWork(w: Work, rest: seq<Work>)
    ensures ([w] + rest)[1..] == rest
    ensures InnermostReport([w] + rest) == if w.ReplyReported? then Query.Some(w.was) else InnermostReport(rest)
  {
    assert ([w] + rest)[1..] == rest;
  }

  lemma EnterGated(l: Live, op: Op)
    requires Safe(l) && Gated(l) && Accounted(l)
    ensures Gated(EnterOp(l, op)) && Accounted(EnterOp(l, op))
  {
    match op
    case FeedOp(channel, packet, now) =>
      if channel < CHANNEL_COUNT {
        var fed := Feed(l.s.rx[channel], packet);
        if fed.result == Complete {
          DeliveryGated(l.(s := l.s.(rx := l.s.rx[channel := IDLE])), channel, fed.rx.buf, now);
        }
      }
    case SubmitOp(channel, payload, priority, now) =>
      if payload != [] {
        var id := CorrelationOf(channel, payload[0]);
        AskMovesGate(l, SubmitCall(id, payload, priority, id, now), l.stack);
      }
    case ProtobufOp(channel, feature, action, message, priority, now) =>
      var id := CorrelationOfProtobuf(channel, feature, action);
      AskMovesGate(l, SubmitCall(id, [feature, action] + message, priority, id, now), l.stack);
    case TickOp(now) =>
      PushWork(Ticked(now), l.stack);
      AskMovesGate(l, TickCall(now), [Ticked(now)] + l.stack);
    case AttOp(_) =>
    case DisconnectOp =>
      PushWork(Cancelling, l.stack);
      AskMovesGate(l.(s := l.s.(rx := ALL_IDLE)), CancelCall, [Cancelling] + l.stack);
  }

  lemma DeliveryGated(l: Live, channel: Channel, message: Octets, now: Time)
    requires Safe(l) && Gated(l) && Accounted(l)
    ensures Gated(EnterDelivery(l, channel, message, now)) && Accounted(EnterDelivery(l, channel, message, now))
  {
    var folded := FoldIn(l, message);
    Query.FoldIsLatest(l.folded, message);
    PushWork(Replied(message, now), l.stack);
    var id := ResponseId(l.s.queue, channel, message);
    AskMovesGate(l, RespondCall(id, message, now), [Replied(message, now)] + l.stack);
    PushWork(PushGated(channel, message), l.stack);
    AskMovesGate(folded, ReadyCall(folded.s.readiness.Ready(), now), [PushGated(channel, message)] + l.stack);
  }

  lemma GoGated(l: Live)
    requires Safe(l) && Gated(l) && Accounted(l)
    ensures Gated(GoOn(l)) && Accounted(GoOn(l))
  {
    if l.stack != [] {
      var w, rest := l.stack[0], l.stack[1..];
      if w.InQueue? {
        QueueGated(l);
      } else if w.Writing? {
        WritingGated(l, w, rest);
      } else {
        CodeGated(l, w, rest);
      }
    }
  }

  lemma WritingGated(l: Live, w: Work, rest: seq<Work>)
    requires Gated(l) && Accounted(l) && w.Writing? && l.stack == [w] + rest
    ensures var l' := GoWriting(l, w.channel, w.todo, rest); Gated(l') && Accounted(l')
  {
    PushWork(w, rest);
    if w.todo != [] {
      PushWork(Writing(w.channel, w.todo[1..]), rest);
    }
  }

  lemma CodeGated(l: Live, w: Work, rest: seq<Work>)
    requires Safe(l) && Gated(l) && Accounted(l) && !w.InQueue? && !w.Writing? && l.stack == [w] + rest
    ensures Gated(GoCode(l, w, rest)) && Accounted(GoCode(l, w, rest))
  {
    PushWork(w, rest);
    if IsReport(w) {
      ReportGated(l, w, rest);
    } else {
      match w
      case Replied(message, now) => RepliedGated(l, message, now, rest);
      case Ticked(now) => AskMovesGate(l.(s := l.s.(lastKeepAlive := now)), KeepAliveCall(now), rest);
      case Cancelling =>
        AskMovesGate(Forget(l), ReadyCall(false, 0), rest);
        PushWork(DropReported, rest);
      case DropReported =>
    }
  }

  lemma RepliedGated(l: Live, message: Octets, now: Time, rest: seq<Work>)
    requires Gated(l) && Accounted(l) && l.stack == [Replied(message, now)] + rest
    ensures var l' := GoReplied(l, message, now, rest); Gated(l') && Accounted(l')
  {
    Query.FoldIsLatest(l.folded, message);
    PushWork(Replied(message, now), rest);
    PushWork(ReplyReported(l.s.readiness.Ready(), now), rest);
  }

  lemma ReportGated(l: Live, w: Work, rest: seq<Work>)
    requires Safe(l) && Gated(l) && Accounted(l) && l.stack == [w] + rest
    requires IsReport(w)
    ensures Gated(GoReport(l, w, rest)) && Accounted(GoReport(l, w, rest))
  {
    PushWork(w, rest);
    match w
    case ReplyReported(_, now) => AskMovesGate(l, ReadyCall(l.s.readiness.Ready(), now), rest);
    case PushGated(channel, message) => PushWork(PushReported(channel, message), rest);
    case PushReported(_, _) =>
  }

  lemma QueueGated(l: Live)
    requires Safe(l) && Gated(l) && Accounted(l) && l.stack != [] && l.stack[0].InQueue?
    ensures Gated(GoQueue(l)) && Accounted(GoQueue(l))
  {
    var m := Reentrancy.Continue(l.m);
    ContinueKeepsGate(l.m);
    if |m.events| > |l.m.events| {
      var e := m.events[|l.m.events|];
      if e.Wrote? {
        PushWork(Writing(ChannelOf(e.entry.id), Fragments(e.entry.payload, l.s.att)), l.stack);
      }
    }
  }

  /** In every state of every run, whatever callbacks do. */
  lemma {:induction false} GateUnlessReporting(att: nat, interval: nat, opts: Options, moves: seq<Move>)
    requires Legal(Begin(att, interval, opts), moves)
    ensures var l := Execute(Begin(att, interval, opts), moves);
            Safe(l) && Gated(l) && Accounted(l)
  {
    EveryRunSafe(att, interval, opts, moves);
    if moves != [] {
      var front, move := moves[..|moves| - 1], moves[|moves| - 1];
      GateUnlessReporting(att, interval, opts, front);
      if move.Enter? {
        EnterGated(Execute(Begin(att, interval, opts), front), move.op);
      } else {
        GoGated(Execute(Begin(att, interval, opts), front));
      }
    }
  }

  // --- Ordinary commands --------------------------------------------------

  /** Whether the last callback of `after`, made since `before`, begins to send
      an ordinary command. */
  predicate BeginsOrdinary(before: Live, after: Live) {
    && |after.log| > |before.log|
    && after.log[|after.log| - 1].Sent? && after.log[|after.log| - 1].entry.priority == Queued
  }

  /** Inside the ready callback of a reply that made the session busy, before
      the gate has been shut. */
  predicate BusyNotYetShut(l: Live) {
    InnermostReport(l.stack) == Query.Some(true) && !l.s.readiness.Ready()
  }

  /** However callbacks call back in, an ordinary command is written only if the
      messages folded in so far report neither busy nor encoding, or inside the
      ready callback of a reply that has just ended that. */
  lemma ReentrantGateSafety(att: nat, interval: nat, opts: Options, moves: seq<Move>, move: Move)
    requires Legal(Begin(att, interval, opts), moves + [move])
    ensures var l := Execute(Begin(att, interval, opts), moves);
            BeginsOrdinary(l, Do(l, move)) ==> Query.ReportedClear(l.folded) || BusyNotYetShut(l)
  {
    var l := Execute(Begin(att, interval, opts), moves);
    assert (moves + [move])[..|moves + [move]| - 1] == moves;
    GateUnlessReporting(att, interval, opts, moves);
    if BeginsOrdinary(l, Do(l, move)) {
      OnlyAnOpenQueueSends(l, move);
      OpenAndGated(l);
    }
  }

  lemma OpenAndGated(l: Live)
    requires Gated(l) && Accounted(l) && l.s.queue.ready
    ensures Query.ReportedClear(l.folded) || BusyNotYetShut(l)
  {
    assert l.s.readiness.Ready() == Query.ReportedClear(l.folded);
    match InnermostReport(l.stack)
    case None =>
    case Some(was) =>
  }

  lemma OnlyAnOpenQueueSends(l: Live, move: Move)
    requires Safe(l) && BeginsOrdinary(l, Do(l, move))
    ensures l.s.queue.ready
  {
    if move.Enter? {
      EnterSendsNothing(l, move.op);
    } else if l.stack != [] && l.stack[0].InQueue? {
      QueueSendsIfOpen(l);
    } else {
      OtherWorkSendsNothing(l);
    }
  }

  lemma EnterSendsNothing(l: Live, op: Op)
    ensures !BeginsOrdinary(l, EnterOp(l, op))
  {
  }

  lemma OtherWorkSendsNothing(l: Live)
    requires l.stack == [] || !l.stack[0].InQueue?
    ensures !BeginsOrdinary(l, GoOn(l))
  {
  }

  lemma QueueSendsIfOpen(l: Live)
    requires Safe(l) && l.stack != [] && BeginsOrdinary(l, GoQueue(l))
    ensures l.s.queue.ready
  {
    OneEvent(l.m);
  }
}
