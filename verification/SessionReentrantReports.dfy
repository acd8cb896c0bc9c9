/** The ready callback when callbacks call back into the session: its reports
    alternate exactly as long as none is overtaken. */
module SessionReentrantReports {
  import opened Bytes
  import opened Millis
  import opened Correlation
  import opened Framing
  import opened Queue
  import opened Session
  import opened SessionHistory
  import opened SessionGate
  import opened SessionReentrancy
  import Reentrancy
  import Query

  /** How many pushes have changed readiness and not yet reported it: their call
      of the gate, and whatever that releases, comes first. */
  function Unreported(stack: seq<Work>): nat {
    if stack == [] then 0 else (if stack[0].PushGated? then 1 else 0) + Unreported(stack[1..])
  }

  /** A move changes readiness while an earlier change is still unreported. */
  predicate Overtakes(l: Live, move: Move) {
    Unreported(l.stack) > 0 && Do(l, move).s.readiness.Ready() != l.s.readiness.Ready()
  }

  predicate NeverOvertaken(l: Live, moves: seq<Move>) {
    moves == []
    || (&& NeverOvertaken(l, moves[..|moves| - 1])
        && !Overtakes(Execute(l, moves[..|moves| - 1]), moves[|moves| - 1]))
  }

  /** The push is about to report, and nobody else can act before that. */
  predicate Reporting(l: Live) {
    l.stack != [] && l.stack[0].PushGated? && !l.ownerRuns
  }

  // --- What a move does to readiness and its reports ----------------------

  predicate Silent(l: Live, l': Live) {
    && l'.s.readiness.Ready() == l.s.readiness.Ready() && Readies(l'.log) == Readies(l.log)
    && Unreported(l'.stack) == Unreported(l.stack)
  }

  predicate PushFolds(l: Live, l': Live) {
    && l'.s.readiness.Ready() != l.s.readiness.Ready() && Readies(l'.log) == Readies(l.log)
    && Unreported(l'.stack) == Unreported(l.stack) + 1
    && (!l'.s.readiness.Ready() ==> Reporting(l'))
  }

  predicate PushReports(l: Live, l': Live) {
    && l'.s.readiness.Ready() == l.s.readiness.Ready()
    && Readies(l'.log) == Readies(l.log) + [l.s.readiness.Ready()]
    && Unreported(l'.stack) + 1 == Unreported(l.stack)
  }

  predicate ReportsNow(l: Live, l': Live) {
    && l'.s.readiness.Ready() != l.s.readiness.Ready()
    && Readies(l'.log) == Readies(l.log) + [l'.s.readiness.Ready()]
    && Unreported(l'.stack) == Unreported(l.stack)
  }

  predicate Effect(l: Live, l': Live) {
    Silent(l, l') || PushFolds(l, l') || ReportsNow(l, l')
  }

  lemma MoveEffect(l: Live, move: Move)
    requires Enabled(l, move)
    ensures if Reporting(l) then PushReports(l, Do(l, move)) else Effect(l, Do(l, move)) || PushReports(l, Do(l, move))
  {
    match move
    case Enter(op) => EnterEffect(l, op);
    case Go =>
      if l.stack != [] {
        GoEffect(l);
      }
  }

  lemma LogAppended(log: seq<Callback>, e: Callback)
    ensures Readies(log + [e]) == if e.ReadyChanged? then Readies(log) + [e.ready] else Readies(log)
  {
    ReadiesAppend(log, [e]);
    assert [e][1..] == [] && Readies(log) + [] == Readies(log);
  }

  lemma OneMore(w: Work, rest: seq<Work>)
    ensures Unreported([w] + rest) == (if w.PushGated? then 1 else 0) + Unreported(rest)
  {
    assert ([w] + rest)[1..] == rest;
  }

  lemma AskEffect(l: Live, c: Call, rest: seq<Work>)
    ensures var l' := Ask(l, c, rest);
            && l'.s.readiness == l.s.readiness && l'.log == l.log
            && Unreported(l'.stack) == Unreported(rest)
  {
    OneMore(InQueue, rest);
  }

  lemma EnterEffect(l: Live, op: Op)
    ensures Effect(l, EnterOp(l, op))
  {
    match op
    case FeedOp(channel, packet, now) => FeedEffect(l, channel, packet, now);
    case SubmitOp(channel, payload, priority, now) =>
      if payload != [] {
        var id := CorrelationOf(channel, payload[0]);
        AskEffect(l, SubmitCall(id, payload, priority, id, now), l.stack);
      }
    case ProtobufOp(channel, feature, action, message, priority, now) =>
      var id := CorrelationOfProtobuf(channel, feature, action);
      AskEffect(l, SubmitCall(id, [feature, action] + message, priority, id, now), l.stack);
    case TickOp(now) =>
      OneMore(Ticked(now), l.stack);
      AskEffect(l, TickCall(now), [Ticked(now)] + l.stack);
    case AttOp(_) =>
    case DisconnectOp =>
      OneMore(Cancelling, l.stack);
      AskEffect(l.(s := l.s.(rx := ALL_IDLE)), CancelCall, [Cancelling] + l.stack);
  }

  lemma FeedEffect(l: Live, channel: Channel, packet: Octets, now: Time)
    ensures Effect(l, EnterFeed(l, channel, packet, now))
  {
    if channel < CHANNEL_COUNT {
      var fed := Feed(l.s.rx[channel], packet);
      if fed.result == Complete {
        DeliveryEffect(l.(s := l.s.(rx := l.s.rx[channel := IDLE])), channel, fed.rx.buf, now);
      } else {
        LogAppended(l.log, FrameFailed(channel, fed.result));
      }
    }
  }

  lemma DeliveryEffect(l: Live, channel: Channel, message: Octets, now: Time)
    ensures Effect(l, EnterDelivery(l, channel, message, now))
  {
    var id := ResponseId(l.s.queue, channel, message);
    var folded := FoldIn(l, message);
    OneMore(Replied(message, now), l.stack);
    AskEffect(l, RespondCall(id, message, now), [Replied(message, now)] + l.stack);
    OneMore(PushGated(channel, message), l.stack);
    AskEffect(folded, ReadyCall(folded.s.readiness.Ready(), now), [PushGated(channel, message)] + l.stack);
    LogAppended(l.log, Pushed(channel, Query.Parse(message).response, message));
  }

  lemma GoEffect(l: Live)
    requires l.stack != []
    ensures if l.stack[0].PushGated? then PushReports(l, GoOn(l)) else Effect(l, GoOn(l))
  {
    var w, rest := l.stack[0], l.stack[1..];
    OneMore(w, rest);
    if w.InQueue? {
      QueueEffect(l);
    } else if w.Writing? {
      OneMore(Writing(w.channel, if w.todo == [] then [] else w.todo[1..]), rest);
    } else {
      CodeEffect(l, w, rest);
    }
  }

  lemma QueueEffect(l: Live)
    requires l.stack != [] && l.stack[0].InQueue?
    ensures Silent(l, GoQueue(l))
  {
    var m := Reentrancy.Continue(l.m);
    OneMore(InQueue, l.stack[1..]);
    if |m.events| > |l.m.events| {
      var e := m.events[|l.m.events|];
      LogAppended(l.log, RelayOne(l.s.att, e));
      if e.Wrote? {
        OneMore(Writing(ChannelOf(e.entry.id), Fragments(e.entry.payload, l.s.att)), l.stack);
      }
    }
  }

  lemma CodeEffect(l: Live, w: Work, rest: seq<Work>)
    requires l.stack == [w] + rest && !w.InQueue? && !w.Writing?
    ensures if w.PushGated? then PushReports(l, GoCode(l, w, rest)) else Effect(l, GoCode(l, w, rest))
  {
    OneMore(w, rest);
    if IsReport(w) {
      ReportEffect(l, w, rest);
    } else {
      match w
      case Replied(message, now) =>
        LogAppended(l.log, ReadyChanged(FoldIn(l, message).s.readiness.Ready()));
        OneMore(ReplyReported(l.s.readiness.Ready(), now), rest);
      case Ticked(now) => AskEffect(l.(s := l.s.(lastKeepAlive := now)), KeepAliveCall(now), rest);
      case Cancelling =>
        AskEffect(Forget(l), ReadyCall(false, 0), rest);
        LogAppended(l.log, ReadyChanged(false));
        OneMore(DropReported, rest);
      case DropReported =>
    }
  }

  lemma ReportEffect(l: Live, w: Work, rest: seq<Work>)
    requires l.stack == [w] + rest && IsReport(w)
    ensures if w.PushGated? then PushReports(l, GoReport(l, w, rest)) else Silent(l, GoReport(l, w, rest))
  {
    OneMore(w, rest);
    match w
    case ReplyReported(_, now) => AskEffect(l, ReadyCall(l.s.readiness.Ready(), now), rest);
    case PushGated(channel, message) =>
      LogAppended(l.log, ReadyChanged(l.s.readiness.Ready()));
      OneMore(PushReported(channel, message), rest);
    case PushReported(channel, message) =>
      LogAppended(l.log, Pushed(channel, Query.Parse(message).response, message));
  }

  // --- Alternation --------------------------------------------------------

  /** true, false, true, ... */
  predicate Proper(reports: seq<bool>) {
    forall k :: 0 <= k < |reports| ==> reports[k] == (k % 2 == 0)
  }

  /** The reports alternate so far; an outstanding one will carry on. */
  predicate Orderly(l: Live) {
    var reports, ready := Readies(l.log), l.s.readiness.Ready();
    if Unreported(l.stack) == 0 then Alternates(reports, ready)
    else Unreported(l.stack) == 1 && Alternates(reports, !ready) && (!ready ==> Reporting(l))
  }

  /** The reports no longer alternate, or the next one, which nothing can
      prevent, breaks the order. */
  predicate Broken(l: Live) {
    || !Proper(Readies(l.log))
    || (Reporting(l) && !l.s.readiness.Ready() && |Readies(l.log)| % 2 == 0)
  }

  lemma OrderlyStays(l: Live, l': Live)
    requires Orderly(l) && (Effect(l, l') || PushReports(l, l'))
    requires Unreported(l.stack) == 0 || l'.s.readiness.Ready() == l.s.readiness.Ready()
    requires Reporting(l) ==> PushReports(l, l')
    ensures Orderly(l')
  {
  }

  lemma OrderlyBreaks(l: Live, l': Live)
    requires Orderly(l) && (Effect(l, l') || PushReports(l, l')) && (Reporting(l) ==> PushReports(l, l'))
    requires Unreported(l.stack) > 0 && l'.s.readiness.Ready() != l.s.readiness.Ready()
    ensures Broken(l')
  {
    if ReportsNow(l, l') {
      var k := |Readies(l.log)|;
      assert Readies(l'.log)[k] == false;
    }
  }

  lemma BrokenStays(l: Live, l': Live)
    requires Broken(l) && (Effect(l, l') || PushReports(l, l')) && (Reporting(l) ==> PushReports(l, l'))
    ensures Broken(l')
  {
    var k := |Readies(l.log)|;
    assert Readies(l'.log)[..k] == Readies(l.log);
    if !Proper(Readies(l.log)) {
      var j :| 0 <= j < k && Readies(l.log)[j] != (j % 2 == 0);
      assert Readies(l'.log)[j] == Readies(l.log)[j];
    } else {
      assert Readies(l'.log)[k] == false;
    }
  }

  lemma {:induction false} RunOrderly(att: nat, interval: nat, opts: Options, moves: seq<Move>)
    requires Legal(Begin(att, interval, opts), moves)
    ensures var l := Execute(Begin(att, interval, opts), moves);
            if NeverOvertaken(Begin(att, interval, opts), moves) then Orderly(l) else Broken(l)
  {
    if moves != [] {
      var front, move := moves[..|moves| - 1], moves[|moves| - 1];
      var l := Execute(Begin(att, interval, opts), front);
      RunOrderly(att, interval, opts, front);
      MoveEffect(l, move);
      if !NeverOvertaken(Begin(att, interval, opts), front) {
        BrokenStays(l, Do(l, move));
      } else if Overtakes(l, move) {
        OrderlyBreaks(l, Do(l, move));
      } else {
        OrderlyStays(l, Do(l, move));
      }
    }
  }

  /** Whenever the owner has control, whatever callbacks have done: the reports
      made so far alternate, beginning with true, if and only if readiness never
      changed between a push's change of it and the report of that change. */
  lemma ReportsAlternateIff(att: nat, interval: nat, opts: Options, moves: seq<Move>)
    requires Legal(Begin(att, interval, opts), moves)
    requires Execute(Begin(att, interval, opts), moves).ownerRuns
    ensures Proper(Readies(Execute(Begin(att, interval, opts), moves).log))
       <==> NeverOvertaken(Begin(att, interval, opts), moves)
  {
    RunOrderly(att, interval, opts, moves);
  }
}
