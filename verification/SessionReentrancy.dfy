/** The session when callbacks call back in.

    A callback of the session, the write of a single packet included, may make
    any public call on it, at any depth, before it returns. A `Live` session is
    the session together with the work that is still on the stack, and a move
    either makes a call or lets the innermost work run on to the next callback
    or to its end. The queue inside is the machine of module Reentrancy. */
module SessionReentrancy {
  import opened Bytes
  import opened Millis
  import opened Framing
  import opened Correlation
  import opened Queue
  import opened Session
  import opened SessionHistory
  import Reentrancy
  import Query

  /** What a public call has left to do. */
  datatype Work =
    | InQueue                                                  // the queue's innermost call
    | Writing(channel: Channel, todo: seq<Octets>)             // the write lambda, between packets
    | Replied(message: Octets, now: Time)                      // then fold the reply in
    | ReplyReported(was: bool, now: Time)                      // then move the gate, if still needed
    | PushGated(channel: Channel, message: Octets)             // then report readiness
    | PushReported(channel: Channel, message: Octets)          // then report the push
    | Ticked(now: Time)                                        // then see to the keep-alive
    | Cancelling                                               // then forget readiness
    | DropReported                                             // then stop the timer

  /** One invocation of the write callback. */
  datatype Packet = Packet(channel: Channel, bytes: Octets)

  /** `log` and `wire` record every callback made so far: `Sent` marks where the
      packets of a command begin. `folded` are the messages folded into readiness
      since construction or since it was last forgotten. The owner has control when `ownerRuns`:
      outside every call, or inside a callback. */
  datatype Live = Live(
    s: Session, m: Reentrancy.Machine, stack: seq<Work>, ownerRuns: bool,
    log: seq<Callback>, wire: seq<Packet>, folded: seq<Octets>)

  function Begin(att: nat, interval: nat, opts: Options): Live {
    Live(Fresh(att, interval, opts), Reentrancy.INITIAL, [], true, [], [], [])
  }

  datatype Move = Enter(op: Op) | Go

  /** Running on with nothing on the stack is doing nothing. */
  predicate Enabled(l: Live, move: Move) {
    move.Enter? ==> l.ownerRuns
  }

  /** Work that the session goes on with by itself when what is above returns;
      everything else waits inside a callback. */
  predicate IsCode(w: Work) {
    w.Replied? || w.PushGated? || w.Ticked? || w.Cancelling?
  }

  function Return(l: Live, rest: seq<Work>): Live {
    l.(stack := rest, ownerRuns := rest == [] || !IsCode(rest[0]))
  }

  function WithQueue(l: Live, m: Reentrancy.Machine): Live {
    l.(m := m, s := l.s.(queue := m.q))
  }

  /** A call on the queue, with `rest` to be done after it. */
  function Ask(l: Live, c: Call, rest: seq<Work>): Live {
    var l1 := WithQueue(l, Reentrancy.Begin(l.s.opts, l.m, c));
    if Reentrancy.Pushed(l.s.opts, l.m.q, c) == [] then Return(l1, rest)
    else l1.(stack := [InQueue] + rest, ownerRuns := false)
  }

  /** A message is folded into readiness. */
  function FoldIn(l: Live, message: Octets): Live {
    l.(s := l.s.(readiness := Query.FoldMessage(l.s.readiness, message)), folded := l.folded + [message])
  }

  function Forget(l: Live): Live {
    l.(s := l.s.(readiness := Query.UNKNOWN), folded := [])
  }

  function Report(l: Live, e: Callback): Live {
    l.(log := l.log + [e])
  }

  // --- Making a call ------------------------------------------------------

  function EnterDelivery(l: Live, channel: Channel, message: Octets, now: Time): Live {
    var id := ResponseId(l.s.queue, channel, message);
    var folded := FoldIn(l, message);
    var after := folded.s.readiness;
    if HasId(l.s.queue.inFlight, id) then Ask(l, RespondCall(id, message, now), [Replied(message, now)] + l.stack)
    else if after.Ready() != l.s.readiness.Ready() then
      Ask(folded, ReadyCall(after.Ready(), now), [PushGated(channel, message)] + l.stack)
    else Report(folded, Pushed(channel, Query.Parse(message).response, message))
  }

  function EnterFeed(l: Live, channel: Channel, packet: Octets, now: Time): Live {
    if channel >= CHANNEL_COUNT then l
    else
      var fed := Feed(l.s.rx[channel], packet);
      if fed.result == Complete then
        EnterDelivery(l.(s := l.s.(rx := l.s.rx[channel := IDLE])), channel, fed.rx.buf, now)
      else
        var l1 := l.(s := l.s.(rx := l.s.rx[channel := fed.rx]));
        if fed.result == NeedMore then l1 else Report(l1, FrameFailed(channel, fed.result))
  }

  function EnterOp(l: Live, op: Op): Live {
    match op
    case FeedOp(channel, packet, now) => EnterFeed(l, channel, packet, now)
    case SubmitOp(channel, payload, priority, now) =>
      if payload == [] then l
      else
        var id := CorrelationOf(channel, payload[0]);
        Ask(l, SubmitCall(id, payload, priority, id, now), l.stack)
    case ProtobufOp(channel, feature, action, message, priority, now) =>
      var id := CorrelationOfProtobuf(channel, feature, action);
      Ask(l, SubmitCall(id, [feature, action] + message, priority, id, now), l.stack)
    case TickOp(now) => Ask(l, TickCall(now), [Ticked(now)] + l.stack)
    case AttOp(bytes) => l.(s := SetAtt(l.s, bytes))
    case DisconnectOp => Ask(l.(s := l.s.(rx := ALL_IDLE)), CancelCall, [Cancelling] + l.stack)
  }

  // --- Running on ---------------------------------------------------------

  /** The queue runs on to its next callback, to its pump, or to its end. */
  function GoQueue(l: Live): Live
    requires l.stack != []
  {
    var m := Reentrancy.Continue(l.m);
    var l1 := WithQueue(l, m);
    if |m.events| > |l.m.events| then
      var e := m.events[|l.m.events|];
      var told := Report(l1, RelayOne(l.s.att, e));
      match e
      case Wrote(entry) =>
        told.(stack := [Writing(ChannelOf(entry.id), Fragments(entry.payload, l.s.att))] + l.stack, ownerRuns := false)
      case Completed(_, _, _) => told.(ownerRuns := true)
    else if |m.stack| < |l.m.stack| then Return(l1, l.stack[1..])
    else l1.(ownerRuns := false)
  }

  function GoReplied(l: Live, message: Octets, now: Time, rest: seq<Work>): Live {
    var folded := FoldIn(l, message);
    var after := folded.s.readiness;
    if after.Ready() == l.s.readiness.Ready() then Return(folded, rest)
    else
      Report(folded, ReadyChanged(after.Ready()))
        .(stack := [ReplyReported(l.s.readiness.Ready(), now)] + rest, ownerRuns := true)
  }

  function GoTicked(l: Live, now: Time, rest: seq<Work>): Live {
    if !l.s.started then Return(l.(s := l.s.(started := true, lastKeepAlive := now)), rest)
    else if !Due(l.s, now) then Return(l, rest)
    else Ask(l.(s := l.s.(lastKeepAlive := now)), KeepAliveCall(now), rest)
  }

  function GoCancelling(l: Live, rest: seq<Work>): Live {
    var shut := Ask(Forget(l), ReadyCall(false, 0), rest);
    if l.s.readiness.Ready() then
      Report(shut, ReadyChanged(false)).(stack := [DropReported] + rest, ownerRuns := true)
    else shut.(s := shut.s.(started := false))
  }

  /** The write lambda: one packet at a time. */
  function GoWriting(l: Live, channel: Channel, todo: seq<Octets>, rest: seq<Work>): Live {
    if todo == [] then l.(stack := rest, ownerRuns := false)
    else l.(stack := [Writing(channel, todo[1..])] + rest, ownerRuns := true,
            wire := l.wire + [Packet(channel, todo[0])])
  }

  /** The two sides of the ready callback in `deliver`. */
  function GoReport(l: Live, w: Work, rest: seq<Work>): Live
    requires IsReport(w)
  {
    match w
    case ReplyReported(was, now) =>
      if l.s.readiness.Ready() == was then Return(l, rest)
      else Ask(l, ReadyCall(l.s.readiness.Ready(), now), rest)
    case PushGated(channel, message) =>
      Report(l, ReadyChanged(l.s.readiness.Ready()))
        .(stack := [PushReported(channel, message)] + rest, ownerRuns := true)
    case PushReported(channel, message) =>
      Report(l, Pushed(channel, Query.Parse(message).response, message)).(stack := rest, ownerRuns := true)
  }

  predicate IsReport(w: Work) {
    w.ReplyReported? || w.PushGated? || w.PushReported?
  }

  /** The session's own code. */
  function GoCode(l: Live, w: Work, rest: seq<Work>): Live
    requires !w.InQueue? && !w.Writing?
  {
    if IsReport(w) then GoReport(l, w, rest)
    else
      match w
      case Replied(message, now) => GoReplied(l, message, now, rest)
      case Ticked(now) => GoTicked(l, now, rest)
      case Cancelling => GoCancelling(l, rest)
      case DropReported => Return(l.(s := l.s.(started := false)), rest)
  }

  function GoOn(l: Live): Live {
    if l.stack == [] then l
    else
      var w, rest := l.stack[0], l.stack[1..];
      if w.InQueue? then GoQueue(l)
      else if w.Writing? then GoWriting(l, w.channel, w.todo, rest)
      else GoCode(l, w, rest)
  }

  function Do(l: Live, move: Move): Live {
    match move
    case Enter(op) => EnterOp(l, op)
    case Go => GoOn(l)
  }

  function Execute(l: Live, moves: seq<Move>): Live {
    if moves == [] then l else Do(Execute(l, moves[..|moves| - 1]), moves[|moves| - 1])
  }

  ghost predicate Legal(l: Live, moves: seq<Move>) {
    moves == []
    || (&& Legal(l, moves[..|moves| - 1])
        && Enabled(Execute(l, moves[..|moves| - 1]), moves[|moves| - 1]))
  }

  // --- The queue inside ---------------------------------------------------

  /** The queue inside keeps every invariant of module Reentrancy, and what the
      session has reported is what its queue has done. */
  ghost predicate Safe(l: Live) {
    && l.s.queue == l.m.q && Reentrancy.Invariant(l.m)
    && SentEntries(l.log) == Reentrancy.Written(l.m.events)
    && FinishedEntries(l.log) == Reentrancy.Retired(l.m.events)
  }

  /** Whatever callbacks do, in every state of every run. */
  lemma {:induction false} EveryRunSafe(att: nat, interval: nat, opts: Options, moves: seq<Move>)
    requires Legal(Begin(att, interval, opts), moves)
    ensures Safe(Execute(Begin(att, interval, opts), moves))
  {
    if moves == [] {
      Reentrancy.InitialInvariant();
    } else {
      var front := moves[..|moves| - 1];
      EveryRunSafe(att, interval, opts, front);
      MoveSafe(Execute(Begin(att, interval, opts), front), moves[|moves| - 1]);
    }
  }

  lemma MoveSafe(l: Live, move: Move)
    requires Safe(l)
    ensures Safe(Do(l, move))
  {
    match move
    case Enter(op) => EnterSafe(l, op);
    case Go => GoSafe(l);
  }

  lemma AskSafe(l: Live, c: Call, rest: seq<Work>)
    requires Safe(l)
    ensures Safe(Ask(l, c, rest))
  {
    Reentrancy.BeginKeepsInvariant(l.s.opts, l.m, c);
  }

  lemma ReportSafe(l: Live, e: Callback)
    requires Safe(l) && !FromQueue(e)
    ensures Safe(Report(l, e))
  {
    ProjectionsAppend(l.log, [e]);
    assert [e][..0] == [];
  }

  lemma EnterSafe(l: Live, op: Op)
    requires Safe(l)
    ensures Safe(EnterOp(l, op))
  {
    match op
    case FeedOp(channel, packet, now) =>
      if channel < CHANNEL_COUNT {
        var fed := Feed(l.s.rx[channel], packet);
        if fed.result == Complete {
          DeliverySafe(l.(s := l.s.(rx := l.s.rx[channel := IDLE])), channel, fed.rx.buf, now);
        } else {
          ReportSafe(l.(s := l.s.(rx := l.s.rx[channel := fed.rx])), FrameFailed(channel, fed.result));
        }
      }
    case SubmitOp(channel, payload, priority, now) =>
      if payload != [] {
        var id := CorrelationOf(channel, payload[0]);
        AskSafe(l, SubmitCall(id, payload, priority, id, now), l.stack);
      }
    case ProtobufOp(channel, feature, action, message, priority, now) =>
      var id := CorrelationOfProtobuf(channel, feature, action);
      AskSafe(l, SubmitCall(id, [feature, action] + message, priority, id, now), l.stack);
    case TickOp(now) => AskSafe(l, TickCall(now), [Ticked(now)] + l.stack);
    case AttOp(_) =>
    case DisconnectOp => AskSafe(l.(s := l.s.(rx := ALL_IDLE)), CancelCall, [Cancelling] + l.stack);
  }

  lemma DeliverySafe(l: Live, channel: Channel, message: Octets, now: Time)
    requires Safe(l)
    ensures Safe(EnterDelivery(l, channel, message, now))
  {
    var id := ResponseId(l.s.queue, channel, message);
    var folded := FoldIn(l, message);
    var after := folded.s.readiness;
    AskSafe(l, RespondCall(id, message, now), [Replied(message, now)] + l.stack);
    AskSafe(folded, ReadyCall(after.Ready(), now), [PushGated(channel, message)] + l.stack);
    ReportSafe(folded, Pushed(channel, Query.Parse(message).response, message));
  }

  lemma GoSafe(l: Live)
    requires Safe(l)
    ensures Safe(GoOn(l))
  {
    if l.stack != [] {
      var w := l.stack[0];
      if w.InQueue? {
        QueueSafe(l);
      } else if !w.Writing? {
        CodeSafe(l, w, l.stack[1..]);
      }
    }
  }

  lemma CodeSafe(l: Live, w: Work, rest: seq<Work>)
    requires Safe(l) && !w.InQueue? && !w.Writing?
    ensures Safe(GoCode(l, w, rest))
  {
    if IsReport(w) {
      ReportedSafe(l, w, rest);
    } else {
      match w
      case Replied(message, now) => RepliedSafe(l, message, now, rest);
      case Ticked(now) => TickedSafe(l, now, rest);
      case Cancelling => CancellingSafe(l, rest);
      case DropReported =>
    }
  }

  lemma ReportedSafe(l: Live, w: Work, rest: seq<Work>)
    requires Safe(l) && IsReport(w)
    ensures Safe(GoReport(l, w, rest))
  {
    match w
    case ReplyReported(_, now) => AskSafe(l, ReadyCall(l.s.readiness.Ready(), now), rest);
    case PushGated(_, _) => ReportSafe(l, ReadyChanged(l.s.readiness.Ready()));
    case PushReported(channel, message) => ReportSafe(l, Pushed(channel, Query.Parse(message).response, message));
  }

  lemma TickedSafe(l: Live, now: Time, rest: seq<Work>)
    requires Safe(l)
    ensures Safe(GoTicked(l, now, rest))
  {
    AskSafe(l.(s := l.s.(lastKeepAlive := now)), KeepAliveCall(now), rest);
  }

  lemma RepliedSafe(l: Live, message: Octets, now: Time, rest: seq<Work>)
    requires Safe(l)
    ensures Safe(GoReplied(l, message, now, rest))
  {
    var folded := FoldIn(l, message);
    ReportSafe(folded, ReadyChanged(folded.s.readiness.Ready()));
  }

  lemma CancellingSafe(l: Live, rest: seq<Work>)
    requires Safe(l)
    ensures Safe(GoCancelling(l, rest))
  {
    AskSafe(Forget(l), ReadyCall(false, 0), rest);
    ReportSafe(Ask(Forget(l), ReadyCall(false, 0), rest), ReadyChanged(false));
  }

  /** The queue's machine makes at most one callback at a time. */
  lemma OneEvent(m: Reentrancy.Machine)
    ensures var m' := Reentrancy.Continue(m);
            m'.events == m.events || (exists e :: m'.events == m.events + [e])
  {
  }

  lemma QueueSafe(l: Live)
    requires Safe(l) && l.stack != []
    ensures Safe(GoQueue(l))
  {
    var m := Reentrancy.Continue(l.m);
    Reentrancy.ContinueKeepsInvariant(l.m);
    OneEvent(l.m);
    if |m.events| > |l.m.events| {
      var e := m.events[|l.m.events|];
      assert m.events == l.m.events + [e];
      var x := RelayOne(l.s.att, e);
      Reentrancy.EventAppended(l.m.events, e);
      ProjectionsAppend(l.log, [x]);
      assert [x][..0] == [];
    }
  }
}
