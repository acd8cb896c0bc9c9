/** The wire when write callbacks call back into the session: what was sent is
    what arrives exactly as long as no message is interrupted by another one on
    its own channel. */
module SessionReentrantWire {
  import opened Bytes
  import opened Millis
  import opened Sequences
  import opened Correlation
  import opened Framing
  import opened FramingProofs
  import opened Queue
  import opened Session
  import opened SessionHistory
  import opened SessionWire
  import opened SessionReentrancy
  import Reentrancy

  // --- One channel's share ------------------------------------------------

  /** The packets written on a channel so far. */
  function WrittenOn(wire: seq<Packet>, channel: Channel): seq<Octets> {
    if wire == [] then []
    else
      var last := wire[|wire| - 1];
      WrittenOn(wire[..|wire| - 1], channel) + if last.channel == channel then [last.bytes] else []
  }

  /** The packets yet to be written on it, innermost message first. */
  function ToWrite(stack: seq<Work>, channel: Channel): seq<Octets> {
    if stack == [] then []
    else
      (if stack[0].Writing? && stack[0].channel == channel then stack[0].todo else [])
      + ToWrite(stack[1..], channel)
  }

  /** The last callback of `l'`, made since `l`, begins a message on `channel`. */
  predicate Starts(l: Live, l': Live, channel: Channel) {
    && |l'.log| > |l.log|
    && var x := l'.log[|l'.log| - 1]; x.Sent? && x.channel == channel && x.packets != []
  }

  /** It begins in the middle of another one. */
  predicate Interrupts(l: Live, move: Move, channel: Channel) {
    ToWrite(l.stack, channel) != [] && Starts(l, Do(l, move), channel)
  }

  predicate NeverInterrupted(l: Live, moves: seq<Move>, channel: Channel) {
    moves == []
    || (&& NeverInterrupted(l, moves[..|moves| - 1], channel)
        && !Interrupts(Execute(l, moves[..|moves| - 1]), moves[|moves| - 1], channel))
  }

  // --- What a move does to a channel --------------------------------------

  /** A channel at one moment: written, yet to write, and sent. */
  datatype Share = Share(written: seq<Octets>, todo: seq<Octets>, sent: seq<Octets>)

  function ShareOf(l: Live, channel: Channel): Share {
    Share(WrittenOn(l.wire, channel), ToWrite(l.stack, channel), SentPayloads(l.log, channel))
  }

  ghost predicate BeginsMessage(a: Share, b: Share) {
    exists data: Octets, att: nat ::
      Sendable(data, att) && b == Share(a.written, Fragments(data, att) + a.todo, a.sent + [data])
  }

  predicate WritesPacket(a: Share, b: Share) {
    a.todo != [] && b == Share(a.written + [a.todo[0]], a.todo[1..], a.sent)
  }

  function Rest(packets: seq<Octets>): seq<Octets> {
    if packets == [] then [] else packets[1..]
  }

  predicate OnlyContinuations(packets: seq<Octets>) {
    forall k :: 0 <= k < |packets| ==> IsContinuation(packets[k])
  }

  lemma {:induction false} ContinuationsOnly(data: Octets, room: nat)
    requires room > 0
    ensures OnlyContinuations(Continuations(data, room))
    decreases |data|
  {
    if data != [] {
      ContinuationsOnly(data[Min(room, |data|)..], room);
    }
  }

  lemma FragmentsShape(data: Octets, att: nat)
    ensures OnlyContinuations(Rest(Fragments(data, att)))
  {
    if Sendable(data, att) {
      var header := FirstHeader(|data|);
      var take := Min(att - |header|, |data|);
      ContinuationsOnly(data[take..], att - 1);
      assert Fragments(data, att)[1..] == Continuations(data[take..], att - 1);
    }
  }

  /** The messages being written, innermost first. */
  function Writings(stack: seq<Work>): seq<Work> {
    if stack == [] then []
    else (if stack[0].Writing? then [stack[0]] else []) + Writings(stack[1..])
  }

  lemma Push(w: Work, rest: seq<Work>)
    ensures Writings([w] + rest) == (if w.Writing? then [w] else []) + Writings(rest)
    ensures forall c: Channel ::
              ToWrite([w] + rest, c) == (if w.Writing? && w.channel == c then w.todo else []) + ToWrite(rest, c)
  {
    assert ([w] + rest)[1..] == rest;
  }

  lemma {:induction false} ToWriteOfWritings(stack: seq<Work>, channel: Channel)
    ensures ToWrite(Writings(stack), channel) == ToWrite(stack, channel)
  {
    if stack != [] {
      ToWriteOfWritings(stack[1..], channel);
      if stack[0].Writing? {
        Push(stack[0], Writings(stack[1..]));
      } else {
        assert [] + ToWrite(stack[1..], channel) == ToWrite(stack[1..], channel);
        assert [] + Writings(stack[1..]) == Writings(stack[1..]);
      }
    }
  }

  predicate AllContinuations(ws: seq<Work>) {
    forall k :: 0 <= k < |ws| && ws[k].Writing? ==> OnlyContinuations(ws[k].todo)
  }

  /** The innermost message has not written its first packet. */
  predicate NotBegun(l: Live) {
    l.stack != [] && l.stack[0].Writing? && !l.ownerRuns
  }

  /** Room for every header, and only continuations left of every message whose
      first packet is out. */
  predicate Begun(l: Live) {
    && l.s.att >= 4
    && if NotBegun(l) then OnlyContinuations(Rest(l.stack[0].todo)) && AllContinuations(Writings(l.stack[1..]))
       else AllContinuations(Writings(l.stack))
  }

  lemma {:induction false} SentAppended(log: seq<Callback>, x: Callback, channel: Channel)
    ensures SentPayloads(log + [x], channel) == SentPayloads(log, channel) + SentPayloads([x], channel)
  {
    if log == [] {
      assert log + [x] == [x];
    } else {
      assert (log + [x])[0] == log[0] && (log + [x])[1..] == log[1..] + [x];
      SentAppended(log[1..], x, channel);
    }
  }

  lemma SentOne(x: Callback, channel: Channel)
    ensures SentPayloads([x], channel)
         == if x.Sent? && ChannelOf(x.entry.id) == channel && 0 < |x.entry.payload| <= MAX_MESSAGE_LEN
            then [x.entry.payload] else []
  {
    assert [x][1..] == [];
  }

  /** A move that has nothing to do with the wire. */
  ghost predicate Still(l: Live, l': Live) {
    && Writings(l'.stack) == Writings(l.stack) && l'.wire == l.wire && l'.s.att >= 4
    && (l'.log == l.log || exists x: Callback :: !x.Sent? && l'.log == l.log + [x])
  }

  lemma StillShare(l: Live, l': Live, channel: Channel)
    requires Still(l, l')
    ensures ShareOf(l', channel) == ShareOf(l, channel) && !Starts(l, l', channel)
    ensures Begun(l) && !NotBegun(l) ==> Begun(l')
  {
    ToWriteOfWritings(l.stack, channel);
    ToWriteOfWritings(l'.stack, channel);
    if x: Callback :| !x.Sent? && l'.log == l.log + [x] {
      SentAppended(l.log, x, channel);
      SentOne(x, channel);
    }
    if Begun(l) && !NotBegun(l) {
      AllBegun(l');
    }
  }

  lemma AllBegun(l: Live)
    requires l.s.att >= 4 && AllContinuations(Writings(l.stack))
    ensures Begun(l)
  {
    if NotBegun(l) {
      var w, rest := l.stack[0], l.stack[1..];
      assert l.stack == [w] + rest;
      Push(w, rest);
      assert Writings(l.stack)[0] == w && Writings(l.stack)[1..] == Writings(rest);
      assert forall k :: 0 <= k < |Writings(rest)| ==> Writings(rest)[k] == Writings(l.stack)[k + 1];
    }
  }

  lemma AskStill(l: Live, c: Call, rest: seq<Work>)
    requires l.s.att >= 4
    ensures var l' := Ask(l, c, rest);
            && Writings(l'.stack) == Writings(rest) && l'.wire == l.wire && l'.s.att == l.s.att && l'.log == l.log
  {
    Push(InQueue, rest);
  }

  lemma EnterStill(l: Live, op: Op)
    requires l.s.att >= 4
    ensures Still(l, EnterOp(l, op))
  {
    match op
    case FeedOp(channel, packet, now) =>
      if channel < CHANNEL_COUNT {
        var fed := Feed(l.s.rx[channel], packet);
        if fed.result == Complete {
          DeliveryStill(l.(s := l.s.(rx := l.s.rx[channel := IDLE])), channel, fed.rx.buf, now);
        }
      }
    case SubmitOp(channel, payload, priority, now) =>
      if payload != [] {
        var id := CorrelationOf(channel, payload[0]);
        AskStill(l, SubmitCall(id, payload, priority, id, now), l.stack);
      }
    case ProtobufOp(channel, feature, action, message, priority, now) =>
      var id := CorrelationOfProtobuf(channel, feature, action);
      AskStill(l, SubmitCall(id, [feature, action] + message, priority, id, now), l.stack);
    case TickOp(now) =>
      Push(Ticked(now), l.stack);
      AskStill(l, TickCall(now), [Ticked(now)] + l.stack);
    case AttOp(_) =>
    case DisconnectOp =>
      Push(Cancelling, l.stack);
      AskStill(l.(s := l.s.(rx := ALL_IDLE)), CancelCall, [Cancelling] + l.stack);
  }

  lemma DeliveryStill(l: Live, channel: Channel, message: Octets, now: Time)
    requires l.s.att >= 4
    ensures Still(l, EnterDelivery(l, channel, message, now))
  {
    var folded := FoldIn(l, message);
    Push(Replied(message, now), l.stack);
    AskStill(l, RespondCall(ResponseId(l.s.queue, channel, message), message, now), [Replied(message, now)] + l.stack);
    Push(PushGated(channel, message), l.stack);
    AskStill(folded, ReadyCall(folded.s.readiness.Ready(), now), [PushGated(channel, message)] + l.stack);
  }

  lemma CodeStill(l: Live, w: Work, rest: seq<Work>)
    requires l.s.att >= 4 && l.stack == [w] + rest && !w.InQueue? && !w.Writing?
    ensures Still(l, GoCode(l, w, rest))
  {
    Push(w, rest);
    if IsReport(w) {
      ReportStill(l, w, rest);
    } else {
      match w
      case Replied(message, now) => RepliedStill(l, message, now, rest);
      case Ticked(now) => TickedStill(l, now, rest);
      case Cancelling => CancellingStill(l, rest);
      case DropReported =>
    }
  }

  lemma TickedStill(l: Live, now: Time, rest: seq<Work>)
    requires l.s.att >= 4 && Writings(l.stack) == Writings(rest)
    ensures Still(l, GoTicked(l, now, rest))
  {
    AskStill(l.(s := l.s.(lastKeepAlive := now)), KeepAliveCall(now), rest);
  }

  lemma CancellingStill(l: Live, rest: seq<Work>)
    requires l.s.att >= 4 && Writings(l.stack) == Writings(rest)
    ensures Still(l, GoCancelling(l, rest))
  {
    AskStill(Forget(l), ReadyCall(false, 0), rest);
    Push(DropReported, rest);
  }

  lemma RepliedStill(l: Live, message: Octets, now: Time, rest: seq<Work>)
    requires l.s.att >= 4 && Writings(l.stack) == Writings(rest)
    ensures Still(l, GoReplied(l, message, now, rest))
  {
    Push(ReplyReported(l.s.readiness.Ready(), now), rest);
  }

  lemma ReportStill(l: Live, w: Work, rest: seq<Work>)
    requires l.s.att >= 4 && IsReport(w) && Writings(l.stack) == Writings(rest)
    ensures Still(l, GoReport(l, w, rest))
  {
    match w
    case ReplyReported(_, now) => AskStill(l, ReadyCall(l.s.readiness.Ready(), now), rest);
    case PushGated(channel, message) => Push(PushReported(channel, message), rest);
    case PushReported(_, _) =>
  }

  /** The entry whose message a move of the queue begins. */
  ghost predicate Sends(l: Live, l': Live, e: Entry) {
    && l'.log == l.log + [RelayOne(l.s.att, Wrote(e))] && l'.wire == l.wire && l'.s.att == l.s.att
    && l'.stack == [Writing(ChannelOf(e.id), Fragments(e.payload, l.s.att))] + l.stack && !l'.ownerRuns
  }

  lemma QueueStillOrSends(l: Live)
    requires l.s.att >= 4 && l.stack != [] && l.stack[0].InQueue?
    ensures Still(l, GoQueue(l)) || exists e :: Sends(l, GoQueue(l), e)
  {
    var m := Reentrancy.Continue(l.m);
    assert l.stack == [InQueue] + l.stack[1..];
    Push(InQueue, l.stack[1..]);
    if |m.events| > |l.m.events| {
      var x := m.events[|l.m.events|];
      if x.Wrote? {
        assert Sends(l, GoQueue(l), x.entry);
      }
    }
  }

  lemma SendsShare(l: Live, l': Live, e: Entry, channel: Channel)
    requires Begun(l) && !NotBegun(l) && Sends(l, l', e)
    ensures Begun(l')
    ensures Starts(l, l', channel) <==> ChannelOf(e.id) == channel && Sendable(e.payload, l.s.att)
    ensures var a, b := ShareOf(l, channel), ShareOf(l', channel);
            if Starts(l, l', channel) then BeginsMessage(a, b) else b == a
  {
    var packets := Fragments(e.payload, l.s.att);
    var x := RelayOne(l.s.att, Wrote(e));
    Push(l'.stack[0], l.stack);
    assert l'.stack[1..] == l.stack;
    FragmentsShape(e.payload, l.s.att);
    SentAppended(l.log, x, channel);
    SentOne(x, channel);
    assert l'.log[|l'.log| - 1] == x;
    assert packets == [] <==> !Sendable(e.payload, l.s.att);
    if Starts(l, l', channel) {
      assert ShareOf(l', channel) ==
        Share(ShareOf(l, channel).written, packets + ShareOf(l, channel).todo, ShareOf(l, channel).sent + [e.payload]);
    } else {
      assert SentPayloads(l.log, channel) + [] == SentPayloads(l.log, channel);
      assert [] + ToWrite(l.stack, channel) == ToWrite(l.stack, channel);
    }
  }

  lemma WritingShare(l: Live, w: Work, rest: seq<Work>, channel: Channel)
    requires Begun(l) && l.stack == [w] + rest && w.Writing?
    ensures var l' := GoWriting(l, w.channel, w.todo, rest);
            var a, b := ShareOf(l, channel), ShareOf(l', channel);
            && Begun(l') && !Starts(l, l', channel)
            && if w.channel == channel && w.todo != [] then WritesPacket(a, b) else b == a
  {
    var l' := GoWriting(l, w.channel, w.todo, rest);
    Push(w, rest);
    if w.todo == [] {
      assert [] + ToWrite(rest, channel) == ToWrite(rest, channel);
      TailContinues(l, w, rest);
      AllBegun(l');
    } else {
      var w' := Writing(w.channel, w.todo[1..]);
      Push(w', rest);
      assert l'.wire[..|l'.wire| - 1] == l.wire;
      assert WrittenOn(l.wire, channel) + [] == WrittenOn(l.wire, channel);
      assert w.todo == [w.todo[0]] + w.todo[1..];
      TailContinues(l, w, rest);
      assert l'.stack == [w'] + rest;
      if w.channel == channel {
        assert (w.todo + ToWrite(rest, channel))[1..] == w.todo[1..] + ToWrite(rest, channel);
      }
    }
  }

  lemma TailContinues(l: Live, w: Work, rest: seq<Work>)
    requires Begun(l) && l.stack == [w] + rest && w.Writing?
    ensures OnlyContinuations(Rest(w.todo)) && AllContinuations(Writings(rest))
    ensures AllContinuations([Writing(w.channel, Rest(w.todo))] + Writings(rest))
  {
    Push(w, rest);
    if !NotBegun(l) {
      var ws := Writings(l.stack);
      assert ws[0] == w && ws[1..] == Writings(rest);
      assert forall k :: 0 <= k < |Writings(rest)| ==> Writings(rest)[k] == ws[k + 1];
    }
    assert l.stack[1..] == rest;
  }

  /** A move leaves a channel alone, writes its next packet, or begins a message
      on it. */
  lemma MoveShare(l: Live, move: Move, channel: Channel)
    requires Begun(l) && Enabled(l, move)
    ensures var l' := Do(l, move);
            var a, b := ShareOf(l, channel), ShareOf(l', channel);
            && Begun(l')
            && if Starts(l, l', channel) then BeginsMessage(a, b) else b == a || WritesPacket(a, b)
    ensures Starts(l, Do(l, move), channel) ==> OnlyContinuations(ToWrite(l.stack, channel))
  {
    match move
    case Enter(op) =>
      EnterStill(l, op);
      StillShare(l, EnterOp(l, op), channel);
    case Go =>
      if l.stack == [] {
        return;
      }
      var w, rest := l.stack[0], l.stack[1..];
      if w.InQueue? {
        QueueStillOrSends(l);
        if Still(l, GoQueue(l)) {
          StillShare(l, GoQueue(l), channel);
        } else {
          var e :| Sends(l, GoQueue(l), e);
          SendsShare(l, GoQueue(l), e, channel);
          ToWriteContinues(l.stack, channel);
        }
      } else if w.Writing? {
        WritingShare(l, w, rest, channel);
      } else {
        CodeStill(l, w, rest);
        StillShare(l, GoCode(l, w, rest), channel);
      }
  }

  lemma {:induction false} ToWriteContinues(stack: seq<Work>, channel: Channel)
    requires AllContinuations(Writings(stack))
    ensures OnlyContinuations(ToWrite(stack, channel))
  {
    if stack != [] {
      var ws := Writings(stack[1..]);
      assert stack[0].Writing? ==> Writings(stack)[0] == stack[0] && Writings(stack)[1..] == ws;
      assert forall k :: 0 <= k < |ws| ==> ws[k] == Writings(stack)[if stack[0].Writing? then k + 1 else k];
      ToWriteContinues(stack[1..], channel);
    }
  }

  // --- What a listener makes of it ----------------------------------------

  /** Strays mean nothing to an idle receiver. */
  lemma {:induction false} StraysIgnored(packets: seq<Octets>)
    requires OnlyContinuations(packets)
    ensures ListenAll(IDLE, packets) == IDLE && Messages(IDLE, packets) == []
  {
    if packets != [] {
      assert IsContinuation(packets[0]);
      StraysIgnored(packets[1..]);
    }
  }

  /** The listener has every message sent, but for the one being written, which
      it is about to complete. */
  ghost predicate InStep(r: Rx, a: Share) {
    if a.todo == [] then Messages(r, a.written) == a.sent
    else
      var mid := ListenAll(r, a.written);
      && Messages(r, a.written) + [FeedState(mid, a.todo).buf] == a.sent
      && FeedResults(mid, a.todo) == LastCompletes(|a.todo|)
  }

  /** The listener can no longer get every message. */
  predicate Lost(r: Rx, a: Share) {
    |Messages(r, a.written + a.todo)| < |a.sent|
  }

  lemma InStepBegins(r: Rx, a: Share, b: Share)
    requires InStep(r, a) && BeginsMessage(a, b) && OnlyContinuations(a.todo)
    ensures if a.todo == [] then InStep(r, b) else Lost(r, b)
  {
    var data: Octets, att: nat :|
      Sendable(data, att) && b == Share(a.written, Fragments(data, att) + a.todo, a.sent + [data]);
    if a.todo == [] {
      assert Fragments(data, att) + [] == Fragments(data, att);
      RoundTrip(ListenAll(r, a.written), data, att);
    } else {
      Supplanted(r, a, data, att);
    }
  }

  /** A message in the middle of others supplants what is left of them. */
  lemma Supplanted(r: Rx, a: Share, data: Octets, att: nat)
    requires Sendable(data, att) && OnlyContinuations(a.todo)
    ensures Messages(r, a.written + (Fragments(data, att) + a.todo)) == Messages(r, a.written) + [data]
  {
    var packets := Fragments(data, att);
    Recovery(r, a.written, data, att);
    StraysIgnored(a.todo);
    StreamAppend(r, a.written + packets, a.todo);
    Assoc(a.written, packets, a.todo);
    assert Messages(r, a.written) + [data] + [] == Messages(r, a.written) + [data];
  }

  lemma LostBegins(r: Rx, a: Share, b: Share)
    requires Lost(r, a) && BeginsMessage(a, b) && OnlyContinuations(a.todo)
    ensures Lost(r, b)
  {
    var data: Octets, att: nat :|
      Sendable(data, att) && b == Share(a.written, Fragments(data, att) + a.todo, a.sent + [data]);
    Supplanted(r, a, data, att);
    StreamAppend(r, a.written, a.todo);
  }

  lemma InStepWrites(r: Rx, a: Share, b: Share)
    requires InStep(r, a) && WritesPacket(a, b)
    ensures InStep(r, b)
  {
    var mid, p := ListenAll(r, a.written), a.todo[0];
    StreamAppend(r, a.written, [p]);
    OnePacket(mid, p);
    assert FeedResults(mid, a.todo)[0] == Feed(mid, p).result;
    assert FeedResults(mid, a.todo)[1..] == FeedResults(Feed(mid, p).rx, a.todo[1..]);
    if |a.todo| == 1 {
      assert a.todo[1..] == [];
      assert FeedState(mid, a.todo) == Feed(mid, p).rx;
    } else {
      assert LastCompletes(|a.todo|)[1..] == LastCompletes(|a.todo| - 1);
      assert Messages(r, a.written) + [] == Messages(r, a.written);
    }
  }

  lemma LostWrites(r: Rx, a: Share, b: Share)
    requires Lost(r, a) && WritesPacket(a, b)
    ensures Lost(r, b)
  {
    assert b.written + b.todo == a.written + a.todo;
  }

  lemma {:induction false} RunWire(att: nat, interval: nat, opts: Options, moves: seq<Move>, channel: Channel, r: Rx)
    requires att >= 4 && Legal(Begin(att, interval, opts), moves)
    ensures var l := Execute(Begin(att, interval, opts), moves);
            && Begun(l)
            && if NeverInterrupted(Begin(att, interval, opts), moves, channel) then InStep(r, ShareOf(l, channel))
               else Lost(r, ShareOf(l, channel))
  {
    if moves != [] {
      var front, move := moves[..|moves| - 1], moves[|moves| - 1];
      var l := Execute(Begin(att, interval, opts), front);
      RunWire(att, interval, opts, front, channel, r);
      MoveShare(l, move, channel);
      StepWire(r, ShareOf(l, channel), ShareOf(Do(l, move), channel), Starts(l, Do(l, move), channel));
    }
  }

  lemma StepWire(r: Rx, a: Share, b: Share, starts: bool)
    requires if starts then BeginsMessage(a, b) && OnlyContinuations(a.todo) else b == a || WritesPacket(a, b)
    ensures InStep(r, a) ==> if starts && a.todo != [] then Lost(r, b) else InStep(r, b)
    ensures Lost(r, a) ==> Lost(r, b)
  {
    if starts {
      if InStep(r, a) {
        InStepBegins(r, a, b);
      }
      if Lost(r, a) {
        LostBegins(r, a, b);
      }
    } else if b != a {
      if InStep(r, a) {
        InStepWrites(r, a, b);
      }
      if Lost(r, a) {
        LostWrites(r, a, b);
      }
    }
  }

  /** Whatever callbacks have done, once nothing is left to be written on a
      channel: a listener in any state has got exactly the payloads sent there,
      in send order, if and only if no message began there in the middle of
      another one. */
  lemma WireIntactIff(att: nat, interval: nat, opts: Options, moves: seq<Move>, channel: Channel, r: Rx)
    requires att >= 4 && Legal(Begin(att, interval, opts), moves)
    requires ToWrite(Execute(Begin(att, interval, opts), moves).stack, channel) == []
    ensures var l := Execute(Begin(att, interval, opts), moves);
            Messages(r, WrittenOn(l.wire, channel)) == SentPayloads(l.log, channel)
            <==> NeverInterrupted(Begin(att, interval, opts), moves, channel)
  {
    RunWire(att, interval, opts, moves, channel, r);
    var a := ShareOf(Execute(Begin(att, interval, opts), moves), channel);
    assert a.written + [] == a.written;
  }
}
