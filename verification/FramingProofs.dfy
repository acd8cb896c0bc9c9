/** What fragmentation and reassembly promise together. */
module FramingProofs {
  import opened Bytes
  import opened Framing

  /** The receiver after packets that nobody takes a message out of. */
  function FeedState(r: Rx, packets: seq<Octets>): Rx
    decreases |packets|
  {
    if packets == [] then r else FeedState(Feed(r, packets[0]).rx, packets[1..])
  }

  function FeedResults(r: Rx, packets: seq<Octets>): seq<FeedResult>
    decreases |packets|
  {
    if packets == [] then []
    else [Feed(r, packets[0]).result] + FeedResults(Feed(r, packets[0]).rx, packets[1..])
  }

  /** The receiver after one packet as the session handles it: a completed
      message is taken. */
  function Listen(r: Rx, packet: Octets): Rx {
    var fed := Feed(r, packet);
    if fed.result == Complete then IDLE else fed.rx
  }

  /** The message that one packet delivers, if any. */
  function Delivered(r: Rx, packet: Octets): seq<Octets> {
    var fed := Feed(r, packet);
    if fed.result == Complete then [fed.rx.buf] else []
  }

  function ListenAll(r: Rx, packets: seq<Octets>): Rx
    decreases |packets|
  {
    if packets == [] then r else ListenAll(Listen(r, packets[0]), packets[1..])
  }

  /** The messages that a stream of packets delivers. */
  function Messages(r: Rx, packets: seq<Octets>): seq<Octets>
    decreases |packets|
  {
    if packets == [] then [] else Delivered(r, packets[0]) + Messages(Listen(r, packets[0]), packets[1..])
  }

  lemma {:induction false} StreamAppend(r: Rx, a: seq<Octets>, b: seq<Octets>)
    ensures ListenAll(r, a + b) == ListenAll(ListenAll(r, a), b)
    ensures Messages(r, a + b) == Messages(r, a) + Messages(ListenAll(r, a), b)
    decreases |a|
  {
    if a == [] {
      assert a + b == b;
    } else {
      assert (a + b)[0] == a[0] && (a + b)[1..] == a[1..] + b;
      StreamAppend(Listen(r, a[0]), a[1..], b);
    }
  }

  // --- Round trip ---------------------------------------------------------

  lemma HeaderRoundTrip(len: nat, payload: Octets)
    requires 0 < len <= MAX_MESSAGE_LEN
    ensures var packet := FirstHeader(len) + payload;
            && !IsContinuation(packet)
            && ParseHeader(packet) == Header(len, |FirstHeader(len)|)
            && packet[|FirstHeader(len)|..] == payload
  {
  }

  /** `n` results: every packet but the last asks for more. */
  function LastCompletes(n: nat): seq<FeedResult>
    requires n > 0
  {
    if n == 1 then [Complete] else [NeedMore] + LastCompletes(n - 1)
  }

  lemma {:induction false} ContinuationsRoundTrip(r: Rx, data: Octets, room: nat)
    requires room > 0 && data != []
    requires r.inProgress && r.remaining == |data|
    ensures Continuations(data, room) != []
    ensures FeedState(r, Continuations(data, room)) == Rx(r.buf + data, 0, r.declared, false)
    ensures FeedResults(r, Continuations(data, room)) == LastCompletes(|Continuations(data, room)|)
    decreases |data|
  {
    var take := Min(room, |data|);
    var packet, rest := [CONTINUATION] + data[..take], data[take..];
    var packets := Continuations(data, room);
    assert packet[1..] == data[..take];
    assert packets == [packet] + Continuations(rest, room);
    assert packets[1..] == Continuations(rest, room);
    if rest != [] {
      ContinuationsRoundTrip(Feed(r, packet).rx, rest, room);
      assert r.buf + data[..take] + rest == r.buf + data;
    } else {
      assert data[..take] == data;
    }
  }

  lemma StartRoundTrip(r: Rx, packet: Octets, data: Octets, take: nat, room: nat)
    requires take <= |data| && room > 0
    requires Feed(r, packet) == FirstFed(data, take)
    ensures var packets := [packet] + Continuations(data[take..], room);
            && FeedState(r, packets) == Rx(data, 0, |data|, false)
            && FeedResults(r, packets) == LastCompletes(|packets|)
  {
    var rest := data[take..];
    var packets := [packet] + Continuations(rest, room);
    assert packets[1..] == Continuations(rest, room);
    if rest != [] {
      ContinuationsRoundTrip(Feed(r, packet).rx, rest, room);
      assert data[..take] + rest == data;
    } else {
      assert data[..take] == data;
    }
  }

  /** What the receiver makes of the packet that opens `data`. */
  function FirstFed(data: Octets, take: nat): Fed
    requires take <= |data|
  {
    Fed(Rx(data[..take], |data| - take, |data|, take != |data|),
        if take == |data| then Complete else NeedMore)
  }

  /** From any receiver state whatever, the packets of a message ask for more
      until the last one, which completes exactly that message. */
  lemma RoundTrip(r: Rx, data: Octets, att: nat)
    requires Sendable(data, att)
    ensures Fragments(data, att) != []
    ensures FeedState(r, Fragments(data, att)) == Rx(data, 0, |data|, false)
    ensures FeedResults(r, Fragments(data, att)) == LastCompletes(|Fragments(data, att)|)
  {
    var take := Min(att - |FirstHeader(|data|)|, |data|);
    FirstPacket(r, data, take);
    StartRoundTrip(r, FirstHeader(|data|) + data[..take], data, take, att - 1);
  }

  lemma FirstPacket(r: Rx, data: Octets, take: nat)
    requires 0 < |data| <= MAX_MESSAGE_LEN && take <= |data|
    ensures Feed(r, FirstHeader(|data|) + data[..take])
         == FirstFed(data, take)
  {
    HeaderRoundTrip(|data|, data[..take]);
    assert [] + data[..take] == data[..take];
  }

  lemma {:induction false} DeliversLast(r: Rx, packets: seq<Octets>)
    requires packets != [] && FeedResults(r, packets) == LastCompletes(|packets|)
    ensures ListenAll(r, packets) == IDLE
    ensures Messages(r, packets) == [FeedState(r, packets).buf]
    decreases |packets|
  {
    var r1 := Feed(r, packets[0]).rx;
    assert FeedResults(r, packets)[0] == Feed(r, packets[0]).result;
    assert FeedResults(r, packets)[1..] == FeedResults(r1, packets[1..]);
    if |packets| > 1 {
      assert LastCompletes(|packets|)[1..] == LastCompletes(|packets| - 1);
      DeliversLast(r1, packets[1..]);
    } else {
      assert packets[1..] == [];
    }
  }

  /** Whatever came before, the next intact message is delivered: damage costs
      at most the message it hit. */
  lemma Recovery(r: Rx, garbage: seq<Octets>, data: Octets, att: nat)
    requires Sendable(data, att)
    ensures ListenAll(r, garbage + Fragments(data, att)) == IDLE
    ensures Messages(r, garbage + Fragments(data, att)) == Messages(r, garbage) + [data]
  {
    var r1 := ListenAll(r, garbage);
    RoundTrip(r1, data, att);
    DeliversLast(r1, Fragments(data, att));
    StreamAppend(r, garbage, Fragments(data, att));
  }

  // --- Shape --------------------------------------------------------------

  lemma {:induction false} ContinuationsShape(data: Octets, room: nat)
    requires room > 0
    ensures |Continuations(data, room)| == CeilDiv(|data|, room)
    ensures forall p <- Continuations(data, room) :: 1 < |p| <= room + 1
    decreases |data|
  {
    if data == [] {
      UniqueRemainder(room - 1, room, 0, room - 1);
    } else {
      var take := Min(room, |data|);
      ContinuationsShape(data[take..], room);
      CeilStep(|data|, room);
    }
  }

  lemma CeilStep(n: nat, d: nat)
    requires n > 0 && d > 0
    ensures CeilDiv(n, d) == 1 + CeilDiv(n - Min(d, n), d)
  {
    var m := n - Min(d, n);
    var q, r := (m + d - 1) / d, (m + d - 1) % d;
    if n >= d {
      assert n + d - 1 == d * (q + 1) + r;
      UniqueRemainder(n + d - 1, d, q + 1, r);
    } else {
      UniqueRemainder(d - 1, d, 0, d - 1);
      UniqueRemainder(n + d - 1, d, 1, n - 1);
    }
  }

  /** The packet count, and the two bounds on every packet: it fits the ATT
      payload, and it carries at least one byte beyond its header. */
  lemma PacketCount(data: Octets, att: nat)
    requires Sendable(data, att)
    ensures var h := |FirstHeader(|data|)|;
            var packets := Fragments(data, att);
            && |packets| == 1 + (if |data| <= att - h then 0 else CeilDiv(|data| - (att - h), att - 1))
            && h < |packets[0]| <= att
            && forall i :: 1 <= i < |packets| ==> 1 < |packets[i]| <= att
  {
    var h := |FirstHeader(|data|)|;
    var take := Min(att - h, |data|);
    ContinuationsShape(data[take..], att - 1);
    var packets := Fragments(data, att);
    assert packets[1..] == Continuations(data[take..], att - 1);
    forall i | 1 <= i < |packets|
      ensures 1 < |packets[i]| <= att
    {
      assert packets[i] == packets[1..][i - 1];
      assert packets[i] in Continuations(data[take..], att - 1);
    }
    if |data| <= att - h {
      UniqueRemainder(att - 2, att - 1, 0, att - 2);
    }
  }

  // --- No splicing --------------------------------------------------------

  /** A packet that opens a message. */
  predicate IsStart(packet: Octets) {
    packet != [] && !IsContinuation(packet) && ParseHeader(packet).Header?
  }

  function StartPayload(packet: Octets): Octets
    requires IsStart(packet)
  {
    packet[ParseHeader(packet).start..]
  }

  function DeclaredBy(packet: Octets): nat
    requires IsStart(packet)
  {
    ParseHeader(packet).declared
  }

  /** What continuation packets carry. */
  function Tails(packets: seq<Octets>): Octets
    requires forall i :: 0 <= i < |packets| ==> IsContinuation(packets[i])
  {
    if packets == [] then []
    else
      var last := packets[|packets| - 1];
      assert IsContinuation(last);
      Tails(packets[..|packets| - 1]) + last[1..]
  }

  /** `ps[j..]` is one start packet followed by continuations only. */
  predicate FrameAt(ps: seq<Octets>, j: nat) {
    j < |ps| && IsStart(ps[j]) && forall i :: j < i < |ps| ==> IsContinuation(ps[i])
  }

  function FramePayload(ps: seq<Octets>, j: nat): Octets
    requires FrameAt(ps, j)
  {
    StartPayload(ps[j]) + Tails(ps[j + 1..])
  }

  /** The frame opened at `j` is still short of its declared length. */
  predicate Unfinished(ps: seq<Octets>, j: nat) {
    FrameAt(ps, j) && |FramePayload(ps, j)| < DeclaredBy(ps[j])
  }

  /** The frame opened at `j` reaches its declared length with the last packet
      of `ps`, and not before. */
  predicate Finished(ps: seq<Octets>, j: nat) {
    && FrameAt(ps, j)
    && |FramePayload(ps, j)| == DeclaredBy(ps[j])
    && (j + 1 < |ps| ==> Unfinished(ps[..|ps| - 1], j))
  }

  /** The last packet of `ps` finishes a frame, and `m` is what it carries. */
  ghost predicate CompletesFrame(ps: seq<Octets>, m: Octets) {
    exists j: nat :: Finished(ps, j) && m == FramePayload(ps, j)
  }

  lemma FrameGrows(ps: seq<Octets>, packet: Octets, j: nat)
    requires FrameAt(ps, j) && IsContinuation(packet)
    ensures FrameAt(ps + [packet], j)
    ensures FramePayload(ps + [packet], j) == FramePayload(ps, j) + packet[1..]
  {
    var longer := ps + [packet];
    assert longer[j + 1..] == ps[j + 1..] + [packet];
    var tail := longer[j + 1..];
    assert tail[..|tail| - 1] == ps[j + 1..];
  }

  ghost predicate Holds(r: Rx, ps: seq<Octets>, j: nat)
    requires FrameAt(ps, j)
  {
    r.buf == FramePayload(ps, j) && r.declared == DeclaredBy(ps[j]) && r.remaining == r.declared - |r.buf|
  }

  /** The receiver holds a partial message exactly when the stream so far ends
      in an unfinished frame, and then it holds that frame's bytes. */
  ghost predicate Tracks(r: Rx, ps: seq<Octets>) {
    && (r.inProgress ==> exists j: nat :: Unfinished(ps, j) && Holds(r, ps, j))
    && (forall j: nat :: Unfinished(ps, j) ==> r.inProgress)
  }

  lemma FrameUnique(ps: seq<Octets>, j: nat, k: nat)
    requires FrameAt(ps, j) && FrameAt(ps, k)
    ensures j == k
  {
  }

  /** What `packet` delivers is what the frame it finishes carries. */
  ghost predicate DeliversFrame(r: Rx, ps: seq<Octets>, packet: Octets) {
    forall m :: Delivered(r, packet) == [m] <==> CompletesFrame(ps + [packet], m)
  }

  /** One more packet keeps the receiver in step with the stream, and it
      delivers a message exactly when it finishes a frame. */
  lemma TracksStep(r: Rx, ps: seq<Octets>, packet: Octets)
    requires Tracks(r, ps)
    ensures Tracks(Listen(r, packet), ps + [packet])
    ensures DeliversFrame(r, ps, packet)
  {
    if IsContinuation(packet) {
      if r.inProgress {
        ContinuationStep(r, ps, packet);
      } else {
        StrayStep(r, ps, packet);
      }
    } else {
      StartStep(r, ps, packet);
    }
  }

  lemma StartStep(r: Rx, ps: seq<Octets>, packet: Octets)
    requires !IsContinuation(packet)
    ensures Tracks(Listen(r, packet), ps + [packet])
    ensures DeliversFrame(r, ps, packet)
  {
    var longer, n := ps + [packet], |ps|;
    assert longer[n] == packet;
    forall j: nat | FrameAt(longer, j)
      ensures j == n && IsStart(packet)
    {
    }
    if IsStart(packet) {
      assert FrameAt(longer, n);
      assert longer[n + 1..] == [];
      assert FramePayload(longer, n) == StartPayload(packet);
      assert [] + StartPayload(packet) == StartPayload(packet);
      if |StartPayload(packet)| < DeclaredBy(packet) {
        assert Unfinished(longer, n) && Holds(Listen(r, packet), longer, n);
      }
    }
  }

  lemma FrameShrinks(ps: seq<Octets>, packet: Octets, j: nat)
    requires FrameAt(ps + [packet], j) && IsContinuation(packet)
    ensures FrameAt(ps, j)
    ensures FramePayload(ps + [packet], j) == FramePayload(ps, j) + packet[1..]
  {
    var longer := ps + [packet];
    assert longer[|ps|] == packet;
    assert j < |ps|;
    assert forall i :: 0 <= i < |ps| ==> ps[i] == longer[i];
    FrameGrows(ps, packet, j);
  }

  lemma StrayStep(r: Rx, ps: seq<Octets>, packet: Octets)
    requires Tracks(r, ps) && IsContinuation(packet) && !r.inProgress
    ensures Tracks(Listen(r, packet), ps + [packet])
    ensures DeliversFrame(r, ps, packet)
  {
    var longer := ps + [packet];
    assert longer[..|longer| - 1] == ps;
    forall j: nat | FrameAt(longer, j)
      ensures !Unfinished(longer, j) && !Finished(longer, j)
    {
      FrameShrinks(ps, packet, j);
      assert !Unfinished(ps, j);
    }
  }

  lemma ContinuationStep(r: Rx, ps: seq<Octets>, packet: Octets)
    requires Tracks(r, ps) && IsContinuation(packet) && r.inProgress
    ensures Tracks(Listen(r, packet), ps + [packet])
    ensures DeliversFrame(r, ps, packet)
  {
    var longer := ps + [packet];
    assert longer[..|longer| - 1] == ps;
    var j: nat :| Unfinished(ps, j) && Holds(r, ps, j);
    FrameGrows(ps, packet, j);
    forall k: nat | FrameAt(longer, k)
      ensures k == j
    {
      FrameUnique(longer, j, k);
    }
    assert longer[j] == ps[j];
    var r1 := Listen(r, packet);
    if Unfinished(longer, j) {
      assert Holds(r1, longer, j);
    } else {
      assert !r1.inProgress;
    }
  }

  /** For arbitrary packets: a stream from an idle receiver delivers `m` with
      its last packet exactly when the latest start packet and the
      continuations after it are a frame that this packet finishes, and `m` is
      that frame's payload. Nothing older is ever spliced in. */
  lemma NoSplicing(ps: seq<Octets>, packet: Octets, m: Octets)
    ensures Delivered(ListenAll(IDLE, ps), packet) == [m] <==> CompletesFrame(ps + [packet], m)
  {
    StreamTracks(ps);
    TracksStep(ListenAll(IDLE, ps), ps, packet);
  }

  lemma {:induction false} StreamTracks(ps: seq<Octets>)
    ensures Tracks(ListenAll(IDLE, ps), ps)
    decreases |ps|
  {
    if ps != [] {
      var front, last := ps[..|ps| - 1], ps[|ps| - 1];
      StreamTracks(front);
      assert ps == front + [last];
      TracksStep(ListenAll(IDLE, front), front, last);
      StreamAppend(IDLE, front, [last]);
      assert ListenAll(ListenAll(IDLE, front), [last]) == Listen(ListenAll(IDLE, front), last);
    }
  }

  /** The bookkeeping of a receiver that is idle or mid-message. */
  predicate Balanced(r: Rx) {
    && |r.buf| + r.remaining == r.declared
    && (r.inProgress <==> r.remaining > 0)
  }

  lemma FeedKeepsBalance(r: Rx, packet: Octets)
    requires Balanced(r)
    ensures Balanced(Feed(r, packet).rx)
    ensures Feed(r, packet).result == Complete ==> |Feed(r, packet).rx.buf| == Feed(r, packet).rx.declared > 0
    ensures Feed(r, packet).result !in {NeedMore, Complete} ==> Feed(r, packet).rx == IDLE
  {
    if packet != [] && !IsContinuation(packet) {
      assert ParseHeader(packet).Header? ==> ParseHeader(packet).declared > 0;
    }
  }
}
