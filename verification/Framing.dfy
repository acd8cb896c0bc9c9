/** Packet fragmentation and reassembly: native/src/ble_protocol.cpp.

    The specification of each operation is a function on values; the methods
    below it have the shape of the original and are proved equal to it. */
module Framing {
  import opened Bytes

  const MAX_MESSAGE_LEN: nat := 65534
  const MIN_ATT_PAYLOAD: nat := 20
  const CONTINUATION: Byte := 128

  datatype FeedResult =
    | NeedMore
    | Complete
    | EmptyPacket
    | TruncatedHeader
    | ReservedHeader
    | StrayContinuation
    | Overflow
    | ZeroLength

  // --- Transmit -----------------------------------------------------------

  /** The first-packet header: EXT_13 below 2^13 - 1, EXT_16 from there on. */
  function FirstHeader(len: nat): (h: Octets)
    ensures |h| == if len < 8191 then 2 else 3
  {
    if len < 8191
    then [32 + len / 256 % 32, len % 256]
    else [64, len / 256 % 256, len % 256]
  }

  /** Exactly the inputs that `Fragments` turns into at least one packet. */
  predicate Sendable(data: Octets, att: nat) {
    0 < |data| <= MAX_MESSAGE_LEN && att > |FirstHeader(|data|)|
  }

  function Continuations(data: Octets, room: nat): seq<Octets>
    requires room > 0
    decreases |data|
  {
    if data == [] then []
    else
      var take := Min(room, |data|);
      [[CONTINUATION] + data[..take]] + Continuations(data[take..], room)
  }

  function Fragments(data: Octets, att: nat): seq<Octets> {
    if !Sendable(data, att) then []
    else
      var header := FirstHeader(|data|);
      var take := Min(att - |header|, |data|);
      [header + data[..take]] + Continuations(data[take..], att - 1)
  }

  method Fragment(data: Octets, att: nat) returns (out: seq<Octets>)
    ensures out == Fragments(data, att)
  {
    out := [];
    if data == [] || |data| > MAX_MESSAGE_LEN {
      return;
    }
    var len := |data|;
    var firstHeader := FirstHeader(len);
    if att <= |firstHeader| {
      return;
    }
    var offset, first := 0, true;
    while offset < len
      invariant offset <= len && (first ==> offset == 0)
      invariant out + StillToSend(data, att, offset, first) == Fragments(data, att)
    {
      var packet := [CONTINUATION];
      if first {
        packet := firstHeader;
      }
      var take := Min(att - |packet|, len - offset);
      NextPacket(data, att, offset, first, packet, take);
      packet := packet + data[offset..offset + take];
      first := false;
      offset := offset + take;
      out := out + [packet];
    }
  }

  /** The packets that the loop of `Fragment` has yet to emit. */
  ghost function StillToSend(data: Octets, att: nat, offset: nat, first: bool): seq<Octets>
    requires Sendable(data, att) && offset <= |data|
  {
    if first then Fragments(data, att) else Continuations(data[offset..], att - 1)
  }

  lemma NextPacket(data: Octets, att: nat, offset: nat, first: bool, header: Octets, take: nat)
    requires Sendable(data, att) && offset < |data| && (first ==> offset == 0)
    requires header == if first then FirstHeader(|data|) else [CONTINUATION]
    requires take == Min(att - |header|, |data| - offset)
    ensures StillToSend(data, att, offset, first)
         == [header + data[offset..offset + take]] + StillToSend(data, att, offset + take, false)
  {
    assert data[offset..][..take] == data[offset..offset + take];
    assert data[offset..][take..] == data[offset + take..];
  }

  // --- Receive ------------------------------------------------------------

  /** The fields of a reassembler. */
  datatype Rx = Rx(buf: Octets, remaining: nat, declared: nat, inProgress: bool)

  const IDLE := Rx([], 0, 0, false)

  datatype Header = Header(declared: nat, start: nat) | BadHeader(error: FeedResult)

  predicate IsContinuation(packet: Octets) {
    packet != [] && packet[0] >= CONTINUATION
  }

  /** Decodes the header of a packet that starts a message. */
  function ParseHeader(packet: Octets): (h: Header)
    requires packet != [] && !IsContinuation(packet)
    ensures h.Header? ==> h.start <= |packet|
    ensures h.BadHeader? ==> h.error in {TruncatedHeader, ReservedHeader, ZeroLength}
  {
    var kind := packet[0] / 32 % 4;
    var h :=
      if kind == 0 then Header(packet[0] % 32, 1)
      else if kind == 1 then
        if |packet| < 2 then BadHeader(TruncatedHeader)
        else Header(Word(packet[0] % 32, packet[1]), 2)
      else if kind == 2 then
        if |packet| < 3 then BadHeader(TruncatedHeader)
        else Header(Word(packet[1], packet[2]), 3)
      else BadHeader(ReservedHeader);
    if h.Header? && h.declared == 0 then BadHeader(ZeroLength) else h
  }

  /** The receiver after a packet, and the verdict on that packet. */
  datatype Fed = Fed(rx: Rx, result: FeedResult)

  function Absorb(r: Rx, payload: Octets): Fed {
    if |payload| > r.remaining then Fed(IDLE, Overflow)
    else
      var left := r.remaining - |payload|;
      Fed(Rx(r.buf + payload, left, r.declared, r.inProgress && left != 0),
          if left == 0 then Complete else NeedMore)
  }

  function Feed(r: Rx, packet: Octets): Fed {
    if packet == [] then Fed(IDLE, EmptyPacket)
    else if IsContinuation(packet) then
      if !r.inProgress then Fed(IDLE, StrayContinuation) else Absorb(r, packet[1..])
    else
      match ParseHeader(packet)
      case BadHeader(error) => Fed(IDLE, error)
      case Header(declared, start) => Absorb(Rx([], declared, declared, true), packet[start..])
  }

  class Reassembler {
    var buf: Octets
    var remaining: nat
    var declared: nat
    var inProgress: bool

    function State(): Rx
      reads this
    {
      Rx(buf, remaining, declared, inProgress)
    }

    constructor ()
      ensures State() == IDLE
    {
      buf, remaining, declared, inProgress := [], 0, 0, false;
    }

    method Reset()
      modifies this
      ensures State() == IDLE
    {
      buf := [];
      remaining := 0;
      declared := 0;
      inProgress := false;
    }

    method FeedPacket(packet: Octets) returns (result: FeedResult)
      modifies this
      ensures Fed(State(), result) == Feed(old(State()), packet)
    {
      if packet == [] {
        Reset();
        return EmptyPacket;
      }
      var payloadStart := 0;
      if packet[0] >= CONTINUATION {
        if !inProgress {
          Reset();
          return StrayContinuation;
        }
        payloadStart := 1;
      } else {
        buf := [];
        var kind := packet[0] / 32 % 4;
        if kind == 0 {
          declared := packet[0] % 32;
          payloadStart := 1;
        } else if kind == 1 {
          if |packet| < 2 {
            Reset();
            return TruncatedHeader;
          }
          declared := Word(packet[0] % 32, packet[1]);
          payloadStart := 2;
        } else if kind == 2 {
          if |packet| < 3 {
            Reset();
            return TruncatedHeader;
          }
          declared := Word(packet[1], packet[2]);
          payloadStart := 3;
        } else {
          Reset();
          return ReservedHeader;
        }
        if declared == 0 {
          Reset();
          return ZeroLength;
        }
        remaining := declared;
        inProgress := true;
      }
      var payloadLen := |packet| - payloadStart;
      if payloadLen > remaining {
        Reset();
        return Overflow;
      }
      buf := buf + packet[payloadStart..];
      remaining := remaining - payloadLen;
      if remaining == 0 {
        inProgress := false;
        return Complete;
      }
      return NeedMore;
    }

    method Take() returns (out: Octets)
      modifies this
      ensures out == old(State()).buf && State() == IDLE
    {
      out := buf;
      buf := [];
      remaining := 0;
      declared := 0;
      inProgress := false;
    }
  }
}
