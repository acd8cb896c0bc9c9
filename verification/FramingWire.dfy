/** The packet format itself, bit by bit and number by number: what the sender
    puts into a packet, and what the receiver makes of every packet there is. */
module FramingWire {
  import opened Bytes
  import opened Framing

  // --- Bits ---------------------------------------------------------------

  /** Bit 7 marks a continuation. */
  lemma ContinuationBit(b: bv8, rest: Octets)
    ensures IsContinuation([b as int] + rest) <==> b & 0x80 != 0
  {
    HeaderMasks(b);
  }

  /** The two bits below it are the header form, and the five below those the
      length or its upper part. */
  lemma FormBits(b: bv8)
    ensures b & 0x80 == 0 && (b & 0x60) >> 5 == 0 <==> b as int < 32
    ensures b & 0x80 == 0 && (b & 0x60) >> 5 == 1 <==> 32 <= b as int < 64
    ensures b & 0x80 == 0 && (b & 0x60) >> 5 == 2 <==> 64 <= b as int < 96
    ensures b & 0x80 == 0 && (b & 0x60) >> 5 == 3 <==> 96 <= b as int < 128
    ensures (b & 0x1F) as int == b as int % 32
  {
  }

  /** The same in numbers: a start packet by the range of its first byte. */
  lemma FormRanges(b0: Byte, b1: Byte, b2: Byte, rest: Octets)
    ensures b0 < 32 ==> ParseHeader([b0] + rest) == Declares(b0, 1)
    ensures 32 <= b0 < 64 ==> ParseHeader([b0, b1] + rest) == Declares(Word(b0 - 32, b1), 2)
    ensures 64 <= b0 < 96 ==> ParseHeader([b0, b1, b2] + rest) == Declares(Word(b1, b2), 3)
    ensures 96 <= b0 < 128 ==> ParseHeader([b0] + rest) == BadHeader(ReservedHeader)
    ensures 32 <= b0 < 96 ==> ParseHeader([b0]) == BadHeader(TruncatedHeader)
    ensures 64 <= b0 < 96 ==> ParseHeader([b0, b1]) == BadHeader(TruncatedHeader)
  {
  }

  function Declares(len: int, start: nat): Header
    requires len >= 0
  {
    if len == 0 then BadHeader(ZeroLength) else Header(len, start)
  }

  /** GENERAL: five bits of length. */
  lemma GeneralForm(b0: bv8, rest: Octets)
    requires b0 & 0x80 == 0 && (b0 & 0x60) >> 5 == 0
    ensures ParseHeader([b0 as int] + rest) == Declares((b0 & 0x1F) as int, 1)
  {
    FormBits(b0);
    FormRanges(b0 as int, 0, 0, rest);
  }

  /** EXT_13: five bits of length in the first byte and eight in the second. */
  lemma Ext13Form(b0: bv8, b1: bv8, rest: Octets)
    requires b0 & 0x80 == 0 && (b0 & 0x60) >> 5 == 1
    ensures ParseHeader([b0 as int, b1 as int] + rest)
         == Declares(((((b0 & 0x1F) as bv16) << 8) | (b1 as bv16)) as int, 2)
    ensures ParseHeader([b0 as int]) == BadHeader(TruncatedHeader)
  {
    FormBits(b0);
    WordBits(b0 & 0x1F, b1);
    FormRanges(b0 as int, b1 as int, 0, rest);
  }

  /** EXT_16: sixteen bits of length in two bytes of their own. */
  lemma Ext16Form(b0: bv8, b1: bv8, b2: bv8, rest: Octets)
    requires b0 & 0x80 == 0 && (b0 & 0x60) >> 5 == 2
    ensures ParseHeader([b0 as int, b1 as int, b2 as int] + rest)
         == Declares((((b1 as bv16) << 8) | (b2 as bv16)) as int, 3)
    ensures ParseHeader([b0 as int]) == ParseHeader([b0 as int, b1 as int]) == BadHeader(TruncatedHeader)
  {
    FormBits(b0);
    WordBits(b1, b2);
    FormRanges(b0 as int, b1 as int, b2 as int, rest);
  }

  lemma ReservedForm(b0: bv8, rest: Octets)
    requires b0 & 0x80 == 0 && (b0 & 0x60) >> 5 == 3
    ensures ParseHeader([b0 as int] + rest) == BadHeader(ReservedHeader)
  {
    FormBits(b0);
    FormRanges(b0 as int, 0, 0, rest);
  }

  // --- The sender ---------------------------------------------------------

  /** Packets come out for one to 65534 bytes, when the ATT payload exceeds the
      header: two bytes for up to 8190 bytes of message, three from there on. */
  lemma SendableIff(data: Octets, att: nat)
    ensures Fragments(data, att) != []
       <==> 1 <= |data| <= 65534 && att > if |data| <= 8190 then 2 else 3
  {
  }

  lemma LengthOctets(hi: bv8, lo: bv8)
    ensures var len := ((hi as bv16) << 8) | (lo as bv16);
            && (((1 as bv16) << 5) | ((len >> 8) & 0x1F)) as int == 32 + hi as int % 32
            && ((len >> 8) & 0xFF) as int == hi as int && (len & 0xFF) as int == lo as int
    ensures ((2 as bv8) << 5) as int == 64
  {
    LengthBits(hi, lo);
  }

  /** The first packet begins with EXT_13 or EXT_16 and the length, by the masks
      and shifts of the original on the two bytes of the length. */
  lemma FirstHeaderBits(hi: bv8, lo: bv8, data: Octets, att: nat)
    requires |data| == Word(hi as int, lo as int) && Fragments(data, att) != []
    ensures var len := ((hi as bv16) << 8) | (lo as bv16);
            var first := Fragments(data, att)[0];
            if |data| < 8191 then
              && |first| >= 2
              && first[0] == (((1 as bv16) << 5) | ((len >> 8) & 0x1F)) as int && first[1] == (len & 0xFF) as int
            else
              && |first| >= 3 && first[0] == ((2 as bv8) << 5) as int
              && first[1] == ((len >> 8) & 0xFF) as int && first[2] == (len & 0xFF) as int
  {
    LengthOctets(hi, lo);
    FirstHeaderBytes(hi as int, lo as int, data, att);
  }

  lemma FirstHeaderBytes(hi: Byte, lo: Byte, data: Octets, att: nat)
    requires |data| == Word(hi, lo) && Fragments(data, att) != []
    ensures var first := Fragments(data, att)[0];
            if |data| < 8191 then |first| >= 2 && first[0] == 32 + hi % 32 && first[1] == lo
            else |first| >= 3 && first[0] == 64 && first[1] == hi && first[2] == lo
  {
    LengthBytes(hi, lo);
    var header := FirstHeader(|data|);
    var take := Min(att - |header|, |data|);
    assert Fragments(data, att)[0] == header + data[..take];
  }

  lemma {:induction false} ContinuationsFill(data: Octets, room: nat)
    requires room > 0
    ensures var ps := Continuations(data, room);
            && (forall k :: 0 <= k < |ps| ==> ps[k] != [] && ps[k][0] == 0x80)
            && (forall k :: 0 <= k < |ps| - 1 ==> |ps[k]| == room + 1)
            && (ps == [] <==> data == [])
    decreases |data|
  {
    if data != [] {
      var take := Min(room, |data|);
      var rest := Continuations(data[take..], room);
      ContinuationsFill(data[take..], room);
      var ps := Continuations(data, room);
      assert ps[1..] == rest;
      forall k | 1 <= k < |ps|
        ensures ps[k] == rest[k - 1]
      {
      }
    }
  }

  /** Every packet after the first begins with 0x80, and every packet but the
      last fills the ATT payload. */
  lemma PacketsFill(data: Octets, att: nat)
    requires Sendable(data, att)
    ensures var ps := Fragments(data, att);
            && (forall k :: 1 <= k < |ps| ==> ps[k] != [] && ps[k][0] == 0x80)
            && (forall k :: 0 <= k < |ps| - 1 ==> |ps[k]| == att)
  {
    var header := FirstHeader(|data|);
    var take := Min(att - |header|, |data|);
    var rest := Continuations(data[take..], att - 1);
    ContinuationsFill(data[take..], att - 1);
    var ps := Fragments(data, att);
    assert ps[1..] == rest;
    forall k | 1 <= k < |ps|
      ensures ps[k] == rest[k - 1]
    {
    }
  }

  // --- The receiver -------------------------------------------------------

  /** `packet` opens a message of `declared` bytes, of which its own payload
      begins at `start`: one, two or three header bytes, by the first one. */
  predicate Opens(packet: Octets, declared: nat, start: nat) {
    || (|packet| >= 1 && packet[0] < 32 && declared == packet[0] && start == 1)
    || (|packet| >= 2 && 32 <= packet[0] < 64 && declared == (packet[0] as int - 32) * 256 + packet[1] && start == 2)
    || (|packet| >= 3 && 64 <= packet[0] < 96 && declared == packet[1] as int * 256 + packet[2] && start == 3)
  }

  /** `packet` carries `payload` towards a message of which `left` bytes are
      missing. */
  predicate Carries(r: Rx, packet: Octets, payload: Octets, left: nat) {
    || (packet != [] && packet[0] >= 128 && r.inProgress && payload == packet[1..] && left == r.remaining)
    || (exists start :: 1 <= start <= 3 && Opens(packet, left, start) && left > 0 && payload == packet[start..])
  }

  lemma OpensIsHeader(packet: Octets, declared: nat, start: nat)
    ensures Opens(packet, declared, start) && declared > 0
       <==> packet != [] && packet[0] < 128 && ParseHeader(packet) == Header(declared, start)
  {
    if packet != [] && packet[0] < 128 {
      var b0 := packet[0];
      var b1, b2 := if |packet| > 1 then packet[1] else 0, if |packet| > 2 then packet[2] else 0;
      FormRanges(b0, b1, b2, packet[if |packet| < 3 then |packet| else 3..]);
      if b0 < 32 || b0 >= 96 {
        FormRanges(b0, b1, b2, packet[1..]);
        assert packet == [b0] + packet[1..];
      } else if |packet| == 1 {
        assert packet == [b0];
      } else if b0 < 64 {
        FormRanges(b0, b1, b2, packet[2..]);
        assert packet == [b0, b1] + packet[2..];
      } else if |packet| == 2 {
        assert packet == [b0, b1];
      } else {
        assert packet == [b0, b1, b2] + packet[3..];
      }
    }
  }

  /** The verdict on every packet in every receiver state, each by its own
      condition. The five errors about the header: */
  lemma HeaderVerdicts(r: Rx, packet: Octets)
    ensures var v := Feed(r, packet).result;
            && (v == EmptyPacket <==> |packet| == 0)
            && (v == StrayContinuation <==> |packet| > 0 && packet[0] >= 128 && !r.inProgress)
            && (v == TruncatedHeader <==>
                  || (|packet| == 1 && 32 <= packet[0] < 64)
                  || (1 <= |packet| <= 2 && 64 <= packet[0] < 96))
            && (v == ReservedHeader <==> |packet| > 0 && 96 <= packet[0] < 128)
            && (v == ZeroLength <==> exists start :: 1 <= start <= 3 && Opens(packet, 0, start))
  {
    assert packet != [] && packet[0] < 32 && packet[0] == 0 ==> Opens(packet, 0, 1);
    assert |packet| >= 2 && packet[0] == 32 && packet[1] == 0 ==> Opens(packet, 0, 2);
    assert |packet| >= 3 && 64 <= packet[0] < 96 && packet[1] == 0 && packet[2] == 0 ==> Opens(packet, 0, 3);
  }

  /** The three that depend on how much the packet carries, and the new state:
      the bytes held grow by the payload, from nothing if the packet opens a
      message. */
  lemma PayloadVerdicts(r: Rx, packet: Octets, payload: Octets, left: nat)
    requires Carries(r, packet, payload, left)
    ensures var fed := Feed(r, packet);
            var held := if packet[0] >= 128 then r.buf else [];
            && fed.result == (if |payload| > left then Overflow else if |payload| == left then Complete else NeedMore)
            && (|payload| > left ==> fed.rx == Rx([], 0, 0, false))
            && (|payload| <= left ==>
                  && fed.rx.buf == held + payload && fed.rx.remaining == left - |payload|
                  && (fed.rx.inProgress <==> |payload| < left))
  {
    if packet[0] < 128 {
      var start :| 1 <= start <= 3 && Opens(packet, left, start) && payload == packet[start..];
      OpensIsHeader(packet, left, start);
    }
  }

  /** Any packet that draws none of the five header errors carries something. */
  lemma EveryPacketJudged(r: Rx, packet: Octets)
    ensures Feed(r, packet).result in {EmptyPacket, StrayContinuation, TruncatedHeader, ReservedHeader, ZeroLength}
         || exists payload, left :: Carries(r, packet, payload, left)
  {
    if packet != [] && packet[0] >= 128 && r.inProgress {
      assert Carries(r, packet, packet[1..], r.remaining);
    } else if packet != [] && packet[0] < 128 && ParseHeader(packet).Header? {
      var h := ParseHeader(packet);
      OpensIsHeader(packet, h.declared, h.start);
      assert Carries(r, packet, packet[h.start..], h.declared);
    }
  }
}
