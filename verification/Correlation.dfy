/** Correlation ids: native/include/ble_session.h.

    An id packs a channel and one leading byte (narrow), or a channel and the
    two header bytes of a protobuf command (wide). The functions are the
    original's shifts and masks as arithmetic; `NarrowBits` and `WideBits` say
    so. */
module Correlation {
  import opened Bytes

  /** The underlying byte of a channel; the four real ones are below 4. */
  type Channel = Byte

  const CHANNEL_COUNT: nat := 4
  const COMMAND: Channel := 0
  const SETTINGS: Channel := 1
  const QUERY: Channel := 2
  const NETWORK: Channel := 3

  const PROTOBUF_BIT: nat := 0x100_0000

  function CorrelationOf(channel: Channel, leading: Byte): nat {
    channel as int * 256 + leading
  }

  function ResponseAction(request: Byte): Byte {
    if request >= 128 then request else request + 128
  }

  /** The id a reply `[feature][action]...` carries; `action` is already in its
      response form. */
  function WideId(channel: Channel, feature: Byte, action: Byte): nat {
    PROTOBUF_BIT + channel as int * 65536 + feature as int * 256 + action
  }

  function CorrelationOfProtobuf(channel: Channel, feature: Byte, request: Byte): nat {
    WideId(channel, feature, ResponseAction(request))
  }

  function ChannelOf(id: nat): Channel {
    if id / PROTOBUF_BIT % 2 == 1 then id / 65536 % 256 else id / 256 % 256
  }

  // --- The arithmetic is the original's bit operations --------------------

  lemma NarrowBits(channel: bv8, leading: bv8)
    ensures (((channel as bv64) << 8) | (leading as bv64)) as int == CorrelationOf(channel as int, leading as int)
  {
  }

  lemma ActionBits(request: bv8)
    ensures (request | 0x80) as int == ResponseAction(request as int)
  {
  }

  lemma WideBits(channel: bv8, feature: bv8, action: bv8)
    ensures (0x100_0000 | ((channel as bv64) << 16) | ((feature as bv64) << 8) | (action as bv64)) as int
         == WideId(channel as int, feature as int, action as int)
  {
  }

  // --- What the ids promise -----------------------------------------------

  /** The channel is recoverable from either kind of id. */
  lemma ChannelRecovered(channel: Channel, a: Byte, b: Byte)
    ensures ChannelOf(CorrelationOf(channel, a)) == channel
    ensures ChannelOf(WideId(channel, a, b)) == channel
  {
  }

  /** The two id spaces are disjoint, and each is injective: a narrow id
      determines channel and byte, and a protobuf id determines channel, feature
      and the action up to its high bit. */
  lemma IdsDistinct(c: Channel, a: Byte, b: Byte, c': Channel, a': Byte, b': Byte)
    ensures CorrelationOf(c, a) != WideId(c', a', b')
    ensures CorrelationOf(c, a) == CorrelationOf(c', a') <==> c == c' && a == a'
    ensures WideId(c, a, b) == WideId(c', a', b') <==> c == c' && a == a' && b == b'
    ensures CorrelationOfProtobuf(c, a, b) == CorrelationOfProtobuf(c', a', b')
       <==> c == c' && a == a' && b % 128 == b' % 128
  {
  }
}
