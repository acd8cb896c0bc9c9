/** The schema-directed binary codec: native/include/glaze_meta.h.

    The original is a family of overloads selected by a struct's field list at
    compile time. Here the field list is a value, a `Schema`, and one encoder
    and one decoder interpret it. Reading past the end of a buffer is undefined
    in the original; the decoding functions say `OutOfBounds` there and the
    decoding methods require that it does not happen. */
module Codec {
  import opened Bytes

  const TWO_TO_32: nat := 0x1_0000_0000

  datatype Kind = U8 | Flag | I16 | U16 | U32 | U64 | Text | Texts | Blob | Structs(schema: Schema) | Blobs

  type Schema = seq<Kind>

  datatype Pair = Pair(key: Octets, val: Octets)

  /** `Str` serves both strings and byte vectors. A `Table` is a string-keyed
      map in its iteration order. */
  datatype Value =
    | Num(n: int)
    | Bool(b: bool)
    | Str(bytes: Octets)
    | StrList(items: seq<Octets>)
    | Rows(rows: seq<seq<Value>>)
    | Table(pairs: seq<Pair>)

  datatype Decoded<T> = Got(value: T, next: nat) | OutOfBounds

  // --- Values of a kind ---------------------------------------------------

  /** The order of map keys: bytewise, a prefix first. */
  predicate Less(a: Octets, b: Octets) {
    b != [] && (a == [] || a[0] < b[0] || (a[0] == b[0] && Less(a[1..], b[1..])))
  }

  predicate Ordered(pairs: seq<Pair>) {
    forall i, j :: 0 <= i < j < |pairs| ==> Less(pairs[i].key, pairs[j].key)
  }

  predicate HasKind(k: Kind, v: Value)
    decreases k, 0
  {
    match k
    case U8 => v.Num? && 0 <= v.n < 256
    case Flag => v.Bool?
    case I16 => v.Num? && -32768 <= v.n < 32768
    case U16 => v.Num? && 0 <= v.n < 65536
    case U32 => v.Num? && 0 <= v.n < TWO_TO_32
    case U64 => v.Num? && 0 <= v.n < TWO_TO_64
    case Text => v.Str?
    case Texts => v.StrList?
    case Blob => v.Str?
    case Structs(schema) => v.Rows? && schema != [] && HaveSchema(schema, v.rows)
    case Blobs => v.Table? && Ordered(v.pairs)
  }

  predicate HasSchema(schema: Schema, vs: seq<Value>)
    decreases schema, 0
  {
    if schema == [] then vs == []
    else vs != [] && HasKind(schema[0], vs[0]) && HasSchema(schema[1..], vs[1..])
  }

  predicate HaveSchema(schema: Schema, rows: seq<seq<Value>>)
    decreases schema, 1 + |rows|
  {
    rows == [] || (HasSchema(schema, rows[0]) && HaveSchema(schema, rows[1..]))
  }

  // --- Encoding -----------------------------------------------------------

  /** A length or count, truncated to 32 bits. */
  function EncodeCount(n: nat): Octets {
    LittleEndian(n, 4)
  }

  function EncodeBytes(s: Octets): Octets {
    EncodeCount(|s|) + s
  }

  function EncodeItems(items: seq<Octets>): Octets {
    if items == [] then [] else EncodeBytes(items[0]) + EncodeItems(items[1..])
  }

  function EncodePair(p: Pair): Octets {
    EncodeBytes(p.key) + EncodeBytes(p.val)
  }

  function EncodePairs(pairs: seq<Pair>): Octets {
    if pairs == [] then [] else EncodePair(pairs[0]) + EncodePairs(pairs[1..])
  }

  function EncodeField(k: Kind, v: Value): Octets
    requires HasKind(k, v)
    decreases k, 0
  {
    match k
    case U8 => LittleEndian(v.n, 1)
    case Flag => [if v.b then 1 else 0]
    case I16 => LittleEndian(if v.n < 0 then v.n + 65536 else v.n, 2)
    case U16 => LittleEndian(v.n, 2)
    case U32 => LittleEndian(v.n, 4)
    case U64 => LittleEndian(v.n, 8)
    case Text => EncodeBytes(v.bytes)
    case Texts => EncodeCount(|v.items|) + EncodeItems(v.items)
    case Blob => EncodeBytes(v.bytes)
    case Structs(schema) => EncodeCount(|v.rows|) + EncodeRows(schema, v.rows)
    case Blobs => EncodeCount(|v.pairs|) + EncodePairs(v.pairs)
  }

  function EncodeStruct(schema: Schema, vs: seq<Value>): Octets
    requires HasSchema(schema, vs)
    decreases schema, 0
  {
    if schema == [] then [] else EncodeField(schema[0], vs[0]) + EncodeStruct(schema[1..], vs[1..])
  }

  function EncodeRows(schema: Schema, rows: seq<seq<Value>>): Octets
    requires HaveSchema(schema, rows)
    decreases schema, 1 + |rows|
  {
    if rows == [] then [] else EncodeStruct(schema, rows[0]) + EncodeRows(schema, rows[1..])
  }

  // --- Decoding -----------------------------------------------------------

  function DecodeNumber(buf: Octets, offset: nat, width: nat): Decoded<nat> {
    if offset + width > |buf| then OutOfBounds
    else Got(FromLittleEndian(buf[offset..offset + width]), offset + width)
  }

  function DecodeBytes(buf: Octets, offset: nat): Decoded<Octets> {
    var len := DecodeNumber(buf, offset, 4);
    if len.OutOfBounds? || len.next + len.value > |buf| then OutOfBounds
    else Got(buf[len.next..len.next + len.value], len.next + len.value)
  }

  function DecodeItems(count: nat, buf: Octets, offset: nat): Decoded<seq<Octets>> {
    if count == 0 then Got([], offset)
    else
      var s := DecodeBytes(buf, offset);
      if s.OutOfBounds? then OutOfBounds
      else
        var rest := DecodeItems(count - 1, buf, s.next);
        if rest.OutOfBounds? then OutOfBounds else Got([s.value] + rest.value, rest.next)
  }

  /** Assignment under a key: replaces, or inserts in order. */
  function Put(pairs: seq<Pair>, p: Pair): seq<Pair> {
    if pairs == [] then [p]
    else if pairs[0].key == p.key then [p] + pairs[1..]
    else if Less(p.key, pairs[0].key) then [p] + pairs
    else [pairs[0]] + Put(pairs[1..], p)
  }

  function DecodePair(buf: Octets, offset: nat): Decoded<Pair> {
    var key := DecodeBytes(buf, offset);
    if key.OutOfBounds? then OutOfBounds
    else
      var val := DecodeBytes(buf, key.next);
      if val.OutOfBounds? then OutOfBounds else Got(Pair(key.value, val.value), val.next)
  }

  /** Assignment under each key in turn. */
  function PutAll(m: seq<Pair>, pairs: seq<Pair>): seq<Pair>
    decreases |pairs|
  {
    if pairs == [] then m else PutAll(Put(m, pairs[0]), pairs[1..])
  }

  /** The pairs of a map as they come, keys in any order, maybe repeated. */
  function DecodePairs(count: nat, buf: Octets, offset: nat): Decoded<seq<Pair>> {
    if count == 0 then Got([], offset)
    else
      var p := DecodePair(buf, offset);
      if p.OutOfBounds? then OutOfBounds
      else
        var rest := DecodePairs(count - 1, buf, p.next);
        if rest.OutOfBounds? then OutOfBounds else Got([p.value] + rest.value, rest.next)
  }

  function AsNumber(d: Decoded<nat>): Decoded<Value> {
    if d.Got? then Got(Num(d.value), d.next) else OutOfBounds
  }

  function DecodeField(k: Kind, buf: Octets, offset: nat): Decoded<Value>
    decreases k, 1
  {
    if k.Texts? || k.Structs? || k.Blobs? then DecodeMany(k, buf, offset) else DecodeScalar(k, buf, offset)
  }

  /** Numbers, flags, strings and byte vectors. */
  function DecodeScalar(k: Kind, buf: Octets, offset: nat): Decoded<Value>
    requires !k.Texts? && !k.Structs? && !k.Blobs?
  {
    match k
    case U8 => AsNumber(DecodeNumber(buf, offset, 1))
    case Flag => if offset < |buf| then Got(Bool(buf[offset] != 0), offset + 1) else OutOfBounds
    case I16 => AsSigned(DecodeNumber(buf, offset, 2))
    case U16 => AsNumber(DecodeNumber(buf, offset, 2))
    case U32 => AsNumber(DecodeNumber(buf, offset, 4))
    case U64 => AsNumber(DecodeNumber(buf, offset, 8))
    case Text => AsStr(DecodeBytes(buf, offset))
    case Blob => AsStr(DecodeBytes(buf, offset))
  }

  /** A count, and that many elements. */
  function DecodeMany(k: Kind, buf: Octets, offset: nat): Decoded<Value>
    requires k.Texts? || k.Structs? || k.Blobs?
    decreases k, 0
  {
    var count := DecodeNumber(buf, offset, 4);
    if count.OutOfBounds? then OutOfBounds
    else
      match k
      case Texts =>
        var d := DecodeItems(count.value, buf, count.next);
        if d.Got? then Got(StrList(d.value), d.next) else OutOfBounds
      case Structs(schema) =>
        var d := DecodeRows(schema, count.value, buf, count.next);
        if d.Got? then Got(Rows(d.value), d.next) else OutOfBounds
      case Blobs =>
        var d := DecodePairs(count.value, buf, count.next);
        if d.Got? then Got(Table(PutAll([], d.value)), d.next) else OutOfBounds
  }

  /** Two's complement, 16 bits. */
  function AsSigned(d: Decoded<nat>): Decoded<Value> {
    if d.OutOfBounds? then OutOfBounds
    else Got(Num(if d.value >= 32768 then d.value as int - 65536 else d.value), d.next)
  }

  function AsStr(d: Decoded<Octets>): Decoded<Value> {
    if d.Got? then Got(Str(d.value), d.next) else OutOfBounds
  }

  function DecodeStruct(schema: Schema, buf: Octets, offset: nat): Decoded<seq<Value>>
    decreases schema, 0
  {
    if schema == [] then Got([], offset)
    else
      var v := DecodeField(schema[0], buf, offset);
      if v.OutOfBounds? then OutOfBounds
      else
        var rest := DecodeStruct(schema[1..], buf, v.next);
        if rest.OutOfBounds? then OutOfBounds else Got([v.value] + rest.value, rest.next)
  }

  function DecodeRows(schema: Schema, count: nat, buf: Octets, offset: nat): Decoded<seq<seq<Value>>>
    decreases schema, 1 + count
  {
    if count == 0 then Got([], offset)
    else
      var row := DecodeStruct(schema, buf, offset);
      if row.OutOfBounds? then OutOfBounds
      else
        var rest := DecodeRows(schema, count - 1, buf, row.next);
        if rest.OutOfBounds? then OutOfBounds else Got([row.value] + rest.value, rest.next)
  }
}
