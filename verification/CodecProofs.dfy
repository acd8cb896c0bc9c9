/** Decoding is the inverse of encoding, exactly when every size fits its
    32-bit prefix. */
module CodecProofs {
  import opened Bytes
  import opened Codec

  // --- Sizes --------------------------------------------------------------

  predicate FitItems(items: seq<Octets>) {
    |items| < TWO_TO_32 && forall i :: 0 <= i < |items| ==> |items[i]| < TWO_TO_32
  }

  predicate Short(p: Pair) {
    |p.key| < TWO_TO_32 && |p.val| < TWO_TO_32
  }

  predicate ShortPairs(pairs: seq<Pair>) {
    forall i :: 0 <= i < |pairs| ==> Short(pairs[i])
  }

  /** Every length and count in `v` can be stated in 32 bits. */
  predicate Fits(k: Kind, v: Value)
    decreases k, 0
  {
    match k
    case Text => v.Str? ==> |v.bytes| < TWO_TO_32
    case Blob => v.Str? ==> |v.bytes| < TWO_TO_32
    case Texts => v.StrList? ==> FitItems(v.items)
    case Structs(schema) => v.Rows? ==> |v.rows| < TWO_TO_32 && FitRows(schema, v.rows)
    case Blobs => v.Table? ==> |v.pairs| < TWO_TO_32 && ShortPairs(v.pairs)
    case _ => true
  }

  predicate FitStruct(schema: Schema, vs: seq<Value>)
    decreases schema, 0
  {
    schema == [] || vs == [] || (Fits(schema[0], vs[0]) && FitStruct(schema[1..], vs[1..]))
  }

  predicate FitRows(schema: Schema, rows: seq<seq<Value>>)
    decreases schema, 1 + |rows|
  {
    rows == [] || (FitStruct(schema, rows[0]) && FitRows(schema, rows[1..]))
  }

  // --- Round trip ---------------------------------------------------------

  /** `s` stands in `buf` at `offset`. */
  predicate At(buf: Octets, offset: nat, s: Octets) {
    offset + |s| <= |buf| && buf[offset..offset + |s|] == s
  }

  lemma AtParts(buf: Octets, offset: nat, a: Octets, b: Octets)
    requires At(buf, offset, a + b)
    ensures At(buf, offset, a) && At(buf, offset + |a|, b)
  {
    var whole := buf[offset..offset + |a + b|];
    assert buf[offset..offset + |a|] == whole[..|a|] == a;
    assert buf[offset + |a|..offset + |a| + |b|] == whole[|a|..] == b;
  }

  lemma NumberRoundTrip(n: nat, width: nat, buf: Octets, offset: nat)
    requires At(buf, offset, LittleEndian(n, width)) && n < Pow256(width)
    ensures DecodeNumber(buf, offset, width) == Got(n, offset + width)
  {
    LittleEndianRoundTrip(n, width);
    UniqueRemainder(n, Pow256(width), 0, n);
  }

  lemma Widths()
    ensures Pow256(1) == 256 && Pow256(2) == 65536 && Pow256(4) == TWO_TO_32 && Pow256(8) == TWO_TO_64
  {
    assert Pow256(3) == 0x100_0000;
    assert Pow256(6) == 0x1_0000_0000_0000;
  }

  lemma BytesRoundTrip(s: Octets, buf: Octets, offset: nat)
    requires At(buf, offset, EncodeBytes(s)) && |s| < TWO_TO_32
    ensures DecodeBytes(buf, offset) == Got(s, offset + |EncodeBytes(s)|)
  {
    Widths();
    AtParts(buf, offset, EncodeCount(|s|), s);
    NumberRoundTrip(|s|, 4, buf, offset);
  }

  lemma {:induction false} ItemsRoundTrip(items: seq<Octets>, buf: Octets, offset: nat)
    requires At(buf, offset, EncodeItems(items)) && forall i :: 0 <= i < |items| ==> |items[i]| < TWO_TO_32
    ensures DecodeItems(|items|, buf, offset) == Got(items, offset + |EncodeItems(items)|)
  {
    if items != [] {
      var head := EncodeBytes(items[0]);
      AtParts(buf, offset, head, EncodeItems(items[1..]));
      BytesRoundTrip(items[0], buf, offset);
      ItemsRoundTrip(items[1..], buf, offset + |head|);
      assert [items[0]] + items[1..] == items;
    }
  }

  lemma {:induction false} LessAsymmetric(a: Octets, b: Octets)
    requires Less(a, b)
    ensures a != b && !Less(b, a)
  {
    if a != [] && a[0] == b[0] {
      LessAsymmetric(a[1..], b[1..]);
    }
  }

  /** A key after all others is put at the end. */
  lemma {:induction false} PutLast(m: seq<Pair>, p: Pair)
    requires forall i :: 0 <= i < |m| ==> Less(m[i].key, p.key)
    ensures Put(m, p) == m + [p]
  {
    if m != [] {
      LessAsymmetric(m[0].key, p.key);
      PutLast(m[1..], p);
      assert m + [p] == [m[0]] + (m[1..] + [p]);
    }
  }

  lemma PairRoundTrip(p: Pair, buf: Octets, offset: nat)
    requires Short(p) && At(buf, offset, EncodePair(p))
    ensures DecodePair(buf, offset) == Got(p, offset + |EncodePair(p)|)
  {
    AtParts(buf, offset, EncodeBytes(p.key), EncodeBytes(p.val));
    BytesRoundTrip(p.key, buf, offset);
    BytesRoundTrip(p.val, buf, offset + |EncodeBytes(p.key)|);
  }

  lemma PutNext(done: seq<Pair>, pairs: seq<Pair>)
    requires pairs != [] && Ordered(done + pairs)
    ensures Put(done, pairs[0]) == done + [pairs[0]]
    ensures done + pairs == (done + [pairs[0]]) + pairs[1..]
  {
    var all := done + pairs;
    forall i | 0 <= i < |done|
      ensures Less(done[i].key, pairs[0].key)
    {
      assert all[i] == done[i] && all[|done|] == pairs[0];
    }
    PutLast(done, pairs[0]);
  }

  lemma {:induction false} PutAllInOrder(done: seq<Pair>, pairs: seq<Pair>)
    requires Ordered(done + pairs)
    ensures PutAll(done, pairs) == done + pairs
    decreases |pairs|
  {
    if pairs == [] {
      assert done + pairs == done;
    } else {
      PutNext(done, pairs);
      PutAllInOrder(done + [pairs[0]], pairs[1..]);
    }
  }

  lemma FirstPair(pairs: seq<Pair>, buf: Octets, offset: nat) returns (next: nat)
    requires pairs != [] && Short(pairs[0]) && At(buf, offset, EncodePairs(pairs))
    ensures DecodePair(buf, offset) == Got(pairs[0], next)
    ensures At(buf, next, EncodePairs(pairs[1..])) && next + |EncodePairs(pairs[1..])| == offset + |EncodePairs(pairs)|
  {
    next := offset + |EncodePair(pairs[0])|;
    AtParts(buf, offset, EncodePair(pairs[0]), EncodePairs(pairs[1..]));
    PairRoundTrip(pairs[0], buf, offset);
  }

  lemma {:induction false} PairsRoundTrip(pairs: seq<Pair>, buf: Octets, offset: nat)
    requires At(buf, offset, EncodePairs(pairs)) && ShortPairs(pairs)
    ensures DecodePairs(|pairs|, buf, offset) == Got(pairs, offset + |EncodePairs(pairs)|)
  {
    if pairs != [] {
      var next := FirstPair(pairs, buf, offset);
      PairsRoundTrip(pairs[1..], buf, next);
      assert [pairs[0]] + pairs[1..] == pairs;
    }
  }

  lemma {:induction false} FieldRoundTrip(k: Kind, v: Value, buf: Octets, offset: nat)
    requires HasKind(k, v) && Fits(k, v) && At(buf, offset, EncodeField(k, v))
    ensures DecodeField(k, buf, offset) == Got(v, offset + |EncodeField(k, v)|)
    decreases k, 0
  {
    Widths();
    match k
    case U8 => NumberRoundTrip(v.n, 1, buf, offset);
    case Flag =>
      assert buf[offset] == buf[offset..offset + 1][0];
    case I16 => NumberRoundTrip(if v.n < 0 then v.n + 65536 else v.n, 2, buf, offset);
    case U16 => NumberRoundTrip(v.n, 2, buf, offset);
    case U32 => NumberRoundTrip(v.n, 4, buf, offset);
    case U64 => NumberRoundTrip(v.n, 8, buf, offset);
    case Text => BytesRoundTrip(v.bytes, buf, offset);
    case Blob => BytesRoundTrip(v.bytes, buf, offset);
    case Texts =>
      CountRoundTrip(|v.items|, EncodeItems(v.items), buf, offset);
      ItemsRoundTrip(v.items, buf, offset + 4);
    case Structs(schema) =>
      CountRoundTrip(|v.rows|, EncodeRows(schema, v.rows), buf, offset);
      RowsRoundTrip(schema, v.rows, buf, offset + 4);
    case Blobs =>
      CountRoundTrip(|v.pairs|, EncodePairs(v.pairs), buf, offset);
      PairsRoundTrip(v.pairs, buf, offset + 4);
      assert [] + v.pairs == v.pairs;
      PutAllInOrder([], v.pairs);
  }

  lemma CountRoundTrip(n: nat, rest: Octets, buf: Octets, offset: nat)
    requires At(buf, offset, EncodeCount(n) + rest) && n < TWO_TO_32
    ensures DecodeNumber(buf, offset, 4) == Got(n, offset + 4) && At(buf, offset + 4, rest)
  {
    Widths();
    AtParts(buf, offset, EncodeCount(n), rest);
    NumberRoundTrip(n, 4, buf, offset);
  }

  lemma {:induction false} StructRoundTrip(schema: Schema, vs: seq<Value>, buf: Octets, offset: nat)
    requires HasSchema(schema, vs) && FitStruct(schema, vs) && At(buf, offset, EncodeStruct(schema, vs))
    ensures DecodeStruct(schema, buf, offset) == Got(vs, offset + |EncodeStruct(schema, vs)|)
    decreases schema, 0
  {
    if schema != [] {
      var head := EncodeField(schema[0], vs[0]);
      AtParts(buf, offset, head, EncodeStruct(schema[1..], vs[1..]));
      FieldRoundTrip(schema[0], vs[0], buf, offset);
      StructRoundTrip(schema[1..], vs[1..], buf, offset + |head|);
      StructCons(schema, buf, offset, vs, offset + |head|);
    }
  }

  lemma StructCons(schema: Schema, buf: Octets, offset: nat, vs: seq<Value>, mid: nat)
    requires schema != [] && vs != [] && DecodeField(schema[0], buf, offset) == Got(vs[0], mid)
    requires DecodeStruct(schema[1..], buf, mid).Got? && DecodeStruct(schema[1..], buf, mid).value == vs[1..]
    ensures DecodeStruct(schema, buf, offset) == Got(vs, DecodeStruct(schema[1..], buf, mid).next)
  {
    assert [vs[0]] + vs[1..] == vs;
  }

  lemma {:induction false} RowsRoundTrip(schema: Schema, rows: seq<seq<Value>>, buf: Octets, offset: nat)
    requires HaveSchema(schema, rows) && FitRows(schema, rows) && At(buf, offset, EncodeRows(schema, rows))
    ensures DecodeRows(schema, |rows|, buf, offset) == Got(rows, offset + |EncodeRows(schema, rows)|)
    decreases schema, 1 + |rows|
  {
    if rows != [] {
      var head := EncodeStruct(schema, rows[0]);
      AtParts(buf, offset, head, EncodeRows(schema, rows[1..]));
      StructRoundTrip(schema, rows[0], buf, offset);
      RowsRoundTrip(schema, rows[1..], buf, offset + |head|);
      assert [rows[0]] + rows[1..] == rows;
    }
  }

  // --- Whatever is decoded fits -------------------------------------------

  lemma DecodedBytesFit(buf: Octets, offset: nat)
    ensures DecodeBytes(buf, offset).Got? ==> |DecodeBytes(buf, offset).value| < TWO_TO_32
  {
    Widths();
    if offset + 4 <= |buf| {
      FromLittleEndianBound(buf[offset..offset + 4]);
    }
  }

  lemma {:induction false} DecodedItemsFit(count: nat, buf: Octets, offset: nat)
    ensures var d := DecodeItems(count, buf, offset);
            d.Got? ==> |d.value| == count && forall i :: 0 <= i < count ==> |d.value[i]| < TWO_TO_32
    decreases count
  {
    if count > 0 && DecodeBytes(buf, offset).Got? {
      DecodedBytesFit(buf, offset);
      DecodedItemsFit(count - 1, buf, DecodeBytes(buf, offset).next);
    }
  }

  lemma {:induction false} PutFits(m: seq<Pair>, p: Pair)
    requires ShortPairs(m) && Short(p)
    ensures ShortPairs(Put(m, p)) && |Put(m, p)| <= |m| + 1
  {
    if m != [] {
      assert ShortPairs(m[1..]);
      PutFits(m[1..], p);
    }
  }

  lemma {:induction false} PutAllFits(m: seq<Pair>, pairs: seq<Pair>)
    requires ShortPairs(m) && ShortPairs(pairs)
    ensures ShortPairs(PutAll(m, pairs)) && |PutAll(m, pairs)| <= |m| + |pairs|
    decreases |pairs|
  {
    if pairs != [] {
      PutFits(m, pairs[0]);
      PutAllFits(Put(m, pairs[0]), pairs[1..]);
    }
  }

  lemma {:induction false} DecodedPairsFit(count: nat, buf: Octets, offset: nat)
    ensures var d := DecodePairs(count, buf, offset);
            d.Got? ==> |d.value| == count && ShortPairs(d.value)
  {
    var p := DecodePair(buf, offset);
    if count > 0 && p.Got? {
      DecodedBytesFit(buf, offset);
      DecodedBytesFit(buf, DecodeBytes(buf, offset).next);
      DecodedPairsFit(count - 1, buf, p.next);
    }
  }

  lemma CountBound(buf: Octets, offset: nat)
    ensures DecodeNumber(buf, offset, 4).Got? ==> DecodeNumber(buf, offset, 4).value < TWO_TO_32
  {
    Widths();
    if offset + 4 <= |buf| {
      FromLittleEndianBound(buf[offset..offset + 4]);
    }
  }

  lemma {:induction false} DecodedFits(k: Kind, buf: Octets, offset: nat)
    ensures DecodeField(k, buf, offset).Got? ==> Fits(k, DecodeField(k, buf, offset).value)
    decreases k, 0
  {
    CountBound(buf, offset);
    var count := DecodeNumber(buf, offset, 4);
    match k
    case Text => DecodedBytesFit(buf, offset);
    case Blob => DecodedBytesFit(buf, offset);
    case Texts =>
      if count.Got? {
        DecodedItemsFit(count.value, buf, count.next);
      }
    case Structs(schema) =>
      if count.Got? {
        DecodedRowsFit(schema, count.value, buf, count.next);
      }
    case Blobs =>
      if count.Got? {
        DecodedPairsFit(count.value, buf, count.next);
        if DecodePairs(count.value, buf, count.next).Got? {
          PutAllFits([], DecodePairs(count.value, buf, count.next).value);
        }
      }
    case _ =>
  }

  lemma {:induction false} DecodedStructFits(schema: Schema, buf: Octets, offset: nat)
    ensures DecodeStruct(schema, buf, offset).Got? ==> FitStruct(schema, DecodeStruct(schema, buf, offset).value)
    decreases schema, 0
  {
    if schema != [] && DecodeStruct(schema, buf, offset).Got? {
      DecodedFits(schema[0], buf, offset);
      DecodedStructFits(schema[1..], buf, DecodeField(schema[0], buf, offset).next);
    }
  }

  lemma {:induction false} DecodedRowsFit(schema: Schema, count: nat, buf: Octets, offset: nat)
    ensures var d := DecodeRows(schema, count, buf, offset);
            d.Got? ==> |d.value| == count && FitRows(schema, d.value)
    decreases schema, 1 + count
  {
    if count > 0 && DecodeRows(schema, count, buf, offset).Got? {
      DecodedStructFits(schema, buf, offset);
      DecodedRowsFit(schema, count - 1, buf, DecodeStruct(schema, buf, offset).next);
    }
  }

  /** For every schema and every record: decoding what was encoded, wherever it
      stands in a buffer, returns the record and its exact length, if and only
      if every size in the record is below 2^32. */
  lemma CodecRoundTripIff(schema: Schema, vs: seq<Value>, before: Octets, after: Octets)
    requires HasSchema(schema, vs)
    ensures DecodeStruct(schema, before + EncodeStruct(schema, vs) + after, |before|)
              == Got(vs, |before| + |EncodeStruct(schema, vs)|)
       <==> FitStruct(schema, vs)
  {
    var code := EncodeStruct(schema, vs);
    var buf := before + code + after;
    assert buf[|before|..|before| + |code|] == code;
    if FitStruct(schema, vs) {
      StructRoundTrip(schema, vs, buf, |before|);
    } else {
      DecodedStructFits(schema, buf, |before|);
    }
  }
}
