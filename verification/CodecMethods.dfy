/** The codec's loops: encoders append to one buffer, decoders thread one
    offset. Each is proved equal to its function in module Codec. */
module CodecMethods {
  import opened Bytes
  import opened Sequences
  import opened Codec

  class Writer {
    var buf: Octets

    constructor ()
      ensures buf == []
    {
      buf := [];
    }

    method PutCount(n: nat)
      modifies this
      ensures buf == old(buf) + EncodeCount(n)
    {
      buf := buf + LittleEndian(n, 4);
    }

    method PutBytes(s: Octets)
      modifies this
      ensures buf == old(buf) + EncodeBytes(s)
    {
      Assoc(buf, EncodeCount(|s|), s);
      PutCount(|s|);
      buf := buf + s;
    }

    method PutItems(items: seq<Octets>)
      modifies this
      ensures buf == old(buf) + EncodeItems(items)
    {
      for i := 0 to |items|
        invariant buf + EncodeItems(items[i..]) == old(buf) + EncodeItems(items)
      {
        assert items[i..][1..] == items[i + 1..];
        Assoc(buf, EncodeBytes(items[i]), EncodeItems(items[i + 1..]));
        PutBytes(items[i]);
      }
    }

    method PutPairs(pairs: seq<Pair>)
      modifies this
      ensures buf == old(buf) + EncodePairs(pairs)
    {
      for i := 0 to |pairs|
        invariant buf + EncodePairs(pairs[i..]) == old(buf) + EncodePairs(pairs)
      {
        var key, val := pairs[i].key, pairs[i].val;
        assert pairs[i..][1..] == pairs[i + 1..];
        Assoc(buf, EncodePair(pairs[i]), EncodePairs(pairs[i + 1..]));
        Assoc(buf, EncodeBytes(key), EncodeBytes(val));
        PutBytes(key);
        PutBytes(val);
      }
    }

    method PutField(k: Kind, v: Value)
      requires HasKind(k, v)
      modifies this
      ensures buf == old(buf) + EncodeField(k, v)
      decreases k, 0
    {
      match k
      case U8 => buf := buf + LittleEndian(v.n, 1);
      case Flag => buf := buf + [if v.b then 1 else 0];
      case I16 => buf := buf + LittleEndian(if v.n < 0 then v.n + 65536 else v.n, 2);
      case U16 => buf := buf + LittleEndian(v.n, 2);
      case U32 => buf := buf + LittleEndian(v.n, 4);
      case U64 => buf := buf + LittleEndian(v.n, 8);
      case Text => PutBytes(v.bytes);
      case Blob => PutBytes(v.bytes);
      case Texts =>
        Assoc(buf, EncodeCount(|v.items|), EncodeItems(v.items));
        PutCount(|v.items|);
        PutItems(v.items);
      case Structs(schema) =>
        Assoc(buf, EncodeCount(|v.rows|), EncodeRows(schema, v.rows));
        PutCount(|v.rows|);
        PutRows(schema, v.rows);
      case Blobs =>
        Assoc(buf, EncodeCount(|v.pairs|), EncodePairs(v.pairs));
        PutCount(|v.pairs|);
        PutPairs(v.pairs);
    }

    method PutStruct(schema: Schema, vs: seq<Value>)
      requires HasSchema(schema, vs)
      modifies this
      ensures buf == old(buf) + EncodeStruct(schema, vs)
      decreases schema, 0
    {
      var i := 0;
      while i < |schema|
        invariant i <= |schema| && i <= |vs| && HasSchema(schema[i..], vs[i..])
        invariant buf + EncodeStruct(schema[i..], vs[i..]) == old(buf) + EncodeStruct(schema, vs)
      {
        assert schema[i..][1..] == schema[i + 1..] && vs[i..][1..] == vs[i + 1..];
        Assoc(buf, EncodeField(schema[i], vs[i]), EncodeStruct(schema[i + 1..], vs[i + 1..]));
        PutField(schema[i], vs[i]);
        i := i + 1;
      }
    }

    method PutRows(schema: Schema, rows: seq<seq<Value>>)
      requires HaveSchema(schema, rows)
      modifies this
      ensures buf == old(buf) + EncodeRows(schema, rows)
      decreases schema, 1
    {
      for i := 0 to |rows|
        invariant HaveSchema(schema, rows[i..])
        invariant buf + EncodeRows(schema, rows[i..]) == old(buf) + EncodeRows(schema, rows)
      {
        assert rows[i..][1..] == rows[i + 1..];
        Assoc(buf, EncodeStruct(schema, rows[i]), EncodeRows(schema, rows[i + 1..]));
        PutStruct(schema, rows[i]);
      }
    }
  }

  method ReadBytes(buf: Octets, offset: nat) returns (s: Octets, next: nat)
    requires DecodeBytes(buf, offset).Got?
    ensures DecodeBytes(buf, offset) == Got(s, next)
  {
    var len := FromLittleEndian(buf[offset..offset + 4]);
    s := buf[offset + 4..offset + 4 + len];
    next := offset + 4 + len;
  }

  method ReadItems(count: nat, buf: Octets, start: nat) returns (items: seq<Octets>, offset: nat)
    requires DecodeItems(count, buf, start).Got?
    ensures DecodeItems(count, buf, start) == Got(items, offset)
  {
    items, offset := [], start;
    for i := 0 to count
      invariant DecodeItems(count - i, buf, offset).Got?
      invariant items + DecodeItems(count - i, buf, offset).value == DecodeItems(count, buf, start).value
      invariant DecodeItems(count - i, buf, offset).next == DecodeItems(count, buf, start).next
    {
      var s, next := ReadBytes(buf, offset);
      Assoc(items, [s], DecodeItems(count - i - 1, buf, next).value);
      items := items + [s];
      offset := next;
    }
    assert items + [] == items;
  }

  /** `m[key] = val` on a map kept in key order. */
  method Assign(m: seq<Pair>, p: Pair) returns (r: seq<Pair>)
    ensures r == Put(m, p)
  {
    for i := 0 to |m|
      invariant m[..i] + Put(m[i..], p) == Put(m, p)
    {
      PutStep(m, i, p);
      if m[i].key == p.key {
        return m[..i] + ([p] + m[i + 1..]);
      }
      if Less(p.key, m[i].key) {
        return m[..i] + ([p] + m[i..]);
      }
    }
    assert m[|m|..] == [] && m[..|m|] == m;
    return m + [p];
  }

  lemma PutStep(m: seq<Pair>, i: nat, p: Pair)
    requires i < |m|
    ensures Put(m[i..], p) ==
              if m[i].key == p.key then [p] + m[i + 1..]
              else if Less(p.key, m[i].key) then [p] + m[i..]
              else [m[i]] + Put(m[i + 1..], p)
    ensures forall s :: m[..i] + ([m[i]] + s) == m[..i + 1] + s
  {
    assert m[i..][1..] == m[i + 1..];
    assert m[..i + 1] == m[..i] + [m[i]];
    forall s
      ensures m[..i] + ([m[i]] + s) == m[..i + 1] + s
    {
      Assoc(m[..i], [m[i]], s);
    }
  }

  method ReadPairs(count: nat, buf: Octets, start: nat) returns (m: seq<Pair>, offset: nat)
    requires DecodePairs(count, buf, start).Got?
    ensures m == PutAll([], DecodePairs(count, buf, start).value)
    ensures offset == DecodePairs(count, buf, start).next
  {
    m, offset := [], start;
    for i := 0 to count
      invariant DecodePairs(count - i, buf, offset).Got?
      invariant PutAll(m, DecodePairs(count - i, buf, offset).value) == PutAll([], DecodePairs(count, buf, start).value)
      invariant DecodePairs(count - i, buf, offset).next == DecodePairs(count, buf, start).next
    {
      var key, mid := ReadBytes(buf, offset);
      var val, next := ReadBytes(buf, mid);
      var rest := DecodePairs(count - i - 1, buf, next).value;
      assert DecodePairs(count - i, buf, offset).value == [Pair(key, val)] + rest;
      assert ([Pair(key, val)] + rest)[1..] == rest;
      m := Assign(m, Pair(key, val));
      offset := next;
    }
  }

  method ReadField(k: Kind, buf: Octets, offset: nat) returns (v: Value, next: nat)
    requires DecodeField(k, buf, offset).Got?
    ensures DecodeField(k, buf, offset) == Got(v, next)
    decreases k, 0
  {
    match k
    case U8 => v, next := Num(FromLittleEndian(buf[offset..offset + 1])), offset + 1;
    case Flag => v, next := Bool(buf[offset] != 0), offset + 1;
    case I16 =>
      var n: int := FromLittleEndian(buf[offset..offset + 2]);
      v, next := Num(if n >= 32768 then n - 65536 else n), offset + 2;
    case U16 => v, next := Num(FromLittleEndian(buf[offset..offset + 2])), offset + 2;
    case U32 => v, next := Num(FromLittleEndian(buf[offset..offset + 4])), offset + 4;
    case U64 => v, next := Num(FromLittleEndian(buf[offset..offset + 8])), offset + 8;
    case Text =>
      var s, end := ReadBytes(buf, offset);
      v, next := Str(s), end;
    case Blob =>
      var s, end := ReadBytes(buf, offset);
      v, next := Str(s), end;
    case Texts =>
      var count := FromLittleEndian(buf[offset..offset + 4]);
      var items, end := ReadItems(count, buf, offset + 4);
      v, next := StrList(items), end;
    case Structs(schema) =>
      var count := FromLittleEndian(buf[offset..offset + 4]);
      var rows, end := ReadRows(schema, count, buf, offset + 4);
      v, next := Rows(rows), end;
    case Blobs =>
      var count := FromLittleEndian(buf[offset..offset + 4]);
      var pairs, end := ReadPairs(count, buf, offset + 4);
      v, next := Table(pairs), end;
  }

  method ReadStruct(schema: Schema, buf: Octets, start: nat) returns (vs: seq<Value>, offset: nat)
    requires DecodeStruct(schema, buf, start).Got?
    ensures DecodeStruct(schema, buf, start) == Got(vs, offset)
    decreases schema, 0
  {
    vs, offset := [], start;
    var i := 0;
    while i < |schema|
      invariant i <= |schema|
      invariant DecodeStruct(schema[i..], buf, offset).Got?
      invariant vs + DecodeStruct(schema[i..], buf, offset).value == DecodeStruct(schema, buf, start).value
      invariant DecodeStruct(schema[i..], buf, offset).next == DecodeStruct(schema, buf, start).next
    {
      assert schema[i..][1..] == schema[i + 1..];
      var v, next := ReadField(schema[i], buf, offset);
      Assoc(vs, [v], DecodeStruct(schema[i + 1..], buf, next).value);
      vs := vs + [v];
      offset := next;
      i := i + 1;
    }
    assert vs + [] == vs;
  }

  method ReadRows(schema: Schema, count: nat, buf: Octets, start: nat) returns (rows: seq<seq<Value>>, offset: nat)
    requires DecodeRows(schema, count, buf, start).Got?
    ensures DecodeRows(schema, count, buf, start) == Got(rows, offset)
    decreases schema, 1
  {
    rows, offset := [], start;
    for i := 0 to count
      invariant DecodeRows(schema, count - i, buf, offset).Got?
      invariant rows + DecodeRows(schema, count - i, buf, offset).value == DecodeRows(schema, count, buf, start).value
      invariant DecodeRows(schema, count - i, buf, offset).next == DecodeRows(schema, count, buf, start).next
    {
      var row, next := ReadStruct(schema, buf, offset);
      Assoc(rows, [row], DecodeRows(schema, count - i - 1, buf, next).value);
      rows := rows + [row];
      offset := next;
    }
    assert rows + [] == rows;
  }
}
