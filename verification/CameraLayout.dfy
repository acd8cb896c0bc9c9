/** The camera record on the wire, field by field, and what the Dart side makes
    of it. */
module CameraLayout {
  import opened Bytes
  import opened Codec
  import opened CodecProofs
  import opened CodecLayout
  import opened Camera

  /** Every number fits the width of its field. */
  predicate InRange(c: CameraRecord) {
    && c.vid < 65536 && c.pid < 65536 && c.bus < 256 && c.address < 256
    && c.serialSource < 256 && c.readiness < 256 && c.elapsedMs < TWO_TO_32
  }

  /** Every string has a length that 32 bits can state. */
  predicate StringsFit(c: CameraRecord) {
    && |c.sysfsName| < TWO_TO_32 && |c.serial| < TWO_TO_32
    && |c.ip| < TWO_TO_32 && |c.netdev| < TWO_TO_32 && |c.netdevFirstSeen| < TWO_TO_32
    && |c.linkState| < TWO_TO_32 && |c.hostIp| < TWO_TO_32
  }

  function U16Bytes(n: nat): Octets
    requires n < 65536
  {
    [n % 256, n / 256]
  }

  function FlagByte(b: bool): Octets {
    if b then [1] else [0]
  }

  /** The bytes of a record. */
  function Record(c: CameraRecord): Octets
    requires InRange(c)
  {
    U16Bytes(c.vid) + U16Bytes(c.pid) + [c.bus] + [c.address]
    + (EncodeBytes(c.sysfsName) + EncodeBytes(c.serial) + [c.serialSource]
       + (EncodeBytes(c.ip) + EncodeBytes(c.netdev) + EncodeBytes(c.netdevFirstSeen)
          + (FlagByte(c.netdevRenamed) + EncodeBytes(c.linkState) + EncodeBytes(c.hostIp)
             + ([c.readiness] + FlagByte(c.hasCdc) + LittleEndian(c.elapsedMs, 4)))))
  }

  // --- The schema lays it out like that -----------------------------------

  lemma ThreeEncoded(schema: Schema, vs: seq<Codec.Value>,
                     k0: Kind, k1: Kind, k2: Kind, v0: Codec.Value, v1: Codec.Value, v2: Codec.Value)
    requires schema == [k0, k1, k2] && vs == [v0, v1, v2]
    requires HasKind(k0, v0) && HasKind(k1, v1) && HasKind(k2, v2)
    ensures HasSchema(schema, vs)
    ensures EncodeStruct(schema, vs) == EncodeField(k0, v0) + EncodeField(k1, v1) + EncodeField(k2, v2)
    ensures FitStruct(schema, vs) <==> Fits(k0, v0) && Fits(k1, v1) && Fits(k2, v2)
  {
    var s2, w2 := [k2] + [], [v2] + [];
    var s1, w1 := [k1] + s2, [v1] + w2;
    assert schema == [k0] + s1 && vs == [v0] + w1;
    Consed(k2, v2, [], []);
    Consed(k1, v1, s2, w2);
    Consed(k0, v0, s1, w1);
    SumOfThree(EncodeField(k0, v0), EncodeField(k1, v1), EncodeField(k2, v2));
  }

  lemma SumOfThree(a: Octets, b: Octets, c: Octets)
    ensures a + (b + (c + [])) == a + b + c
  {
  }

  lemma Consed(k: Kind, v: Codec.Value, schema: Schema, vs: seq<Codec.Value>)
    requires HasKind(k, v) && HasSchema(schema, vs)
    ensures HasSchema([k] + schema, [v] + vs)
    ensures EncodeStruct([k] + schema, [v] + vs) == EncodeField(k, v) + EncodeStruct(schema, vs)
    ensures FitStruct([k] + schema, [v] + vs) <==> Fits(k, v) && FitStruct(schema, vs)
  {
    FieldsCons(k, v, schema, vs);
    FitsCons(k, v, schema, vs);
  }

  lemma FitsCons(k: Kind, v: Codec.Value, schema: Schema, vs: seq<Codec.Value>)
    ensures FitStruct([k] + schema, [v] + vs) <==> Fits(k, v) && FitStruct(schema, vs)
  {
    assert ([k] + schema)[1..] == schema && ([v] + vs)[1..] == vs;
  }

  lemma {:induction false} FitsAppend(a: Schema, va: seq<Codec.Value>, b: Schema, vb: seq<Codec.Value>)
    requires |a| == |va|
    ensures FitStruct(a + b, va + vb) <==> FitStruct(a, va) && FitStruct(b, vb)
    decreases |a|
  {
    if a == [] {
      assert a + b == b && va + vb == vb;
    } else {
      assert (a + b)[0] == a[0] && (a + b)[1..] == a[1..] + b;
      assert (va + vb)[0] == va[0] && (va + vb)[1..] == va[1..] + vb;
      FitsAppend(a[1..], va[1..], b, vb);
    }
  }

  lemma IdentityEncoded(x: Identity)
    requires x.vid < 65536 && x.pid < 65536 && x.bus < 256 && x.address < 256
    ensures HasSchema(IDENTITY, x.Fields()) && FitStruct(IDENTITY, x.Fields())
    ensures EncodeStruct(IDENTITY, x.Fields()) == U16Bytes(x.vid) + U16Bytes(x.pid) + [x.bus] + [x.address]
  {
    assert IDENTITY == [U16] + [U16, U8, U8];
    assert x.Fields() == [Num(x.vid)] + [Num(x.pid), Num(x.bus), Num(x.address)];
    NumberLayout(U16, Num(x.vid));
    NumberLayout(U16, Num(x.pid));
    NumberLayout(U8, Num(x.bus));
    NumberLayout(U8, Num(x.address));
    var rest, vs := [U16, U8, U8], [Num(x.pid), Num(x.bus), Num(x.address)];
    ThreeEncoded(rest, vs, U16, U8, U8, Num(x.pid), Num(x.bus), Num(x.address));
    Consed(U16, Num(x.vid), rest, vs);
  }

  lemma NamesEncoded(x: Names)
    requires x.serialSource < 256
    ensures HasSchema(NAMES, x.Fields())
    ensures FitStruct(NAMES, x.Fields()) <==> |x.sysfsName| < TWO_TO_32 && |x.serial| < TWO_TO_32
    ensures EncodeStruct(NAMES, x.Fields()) == EncodeBytes(x.sysfsName) + EncodeBytes(x.serial) + [x.serialSource]
  {
    NumberLayout(U8, Num(x.serialSource));
    ThreeEncoded(NAMES, x.Fields(), Text, Text, U8, Str(x.sysfsName), Str(x.serial), Num(x.serialSource));
  }

  lemma NetworkEncoded(x: Network)
    ensures HasSchema(NETWORK, x.Fields())
    ensures FitStruct(NETWORK, x.Fields())
       <==> |x.ip| < TWO_TO_32 && |x.netdev| < TWO_TO_32 && |x.netdevFirstSeen| < TWO_TO_32
    ensures EncodeStruct(NETWORK, x.Fields())
         == EncodeBytes(x.ip) + EncodeBytes(x.netdev) + EncodeBytes(x.netdevFirstSeen)
  {
    ThreeEncoded(NETWORK, x.Fields(), Text, Text, Text, Str(x.ip), Str(x.netdev), Str(x.netdevFirstSeen));
  }

  lemma LinkEncoded(x: Camera.Link)
    ensures HasSchema(LINK, x.Fields())
    ensures FitStruct(LINK, x.Fields()) <==> |x.linkState| < TWO_TO_32 && |x.hostIp| < TWO_TO_32
    ensures EncodeStruct(LINK, x.Fields())
         == FlagByte(x.netdevRenamed) + EncodeBytes(x.linkState) + EncodeBytes(x.hostIp)
  {
    NumberLayout(Flag, Bool(x.netdevRenamed));
    ThreeEncoded(LINK, x.Fields(), Flag, Text, Text, Bool(x.netdevRenamed), Str(x.linkState), Str(x.hostIp));
  }

  lemma StatusEncoded(x: Status)
    requires x.readiness < 256 && x.elapsed < TWO_TO_32
    ensures HasSchema(STATUS, x.Fields()) && FitStruct(STATUS, x.Fields())
    ensures EncodeStruct(STATUS, x.Fields()) == [x.readiness] + FlagByte(x.hasCdc) + LittleEndian(x.elapsed, 4)
  {
    NumberLayout(U8, Num(x.readiness));
    NumberLayout(Flag, Bool(x.hasCdc));
    ThreeEncoded(STATUS, x.Fields(), U8, Flag, U32, Num(x.readiness), Bool(x.hasCdc), Num(x.elapsed));
  }

  /** A record in range has the schema's kinds, is encoded as `Record` says, and
      has sizes that fit exactly if its strings do. */
  lemma RecordEncoded(schema: Schema, c: CameraRecord)
    requires schema == CAMERA && InRange(c)
    ensures HasSchema(schema, Values(c)) && EncodeStruct(schema, Values(c)) == Record(c)
    ensures FitStruct(schema, Values(c)) <==> StringsFit(c)
  {
    var i, n := Identity(c.vid, c.pid, c.bus, c.address), Names(c.sysfsName, c.serial, c.serialSource);
    var w, l := Network(c.ip, c.netdev, c.netdevFirstSeen), Camera.Link(c.netdevRenamed, c.linkState, c.hostIp);
    var t := Status(c.readiness, c.hasCdc, c.elapsedMs);
    assert Assemble(i, n, w, l, t) == c;
    RecordGroups(IDENTITY, NAMES, NETWORK, LINK, STATUS, i, n, w, l, t);
    assert CAMERA == IDENTITY + (NAMES + (NETWORK + (LINK + STATUS)));
  }

  lemma RecordGroups(a: Schema, b: Schema, c: Schema, d: Schema, e: Schema,
                     i: Identity, n: Names, w: Network, l: Camera.Link, t: Status)
    requires a == IDENTITY && b == NAMES && c == NETWORK && d == LINK && e == STATUS
    requires InRange(Assemble(i, n, w, l, t))
    ensures var schema, record := a + (b + (c + (d + e))), Assemble(i, n, w, l, t);
            && HasSchema(schema, Values(record)) && EncodeStruct(schema, Values(record)) == Record(record)
            && (FitStruct(schema, Values(record)) <==> StringsFit(record))
  {
    IdentityEncoded(i);
    NamesEncoded(n);
    NetworkEncoded(w);
    LinkEncoded(l);
    StatusEncoded(t);
    assert |a| == 4 && |b| == |c| == |d| == 3;
    GroupsEncoded(a, b, c, d, e, i.Fields(), n.Fields(), w.Fields(), l.Fields(), t.Fields());
  }

  lemma GroupsEncoded(a: Schema, b: Schema, c: Schema, d: Schema, e: Schema,
                      va: seq<Codec.Value>, vb: seq<Codec.Value>, vc: seq<Codec.Value>,
                      vd: seq<Codec.Value>, ve: seq<Codec.Value>)
    requires HasSchema(a, va) && HasSchema(b, vb) && HasSchema(c, vc) && HasSchema(d, vd) && HasSchema(e, ve)
    requires |a| == |va| && |b| == |vb| && |c| == |vc| && |d| == |vd|
    ensures var schema, vs := a + (b + (c + (d + e))), va + (vb + (vc + (vd + ve)));
            && HasSchema(schema, vs)
            && EncodeStruct(schema, vs)
               == EncodeStruct(a, va) + (EncodeStruct(b, vb) + (EncodeStruct(c, vc)
                  + (EncodeStruct(d, vd) + EncodeStruct(e, ve))))
            && (FitStruct(schema, vs) <==>
                  FitStruct(a, va) && FitStruct(b, vb) && FitStruct(c, vc) && FitStruct(d, vd) && FitStruct(e, ve))
  {
    FieldsInOrder(d, vd, e, ve);
    FieldsInOrder(c, vc, d + e, vd + ve);
    FieldsInOrder(b, vb, c + (d + e), vc + (vd + ve));
    FieldsInOrder(a, va, b + (c + (d + e)), vb + (vc + (vd + ve)));
    FitsAppend(d, vd, e, ve);
    FitsAppend(c, vc, d + e, vd + ve);
    FitsAppend(b, vb, c + (d + e), vc + (vd + ve));
    FitsAppend(a, va, b + (c + (d + e)), vb + (vc + (vd + ve)));
  }

  // --- The Dart side ------------------------------------------------------

  /** The schema of the record, as far as reading it back goes. */
  lemma RecordSchema(c: CameraRecord) returns (schema: Schema)
    requires InRange(c)
    ensures ReadByDart(schema) && HasSchema(schema, Values(c)) && EncodeStruct(schema, Values(c)) == Record(c)
    ensures FitStruct(schema, Values(c)) <==> StringsFit(c)
  {
    schema := CAMERA;
    ReadersAgree();
    RecordEncoded(schema, c);
  }

  /** The Dart reads get a record back from those bytes, wherever they stand, if
      and only if its strings fit. */
  lemma RecordReadBack(c: CameraRecord, before: Octets, after: Octets)
    requires InRange(c)
    ensures CameraAt(before + Record(c) + after, |before|) == Got(c, |before| + |Record(c)|) <==> StringsFit(c)
  {
    var schema := RecordSchema(c);
    ReadBackIff(schema, c, before, after);
  }

  /** What the Dart side presents: every field as it is, and the two enumerations
      by number, anything unknown being none and absent. */
  lemma Presented(c: CameraRecord)
    ensures var g := Present(c);
            && g.vid == c.vid && g.pid == c.pid && g.bus == c.bus && g.address == c.address
            && g.sysfsName == c.sysfsName && g.serial == c.serial
            && g.ip == c.ip && g.netdev == c.netdev && g.netdevFirstSeen == c.netdevFirstSeen
            && g.netdevRenamed == c.netdevRenamed && g.linkState == c.linkState && g.hostIp == c.hostIp
            && g.hasCdc == c.hasCdc && g.elapsed == c.elapsedMs
    ensures var source := Present(c).serialSource;
            && (source == Descriptor <==> c.serialSource == 1) && (source == Sysfs <==> c.serialSource == 2)
            && (source == NoSerial <==> c.serialSource !in {1, 2})
    ensures var readiness := Present(c).readiness;
            && (readiness == UsbPresent <==> c.readiness == 1) && (readiness == NetdevBound <==> c.readiness == 2)
            && (readiness == HostAddressed <==> c.readiness == 3) && (readiness == L3Ready <==> c.readiness == 4)
            && (readiness == Absent <==> c.readiness !in {1, 2, 3, 4})
  {
  }

  /** Every event payload: 1 and 2 head a record that arrived or left, 0 is the
      sentinel, anything else is ignored, and a record that runs past the end
      throws. */
  lemma EventOfBytes(data: Octets)
    ensures EventIn(data) == Read.Value(Ignored) <==> data == [] || data[0] > 2
    ensures EventIn(data) == Read.Value(Sentinel) <==> data != [] && data[0] == 0
    ensures EventIn(data) == Thrown <==> data != [] && 1 <= data[0] <= 2 && CameraAt(data, 1).OutOfBounds?
    ensures forall c :: data != [] && data[0] == 1 && CameraAt(data, 1).Got? && CameraAt(data, 1).value == c ==>
              EventIn(data) == Read.Value(Updated(Present(c)))
    ensures forall c :: data != [] && data[0] == 2 && CameraAt(data, 1).Got? && CameraAt(data, 1).value == c ==>
              EventIn(data) == Read.Value(Left(Present(c)))
  {
  }

  /** The posted bytes of a record come out as its event. */
  lemma RecordEvent(kind: Byte, c: CameraRecord)
    requires InRange(c) && StringsFit(c) && (kind == 1 || kind == 2)
    ensures EventIn([kind] + Record(c))
         == Read.Value(if kind == 1 then Updated(Present(c)) else Left(Present(c)))
  {
    var schema := RecordSchema(c);
    EventReadBack(schema, kind, c);
  }
}
