/** The camera record: its schema (native/include/gopro_types.h) and the second,
    independent reader of its encoding (lib/src/ffi/codec.dart). */
module Camera {
  import opened Bytes
  import opened Codec
  import opened CodecProofs

  datatype CameraRecord = CameraRecord(
    vid: nat, pid: nat, bus: nat, address: nat,
    sysfsName: Octets, serial: Octets, serialSource: nat,
    ip: Octets, netdev: Octets, netdevFirstSeen: Octets, netdevRenamed: bool,
    linkState: Octets, hostIp: Octets, readiness: nat, hasCdc: bool, elapsedMs: nat)

  const CAMERA: Schema :=
    [U16, U16, U8, U8, Text, Text, U8, Text, Text, Text, Flag, Text, Text, U8, Flag, U32]

  function Values(c: CameraRecord): seq<Codec.Value> {
    [Num(c.vid), Num(c.pid), Num(c.bus), Num(c.address),
     Str(c.sysfsName), Str(c.serial), Num(c.serialSource),
     Str(c.ip), Str(c.netdev), Str(c.netdevFirstSeen), Bool(c.netdevRenamed),
     Str(c.linkState), Str(c.hostIp), Num(c.readiness), Bool(c.hasCdc), Num(c.elapsedMs)]
  }

  // --- The Dart side ------------------------------------------------------

  datatype SerialSource = NoSerial | Descriptor | Sysfs

  datatype Readiness = Absent | UsbPresent | NetdevBound | HostAddressed | L3Ready

  datatype GoProCamera = GoProCamera(
    vid: nat, pid: nat, bus: nat, address: nat,
    sysfsName: Octets, serial: Octets, serialSource: SerialSource,
    ip: Octets, netdev: Octets, netdevFirstSeen: Octets, netdevRenamed: bool,
    linkState: Octets, hostIp: Octets, readiness: Readiness, hasCdc: bool, elapsed: nat)

  /** What a read gives: a value, or an exception. */
  datatype Read<+T> = Value(v: T) | Thrown {
    predicate IsFailure() {
      Thrown?
    }
    function PropagateFailure<U>(): Read<U>
      requires Thrown?
    {
      Thrown
    }
    function Extract(): T
      requires Value?
    {
      v
    }
  }

  function SerialSourceOf(v: nat): SerialSource {
    if v == 1 then Descriptor else if v == 2 then Sysfs else NoSerial
  }

  function ReadinessOf(v: nat): Readiness {
    if v == 1 then UsbPresent else if v == 2 then NetdevBound else if v == 3 then HostAddressed
    else if v == 4 then L3Ready else Absent
  }

  /** A record as the Dart side presents it. */
  function Present(c: CameraRecord): GoProCamera {
    GoProCamera(c.vid, c.pid, c.bus, c.address, c.sysfsName, c.serial, SerialSourceOf(c.serialSource),
                c.ip, c.netdev, c.netdevFirstSeen, c.netdevRenamed, c.linkState, c.hostIp,
                ReadinessOf(c.readiness), c.hasCdc, c.elapsedMs)
  }

  // --- The reads, as functions --------------------------------------------

  function FlagAt(data: Octets, offset: nat): Decoded<bool> {
    if offset < |data| then Got(data[offset] != 0, offset + 1) else OutOfBounds
  }

  // The arguments of the Dart constructor call, in five groups.

  datatype Identity = Identity(vid: nat, pid: nat, bus: nat, address: nat) {
    function Fields(): seq<Codec.Value> {
      [Num(vid), Num(pid), Num(bus), Num(address)]
    }
  }

  const IDENTITY: Schema := [U16, U16, U8, U8]

  function IdentityAt(data: Octets, offset: nat): Decoded<Identity> {
    var vid := DecodeNumber(data, offset, 2);
    if vid.OutOfBounds? then OutOfBounds else
    var pid := DecodeNumber(data, vid.next, 2);
    if pid.OutOfBounds? then OutOfBounds else
    var bus := DecodeNumber(data, pid.next, 1);
    if bus.OutOfBounds? then OutOfBounds else
    var address := DecodeNumber(data, bus.next, 1);
    if address.OutOfBounds? then OutOfBounds else
    Got(Identity(vid.value, pid.value, bus.value, address.value), address.next)
  }

  datatype Names = Names(sysfsName: Octets, serial: Octets, serialSource: nat) {
    function Fields(): seq<Codec.Value> {
      [Str(sysfsName), Str(serial), Num(serialSource)]
    }
  }

  const NAMES: Schema := [Text, Text, U8]

  function NamesAt(data: Octets, offset: nat): Decoded<Names> {
    var sysfsName := DecodeBytes(data, offset);
    if sysfsName.OutOfBounds? then OutOfBounds else
    var serial := DecodeBytes(data, sysfsName.next);
    if serial.OutOfBounds? then OutOfBounds else
    var serialSource := DecodeNumber(data, serial.next, 1);
    if serialSource.OutOfBounds? then OutOfBounds else
    Got(Names(sysfsName.value, serial.value, serialSource.value), serialSource.next)
  }

  datatype Network = Network(ip: Octets, netdev: Octets, netdevFirstSeen: Octets) {
    function Fields(): seq<Codec.Value> {
      [Str(ip), Str(netdev), Str(netdevFirstSeen)]
    }
  }

  const NETWORK: Schema := [Text, Text, Text]

  function NetworkAt(data: Octets, offset: nat): Decoded<Network> {
    var ip := DecodeBytes(data, offset);
    if ip.OutOfBounds? then OutOfBounds else
    var netdev := DecodeBytes(data, ip.next);
    if netdev.OutOfBounds? then OutOfBounds else
    var netdevFirstSeen := DecodeBytes(data, netdev.next);
    if netdevFirstSeen.OutOfBounds? then OutOfBounds else
    Got(Network(ip.value, netdev.value, netdevFirstSeen.value), netdevFirstSeen.next)
  }

  datatype Link = Link(netdevRenamed: bool, linkState: Octets, hostIp: Octets) {
    function Fields(): seq<Codec.Value> {
      [Bool(netdevRenamed), Str(linkState), Str(hostIp)]
    }
  }

  const LINK: Schema := [Flag, Text, Text]

  function LinkAt(data: Octets, offset: nat): Decoded<Link> {
    var netdevRenamed := FlagAt(data, offset);
    if netdevRenamed.OutOfBounds? then OutOfBounds else
    var linkState := DecodeBytes(data, netdevRenamed.next);
    if linkState.OutOfBounds? then OutOfBounds else
    var hostIp := DecodeBytes(data, linkState.next);
    if hostIp.OutOfBounds? then OutOfBounds else
    Got(Link(netdevRenamed.value, linkState.value, hostIp.value), hostIp.next)
  }

  datatype Status = Status(readiness: nat, hasCdc: bool, elapsed: nat) {
    function Fields(): seq<Codec.Value> {
      [Num(readiness), Bool(hasCdc), Num(elapsed)]
    }
  }

  const STATUS: Schema := [U8, Flag, U32]

  function StatusAt(data: Octets, offset: nat): Decoded<Status> {
    var readiness := DecodeNumber(data, offset, 1);
    if readiness.OutOfBounds? then OutOfBounds else
    var hasCdc := FlagAt(data, readiness.next);
    if hasCdc.OutOfBounds? then OutOfBounds else
    var elapsed := DecodeNumber(data, hasCdc.next, 4);
    if elapsed.OutOfBounds? then OutOfBounds else
    Got(Status(readiness.value, hasCdc.value, elapsed.value), elapsed.next)
  }

  /** All sixteen reads in the order the Dart code makes them. */
  function CameraAt(data: Octets, offset: nat): Decoded<CameraRecord> {
    var i := IdentityAt(data, offset);
    if i.OutOfBounds? then OutOfBounds else
    var n := NamesAt(data, i.next);
    if n.OutOfBounds? then OutOfBounds else
    var w := NetworkAt(data, n.next);
    if w.OutOfBounds? then OutOfBounds else
    var l := LinkAt(data, w.next);
    if l.OutOfBounds? then OutOfBounds else
    var t := StatusAt(data, l.next);
    if t.OutOfBounds? then OutOfBounds else
    Got(Assemble(i.value, n.value, w.value, l.value, t.value), t.next)
  }

  function Assemble(i: Identity, n: Names, w: Network, l: Link, t: Status): (c: CameraRecord)
    ensures Values(c) == i.Fields() + (n.Fields() + (w.Fields() + (l.Fields() + t.Fields())))
  {
    CameraRecord(
      i.vid, i.pid, i.bus, i.address, n.sysfsName, n.serial, n.serialSource,
      w.ip, w.netdev, w.netdevFirstSeen, l.netdevRenamed, l.linkState, l.hostIp, t.readiness, t.hasCdc, t.elapsed)
  }

  /** A read returned what was decoded and moved on, or it threw. */
  ghost predicate Gives<T(!new)>(d: Decoded<T>, r: Read<T>, offset: nat) {
    if d.OutOfBounds? then r == Thrown else r == Read.Value(d.value) && offset == d.next
  }

  // --- The two readers agree ----------------------------------------------

  function AsFields<T>(d: Decoded<T>, fields: T -> seq<Codec.Value>): Decoded<seq<Codec.Value>> {
    if d.OutOfBounds? then OutOfBounds else Got(fields(d.value), d.next)
  }

  function Prepend(vs: seq<Codec.Value>, d: Decoded<seq<Codec.Value>>): Decoded<seq<Codec.Value>> {
    if d.Got? then Got(vs + d.value, d.next) else OutOfBounds
  }

  lemma ConsField(k: Kind, rest: Schema, data: Octets, offset: nat)
    ensures var d := DecodeField(k, data, offset);
            DecodeStruct([k] + rest, data, offset) ==
              if d.OutOfBounds? then OutOfBounds else Prepend([d.value], DecodeStruct(rest, data, d.next))
  {
    assert ([k] + rest)[1..] == rest;
  }

  /** Three fields, one after the other. */
  function ThreeAt(k0: Kind, k1: Kind, k2: Kind, data: Octets, offset: nat): Decoded<seq<Codec.Value>> {
    var d0 := DecodeField(k0, data, offset);
    if d0.OutOfBounds? then OutOfBounds else
    var d1 := DecodeField(k1, data, d0.next);
    if d1.OutOfBounds? then OutOfBounds else
    var d2 := DecodeField(k2, data, d1.next);
    if d2.OutOfBounds? then OutOfBounds else
    Got([d0.value, d1.value, d2.value], d2.next)
  }

  lemma ThreeFields(k0: Kind, k1: Kind, k2: Kind, data: Octets, offset: nat)
    ensures DecodeStruct([k0, k1, k2], data, offset) == ThreeAt(k0, k1, k2, data, offset)
  {
    assert [k0, k1, k2] == [k0] + [k1, k2] && [k1, k2] == [k1] + [k2] && [k2] == [k2] + [];
    ConsField(k0, [k1, k2], data, offset);
    var d0 := DecodeField(k0, data, offset);
    if d0.Got? {
      ConsField(k1, [k2], data, d0.next);
      var d1 := DecodeField(k1, data, d0.next);
      if d1.Got? {
        ConsField(k2, [], data, d1.next);
        var d2 := DecodeField(k2, data, d1.next);
        assert d2.Got? ==> [d0.value] + ([d1.value] + ([d2.value] + [])) == [d0.value, d1.value, d2.value];
      }
    }
  }

  lemma IdentityAgrees(data: Octets, offset: nat)
    ensures DecodeStruct(IDENTITY, data, offset) == AsFields(IdentityAt(data, offset), (x: Identity) => x.Fields())
  {
    assert IDENTITY == [U16] + [U16, U8, U8];
    ConsField(U16, [U16, U8, U8], data, offset);
    var d := DecodeField(U16, data, offset);
    if d.Got? {
      ThreeFields(U16, U8, U8, data, d.next);
      var rest := ThreeAt(U16, U8, U8, data, d.next);
      assert rest.Got? ==> [d.value] + rest.value == [d.value, rest.value[0], rest.value[1], rest.value[2]];
    }
  }

  lemma NamesAgrees(data: Octets, offset: nat)
    ensures DecodeStruct(NAMES, data, offset) == AsFields(NamesAt(data, offset), (x: Names) => x.Fields())
  {
    ThreeFields(Text, Text, U8, data, offset);
  }

  lemma NetworkAgrees(data: Octets, offset: nat)
    ensures DecodeStruct(NETWORK, data, offset) == AsFields(NetworkAt(data, offset), (x: Network) => x.Fields())
  {
    ThreeFields(Text, Text, Text, data, offset);
  }

  lemma LinkAgrees(data: Octets, offset: nat)
    ensures DecodeStruct(LINK, data, offset) == AsFields(LinkAt(data, offset), (x: Link) => x.Fields())
  {
    ThreeFields(Flag, Text, Text, data, offset);
  }

  lemma StatusAgrees(data: Octets, offset: nat)
    ensures DecodeStruct(STATUS, data, offset) == AsFields(StatusAt(data, offset), (x: Status) => x.Fields())
  {
    ThreeFields(U8, Flag, U32, data, offset);
  }

  lemma {:induction false} StructAppend(a: Schema, b: Schema, data: Octets, offset: nat)
    ensures var first := DecodeStruct(a, data, offset);
            DecodeStruct(a + b, data, offset) ==
              if first.OutOfBounds? then OutOfBounds else Prepend(first.value, DecodeStruct(b, data, first.next))
    decreases |a|
  {
    var second := DecodeStruct(b, data, offset);
    if a == [] {
      assert a + b == b;
      assert second.Got? ==> [] + second.value == second.value;
    } else {
      assert (a + b)[0] == a[0] && (a + b)[1..] == a[1..] + b;
      var d := DecodeField(a[0], data, offset);
      if d.Got? {
        StructAppend(a[1..], b, data, d.next);
        var first := DecodeStruct(a[1..], data, d.next);
        if first.Got? {
          var rest := DecodeStruct(b, data, first.next);
          assert rest.Got? ==> [d.value] + (first.value + rest.value) == ([d.value] + first.value) + rest.value;
        }
      }
    }
  }

  lemma GroupsAgree(a: Schema, b: Schema, c: Schema, d: Schema, e: Schema, data: Octets, offset: nat)
    requires a == IDENTITY && b == NAMES && c == NETWORK && d == LINK && e == STATUS
    ensures DecodeStruct(a + (b + (c + (d + e))), data, offset) == AsFields(CameraAt(data, offset), Values)
  {
    StructAppend(a, b + (c + (d + e)), data, offset);
    IdentityAgrees(data, offset);
    var i := IdentityAt(data, offset);
    if i.Got? {
      StructAppend(b, c + (d + e), data, i.next);
      NamesAgrees(data, i.next);
      var n := NamesAt(data, i.next);
      if n.Got? {
        StructAppend(c, d + e, data, n.next);
        NetworkAgrees(data, n.next);
        var w := NetworkAt(data, n.next);
        if w.Got? {
          StructAppend(d, e, data, w.next);
          LinkAgrees(data, w.next);
          var l := LinkAt(data, w.next);
          if l.Got? {
            StatusAgrees(data, l.next);
          }
        }
      }
    }
  }

  /** The Dart reads follow `schema`: on every byte string and at every offset
      they and the C++ decoder see the same record and consume the same bytes,
      or both run past the end. */
  ghost predicate ReadByDart(schema: Schema) {
    forall data, offset :: DecodeStruct(schema, data, offset) == AsFields(CameraAt(data, offset), Values)
  }

  lemma ReadersAgree()
    ensures ReadByDart(CAMERA)
  {
    assert CAMERA == IDENTITY + (NAMES + (NETWORK + (LINK + STATUS)));
    forall data, offset
      ensures DecodeStruct(CAMERA, data, offset) == AsFields(CameraAt(data, offset), Values)
    {
      GroupsAgree(IDENTITY, NAMES, NETWORK, LINK, STATUS, data, offset);
    }
  }

  lemma SameValues(a: CameraRecord, b: CameraRecord)
    requires Values(a) == Values(b)
    ensures a == b
  {
    assert Values(a)[0] == Values(b)[0] && Values(a)[1] == Values(b)[1] && Values(a)[2] == Values(b)[2];
    assert Values(a)[3] == Values(b)[3] && Values(a)[4] == Values(b)[4] && Values(a)[5] == Values(b)[5];
    assert Values(a)[6] == Values(b)[6] && Values(a)[7] == Values(b)[7] && Values(a)[8] == Values(b)[8];
    assert Values(a)[9] == Values(b)[9] && Values(a)[10] == Values(b)[10] && Values(a)[11] == Values(b)[11];
    assert Values(a)[12] == Values(b)[12] && Values(a)[13] == Values(b)[13];
    assert Values(a)[14] == Values(b)[14] && Values(a)[15] == Values(b)[15];
  }

  lemma ReadBack(s: Decoded<seq<Codec.Value>>, d: Decoded<CameraRecord>, c: CameraRecord, end: nat)
    requires s == AsFields(d, Values)
    ensures s == Got(Values(c), end) <==> d == Got(c, end)
  {
    if d.Got? && Values(d.value) == Values(c) {
      SameValues(d.value, c);
    }
  }

  /** The Dart reads get back every record that the C++ side encodes, wherever it
      stands, if and only if its sizes fit; strings are compared as bytes. */
  lemma CameraRoundTripIff(schema: Schema, c: CameraRecord, before: Octets, after: Octets)
    requires schema == CAMERA && HasSchema(schema, Values(c))
    ensures var code := EncodeStruct(schema, Values(c));
            CameraAt(before + code + after, |before|) == Got(c, |before| + |code|) <==> FitStruct(schema, Values(c))
  {
    ReadersAgree();
    ReadBackIff(schema, c, before, after);
  }

  lemma ReadBackIff(schema: Schema, c: CameraRecord, before: Octets, after: Octets)
    requires ReadByDart(schema) && HasSchema(schema, Values(c))
    ensures var code := EncodeStruct(schema, Values(c));
            CameraAt(before + code + after, |before|) == Got(c, |before| + |code|) <==> FitStruct(schema, Values(c))
  {
    var vs := Values(c);
    var code := EncodeStruct(schema, vs);
    CodecRoundTripIff(schema, vs, before, after);
    DartSees(schema, before + code + after, |before|, c, |before| + |code|);
  }

  lemma DartSees(schema: Schema, data: Octets, offset: nat, c: CameraRecord, end: nat)
    requires ReadByDart(schema)
    ensures DecodeStruct(schema, data, offset) == Got(Values(c), end) <==> CameraAt(data, offset) == Got(c, end)
  {
    ReadBack(DecodeStruct(schema, data, offset), CameraAt(data, offset), c, end);
  }

  // --- The reader ---------------------------------------------------------

  class Reader {
    const data: Octets
    var offset: nat

    constructor (data: Octets, offset: nat)
      ensures this.data == data && this.offset == offset
    {
      this.data, this.offset := data, offset;
    }

    method ReadUint8() returns (r: Read<nat>)
      modifies this
      ensures Gives(DecodeNumber(data, old(offset), 1), r, offset)
    {
      if offset >= |data| {
        return Thrown;
      }
      assert data[offset..offset + 1] == [data[offset]];
      assert FromLittleEndian([data[offset]]) == data[offset];
      r := Read.Value(data[offset]);
      offset := offset + 1;
    }

    method ReadBool() returns (r: Read<bool>)
      modifies this
      ensures Gives(FlagAt(data, old(offset)), r, offset)
    {
      if offset >= |data| {
        return Thrown;
      }
      r := Read.Value(data[offset] != 0);
      offset := offset + 1;
    }

    method ReadUint16() returns (r: Read<nat>)
      modifies this
      ensures Gives(DecodeNumber(data, old(offset), 2), r, offset)
    {
      if offset + 2 > |data| {
        return Thrown;
      }
      r := Read.Value(FromLittleEndian(data[offset..offset + 2]));
      offset := offset + 2;
    }

    method ReadUint32() returns (r: Read<nat>)
      modifies this
      ensures Gives(DecodeNumber(data, old(offset), 4), r, offset)
    {
      if offset + 4 > |data| {
        return Thrown;
      }
      r := Read.Value(FromLittleEndian(data[offset..offset + 4]));
      offset := offset + 4;
    }

    /** An empty string returns early; a length that overruns the data throws. */
    method ReadString() returns (r: Read<Octets>)
      modifies this
      ensures Gives(DecodeBytes(data, old(offset)), r, offset)
    {
      if offset + 4 > |data| {
        return Thrown;
      }
      var len := FromLittleEndian(data[offset..offset + 4]);
      offset := offset + 4;
      if len == 0 {
        assert data[offset..offset] == [];
        return Read.Value([]);
      }
      if offset + len > |data| {
        return Thrown;
      }
      r := Read.Value(data[offset..offset + len]);
      offset := offset + len;
    }

    method ReadIdentity() returns (r: Read<Identity>)
      modifies this
      ensures Gives(IdentityAt(data, old(offset)), r, offset)
    {
      var vid :- ReadUint16();
      var pid :- ReadUint16();
      var bus :- ReadUint8();
      var address :- ReadUint8();
      return Read.Value(Identity(vid, pid, bus, address));
    }

    method ReadNames() returns (r: Read<Names>)
      modifies this
      ensures Gives(NamesAt(data, old(offset)), r, offset)
    {
      var sysfsName :- ReadString();
      var serial :- ReadString();
      var serialSource :- ReadUint8();
      return Read.Value(Names(sysfsName, serial, serialSource));
    }

    method ReadNetwork() returns (r: Read<Network>)
      modifies this
      ensures Gives(NetworkAt(data, old(offset)), r, offset)
    {
      var ip :- ReadString();
      var netdev :- ReadString();
      var netdevFirstSeen :- ReadString();
      return Read.Value(Network(ip, netdev, netdevFirstSeen));
    }

    method ReadLink() returns (r: Read<Link>)
      modifies this
      ensures Gives(LinkAt(data, old(offset)), r, offset)
    {
      var netdevRenamed :- ReadBool();
      var linkState :- ReadString();
      var hostIp :- ReadString();
      return Read.Value(Link(netdevRenamed, linkState, hostIp));
    }

    method ReadStatus() returns (r: Read<Status>)
      modifies this
      ensures Gives(StatusAt(data, old(offset)), r, offset)
    {
      var readiness :- ReadUint8();
      var hasCdc :- ReadBool();
      var elapsed :- ReadUint32();
      return Read.Value(Status(readiness, hasCdc, elapsed));
    }

    /** The constructor call of `_readCamera`. */
    method ReadCamera() returns (r: Read<GoProCamera>)
      modifies this
      ensures var d := CameraAt(data, old(offset));
              if d.OutOfBounds? then r == Thrown else r == Read.Value(Present(d.value)) && offset == d.next
    {
      var i :- ReadIdentity();
      var n :- ReadNames();
      var w :- ReadNetwork();
      var l :- ReadLink();
      var t :- ReadStatus();
      return Read.Value(GoProCamera(
        i.vid, i.pid, i.bus, i.address, n.sysfsName, n.serial, SerialSourceOf(n.serialSource),
        w.ip, w.netdev, w.netdevFirstSeen, l.netdevRenamed, l.linkState, l.hostIp,
        ReadinessOf(t.readiness), t.hasCdc, t.elapsed));
    }
  }

  // --- Events -------------------------------------------------------------

  datatype CameraEvent = Ignored | Sentinel | Updated(camera: GoProCamera) | Left(camera: GoProCamera)

  function EventIn(data: Octets): Read<CameraEvent> {
    if data == [] || data[0] > 2 then Read.Value(Ignored)
    else if data[0] == 0 then Read.Value(Sentinel)
    else
      var d := CameraAt(data, 1);
      if d.OutOfBounds? then Thrown
      else Read.Value(if data[0] == 1 then Updated(Present(d.value)) else Left(Present(d.value)))
  }

  method DecodeEvent(data: Octets) returns (r: Read<CameraEvent>)
    ensures r == EventIn(data)
  {
    if data == [] {
      return Read.Value(Ignored);
    }
    var kind := data[0];
    if kind > 2 {
      return Read.Value(Ignored);
    }
    if kind == 0 {
      return Read.Value(Sentinel);
    }
    var reader := new Reader(data, 1);
    var camera :- reader.ReadCamera();
    return Read.Value(if kind == 1 then Updated(camera) else Left(camera));
  }

  lemma EventReadBack(schema: Schema, kind: Byte, c: CameraRecord)
    requires ReadByDart(schema) && HasSchema(schema, Values(c)) && FitStruct(schema, Values(c))
    requires kind == 1 || kind == 2
    ensures EventIn([kind] + EncodeStruct(schema, Values(c)))
         == Read.Value(if kind == 1 then Updated(Present(c)) else Left(Present(c)))
  {
    var code := EncodeStruct(schema, Values(c));
    assert [kind] + code == [kind] + code + [];
    ReadBackIff(schema, c, [kind], []);
  }

  /** What the C++ side posts for a record comes out as that event, with the two
      enumerations clamped. */
  lemma EventRoundTrip(schema: Schema, kind: Byte, c: CameraRecord)
    requires schema == CAMERA && HasSchema(schema, Values(c)) && FitStruct(schema, Values(c))
    requires kind == 1 || kind == 2
    ensures EventIn([kind] + EncodeStruct(schema, Values(c)))
         == Read.Value(if kind == 1 then Updated(Present(c)) else Left(Present(c)))
  {
    ReadersAgree();
    EventReadBack(schema, kind, c);
  }
}
