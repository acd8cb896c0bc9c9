/** Query responses and the readiness fold: native/src/query_parser.cpp. */
module Query {
  import opened Bytes
  import opened Sequences

  datatype Option<+T> = None | Some(value: T)

  const BUSY: Byte := 8
  const ENCODING: Byte := 10

  // --- Entries ------------------------------------------------------------

  datatype Entry = Entry(id: Byte, value: Octets)

  datatype Response = Response(command: Byte, status: Byte, entries: seq<Entry>)

  datatype ParseResult = Ok | TooShort | TruncatedTlv

  datatype Parsed = Parsed(result: ParseResult, response: Response)

  function AsUint(value: Octets): Option<nat> {
    if 1 <= |value| <= 8 then Some(BigEndian(value)) else None
  }

  function AsBool(value: Octets): bool {
    AsUint(value).Some? && AsUint(value).value != 0
  }

  /** The accumulation loop, in 64-bit arithmetic. */
  method ReadUint(value: Octets) returns (r: Option<nat>)
    ensures r == AsUint(value)
    ensures r.Some? ==> r.value < TWO_TO_64
  {
    if value == [] || |value| > 8 {
      return None;
    }
    EightBytes();
    var v := 0;
    for i := 0 to |value|
      invariant v == BigEndian(value[..i]) < Pow256(i)
    {
      assert value[..i + 1][..i] == value[..i];
      PowersMonotone(i + 1, 8);
      v := v * 256 % TWO_TO_64 + value[i];
    }
    assert value[..|value|] == value;
    PowersMonotone(|value|, 8);
    return Some(v);
  }

  lemma {:induction false} PowersMonotone(i: nat, n: nat)
    requires i <= n
    ensures Pow256(i) <= Pow256(n)
    decreases n - i
  {
    if i < n {
      PowersMonotone(i + 1, n);
    }
  }

  lemma EightBytes()
    ensures Pow256(8) == TWO_TO_64
  {
    assert Pow256(4) == 0x1_0000_0000;
  }

  lemma {:induction false} BigEndianBound(s: Octets)
    ensures BigEndian(s) < Pow256(|s|)
    ensures BigEndian(s) == 0 <==> forall i :: 0 <= i < |s| ==> s[i] == 0
  {
    if s != [] {
      BigEndianBound(s[..|s| - 1]);
    }
  }

  /** A flag is set exactly when its value is one to eight bytes long and some
      byte is nonzero; a longer value reads as clear whatever it holds. */
  lemma FlagMeaning(value: Octets)
    ensures AsBool(value) <==> 1 <= |value| <= 8 && exists i :: 0 <= i < |value| && value[i] != 0
    ensures AsUint(value).Some? ==> AsUint(value).value < Pow256(|value|)
  {
    BigEndianBound(value);
  }

  function FindEntry(entries: seq<Entry>, id: Byte): Option<Entry> {
    if entries == [] then None
    else if entries[0].id == id then Some(entries[0])
    else FindEntry(entries[1..], id)
  }

  method Find(entries: seq<Entry>, id: Byte) returns (r: Option<Entry>)
    ensures r == FindEntry(entries, id)
    ensures r.Some? <==> exists e <- entries :: e.id == id
  {
    for i := 0 to |entries|
      invariant FindEntry(entries, id) == FindEntry(entries[i..], id)
      invariant forall j :: 0 <= j < i ==> entries[j].id != id
    {
      if entries[i].id == id {
        return Some(entries[i]);
      }
    }
    return None;
  }

  // --- Parsing ------------------------------------------------------------

  /** Whether a complete entry stands at the front of `s`. */
  predicate HasEntry(s: Octets) {
    |s| >= 2 && 2 + s[1] <= |s|
  }

  function Entries(s: Octets): seq<Entry>
    decreases |s|
  {
    if !HasEntry(s) then [] else [Entry(s[0], s[2..2 + s[1]])] + Entries(s[2 + s[1]..])
  }

  /** What remains once no complete entry is left. */
  function Leftover(s: Octets): Octets
    decreases |s|
  {
    if !HasEntry(s) then s else Leftover(s[2 + s[1]..])
  }

  function Parse(payload: Octets): Parsed {
    if |payload| < 2 then Parsed(TooShort, Response(0, 0, []))
    else
      Parsed(if |Leftover(payload[2..])| < 2 then Ok else TruncatedTlv,
             Response(payload[0], payload[1], Entries(payload[2..])))
  }

  method ParseQuery(payload: Octets) returns (result: ParseResult, out: Response)
    ensures Parsed(result, out) == Parse(payload)
  {
    if |payload| < 2 {
      return TooShort, Response(0, 0, []);
    }
    var entries: seq<Entry> := [];
    var i := 2;
    while i + 1 < |payload|
      invariant Decoded(payload, i, entries)
    {
      var len := payload[i + 1];
      if i + 2 + len > |payload| {
        NoEntryLeft(payload, i, entries);
        return TruncatedTlv, Response(payload[0], payload[1], entries);
      }
      AtEntry(payload, i, entries);
      entries := entries + [Entry(payload[i], payload[i + 2..i + 2 + len])];
      i := i + 2 + len;
    }
    NoEntryLeft(payload, i, entries);
    return Ok, Response(payload[0], payload[1], entries);
  }

  /** The loop of `ParseQuery` has decoded `entries` up to offset `i`. */
  ghost predicate Decoded(payload: Octets, i: nat, entries: seq<Entry>) {
    && 2 <= i <= |payload|
    && entries + Entries(payload[i..]) == Entries(payload[2..])
    && Leftover(payload[i..]) == Leftover(payload[2..])
  }

  lemma AtEntry(payload: Octets, i: nat, entries: seq<Entry>)
    requires Decoded(payload, i, entries)
    requires i + 1 < |payload| && i + 2 + payload[i + 1] <= |payload|
    ensures var next := i + 2 + payload[i + 1];
            Decoded(payload, next, entries + [Entry(payload[i], payload[i + 2..next])])
  {
    var s, next := payload[i..], i + 2 + payload[i + 1];
    var e := Entry(payload[i], payload[i + 2..next]);
    assert s[2..2 + s[1]] == payload[i + 2..next];
    assert s[2 + s[1]..] == payload[next..];
    Assoc(entries, [e], Entries(payload[next..]));
  }

  lemma NoEntryLeft(payload: Octets, i: nat, entries: seq<Entry>)
    requires Decoded(payload, i, entries) && !HasEntry(payload[i..])
    ensures Parse(payload) == Parsed(if i + 1 < |payload| then TruncatedTlv else Ok,
                                     Response(payload[0], payload[1], entries))
  {
    assert entries + [] == entries;
  }

  // --- Printing -----------------------------------------------------------

  function PrintEntries(entries: seq<Entry>): Octets
    requires Printable(entries)
  {
    if entries == [] then []
    else [entries[0].id, |entries[0].value|] + entries[0].value + PrintEntries(entries[1..])
  }

  /** Every value has a length that one byte can state. */
  predicate Printable(entries: seq<Entry>) {
    forall i :: 0 <= i < |entries| ==> |entries[i].value| < 256
  }

  function Print(r: Response): Octets
    requires Printable(r.entries)
  {
    [r.command, r.status] + PrintEntries(r.entries)
  }

  lemma {:induction false} EntriesOfPrint(entries: seq<Entry>, tail: Octets)
    requires Printable(entries) && !HasEntry(tail)
    ensures Entries(PrintEntries(entries) + tail) == entries
    ensures Leftover(PrintEntries(entries) + tail) == tail
  {
    var s := PrintEntries(entries) + tail;
    if entries == [] {
      assert s == tail;
    } else {
      var e, rest := entries[0], PrintEntries(entries[1..]) + tail;
      assert s == [e.id, |e.value|] + e.value + rest;
      assert s[2..2 + s[1]] == e.value && s[2 + s[1]..] == rest;
      EntriesOfPrint(entries[1..], tail);
    }
  }

  lemma {:induction false} PrintOfEntries(s: Octets)
    ensures Printable(Entries(s))
    ensures s == PrintEntries(Entries(s)) + Leftover(s)
    ensures !HasEntry(Leftover(s))
    decreases |s|
  {
    if HasEntry(s) {
      var next := s[2 + s[1]..];
      PrintOfEntries(next);
      PrintCons(Entry(s[0], s[2..2 + s[1]]), Entries(next), Leftover(next));
      SplitEntry(s);
    }
  }

  lemma SplitEntry(s: Octets)
    requires HasEntry(s)
    ensures s == [s[0], s[1]] + s[2..2 + s[1]] + s[2 + s[1]..]
  {
  }

  lemma PrintCons(e: Entry, rest: seq<Entry>, tail: Octets)
    requires |e.value| < 256 && Printable(rest)
    ensures Printable([e] + rest)
    ensures PrintEntries([e] + rest) + tail == [e.id, |e.value|] + e.value + (PrintEntries(rest) + tail)
  {
    assert ([e] + rest)[1..] == rest;
  }

  /** Parsing succeeds with `r` exactly on the printed form of `r`, give or
      take one dangling byte. */
  lemma ParseOkIff(payload: Octets, r: Response)
    ensures Parse(payload) == Parsed(Ok, r)
       <==> && Printable(r.entries)
            && (payload == Print(r) || exists x: Byte :: payload == Print(r) + [x])
  {
    if Parse(payload) == Parsed(Ok, r) {
      PrintOfEntries(payload[2..]);
      var left := Leftover(payload[2..]);
      assert payload == [r.command, r.status] + payload[2..];
      assert payload == Print(r) + left;
      assert |left| == 1 ==> left == [left[0]];
    }
    if Printable(r.entries) {
      if payload == Print(r) {
        assert payload == Print(r) + [];
        PrintedParses(payload, r, []);
      }
      forall x: Byte | payload == Print(r) + [x]
        ensures Parse(payload) == Parsed(Ok, r)
      {
        PrintedParses(payload, r, [x]);
      }
    }
  }

  lemma PrintedParses(payload: Octets, r: Response, tail: Octets)
    requires Printable(r.entries) && |tail| <= 1 && payload == Print(r) + tail
    ensures Parse(payload) == Parsed(Ok, r)
  {
    assert payload[2..] == PrintEntries(r.entries) + tail;
    EntriesOfPrint(r.entries, tail);
  }

  /** A truncated payload is what was decoded before the bad entry, printed,
      and then an entry whose stated length overruns the payload. */
  lemma TruncationIff(payload: Octets, r: Response)
    ensures Parse(payload) == Parsed(TruncatedTlv, r)
       <==> && Printable(r.entries)
            && exists bad: Octets :: Overruns(bad) && payload == Print(r) + bad
  {
    if Parse(payload) == Parsed(TruncatedTlv, r) {
      PrintOfEntries(payload[2..]);
      var bad := Leftover(payload[2..]);
      assert payload == [r.command, r.status] + payload[2..];
      assert Overruns(bad) && payload == Print(r) + bad;
    }
    if Printable(r.entries) {
      forall bad: Octets | Overruns(bad) && payload == Print(r) + bad
        ensures Parse(payload) == Parsed(TruncatedTlv, r)
      {
        assert payload[2..] == PrintEntries(r.entries) + bad;
        EntriesOfPrint(r.entries, bad);
      }
    }
  }

  predicate Overruns(s: Octets) {
    |s| >= 2 && 2 + s[1] > |s|
  }

  // --- Readiness ----------------------------------------------------------

  predicate IsStatus(r: Response) {
    r.command == 0x13 || r.command == 0x53 || r.command == 0x73 || r.command == 0x93
  }

  datatype Readiness = Readiness(busy: Option<bool>, encoding: Option<bool>) {
    predicate Ready() {
      busy == Some(false) && encoding == Some(false)
    }
  }

  const UNKNOWN := Readiness(None, None)

  /** What a response says about a status: the first entry with that id, unless
      its value is empty. */
  function ReportOf(r: Response, id: Byte): Option<bool> {
    if !IsStatus(r) then None
    else
      match FindEntry(r.entries, id)
      case None => None
      case Some(e) => if e.value == [] then None else Some(AsBool(e.value))
  }

  function OrElse(report: Option<bool>, known: Option<bool>): Option<bool> {
    if report.Some? then report else known
  }

  function Fold(s: Readiness, r: Response): Readiness {
    Readiness(OrElse(ReportOf(r, BUSY), s.busy), OrElse(ReportOf(r, ENCODING), s.encoding))
  }

  class ReadyState {
    var busy: Option<bool>
    var encoding: Option<bool>

    function State(): Readiness
      reads this
    {
      Readiness(busy, encoding)
    }

    constructor ()
      ensures State() == UNKNOWN
    {
      busy, encoding := None, None;
    }

    method Reset()
      modifies this
      ensures State() == UNKNOWN
    {
      busy := None;
      encoding := None;
    }

    method Apply(response: Response) returns (changed: bool)
      modifies this
      ensures State() == Fold(old(State()), response)
      ensures changed <==> State().Ready() != old(State()).Ready()
    {
      if !IsStatus(response) {
        return false;
      }
      var wasReady := State().Ready();
      var e := Find(response.entries, BUSY);
      if e.Some? {
        if e.value.value != [] {
          var v := ReadUint(e.value.value);
          busy := Some(v.Some? && v.value != 0);
        }
      }
      e := Find(response.entries, ENCODING);
      if e.Some? {
        if e.value.value != [] {
          var v := ReadUint(e.value.value);
          encoding := Some(v.Some? && v.value != 0);
        }
      }
      return State().Ready() != wasReady;
    }
  }

  /** What a reassembled message says about a status. */
  function Report(message: Octets, id: Byte): Option<bool> {
    var p := Parse(message);
    if p.result == Ok then ReportOf(p.response, id) else None
  }

  function FoldMessage(s: Readiness, message: Octets): Readiness {
    var p := Parse(message);
    if p.result == Ok then Fold(s, p.response) else s
  }

  /** The most recent report of a status, however many messages have passed
      since that say nothing about it. */
  function Latest(messages: seq<Octets>, id: Byte): Option<bool> {
    if messages == [] then None
    else OrElse(Report(messages[|messages| - 1], id), Latest(messages[..|messages| - 1], id))
  }

  predicate ReportedClear(messages: seq<Octets>) {
    Latest(messages, BUSY) == Some(false) && Latest(messages, ENCODING) == Some(false)
  }

  /** The readiness that a list of messages justifies. */
  function Justified(messages: seq<Octets>): Readiness {
    Readiness(Latest(messages, BUSY), Latest(messages, ENCODING))
  }

  /** Folding one more message keeps readiness equal to the latest reports. */
  lemma FoldIsLatest(messages: seq<Octets>, message: Octets)
    ensures FoldMessage(Justified(messages), message) == Justified(messages + [message])
  {
    assert (messages + [message])[..|messages|] == messages;
  }

  // --- What changes readiness ---------------------------------------------

  /** `entries[i]` is the first one with `id`. */
  predicate FirstWith(entries: seq<Entry>, id: Byte, i: nat) {
    i < |entries| && entries[i].id == id && forall j :: 0 <= j < i ==> entries[j].id != id
  }

  lemma {:induction false} FindIsFirst(entries: seq<Entry>, id: Byte)
    ensures forall i: nat :: FirstWith(entries, id, i) ==> FindEntry(entries, id) == Some(entries[i])
    ensures (forall i: nat :: !FirstWith(entries, id, i)) ==> FindEntry(entries, id) == None
    ensures FindEntry(entries, id) == None ==> forall e <- entries :: e.id != id
  {
    if entries != [] {
      var rest := entries[1..];
      FindIsFirst(rest, id);
      if entries[0].id == id {
        assert FirstWith(entries, id, 0);
      } else {
        forall i: nat | FirstWith(entries, id, i)
          ensures i > 0 && FirstWith(rest, id, i - 1)
        {
          assert forall j :: 0 <= j < i - 1 ==> rest[j] == entries[j + 1];
        }
        forall i: nat | FirstWith(rest, id, i)
          ensures FirstWith(entries, id, i + 1)
        {
          assert forall j :: 1 <= j < i + 1 ==> entries[j] == rest[j - 1];
        }
      }
    }
  }

  /** The commands that carry statuses: get, register, unregister, and push. */
  predicate CarriesStatuses(command: Byte) {
    command in {0x13, 0x53, 0x73, 0x93}
  }

  /** `r` reports the status `id`, in its entry `i`. */
  predicate ReportsAt(r: Response, id: Byte, i: nat) {
    CarriesStatuses(r.command) && FirstWith(r.entries, id, i) && |r.entries[i].value| > 0
  }

  predicate Nonzero(value: Octets) {
    |value| <= 8 && exists k :: 0 <= k < |value| && value[k] > 0
  }

  /** `after` is what the status `id` becomes: set or clear as reported, and
      untouched by every response that does not report it, be it to another
      command, without such an entry, or with an empty value. */
  ghost predicate Becomes(before: Option<bool>, after: Option<bool>, r: Response, id: Byte) {
    && (forall i: nat :: ReportsAt(r, id, i) ==> after == Some(Nonzero(r.entries[i].value)))
    && ((forall i: nat :: !ReportsAt(r, id, i)) ==> after == before)
  }

  /** For every response: BUSY is status 8 and ENCODING status 10. */
  lemma FoldSets(s: Readiness, r: Response)
    ensures Becomes(s.busy, Fold(s, r).busy, r, 8)
    ensures Becomes(s.encoding, Fold(s, r).encoding, r, 10)
  {
    ReportSets(r, 8);
    ReportSets(r, 10);
  }

  lemma ReportSets(r: Response, id: Byte)
    ensures forall i: nat :: ReportsAt(r, id, i) ==> ReportOf(r, id) == Some(Nonzero(r.entries[i].value))
    ensures (forall i: nat :: !ReportsAt(r, id, i)) ==> ReportOf(r, id) == None
  {
    FindIsFirst(r.entries, id);
    forall i: nat | ReportsAt(r, id, i)
      ensures ReportOf(r, id) == Some(Nonzero(r.entries[i].value))
    {
      FlagMeaning(r.entries[i].value);
    }
    if forall i: nat :: !ReportsAt(r, id, i) {
      if i: nat :| FirstWith(r.entries, id, i) {
        assert !ReportsAt(r, id, i);
      }
    }
  }

  /** For every message: the printed form of a response, give or take one
      dangling byte, changes readiness as that response does, and any other
      message changes nothing. */
  lemma FoldMessageSets(s: Readiness, message: Octets)
    ensures forall r: Response :: PrintsAs(message, r) ==>
              && Becomes(s.busy, FoldMessage(s, message).busy, r, 8)
              && Becomes(s.encoding, FoldMessage(s, message).encoding, r, 10)
    ensures (forall r: Response :: !PrintsAs(message, r)) ==> FoldMessage(s, message) == s
  {
    forall r: Response | PrintsAs(message, r)
      ensures Becomes(s.busy, FoldMessage(s, message).busy, r, 8)
      ensures Becomes(s.encoding, FoldMessage(s, message).encoding, r, 10)
    {
      ParseOkIff(message, r);
      FoldSets(s, r);
    }
    if forall r: Response :: !PrintsAs(message, r) {
      ParseOkIff(message, Parse(message).response);
      assert !PrintsAs(message, Parse(message).response);
    }
  }

  ghost predicate PrintsAs(message: Octets, r: Response) {
    Printable(r.entries) && (message == Print(r) || exists x: Byte :: message == Print(r) + [x])
  }

  /** Without two bytes for command and status there is nothing to parse, and
      all that is reported is an empty response. */
  lemma TooShortIff(payload: Octets)
    ensures Parse(payload).result == TooShort <==> |payload| < 2
    ensures |payload| < 2 ==> Parse(payload).response == Response(0, 0, [])
  {
  }

  /** The first byte of a value is its most significant one. */
  lemma {:induction false} BigEndianFirst(b: Byte, s: Octets)
    ensures BigEndian([b] + s) == b * Pow256(|s|) + BigEndian(s)
  {
    var all := [b] + s;
    if s == [] {
      assert all[..0] == [];
    } else {
      assert all[..|all| - 1] == [b] + s[..|s| - 1];
      BigEndianFirst(b, s[..|s| - 1]);
    }
  }
}
