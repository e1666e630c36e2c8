/**
  Writing and finding fields of Protocol Buffers messages (src/providers/antigravity_auth.rs): the
  encoders of its tests, and the visitors its credential reader uses.
 */
module WireFields {
  import opened Fingerprint
  import opened Results
  import opened Wire

  // ------------------------------------------------------------------ encoding

  /** The shortest varint of a number. */
  function VarintOf(n: nat): (bytes: seq<Byte>)
    ensures |bytes| > 0
  {
    if n < 128 then [n] else [n % 128 + 128] + VarintOf(n / 128)
  }

  method EncodeVarint(n: nat) returns (bytes: seq<Byte>)
    ensures bytes == VarintOf(n)
  {
    var value: nat := n;
    bytes := [];
    while value >= 128
      invariant VarintOf(n) == bytes + VarintOf(value)
    {
      assert VarintOf(value) == [value % 128 + 128] + VarintOf(value / 128);
      assert bytes + [value % 128 + 128] + VarintOf(value / 128) == bytes + VarintOf(value);
      bytes := bytes + [value % 128 + 128];
      value := value / 128;
    }
    bytes := bytes + [value];
  }

  lemma {:induction false} VarintOfShape(n: nat, groups: nat)
    requires 1 <= groups && n < Power(128, groups)
    ensures |VarintOf(n)| <= groups
    ensures forall i :: 0 <= i < |VarintOf(n)| - 1 ==> VarintOf(n)[i] >= 128
    ensures VarintOf(n)[|VarintOf(n)| - 1] < 128
    ensures Value(VarintOf(n)) == n
  {
    if n >= 128 {
      assert groups > 1 by { assert Power(128, 1) == 128; }
      VarintOfShape(n / 128, groups - 1);
      assert VarintOf(n)[1..] == VarintOf(n / 128);
    } else {
      assert VarintOf(n)[1..] == [];
    }
  }

  /** Every 64-bit value is written as a varint with that value: the tenth byte carries one bit. */
  lemma VarintOfExact(n: nat)
    requires n < U64_RANGE
    ensures IsVarint(VarintOf(n)) && Value(VarintOf(n)) == n
  {
    hide Value;
    var bytes := VarintOf(n);
    TenGroups();
    assert n < Power(128, 10) by { assert Power(128, 10) == 128 * Power(128, 9); }
    VarintOfShape(n, 10);
    hide VarintOf;
    if |bytes| == 10 {
      ValueAppend(bytes[..9], bytes[9]);
      assert bytes[..9] + [bytes[9]] == bytes;
      assert bytes[9] % 128 == bytes[9];
    }
  }

  /** Reading inverts writing, for every 64-bit value and whatever surrounds it. */
  lemma VarintRoundTrip(n: nat, before: seq<Byte>, after: seq<Byte>)
    requires n < U64_RANGE
    ensures VarintAt(before + VarintOf(n) + after, |before|) == Some(Varint(n, |before| + |VarintOf(n)|))
  {
    hide VarintOf, Value, IsVarint, VarintLength;
    var bytes := VarintOf(n);
    VarintOfExact(n);
    VarintThen(bytes, after);
    var data := before + bytes + after;
    assert data[|before|..] == bytes + after;
    assert data[|before|..|before| + |bytes|] == bytes;
  }

  /** A field that can be written: of any wire type the reader knows. */
  predicate Encodable(f: Field) {
    && 1 <= f.number <= MAX_NUMBER
    && (f.wire == 2 || BodyFits(f.wire, [], f.value))
    && |f.value| < U64_RANGE
  }

  function RecordOf(f: Field): Record {
    Record(VarintOf(f.number * 8 + f.wire), if f.wire == 2 then VarintOf(|f.value|) else [], f.value)
  }

  function RecordsOf(fields: seq<Field>): (records: seq<Record>)
    ensures |records| == |fields|
  {
    seq(|fields|, i requires 0 <= i < |fields| => RecordOf(fields[i]))
  }

  lemma RecordOfWellFormed(f: Field)
    requires Encodable(f)
    ensures RecordOf(f).WellFormed() && RecordOf(f).Content() == f
  {
    hide VarintOf, Value, IsVarint;
    assert f.wire < 8;
    VarintOfExact(f.number * 8 + f.wire);
    VarintOfExact(|f.value|);
  }

  /** Writing any list of fields and visiting the result visits that list. */
  lemma {:induction false} VisitEncoded<S>(fields: seq<Field>, init: S, visit: (S, Field) -> Option<S>)
    requires forall i :: 0 <= i < |fields| ==> Encodable(fields[i])
    ensures Visit(Join(RecordsOf(fields)), init, visit) == Fold(visit, init, fields)
  {
    hide Encodable, RecordOf, Record.WellFormed, Record.Content;
    var records := RecordsOf(fields);
    forall i | 0 <= i < |fields| ensures records[i].WellFormed() && records[i].Content() == fields[i] {
      RecordOfWellFormed(fields[i]);
    }
    JoinParses(records);
    assert Fields(records) == fields;
  }

  // ------------------------------------------------------------------ visitors that take one field

  /** Accept a field number at most once, with one wire type and a value that decodes. */
  function Single<T>(target: nat, wire: nat, decode: seq<Byte> -> Option<T>): (Option<T>, Field) -> Option<Option<T>> {
    (found: Option<T>, f: Field) =>
      if f.number != target then Some(found)
      else if f.wire != wire || found.Some? then None
      else (match decode(f.value) case None => None case Some(value) => Some(Some(value)))
  }

  predicate Absent(fields: seq<Field>, target: nat) {
    forall i :: 0 <= i < |fields| ==> fields[i].number != target
  }

  predicate OnlyAt(fields: seq<Field>, target: nat, i: int) {
    0 <= i < |fields| && forall j :: 0 <= j < |fields| ==> (fields[j].number == target <==> j == i)
  }

  lemma {:induction false} SingleAfter<T>(fields: seq<Field>, target: nat, wire: nat, decode: seq<Byte> -> Option<T>,
      found: T)
    ensures Fold(Single(target, wire, decode), Some(found), fields) ==
            if Absent(fields, target) then Some(Some(found)) else None
  {
    if fields != [] && fields[0].number != target {
      SingleAfter(fields[1..], target, wire, decode, found);
      assert Absent(fields, target) <==> Absent(fields[1..], target);
    }
  }

  /** The fold finds nothing exactly when the number is absent. */
  lemma {:induction false} SingleAbsent<T>(fields: seq<Field>, target: nat, wire: nat, decode: seq<Byte> -> Option<T>)
    ensures Fold(Single(target, wire, decode), None, fields) == Some(None) <==> Absent(fields, target)
  {
    if fields != [] {
      if fields[0].number != target {
        SingleAbsent(fields[1..], target, wire, decode);
        assert Absent(fields, target) <==> Absent(fields[1..], target);
      } else if decode(fields[0].value).Some? {
        SingleAfter(fields[1..], target, wire, decode, decode(fields[0].value).value);
      }
    }
  }

  ghost predicate Unique<T>(fields: seq<Field>, target: nat, wire: nat, decode: seq<Byte> -> Option<T>, value: T) {
    exists i :: OnlyAt(fields, target, i) && fields[i].wire == wire && decode(fields[i].value) == Some(value)
  }

  lemma UniqueTail<T>(fields: seq<Field>, target: nat, wire: nat, decode: seq<Byte> -> Option<T>, value: T)
    requires fields != [] && fields[0].number != target
    ensures Unique(fields, target, wire, decode, value) <==> Unique(fields[1..], target, wire, decode, value)
  {
  }

  lemma UniqueHead<T>(fields: seq<Field>, target: nat, wire: nat, decode: seq<Byte> -> Option<T>, value: T)
    requires fields != [] && fields[0].number == target
    ensures Unique(fields, target, wire, decode, value) <==>
            Absent(fields[1..], target) && fields[0].wire == wire && decode(fields[0].value) == Some(value)
  {
  }

  /** It finds a value exactly when the number occurs once, with that wire type and that value. */
  lemma {:induction false} SingleFound<T>(
    fields: seq<Field>, target: nat, wire: nat, decode: seq<Byte> -> Option<T>, value: T)
    ensures Fold(Single(target, wire, decode), None, fields) == Some(Some(value)) <==>
            Unique(fields, target, wire, decode, value)
  {
    hide Unique, OnlyAt, Absent;
    if fields == [] {
      NeverUnique(fields, target, wire, decode, value);
    } else if fields[0].number != target {
      SingleFound(fields[1..], target, wire, decode, value);
      UniqueTail(fields, target, wire, decode, value);
    } else {
      UniqueHead(fields, target, wire, decode, value);
      if decode(fields[0].value).Some? {
        SingleAfter(fields[1..], target, wire, decode, decode(fields[0].value).value);
      }
    }
  }

  lemma NeverUnique<T>(fields: seq<Field>, target: nat, wire: nat, decode: seq<Byte> -> Option<T>, value: T)
    requires fields == []
    ensures !Unique(fields, target, wire, decode, value)
  {
  }

  // ------------------------------------------------------------------ find_field

  function Body(value: seq<Byte>): Option<seq<Byte>> {
    Some(value)
  }

  /** The outer option is the error, the inner one a missing field. */
  method FindField(data: Data, target: nat) returns (r: Option<Option<seq<Byte>>>)
    ensures r == Visit(data, None, Single(target, 2, Body))
  {
    r := VisitFields(data, None, Single(target, 2, Body));
  }

  /** A value is found exactly when the whole message is well-formed and the field occurs once, length-delimited. */
  lemma {:induction false} FindExact(data: seq<Byte>, target: nat, value: seq<Byte>)
    ensures Visit(data, None, Single(target, 2, Body)) == Some(Some(value)) <==>
            exists records :: Decomposes(data, records) && Unique(Fields(records), target, 2, Body, value)
    ensures Visit(data, None, Single(target, 2, Body)) == Some(None) <==>
            exists records :: Decomposes(data, records) && Absent(Fields(records), target)
  {
    hide Parse, Fold, Unique, Absent;
    forall records ensures Parse(data) == Some(records) <==> Decomposes(data, records) {
      ParseExact(data, records);
    }
    if Parse(data).Some? {
      var records := Parse(data).value;
      assert Decomposes(data, records);
      SingleFound(Fields(records), target, 2, Body, value);
      SingleAbsent(Fields(records), target, 2, Body);
    }
  }

  // ------------------------------------------------------------------ the expiry timestamp

  const I64_RANGE: nat := 0x8000_0000_0000_0000

  datatype Slots = Slots(seconds: Option<nat>, nanos: Option<nat>)

  function Number(value: seq<Byte>): Option<nat> {
    match VarintAt(value, 0) case None => None case Some(v) => Some(v.value)
  }

  function Fill(slot: Option<nat>, f: Field): Option<nat> {
    if f.wire != 0 || slot.Some? then None else Number(f.value)
  }

  function VisitTimestamp(slots: Slots, f: Field): Option<Slots> {
    match f.number
    case 1 =>
      (match Fill(slots.seconds, f) case None => None case Some(n) => Some(slots.(seconds := Some(n))))
    case 2 =>
      (match Fill(slots.nanos, f) case None => None case Some(n) => Some(slots.(nanos := Some(n))))
    case _ => Some(slots)
  }

  /** Some sources write milliseconds; they are told apart by size. */
  function InSeconds(n: nat): nat {
    if n > 10_000_000_000 then n / 1000 else n
  }

  function Expiry(data: seq<Byte>): Option<nat> {
    match Visit(data, Slots(None, None), VisitTimestamp)
    case None => None
    case Some(slots) =>
      if slots.nanos.Some? && slots.nanos.value > 999_999_999 then None
      else if slots.seconds.None? || slots.seconds.value >= I64_RANGE then None
      else Some(InSeconds(slots.seconds.value))
  }

  method ReadExpiry(data: Data) returns (r: Option<nat>)
    ensures r == Expiry(data)
  {
    var slots := VisitFields(data, Slots(None, None), VisitTimestamp);
    if slots.None? || (slots.value.nanos.Some? && slots.value.nanos.value > 999_999_999)
      || slots.value.seconds.None? || slots.value.seconds.value >= I64_RANGE
    {
      return None;
    }
    r := Some(InSeconds(slots.value.seconds.value));
  }

  /** Two fields collected in one pass are two independent searches. */
  lemma {:induction false} TimestampFold(fields: seq<Field>, slots: Slots)
    ensures Fold(VisitTimestamp, slots, fields) ==
            match Fold(Single(1, 0, Number), slots.seconds, fields)
            case None => None
            case Some(seconds) =>
              match Fold(Single(2, 0, Number), slots.nanos, fields)
              case None => None
              case Some(nanos) => Some(Slots(seconds, nanos))
  {
    hide Number;
    if fields != [] {
      var next := VisitTimestamp(slots, fields[0]);
      if next.Some? {
        TimestampFold(fields[1..], next.value);
      }
    }
  }

  ghost predicate Dated(fields: seq<Field>, seconds: nat) {
    && Unique(fields, 1, 0, Number, seconds)
    && seconds < I64_RANGE
    && (Absent(fields, 2) || exists nanos :: nanos <= 999_999_999 && Unique(fields, 2, 0, Number, nanos))
  }

  lemma DatedExact(records: seq<Record>, seconds: nat)
    requires Dated(Fields(records), seconds)
    ensures seconds < I64_RANGE
    ensures Fold(VisitTimestamp, Slots(None, None), Fields(records)).Some?
    ensures var slots := Fold(VisitTimestamp, Slots(None, None), Fields(records)).value;
      slots.seconds == Some(seconds) && (slots.nanos.Some? ==> slots.nanos.value <= 999_999_999)
  {
    hide Unique, Absent, Fold;
    var fields := Fields(records);
    TimestampFold(fields, Slots(None, None));
    SingleFound(fields, 1, 0, Number, seconds);
    SingleAbsent(fields, 2, 0, Number);
    if !Absent(fields, 2) {
      var nanos :| nanos <= 999_999_999 && Unique(fields, 2, 0, Number, nanos);
      SingleFound(fields, 2, 0, Number, nanos);
    }
  }

  lemma SlotsAreDated(records: seq<Record>)
    requires Fold(VisitTimestamp, Slots(None, None), Fields(records)).Some?
    ensures var slots := Fold(VisitTimestamp, Slots(None, None), Fields(records)).value;
      && slots.seconds.Some? && slots.seconds.value < I64_RANGE
      && (slots.nanos.Some? ==> slots.nanos.value <= 999_999_999)
      ==> Dated(Fields(records), slots.seconds.value)
  {
    hide Unique, Absent, Fold;
    var fields := Fields(records);
    var slots := Fold(VisitTimestamp, Slots(None, None), fields).value;
    TimestampFold(fields, Slots(None, None));
    SingleAbsent(fields, 2, 0, Number);
    if slots.seconds.Some? {
      SingleFound(fields, 1, 0, Number, slots.seconds.value);
    }
    if slots.nanos.Some? {
      SingleFound(fields, 2, 0, Number, slots.nanos.value);
    }
  }

  /**
    A timestamp is read exactly when the message is well-formed, has its seconds once as a varint
    that fits a signed 64-bit integer, and has its nanoseconds at most once, as a varint in range.
   */
  lemma {:induction false} ExpiryExact(data: seq<Byte>, expiry: nat)
    ensures Expiry(data) == Some(expiry) <==>
            exists records, seconds ::
              Decomposes(data, records) && Dated(Fields(records), seconds) && expiry == InSeconds(seconds)
  {
    hide Parse, Fold, Dated, Decomposes;
    if exists records, seconds ::
      Decomposes(data, records) && Dated(Fields(records), seconds) && expiry == InSeconds(seconds)
    {
      var records, seconds :|
        Decomposes(data, records) && Dated(Fields(records), seconds) && expiry == InSeconds(seconds);
      ParseExact(data, records);
      DatedExact(records, seconds);
    }
    if Expiry(data) == Some(expiry) {
      var records := Parse(data).value;
      ParseExact(data, records);
      SlotsAreDated(records);
      var seconds := Visit(data, Slots(None, None), VisitTimestamp).value.seconds.value;
      assert Decomposes(data, records) && Dated(Fields(records), seconds) && expiry == InSeconds(seconds);
    }
  }
}
