/**
  The strict Protocol Buffers reader (src/providers/antigravity_auth.rs), against a grammar of
  records: Encoding guide, "Base 128 Varints" and "Message Structure".
 */
module Wire {
  import opened Fingerprint
  import opened Results

  /** A slice of a 64-bit machine. */
  type Data = Text

  const MAX_NUMBER: nat := 0x1fff_ffff

  // ------------------------------------------------------------------ grammar

  /** At most 64 bits of payload, seven to a byte, least significant first; not necessarily shortest. */
  predicate IsVarint(bytes: seq<Byte>) {
    && 1 <= |bytes| <= 10
    && (forall i :: 0 <= i < |bytes| - 1 ==> bytes[i] >= 128)
    && bytes[|bytes| - 1] < 128
    && (|bytes| == 10 ==> bytes[9] <= 1)
  }

  function Value(bytes: seq<Byte>): nat {
    if bytes == [] then 0 else bytes[0] % 128 + 128 * Value(bytes[1..])
  }

  /** What follows a tag of each wire type: a varint, eight bytes, a length and that many bytes, four bytes. */
  predicate BodyFits(wire: nat, length: seq<Byte>, body: seq<Byte>) {
    match wire
    case 0 => length == [] && IsVarint(body)
    case 1 => length == [] && |body| == 8
    case 2 => IsVarint(length) && Value(length) == |body|
    case 5 => length == [] && |body| == 4
    case _ => false
  }

  datatype Field = Field(number: nat, wire: nat, value: seq<Byte>)

  /** A record as written: its tag, its length if the wire type has one, and its body. */
  datatype Record = Record(tag: seq<Byte>, length: seq<Byte>, body: seq<Byte>) {
    function Bytes(): seq<Byte> { tag + length + body }
    function Content(): Field { Field(Value(tag) / 8, Value(tag) % 8, body) }

    predicate WellFormed() {
      IsVarint(tag) && 1 <= Value(tag) / 8 <= MAX_NUMBER && BodyFits(Value(tag) % 8, length, body)
    }
  }

  function Join(records: seq<Record>): seq<Byte> {
    if records == [] then [] else records[0].Bytes() + Join(records[1..])
  }

  function Fields(records: seq<Record>): (fields: seq<Field>)
    ensures |fields| == |records|
  {
    seq(|records|, i requires 0 <= i < |records| => records[i].Content())
  }

  /** The message is the concatenation of these well-formed records. */
  ghost predicate Decomposes(data: seq<Byte>, records: seq<Record>) {
    (forall i :: 0 <= i < |records| ==> records[i].WellFormed()) && Join(records) == data
  }

  // ------------------------------------------------------------------ parsing from the front

  /** Where the first byte without a continuation bit is. */
  function Terminator(data: seq<Byte>): (i: nat)
    ensures i <= |data|
    ensures i < |data| ==> data[i] < 128
    ensures forall j :: 0 <= j < i ==> data[j] >= 128
  {
    if data == [] || data[0] < 128 then 0 else 1 + Terminator(data[1..])
  }

  function VarintLength(data: seq<Byte>): (r: Option<nat>)
    ensures r.Some? ==> 1 <= r.value <= |data| && IsVarint(data[..r.value])
  {
    var n := Terminator(data) + 1;
    if n <= |data| && IsVarint(data[..n]) then Some(n) else None
  }

  /** The length and body after a tag of this wire type. */
  function ParseBody(tag: seq<Byte>, wire: nat, rest: seq<Byte>): (r: Option<Record>)
    ensures r.Some? ==> r.value.tag == tag && r.value.length + r.value.body <= rest
    ensures r.Some? ==> BodyFits(wire, r.value.length, r.value.body)
  {
    match wire
    case 0 => (match VarintLength(rest) case None => None case Some(m) => Some(Record(tag, [], rest[..m])))
    case 1 => if |rest| < 8 then None else Some(Record(tag, [], rest[..8]))
    case 2 =>
      (match VarintLength(rest)
       case None => None
       case Some(m) =>
         var length := Value(rest[..m]);
         if m + length > |rest| then None else Some(Record(tag, rest[..m], rest[m..m + length])))
    case 5 => if |rest| < 4 then None else Some(Record(tag, [], rest[..4]))
    case _ => None
  }

  function ParseRecord(data: seq<Byte>): (r: Option<Record>)
    ensures r.Some? ==> 0 < |r.value.Bytes()| <= |data|
  {
    match VarintLength(data)
    case None => None
    case Some(n) =>
      var tag := data[..n];
      if !(1 <= Value(tag) / 8 <= MAX_NUMBER) then None else ParseBody(tag, Value(tag) % 8, data[n..])
  }

  lemma ParsedWellFormed(data: seq<Byte>)
    ensures ParseRecord(data).Some? ==>
      ParseRecord(data).value.WellFormed() && ParseRecord(data).value.Bytes() <= data
  {
    hide IsVarint, Value, BodyFits, ParseBody;
    if ParseRecord(data).Some? {
      var record, n := ParseRecord(data).value, VarintLength(data).value;
      assert data == data[..n] + data[n..];
      assert record.Bytes() == data[..n] + (record.length + record.body);
    }
  }

  function Parse(data: seq<Byte>): Option<seq<Record>>
    decreases |data|
  {
    if data == [] then Some([])
    else
      match ParseRecord(data)
      case None => None
      case Some(record) =>
        match Parse(data[|record.Bytes()|..])
        case None => None
        case Some(records) => Some([record] + records)
  }

  lemma VarintThen(first: seq<Byte>, rest: seq<Byte>)
    requires IsVarint(first)
    ensures VarintLength(first + rest) == Some(|first|)
    ensures (first + rest)[..|first|] == first && (first + rest)[|first|..] == rest
  {
  }

  lemma BodyThen(tag: seq<Byte>, wire: nat, length: seq<Byte>, body: seq<Byte>, rest: seq<Byte>)
    requires BodyFits(wire, length, body)
    ensures ParseBody(tag, wire, length + body + rest) == Some(Record(tag, length, body))
  {
    hide IsVarint, Value, VarintLength;
    var after := length + body + rest;
    if wire == 2 {
      assert after == length + (body + rest);
      VarintThen(length, body + rest);
      var n := |length|;
      assert after[n..n + |body|] == body;
    } else {
      assert after == body + rest;
      if wire == 0 {
        VarintThen(body, rest);
      }
    }
  }

  lemma RecordThen(record: Record, rest: seq<Byte>)
    requires record.WellFormed()
    ensures ParseRecord(record.Bytes() + rest) == Some(record)
  {
    hide IsVarint, Value, VarintLength, ParseBody, BodyFits;
    var after := record.length + record.body + rest;
    assert record.Bytes() + rest == record.tag + after;
    VarintThen(record.tag, after);
    BodyThen(record.tag, Value(record.tag) % 8, record.length, record.body, rest);
  }

  lemma {:induction false} JoinParses(records: seq<Record>)
    requires forall i :: 0 <= i < |records| ==> records[i].WellFormed()
    ensures Parse(Join(records)) == Some(records)
  {
    hide ParseRecord;
    if records != [] {
      var data, rest := Join(records), Join(records[1..]);
      RecordThen(records[0], rest);
      JoinParses(records[1..]);
      assert data[|records[0].Bytes()|..] == rest;
      assert [records[0]] + records[1..] == records;
    }
  }

  lemma {:induction false} ParseJoins(data: seq<Byte>)
    ensures Parse(data).Some? ==> Decomposes(data, Parse(data).value)
    decreases |data|
  {
    hide ParseRecord, Record.WellFormed;
    if data != [] && ParseRecord(data).Some? {
      var record := ParseRecord(data).value;
      var rest := data[|record.Bytes()|..];
      ParsedWellFormed(data);
      ParseJoins(rest);
      if Parse(rest).Some? {
        var records := [record] + Parse(rest).value;
        assert records[1..] == Parse(rest).value;
        assert data == record.Bytes() + rest;
      }
    }
  }

  /** Parsing accepts exactly the concatenations of well-formed records, and finds their decomposition. */
  lemma {:induction false} ParseExact(data: seq<Byte>, records: seq<Record>)
    ensures Parse(data) == Some(records) <==> Decomposes(data, records)
  {
    ParseJoins(data);
    if Decomposes(data, records) {
      JoinParses(records);
    }
  }

  /** A message has at most one decomposition. */
  lemma UniqueDecomposition(data: seq<Byte>, a: seq<Record>, b: seq<Record>)
    requires Decomposes(data, a) && Decomposes(data, b)
    ensures a == b
  {
    ParseExact(data, a);
    ParseExact(data, b);
  }

  lemma ParseFirst(record: Record, rest: seq<Byte>)
    requires record.WellFormed()
    ensures Parse(record.Bytes() + rest) ==
            match Parse(rest) case None => None case Some(records) => Some([record] + records)
  {
    hide ParseRecord;
    RecordThen(record, rest);
    assert (record.Bytes() + rest)[|record.Bytes()|..] == rest;
  }

  /** After an accepted message, whatever follows is read as a message of its own. */
  lemma {:induction false} ParseAppend(a: seq<Byte>, b: seq<Byte>)
    requires Parse(a).Some?
    ensures Parse(a + b) == match Parse(b) case None => None case Some(more) => Some(Parse(a).value + more)
  {
    ParseJoins(a);
    JoinThen(Parse(a).value, b);
  }

  lemma {:induction false} JoinThen(records: seq<Record>, rest: seq<Byte>)
    requires forall i :: 0 <= i < |records| ==> records[i].WellFormed()
    ensures Parse(Join(records) + rest) == match Parse(rest) case None => None case Some(more) => Some(records + more)
  {
    hide Parse, Record.WellFormed, Record.Bytes;
    if records == [] {
      assert Join(records) + rest == rest;
      if Parse(rest).Some? {
        assert [] + Parse(rest).value == Parse(rest).value;
      }
    } else {
      var first, later := records[0], records[1..];
      ParseFirst(first, Join(later) + rest);
      assert Join(records) + rest == first.Bytes() + (Join(later) + rest);
      JoinThen(later, rest);
      if Parse(rest).Some? {
        assert [first] + (later + Parse(rest).value) == records + Parse(rest).value;
      }
    }
  }

  // ------------------------------------------------------------------ visiting

  /** Hand each field to the visitor in order, stopping at the first refusal. */
  function Fold<S>(visit: (S, Field) -> Option<S>, state: S, fields: seq<Field>): Option<S> {
    if fields == [] then Some(state)
    else
      match visit(state, fields[0])
      case None => None
      case Some(next) => Fold(visit, next, fields[1..])
  }

  function Visit<S>(data: seq<Byte>, init: S, visit: (S, Field) -> Option<S>): Option<S> {
    match Parse(data)
    case None => None
    case Some(records) => Fold(visit, init, Fields(records))
  }

  lemma {:induction false} FoldAppend<S>(visit: (S, Field) -> Option<S>, state: S, a: seq<Field>, b: seq<Field>)
    ensures Fold(visit, state, a + b) ==
            match Fold(visit, state, a) case None => None case Some(next) => Fold(visit, next, b)
  {
    if a == [] {
      assert a + b == b;
    } else {
      assert (a + b)[0] == a[0] && (a + b)[1..] == a[1..] + b;
      match visit(state, a[0])
      case None =>
      case Some(next) => FoldAppend(visit, next, a[1..], b);
    }
  }

  /** Visiting two messages one after the other is visiting their concatenation. */
  lemma {:induction false} VisitAppend<S>(a: seq<Byte>, b: seq<Byte>, init: S, visit: (S, Field) -> Option<S>)
    requires Parse(a).Some?
    ensures Visit(a + b, init, visit) ==
            match Visit(a, init, visit) case None => None case Some(next) => Visit(b, next, visit)
  {
    hide Parse;
    ParseAppend(a, b);
    if Parse(b).Some? {
      assert Fields(Parse(a).value + Parse(b).value) == Fields(Parse(a).value) + Fields(Parse(b).value);
      FoldAppend(visit, init, Fields(Parse(a).value), Fields(Parse(b).value));
    }
  }

  lemma VisitStep<S>(data: seq<Byte>, init: S, visit: (S, Field) -> Option<S>)
    requires data != []
    ensures ParseRecord(data).None? ==> Visit(data, init, visit) == None
    ensures ParseRecord(data).Some? ==>
      var record := ParseRecord(data).value;
      Visit(data, init, visit) ==
        match visit(init, record.Content())
        case None => None
        case Some(next) => Visit(data[|record.Bytes()|..], next, visit)
  {
    hide ParseRecord, Record.WellFormed;
    if ParseRecord(data).Some? {
      var record := ParseRecord(data).value;
      var rest := Parse(data[|record.Bytes()|..]);
      if rest.Some? {
        assert Fields([record] + rest.value)[1..] == Fields(rest.value);
      }
    }
  }

  // ------------------------------------------------------------------ the reader's arithmetic

  /** Bitwise or. */
  function Or(a: nat, b: nat): nat
    decreases a + b
  {
    if a == 0 && b == 0 then 0
    else (if a % 2 == 1 || b % 2 == 1 then 1 else 0) + 2 * Or(a / 2, b / 2)
  }

  /** A 64-bit left shift, which loses the bits it pushes out. */
  function ShiftLeft(n: nat, places: nat): nat {
    n * Power(2, places) % U64_RANGE
  }

  lemma {:induction false} OrZero(b: nat)
    ensures Or(0, b) == b
  {
    if b > 0 {
      OrZero(b / 2);
    }
  }

  lemma {:induction false} OrDisjoint(a: nat, m: nat, k: nat)
    requires a < Power(2, k)
    ensures Or(a, m * Power(2, k)) == a + m * Power(2, k)
  {
    if k == 0 {
      OrZero(m);
    } else {
      var b := m * Power(2, k);
      assert b == 2 * (m * Power(2, k - 1));
      OrDisjoint(a / 2, m, k - 1);
    }
  }

  lemma {:induction false} PowerSum(base: nat, i: nat, j: nat)
    ensures Power(base, i + j) == Power(base, i) * Power(base, j)
  {
    if i > 0 {
      PowerSum(base, i - 1, j);
      assert Power(base, i + j) == base * (Power(base, i - 1) * Power(base, j));
    }
  }

  lemma {:induction false} SevenBits(i: nat)
    ensures Power(2, i * 7) == Power(128, i)
  {
    if i > 0 {
      SevenBits(i - 1);
      PowerSum(2, 7, i * 7 - 7);
      assert Power(2, 7) == 128;
    }
  }

  lemma TenGroups()
    ensures Power(128, 8) * 128 == Power(128, 9) == 0x8000_0000_0000_0000
  {
  }

  lemma {:induction false} PowerGrows(i: nat, j: nat)
    requires i <= j
    ensures 1 <= Power(128, i) <= Power(128, j)
  {
    if i < j {
      PowerGrows(i, j - 1);
    } else if i > 0 {
      PowerGrows(i - 1, i - 1);
    }
  }

  lemma {:induction false} ValueAppend(bytes: seq<Byte>, last: Byte)
    ensures Value(bytes + [last]) == Value(bytes) + last % 128 * Power(128, |bytes|)
    ensures Value(bytes) < Power(128, |bytes|)
  {
    if bytes == [] {
      assert (bytes + [last])[1..] == [];
    } else {
      var rest := bytes[1..];
      assert (bytes + [last])[1..] == rest + [last];
      ValueAppend(rest, last);
      Shifted(last % 128, Power(128, |rest|), Value(rest));
    }
  }

  lemma Shifted(bits: nat, unit: nat, low: nat)
    ensures 128 * (low + bits * unit) == 128 * low + bits * (128 * unit)
  {
  }

  lemma Product(a: nat, b: nat, c: nat, d: nat)
    requires a <= b && c <= d
    ensures a * c <= b * d
  {
    assert b * d == a * c + (b - a) * d + a * (d - c);
  }

  /** Seven more bits above `i` groups still fit 64 bits. */
  lemma GroupFits(bits: nat, i: nat)
    requires i <= 9 && bits < 128 && (i == 9 ==> bits <= 1)
    ensures bits * Power(128, i) + Power(128, i) <= U64_RANGE
  {
    hide Power;
    TenGroups();
    var unit := Power(128, i);
    if i < 9 {
      PowerGrows(i, 8);
      Product(bits + 1, 128, unit, Power(128, 8));
    } else {
      Product(bits + 1, 2, unit, unit);
    }
    assert (bits + 1) * unit == bits * unit + unit;
  }

  lemma ShiftExact(bits: nat, i: nat)
    requires i <= 9 && bits < 128 && (i == 9 ==> bits <= 1)
    ensures ShiftLeft(bits, i * 7) == bits * Power(2, i * 7) == bits * Power(128, i)
    ensures bits * Power(128, i) + Power(128, i) <= U64_RANGE && 0 < Power(128, i)
  {
    hide Power;
    GroupFits(bits, i);
    PowerGrows(0, i);
    SevenBits(i);
    assert bits * Power(128, i) < U64_RANGE;
  }

  /** Merging the next seven bits by shift and or loses none of them. */
  lemma MergeExact(bytes: seq<Byte>, last: Byte)
    requires |bytes| <= 9 && (|bytes| == 9 ==> last <= 1)
    ensures Or(Value(bytes), ShiftLeft(last % 128, |bytes| * 7)) == Value(bytes + [last])
    ensures Value(bytes + [last]) < U64_RANGE
  {
    hide Value, Power, Or, ShiftLeft;
    ValueAppend(bytes, last);
    SevenBits(|bytes|);
    ShiftExact(last % 128, |bytes|);
    OrDisjoint(Value(bytes), last % 128, |bytes| * 7);
  }

  datatype Varint = Varint(value: nat, end: nat)

  function VarintAt(data: seq<Byte>, offset: nat): Option<Varint> {
    if offset > |data| then None
    else
      match VarintLength(data[offset..])
      case None => None
      case Some(n) => Some(Varint(Value(data[offset..offset + n]), offset + n))
  }

  lemma {:induction false} AllContinue(data: seq<Byte>, n: nat)
    requires n <= |data| && forall i :: 0 <= i < n ==> data[i] >= 128
    requires n == 10 || n == |data| || (n == 9 && data[9] > 1)
    ensures VarintLength(data) == None
  {
  }

  lemma {:induction false} VarintEnds(data: seq<Byte>, offset: nat, end: nat)
    requires offset < end <= |data| && end - offset <= 10 && data[end - 1] < 128
    requires forall i :: offset <= i < end - 1 ==> data[i] >= 128
    requires end - offset == 10 ==> data[end - 1] <= 1
    ensures VarintLength(data[offset..]) == Some(end - offset)
  {
  }

  lemma EmptyValue(data: seq<Byte>, offset: nat)
    ensures offset <= |data| ==> Value(data[offset..offset]) == 0
  {
  }

  /** One turn of the reader's loop: seven more bits of the exact sum. */
  lemma NextGroup(data: seq<Byte>, offset: nat, index: nat)
    requires offset + index < |data| && index <= 9 && (index == 9 ==> data[offset + index] <= 1)
    ensures var value := Value(data[offset..offset + index + 1]);
      && Or(Value(data[offset..offset + index]), ShiftLeft(data[offset + index] % 128, index * 7)) == value
      && value < U64_RANGE
  {
    hide Value, Or, ShiftLeft;
    var bytes := data[offset..offset + index];
    assert data[offset..offset + index + 1] == bytes + [data[offset + index]];
    MergeExact(bytes, data[offset + index]);
  }

  /** Read a varint: the exact sum of its seven-bit groups, or nothing if no varint starts here. */
  method ReadVarint(data: Data, offset: nat) returns (r: Option<Varint>)
    ensures r == VarintAt(data, offset)
    ensures r.Some? ==> r.value.value < U64_RANGE && offset < r.value.end <= |data|
  {
    hide VarintLength, IsVarint, Value, Or, ShiftLeft;
    EmptyValue(data, offset);
    var value, end := 0, offset;
    for index := 0 to 10
      invariant end == offset + index
      invariant index > 0 ==> end <= |data|
      invariant index > 0 ==> forall i :: offset <= i < end ==> data[i] >= 128
      invariant end <= |data| ==> value == Value(data[offset..end])
    {
      if end >= |data| {
        if end == |data| {
          AllContinue(data[offset..], index);
        }
        return None;
      }
      var byte := data[end];
      if index == 9 && byte > 1 {
        AllContinue(data[offset..], index);
        return None;
      }
      NextGroup(data, offset, index);
      value := Or(value, ShiftLeft(byte % 128, index * 7));
      end := end + 1;
      if byte < 128 {
        VarintEnds(data, offset, end);
        return Some(Varint(value, end));
      }
    }
    AllContinue(data[offset..], 10);
    r := None;
  }

  // ------------------------------------------------------------------ visit_fields

  /** The record at an offset, in the reader's own terms: where its parts begin and end. */
  function RecordAt(data: seq<Byte>, offset: nat): Option<Record>
    requires offset <= |data|
  {
    match VarintAt(data, offset)
    case None => None
    case Some(tag) =>
      if !(1 <= tag.value / 8 <= MAX_NUMBER) then None
      else
        var start := tag.end;
        match tag.value % 8
        case 0 =>
          (match VarintAt(data, start)
           case None => None
           case Some(v) => Some(Record(data[offset..start], [], data[start..v.end])))
        case 1 =>
          if start + 8 > |data| then None else Some(Record(data[offset..start], [], data[start..start + 8]))
        case 2 =>
          (match VarintAt(data, start)
           case None => None
           case Some(v) =>
             if v.end + v.value > |data| then None
             else Some(Record(data[offset..start], data[start..v.end], data[v.end..v.end + v.value])))
        case 5 =>
          if start + 4 > |data| then None else Some(Record(data[offset..start], [], data[start..start + 4]))
        case _ => None
  }

  lemma RecordAtParses(data: seq<Byte>, offset: nat)
    requires offset <= |data|
    ensures RecordAt(data, offset) == ParseRecord(data[offset..])
  {
    hide IsVarint, Value, VarintLength;
    var here := data[offset..];
    if VarintLength(here).Some? {
      var n := VarintLength(here).value;
      var start := offset + n;
      assert here[..n] == data[offset..start];
      assert here[n..] == data[start..];
      var rest := data[start..];
      assert forall i, j :: 0 <= i <= j <= |rest| ==> rest[i..j] == data[start + i..start + j];
      assert forall j :: 0 <= j <= |rest| ==> rest[..j] == data[start..start + j];
    }
  }

  /** A length prefix and the bytes it announces, if they are all there. */
  function DelimitedAt(data: seq<Byte>, offset: nat): Option<seq<Byte>> {
    match VarintAt(data, offset)
    case None => None
    case Some(v) => if v.end + v.value <= |data| then Some(data[v.end..v.end + v.value]) else None
  }

  method Delimited(data: Data, offset: nat) returns (r: Option<seq<Byte>>)
    ensures r == DelimitedAt(data, offset)
  {
    var length := ReadVarint(data, offset);
    if length.None? {
      return None;
    }
    var end := length.value.end + length.value.value;
    if end >= U64_RANGE || end > |data| {
      return None;
    }
    r := Some(data[length.value.end..end]);
  }

  /** Every field of a well-formed message in order, or nothing: a malformed one, or a refusal. */
  method VisitFields<S>(data: Data, init: S, visit: (S, Field) -> Option<S>) returns (r: Option<S>)
    ensures r == Visit(data, init, visit)
  {
    hide IsVarint, Value, VarintLength, Parse, ParseRecord, Fold;
    var state, offset := init, 0;
    assert data[0..] == data;
    while offset < |data|
      invariant offset <= |data|
      invariant Visit(data, init, visit) == Visit(data[offset..], state, visit)
    {
      VisitStep(data[offset..], state, visit);
      RecordAtParses(data, offset);
      var tag := ReadVarint(data, offset);
      if tag.None? {
        return None;
      }
      var number, wire, start := tag.value.value / 8, tag.value.value % 8, tag.value.end;
      if number == 0 || number > MAX_NUMBER {
        return None;
      }
      var end := start;
      if wire == 0 {
        var value := ReadVarint(data, start);
        if value.None? {
          return None;
        }
        end := value.value.end;
      } else if wire == 1 {
        end := start + 8;
      } else if wire == 2 {
        var length := ReadVarint(data, start);
        if length.None? {
          return None;
        }
        end := length.value.end + length.value.value;
      } else if wire == 5 {
        end := start + 4;
      } else {
        return None;
      }
      if end >= U64_RANGE || end > |data| {
        return None;
      }
      var value := data[start..end];
      if wire == 2 {
        var delimited := Delimited(data, start);
        value := delimited.value;
      }
      TagValue(data, offset, tag.value);
      var next := visit(state, Field(number, wire, value));
      if next.None? {
        return None;
      }
      assert data[offset..][end - offset..] == data[end..];
      state, offset := next.value, end;
    }
    assert data[offset..] == [];
    VisitNothing(state, visit);
    r := Some(state);
  }

  lemma TagValue(data: seq<Byte>, offset: nat, tag: Varint)
    requires VarintAt(data, offset) == Some(tag)
    ensures Value(data[offset..tag.end]) == tag.value
  {
  }

  lemma VisitNothing<S>(state: S, visit: (S, Field) -> Option<S>)
    ensures Visit([], state, visit) == Some(state)
  {
  }
}
