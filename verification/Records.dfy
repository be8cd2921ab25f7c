/** internal/protocol/server_payload_builders.go: typed records of commands 13, 14 and
    15, the builders that lay them out, and the decoding that inverts the builders. */
module Records {
  import opened Bytes
  import opened Results
  import opened Messages
  import opened Payloads

  datatype Record =
    | IdRecord(slotIndex: uint16, id: seq<byte>, group: byte, banDate: uint32,
               lifetimeMinutes: uint16, idType: byte, reserve: seq<byte>)
    | ScheduleRecord(slot: byte, startHour: byte, startMinute: byte, endHour: byte, endMinute: byte,
                     flags: seq<byte>, scenes: seq<byte>, holidayLogic: byte, reserve: seq<byte>)
    | GroupRecord(slot: byte, schedule: byte, permissions: seq<byte>, reserve: seq<byte>)

  function KindOf(r: Record): Kind {
    match r
    case IdRecord(_, _, _, _, _, _, _) => Ids
    case ScheduleRecord(_, _, _, _, _, _, _, _, _) => Schedules
    case GroupRecord(_, _, _, _) => Groups
  }

  /** The fixed array lengths of the source's record types. */
  predicate WellTyped(r: Record) {
    match r
    case IdRecord(_, _, _, _, _, _, reserve) => |reserve| == 12
    case ScheduleRecord(_, _, _, _, _, flags, scenes, _, reserve) => |flags| == 8 && |scenes| == 8 && |reserve| == 10
    case GroupRecord(_, _, permissions, reserve) => |permissions| == 8 && |reserve| == 6
  }

  /** What a record must satisfy for its own Build to succeed, field by field. */
  predicate FieldsOk(r: Record) {
    match r
    case IdRecord(slotIndex, id, group, _, _, idType, _) =>
      1 <= slotIndex <= 50000 && group <= 64 && idType <= 7 && |id| <= 10 && AllAtMost(id, 127)
    case ScheduleRecord(slot, startHour, startMinute, endHour, endMinute, flags, scenes, holidayLogic, _) =>
      && 1 <= slot <= 64
      && startHour <= 23 && endHour <= 23 && startMinute <= 59 && endMinute <= 59
      && AllAtMost(flags, 1) && AllAtMost(scenes, 64) && holidayLogic <= 3
    case GroupRecord(slot, schedule, permissions, _) =>
      1 <= slot <= 64 && schedule <= 64 && AllAtMost(permissions, 1)
  }

  function Zeros(n: nat): (s: seq<byte>)
    ensures |s| == n && forall i :: 0 <= i < n ==> s[i] == 0
  {
    seq(n, _ => 0)
  }

  /** fixedASCII on text that fits. */
  function Padded(id: seq<byte>): (s: seq<byte>)
    requires |id| <= 10
    ensures |s| == 10
  {
    id + Zeros(10 - |id|)
  }

  /** The bytes a record is laid out as. */
  function Layout(r: Record): (b: seq<byte>)
    requires WellTyped(r) && (r.IdRecord? ==> |r.id| <= 10)
    ensures |b| == RecordSize(KindOf(r))
  {
    match r
    case IdRecord(slotIndex, id, group, banDate, lifetimeMinutes, idType, reserve) =>
      PutUint16(slotIndex) + Padded(id) + [group] + PutUint32(banDate) + PutUint16(lifetimeMinutes) + [idType] + reserve
    case ScheduleRecord(slot, startHour, startMinute, endHour, endMinute, flags, scenes, holidayLogic, reserve) =>
      [slot, startHour, startMinute, endHour, endMinute] + flags + scenes + [holidayLogic] + reserve
    case GroupRecord(slot, schedule, permissions, reserve) =>
      [slot, schedule] + permissions + reserve
  }

  function Decode(kind: Kind, b: seq<byte>): (r: Record)
    requires |b| == RecordSize(kind)
    ensures WellTyped(r) && KindOf(r) == kind
    ensures r.IdRecord? ==> |r.id| <= 10
  {
    match kind
    case Ids =>
      IdRecord(Uint16(b[0], b[1]), Trim(b[2..12]), b[12], Uint32(b[13..17]), Uint16(b[17], b[18]), b[19], b[20..])
    case Schedules =>
      ScheduleRecord(b[0], b[1], b[2], b[3], b[4], b[5..13], b[13..21], b[21], b[22..])
    case Groups =>
      GroupRecord(b[0], b[1], b[2..10], b[10..])
  }

  // ---- Record by record ----

  lemma {:induction false} TrimZeros(s: seq<byte>, n: nat)
    ensures TrimmedLength(s + Zeros(n)) == TrimmedLength(s)
    decreases n
  {
    if n == 0 {
      assert s + Zeros(0) == s;
    } else {
      assert (s + Zeros(n))[..|s| + n - 1] == s + Zeros(n - 1);
      TrimZeros(s, n - 1);
    }
  }

  lemma TrimAppend(s: seq<byte>, z: seq<byte>)
    requires TrimmedLength(s + z) == TrimmedLength(s)
    ensures Trim(s + z) == Trim(s)
  {
    var n := TrimmedLength(s);
    assert (s + z)[..n] == s[..n];
  }

  lemma PaddedTrim(id: seq<byte>)
    requires |id| <= 10
    ensures TrimmedLength(Padded(id)) == TrimmedLength(id)
    ensures Trim(Padded(id)) == Trim(id)
  {
    var z := PaddingOf(id);
    TrimAppend(id, z);
  }

  lemma PaddingOf(id: seq<byte>) returns (z: seq<byte>)
    requires |id| <= 10
    ensures Padded(id) == id + z && TrimmedLength(id + z) == TrimmedLength(id)
  {
    z := Zeros(10 - |id|);
    TrimZeros(id, 10 - |id|);
  }

  lemma TrimPadded(field: seq<byte>)
    requires |field| == 10
    ensures Padded(Trim(field)) == field
  {
  }

  /** Zeros inside the text, followed by more text: what fixedASCII lets through and
      the validator does not. */
  predicate InnerZero(id: seq<byte>) {
    exists i :: 0 <= i < TrimmedLength(id) && id[i] == 0
  }

  lemma IdLayout(r: Record)
    requires r.IdRecord? && WellTyped(r) && |r.id| <= 10
    ensures var b := Layout(r);
            && b[0..2] == PutUint16(r.slotIndex) && b[2..12] == Padded(r.id) && b[12] == r.group
            && b[13..17] == PutUint32(r.banDate) && b[17..19] == PutUint16(r.lifetimeMinutes)
            && b[19] == r.idType && b[20..] == r.reserve
  {
    var front := PutUint16(r.slotIndex) + Padded(r.id) + [r.group];
    var back := PutUint32(r.banDate) + PutUint16(r.lifetimeMinutes) + [r.idType] + r.reserve;
    JoinIs(PutUint16(r.slotIndex), Padded(r.id), [r.group], PutUint32(r.banDate), PutUint16(r.lifetimeMinutes), [r.idType],
           r.reserve);
    assert Layout(r) == front + back;
    assert front[0..2] == PutUint16(r.slotIndex) && front[2..12] == Padded(r.id) && front[12] == r.group;
    assert back[0..4] == PutUint32(r.banDate) && back[4..6] == PutUint16(r.lifetimeMinutes) && back[6] == r.idType;
    assert back[7..] == r.reserve;
    SliceOfJoin(front, back, 0, 4);
    SliceOfJoin(front, back, 4, 6);
    SliceOfJoin(front, back, 7, |back|);
  }

  lemma JoinIs(a: seq<byte>, b: seq<byte>, c: seq<byte>, d: seq<byte>, e: seq<byte>, f: seq<byte>, g: seq<byte>)
    ensures a + b + c + d + e + f + g == (a + b + c) + (d + e + f + g)
  {
  }

  lemma SliceOfJoin(a: seq<byte>, b: seq<byte>, i: nat, j: nat)
    requires i <= j <= |b|
    ensures (a + b)[|a| + i..|a| + j] == b[i..j]
  {
  }

  lemma ScheduleLayout(r: Record)
    requires r.ScheduleRecord? && WellTyped(r)
    ensures var b := Layout(r);
            && b[..5] == [r.slot, r.startHour, r.startMinute, r.endHour, r.endMinute]
            && b[5..13] == r.flags && b[13..21] == r.scenes && b[21] == r.holidayLogic && b[22..] == r.reserve
  {
  }

  lemma GroupLayout(r: Record)
    requires r.GroupRecord? && WellTyped(r)
    ensures var b := Layout(r);
            b[0] == r.slot && b[1] == r.schedule && b[2..10] == r.permissions && b[10..] == r.reserve
  {
  }

  /** Padding does not change whether text is acceptable: ASCII, and no zero inside. */
  lemma PaddedAccepted(id: seq<byte>)
    requires |id| <= 10
    ensures PaddedAscii(Padded(id)) <==> AllAtMost(id, 127) && !InnerZero(id)
  {
    PaddedTrim(id);
    var n := TrimmedLength(id);
    assert forall i :: 0 <= i < n ==> Padded(id)[i] == id[i];
    if PaddedAscii(Padded(id)) {
      assert forall i :: 0 <= i < n ==> 1 <= Padded(id)[i] <= 127;
    }
  }

  lemma IdAccepted(r: Record)
    requires r.IdRecord? && WellTyped(r) && |r.id| <= 10
    ensures RecordOk(Ids, Layout(r)) <==> FieldsOk(r) && !InnerZero(r.id)
  {
    var b := Layout(r);
    IdLayout(r);
    assert b[0] == b[0..2][0] && b[1] == b[0..2][1];
    PaddedAccepted(r.id);
  }

  lemma ScheduleAccepted(r: Record)
    requires r.ScheduleRecord? && WellTyped(r)
    ensures RecordOk(Schedules, Layout(r)) <==> FieldsOk(r)
  {
    var b := Layout(r);
    ScheduleLayout(r);
    assert forall i :: 0 <= i < 5 ==> b[i] == b[..5][i];
  }

  /** The validator accepts a laid-out record exactly when the record's fields are in
      range and, for an id record, its text has no inner zero. */
  lemma LayoutAccepted(r: Record)
    requires WellTyped(r) && (r.IdRecord? ==> |r.id| <= 10)
    ensures RecordOk(KindOf(r), Layout(r)) <==> FieldsOk(r) && !(r.IdRecord? && InnerZero(r.id))
  {
    match r
    case IdRecord(_, _, _, _, _, _, _) => IdAccepted(r);
    case ScheduleRecord(_, _, _, _, _, _, _, _, _) => ScheduleAccepted(r);
    case GroupRecord(_, _, _, _) => GroupLayout(r);
  }

  /** Decoding a layout gives the record back, except that trailing zeros of an id are
      indistinguishable from its padding. */
  lemma DecodeLayout(r: Record)
    requires WellTyped(r) && (r.IdRecord? ==> |r.id| <= 10)
    ensures Decode(KindOf(r), Layout(r)) == r <==> (r.IdRecord? ==> Trim(r.id) == r.id)
    ensures Decode(KindOf(r), Layout(r)) == if r.IdRecord? then r.(id := Trim(r.id)) else r
  {
    var b := Layout(r);
    match r
    case IdRecord(slotIndex, id, _, _, lifetimeMinutes, _, _) =>
      IdLayout(r);
      assert b[0] == b[0..2][0] && b[1] == b[0..2][1] && b[17] == b[17..19][0] && b[18] == b[17..19][1];
      PaddedTrim(id);
    case ScheduleRecord(_, _, _, _, _, _, _, _, _) =>
      ScheduleLayout(r);
      assert forall i :: 0 <= i < 5 ==> b[i] == b[..5][i];
    case GroupRecord(_, _, _, _) =>
      GroupLayout(r);
  }

  lemma LayoutDecodeId(b: seq<byte>)
    requires |b| == 32
    ensures Layout(Decode(Ids, b)) == b
  {
    TrimPadded(b[2..12]);
    PutUint16OfUint16(b[0], b[1]);
    PutUint32OfUint32(b[13..17]);
    PutUint16OfUint16(b[17], b[18]);
    var head := [b[0], b[1]] + b[2..12] + [b[12]] + b[13..17];
    assert head == b[..17];
    var tail := [b[17], b[18]] + [b[19]] + b[20..];
    assert tail == b[17..];
    assert b == b[..17] + b[17..];
    assert head + [b[17], b[18]] + [b[19]] + b[20..] == head + tail;
  }

  /** Laying out what was decoded rebuilds the bytes, always. */
  lemma LayoutDecode(kind: Kind, b: seq<byte>)
    requires |b| == RecordSize(kind)
    ensures Layout(Decode(kind, b)) == b
  {
    match kind
    case Ids => LayoutDecodeId(b);
    case Schedules => assert b == b[..5] + b[5..13] + b[13..21] + [b[21]] + b[22..];
    case Groups => assert b == b[..2] + b[2..10] + b[10..];
  }

  // ---- Whole payloads ----

  predicate AllOf(kind: Kind, records: seq<Record>) {
    forall i :: 0 <= i < |records| ==> WellTyped(records[i]) && KindOf(records[i]) == kind
  }

  predicate AllFit(records: seq<Record>) {
    forall i :: 0 <= i < |records| ==> WellTyped(records[i]) && (records[i].IdRecord? ==> |records[i].id| <= 10)
  }

  function Layouts(kind: Kind, records: seq<Record>): (blocks: seq<seq<byte>>)
    requires AllOf(kind, records) && AllFit(records)
    ensures |blocks| == |records| && BlocksFit(kind, blocks)
  {
    seq(|records|, i requires 0 <= i < |records| => Layout(records[i]))
  }

  function PayloadOf(kind: Kind, timestamp: uint32, records: seq<Record>): seq<byte>
    requires AllOf(kind, records) && AllFit(records) && |records| <= MaxCount(kind)
  {
    Assemble(kind, timestamp, Layouts(kind, records))
  }

  function DecodeAll(kind: Kind, payload: seq<byte>): (records: seq<Record>)
    requires HeaderOk(kind, payload)
    ensures AllOf(kind, records) && AllFit(records)
  {
    var blocks := BlocksOf(kind, payload);
    seq(|blocks|, i requires 0 <= i < |blocks| => Decode(kind, blocks[i]))
  }

  /** In range, and no text after a zero. */
  predicate Sendable(r: Record) {
    FieldsOk(r) && !(r.IdRecord? && InnerZero(r.id))
  }

  /** The closing validation of a structured build accepts exactly the payloads of
      records that are acceptable one by one. */
  lemma PayloadAccepted(kind: Kind, timestamp: uint32, records: seq<Record>)
    requires AllOf(kind, records) && AllFit(records) && 1 <= |records| <= MaxCount(kind)
    ensures RecordsAccepted(kind, PayloadOf(kind, timestamp, records)) <==>
            forall i :: 0 <= i < |records| ==> Sendable(records[i])
  {
    var p := PayloadOf(kind, timestamp, records);
    BlocksOfAssembled(kind, timestamp, Layouts(kind, records));
    forall i | 0 <= i < |records|
      ensures RecordOk(kind, RecordAt(kind, p, i)) <==> Sendable(records[i])
    {
      assert RecordAt(kind, p, i) == BlocksOf(kind, p)[i];
      LayoutAccepted(records[i]);
    }
  }

  /** Every payload with a consistent header, so every accepted one, is the payload built
      from its decoded records. */
  lemma BuildOfDecoded(kind: Kind, payload: seq<byte>)
    requires HeaderOk(kind, payload)
    ensures PayloadOf(kind, Uint32(payload[..4]), DecodeAll(kind, payload)) == payload
  {
    var blocks := BlocksOf(kind, payload);
    forall i | 0 <= i < |blocks| ensures Layout(Decode(kind, blocks[i])) == blocks[i] {
      LayoutDecode(kind, blocks[i]);
    }
    assert Layouts(kind, DecodeAll(kind, payload)) == blocks;
    AssembleBlocks(kind, payload);
  }

  /** Decoding a built payload gives the records back, unless an id ends in zeros. */
  lemma DecodedOfBuild(kind: Kind, timestamp: uint32, records: seq<Record>)
    requires AllOf(kind, records) && AllFit(records) && 1 <= |records| <= MaxCount(kind)
    ensures HeaderOk(kind, PayloadOf(kind, timestamp, records))
    ensures DecodeAll(kind, PayloadOf(kind, timestamp, records)) == records <==>
            forall i :: 0 <= i < |records| ==> (records[i].IdRecord? ==> Trim(records[i].id) == records[i].id)
  {
    BlocksOfAssembled(kind, timestamp, Layouts(kind, records));
    var decoded := DecodeAll(kind, PayloadOf(kind, timestamp, records));
    forall i | 0 <= i < |records|
      ensures decoded[i] == records[i] <==> (records[i].IdRecord? ==> Trim(records[i].id) == records[i].id)
    {
      DecodeLayout(records[i]);
    }
  }

  // ---- The builders ----

  datatype BuildError = CountOutOfRange | BadRecord(index: nat) | ClosingValidation

  /** fixedASCII: too long or not ASCII is refused, the rest is padded. */
  method FixedAscii(s: seq<byte>, size: nat) returns (r: Option<seq<byte>>)
    ensures r.Some? <==> |s| <= size && AllAtMost(s, 127)
    ensures r.Some? ==> r.value == s + Zeros(size - |s|)
  {
    if |s| > size { return None; }
    var out := new byte[size](_ => 0);
    for i := 0 to |s|
      invariant out[..] == s[..i] + Zeros(size - i)
      invariant AllAtMost(s[..i], 127)
    {
      if s[i] > 127 {
        return None;
      }
      out[i] := s[i];
      assert s[..i + 1] == s[..i] + [s[i]];
    }
    assert s[..|s|] == s;
    return Some(out[..]);
  }

  /** The Build methods of the three record types. */
  method BuildRecord(r: Record) returns (out: Option<seq<byte>>)
    requires WellTyped(r)
    ensures out.Some? <==> FieldsOk(r)
    ensures out.Some? ==> out.value == Layout(r)
  {
    match r
    case IdRecord(slotIndex, id, group, banDate, lifetimeMinutes, idType, reserve) =>
      if slotIndex == 0 || slotIndex > 50000 || group > 64 || idType > 7 { return None; }
      var idBytes := FixedAscii(id, 10);
      if idBytes == None { return None; }
      return Some(PutUint16(slotIndex) + idBytes.value + [group] + PutUint32(banDate)
                  + PutUint16(lifetimeMinutes) + [idType] + reserve);
    case _ =>
      out := BuildValidated(r);
  }

  /** The other two reuse the command-level validator on a payload of one record. */
  method BuildValidated(r: Record) returns (out: Option<seq<byte>>)
    requires WellTyped(r) && !r.IdRecord?
    ensures out.Some? <==> FieldsOk(r)
    ensures out.Some? ==> out.value == Layout(r)
  {
    var raw := Layout(r);
    var ok := ValidateRecords(KindOf(r), Alone(raw));
    AloneAccepted(KindOf(r), raw);
    LayoutAccepted(r);
    return if ok then Some(raw) else None;
  }

  /** copy(out[off:], src), seen from the front of the buffer. */
  method CopyAt(out: array<byte>, off: nat, src: seq<byte>)
    requires off + |src| <= out.Length
    modifies out
    ensures out[..off + |src|] == old(out[..off]) + src
  {
    ghost var front := out[..off];
    for k := 0 to |src|
      invariant out[..off + k] == front + src[..k]
    {
      ghost var before := out[..off + k];
      out[off + k] := src[k];
      assert out[..off + k + 1] == before + [src[k]];
      assert src[..k + 1] == src[..k] + [src[k]];
    }
    assert src[..|src|] == src;
  }

  /** The bytes of a record whose fields are in order. */
  ghost function Image(r: Record): (b: seq<byte>)
    ensures |b| == RecordSize(KindOf(r))
  {
    if WellTyped(r) && FieldsOk(r) then Layout(r) else Zeros(RecordSize(KindOf(r)))
  }

  ghost function Images(kind: Kind, records: seq<Record>): (blocks: seq<seq<byte>>)
    requires AllOf(kind, records)
    ensures |blocks| == |records| && BlocksFit(kind, blocks)
  {
    seq(|records|, i requires 0 <= i < |records| => Image(records[i]))
  }

  /** The header and the first i records. */
  ghost function Front(kind: Kind, head: seq<byte>, records: seq<Record>, i: nat): seq<byte>
    requires AllOf(kind, records) && i <= |records|
  {
    head + Concat(kind, Images(kind, records)[..i])
  }

  lemma OffsetNext(kind: Kind, i: nat, n: nat)
    requires i < n
    ensures Offset(kind, i) + RecordSize(kind) == Offset(kind, i + 1) <= Offset(kind, n)
  {
  }

  lemma FrontNext(kind: Kind, head: seq<byte>, records: seq<Record>, i: nat)
    requires AllOf(kind, records) && i < |records|
    ensures Front(kind, head, records, i + 1) == Front(kind, head, records, i) + Image(records[i])
    ensures Offset(kind, i) + RecordSize(kind) == Offset(kind, i + 1) <= Offset(kind, |records|)
  {
    OffsetNext(kind, i, |records|);
    var blocks := Images(kind, records);
    assert blocks[..i + 1][..i] == blocks[..i] && blocks[..i + 1][i] == Image(records[i]);
    var body := Concat(kind, blocks[..i]);
    assert head + (body + Image(records[i])) == head + body + Image(records[i]);
  }

  lemma FrontIsPayload(kind: Kind, timestamp: uint32, records: seq<Record>)
    requires AllOf(kind, records) && |records| <= MaxCount(kind)
    requires forall i :: 0 <= i < |records| ==> FieldsOk(records[i])
    ensures AllFit(records)
    ensures Front(kind, PutUint32(timestamp) + [|records|], records, |records|) == PayloadOf(kind, timestamp, records)
  {
    assert Images(kind, records) == Layouts(kind, records);
    assert Images(kind, records)[..|records|] == Images(kind, records);
  }

  lemma FrontFirst(kind: Kind, head: seq<byte>, records: seq<Record>)
    requires AllOf(kind, records)
    ensures Front(kind, head, records, 0) == head
  {
  }

  /** One iteration of the filling loop: record i behind what is already in the buffer. */
  method FillOne(kind: Kind, head: seq<byte>, records: seq<Record>, out: array<byte>, off: nat, i: nat) returns (ok: bool)
    requires AllOf(kind, records) && i < |records| && out.Length == 5 + Offset(kind, |records|)
    requires off == 5 + Offset(kind, i) && Filled(kind, head, records, out[..off], i)
    modifies out
    ensures ok <==> FieldsOk(records[i])
    ensures off + RecordSize(kind) == 5 + Offset(kind, i + 1) <= out.Length
    ensures ok ==> Filled(kind, head, records, out[..off + RecordSize(kind)], i + 1)
  {
    FrontNext(kind, head, records, i);
    var b := BuildRecord(records[i]);
    if b == None { return false; }
    CopyAt(out, off, b.value);
    return true;
  }

  predicate OkUpTo(records: seq<Record>, n: nat) {
    n <= |records| && forall j :: 0 <= j < n ==> FieldsOk(records[j])
  }

  /** The first n records are in order, and the bytes are the header and their layouts. */
  ghost predicate Filled(kind: Kind, head: seq<byte>, records: seq<Record>, bytes: seq<byte>, n: nat) {
    AllOf(kind, records) && OkUpTo(records, n) && bytes == Front(kind, head, records, n)
  }

  /** Record i is the first whose fields are out of order. */
  predicate FirstBad(records: seq<Record>, i: nat) {
    i < |records| && !FieldsOk(records[i]) && OkUpTo(records, i)
  }

  /** The filling loop: all records, or up to the first that is out of order. */
  method FillAll(kind: Kind, head: seq<byte>, records: seq<Record>, out: array<byte>) returns (bad: Option<nat>)
    requires AllOf(kind, records) && |head| == 5 && out.Length == 5 + Offset(kind, |records|) && out[..5] == head
    modifies out
    ensures bad.Some? ==> FirstBad(records, bad.value)
    ensures bad.None? ==> Filled(kind, head, records, out[..], |records|)
  {
    var off := 5;
    FrontFirst(kind, head, records);
    for i := 0 to |records|
      invariant off == 5 + Offset(kind, i) <= out.Length
      invariant Filled(kind, head, records, out[..off], i)
    {
      var ok := FillOne(kind, head, records, out, off, i);
      if !ok { return Some(i); }
      off := off + RecordSize(kind);
    }
    assert out[..] == out[..off];
    return None;
  }

  /** Allocating and filling the buffer of the structured Build methods. */
  method FillRecords(kind: Kind, timestamp: uint32, records: seq<Record>) returns (r: Result<seq<byte>, BuildError>)
    requires AllOf(kind, records) && |records| <= MaxCount(kind)
    ensures r.Success? <==> forall i :: 0 <= i < |records| ==> FieldsOk(records[i])
    ensures r.Success? ==> AllFit(records) && r.value == PayloadOf(kind, timestamp, records)
    ensures r.Failure? ==> r.error.BadRecord? && FirstBad(records, r.error.index)
  {
    var out := new byte[5 + Offset(kind, |records|)](_ => 0);
    var head := PutUint32(timestamp) + [|records|];
    CopyAt(out, 0, head);
    assert out[..5] == head;
    var bad := FillAll(kind, head, records, out);
    if bad.Some? { return Failure(BadRecord(bad.value)); }
    FrontIsPayload(kind, timestamp, records);
    return Success(out[..]);
  }

  /** The three structured Build methods: fill a buffer record by record, then validate
      the whole. The closing validation fails for id records with an inner zero and for
      nothing else, so never for commands 14 and 15. */
  method BuildStructured(kind: Kind, timestamp: uint32, records: seq<Record>) returns (r: Result<seq<byte>, BuildError>)
    requires AllOf(kind, records)
    ensures r.Success? <==>
            && 1 <= |records| <= MaxCount(kind)
            && forall i :: 0 <= i < |records| ==> Sendable(records[i])
    ensures r.Success? ==> AllFit(records) && r.value == PayloadOf(kind, timestamp, records)
    ensures r.Success? ==> RecordsAccepted(kind, r.value)
    ensures r == Failure(ClosingValidation) <==>
            && 1 <= |records| <= MaxCount(kind)
            && (forall i :: 0 <= i < |records| ==> FieldsOk(records[i]))
            && !(forall i :: 0 <= i < |records| ==> Sendable(records[i]))
    ensures r == Failure(CountOutOfRange) <==> !(1 <= |records| <= MaxCount(kind))
    ensures r.Failure? && r.error.BadRecord? ==> FirstBad(records, r.error.index)
  {
    if |records| < 1 || |records| > MaxCount(kind) { return Failure(CountOutOfRange); }
    r := FillRecords(kind, timestamp, records);
    if r.Failure? { return; }
    var ok := ValidateRecords(kind, r.value);
    PayloadAccepted(kind, timestamp, records);
    if !ok { r := Failure(ClosingValidation); }
  }
}
