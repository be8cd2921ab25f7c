/** internal/protocol/server_payload_validation.go and the record offsets of cmd13.go,
    cmd14.go, cmd15.go: what a command payload must look like before it is sent. */
module Payloads {
  import opened Bytes
  import opened Results
  import opened Messages

  // ---- Record arrays: commands 13, 14 and 15 ----

  datatype Kind = Ids | Schedules | Groups

  function RecordSize(kind: Kind): nat {
    if kind == Groups then 16 else 32
  }

  /** Where record i starts, counted from the first record. */
  function Offset(kind: Kind, i: nat): nat {
    if kind == Groups then 16 * i else 32 * i
  }

  function MaxCount(kind: Kind): nat {
    if kind == Ids then 250 else 64
  }

  /** Text of ASCII bytes, then nothing but zeros. */
  predicate PaddedAscii(field: seq<byte>) {
    forall i :: 0 <= i < TrimmedLength(field) ==> 1 <= field[i] <= 127
  }

  predicate AllAtMost(s: seq<byte>, limit: byte) {
    forall i :: 0 <= i < |s| ==> s[i] <= limit
  }

  predicate RecordOk(kind: Kind, rec: seq<byte>)
    requires |rec| == RecordSize(kind)
  {
    match kind
    case Ids =>
      1 <= Uint16(rec[0], rec[1]) <= 50000 && PaddedAscii(rec[2..12]) && rec[12] <= 64 && rec[19] <= 7
    case Schedules =>
      && 1 <= rec[0] <= 64
      && rec[1] <= 23 && rec[3] <= 23
      && rec[2] <= 59 && rec[4] <= 59
      && AllAtMost(rec[5..13], 1)
      && AllAtMost(rec[13..21], 64)
      && rec[21] <= 3
    case Groups =>
      1 <= rec[0] <= 64 && rec[1] <= 64 && AllAtMost(rec[2..10], 1)
  }

  /** Timestamp, record count, and a length that fits the count. */
  predicate HeaderOk(kind: Kind, payload: seq<byte>) {
    && |payload| >= 5
    && 1 <= payload[4] <= MaxCount(kind)
    && |payload| == 5 + Offset(kind, payload[4])
  }

  function RecordAt(kind: Kind, payload: seq<byte>, i: nat): (rec: seq<byte>)
    requires HeaderOk(kind, payload) && i < payload[4]
    ensures |rec| == RecordSize(kind)
  {
    payload[5 + Offset(kind, i)..5 + Offset(kind, i + 1)]
  }

  predicate RecordsAccepted(kind: Kind, payload: seq<byte>) {
    && HeaderOk(kind, payload)
    && forall i :: 0 <= i < payload[4] ==> RecordOk(kind, RecordAt(kind, payload, i))
  }

  /** validatePaddedASCII: one pass carrying `seenZero`. */
  method ValidatePaddedAscii(field: seq<byte>) returns (ok: bool)
    ensures ok <==> PaddedAscii(field)
  {
    var seenZero := false;
    ghost var text := 0;
    for i := 0 to |field|
      invariant text <= i
      invariant if seenZero then text < i && field[text] == 0 else text == i
      invariant forall j :: 0 <= j < text ==> 1 <= field[j] <= 127
      invariant forall j :: text <= j < i ==> field[j] == 0
    {
      if field[i] == 0 {
        seenZero := true;
      } else if seenZero {
        assert TrimmedLength(field) > i;
        return false;
      } else if field[i] > 127 {
        assert TrimmedLength(field) > i;
        return false;
      } else {
        text := text + 1;
      }
    }
    assert TrimmedLength(field) <= text;
    return true;
  }

  method ValidateAtMost(s: seq<byte>, limit: byte) returns (ok: bool)
    ensures ok <==> AllAtMost(s, limit)
  {
    for f := 0 to |s|
      invariant forall j :: 0 <= j < f ==> s[j] <= limit
    {
      if s[f] > limit { return false; }
    }
    return true;
  }

  /** The body of the three validation loops. */
  method ValidateRecord(kind: Kind, rec: seq<byte>) returns (ok: bool)
    requires |rec| == RecordSize(kind)
    ensures ok <==> RecordOk(kind, rec)
  {
    match kind {
      case Ids =>
        var slot := Uint16(rec[0], rec[1]);
        if slot == 0 || slot > 50000 { return false; }
        var ascii := ValidatePaddedAscii(rec[2..12]);
        return ascii && rec[12] <= 64 && rec[19] <= 7;
      case Schedules =>
        if rec[0] < 1 || rec[0] > 64 { return false; }
        if rec[1] > 23 || rec[3] > 23 { return false; }
        if rec[2] > 59 || rec[4] > 59 { return false; }
        var flags := ValidateAtMost(rec[5..13], 1);
        if !flags { return false; }
        var scenes := ValidateAtMost(rec[13..21], 64);
        return scenes && rec[21] <= 3;
      case Groups =>
        if rec[0] < 1 || rec[0] > 64 { return false; }
        if rec[1] > 64 { return false; }
        ok := ValidateAtMost(rec[2..10], 1);
    }
  }

  /** Commands 13, 14 and 15 of ValidateServerCommandPayload: the loop over `off`. */
  method ValidateRecords(kind: Kind, payload: seq<byte>) returns (ok: bool)
    ensures ok <==> RecordsAccepted(kind, payload)
  {
    if |payload| < 5 { return false; }
    var count := payload[4];
    if count < 1 || count > MaxCount(kind) { return false; }
    var size := RecordSize(kind);
    if |payload| != 5 + Offset(kind, count) { return false; }
    var off := 5;
    for i := 0 to count
      invariant off == 5 + Offset(kind, i)
      invariant forall j :: 0 <= j < i ==> RecordOk(kind, RecordAt(kind, payload, j))
    {
      var good := ValidateRecord(kind, payload[off..off + size]);
      assert payload[off..off + size] == RecordAt(kind, payload, i);
      if !good { return false; }
      off := off + size;
    }
    return true;
  }

  /** A payload holding one record and a zero timestamp. */
  function Alone(rec: seq<byte>): seq<byte> {
    [0, 0, 0, 0, 1] + rec
  }

  lemma AloneAccepted(kind: Kind, rec: seq<byte>)
    requires |rec| == RecordSize(kind)
    ensures RecordsAccepted(kind, Alone(rec)) <==> RecordOk(kind, rec)
  {
    assert RecordAt(kind, Alone(rec), 0) == rec;
  }

  /** A payload is accepted exactly when its header is consistent and each of its
      records would be accepted in a payload of its own. */
  lemma ValidationDecomposes(kind: Kind, payload: seq<byte>)
    ensures RecordsAccepted(kind, payload) <==>
            && HeaderOk(kind, payload)
            && forall i :: 0 <= i < payload[4] ==> RecordsAccepted(kind, Alone(RecordAt(kind, payload, i)))
  {
    if HeaderOk(kind, payload) {
      forall i | 0 <= i < payload[4]
        ensures RecordsAccepted(kind, Alone(RecordAt(kind, payload, i))) <==> RecordOk(kind, RecordAt(kind, payload, i))
      {
        AloneAccepted(kind, RecordAt(kind, payload, i));
      }
    }
  }

  // ---- Payloads as timestamp, count and blocks ----

  predicate BlocksFit(kind: Kind, blocks: seq<seq<byte>>) {
    forall i :: 0 <= i < |blocks| ==> |blocks[i]| == RecordSize(kind)
  }

  function Concat(kind: Kind, blocks: seq<seq<byte>>): (b: seq<byte>)
    requires BlocksFit(kind, blocks)
    ensures |b| == Offset(kind, |blocks|)
  {
    if blocks == [] then [] else Concat(kind, blocks[..|blocks| - 1]) + blocks[|blocks| - 1]
  }

  lemma SliceSplit(s: seq<byte>, a: nat, b: nat, c: nat)
    requires a <= b <= c <= |s|
    ensures s[a..c] == s[a..b] + s[b..c]
  {
  }

  lemma SliceOfPrefix(s: seq<byte>, t: seq<byte>, a: nat, b: nat)
    requires a <= b <= |s|
    ensures (s + t)[a..b] == s[a..b]
  {
  }

  lemma SliceOfSuffix(s: seq<byte>, k: nat, a: nat, b: nat)
    requires k <= |s| && a <= b <= |s| - k
    ensures s[k + a..k + b] == s[k..][a..b]
  {
  }

  lemma {:induction false} ConcatAt(kind: Kind, blocks: seq<seq<byte>>, i: nat)
    requires BlocksFit(kind, blocks) && i < |blocks|
    ensures Concat(kind, blocks)[Offset(kind, i)..Offset(kind, i + 1)] == blocks[i]
    decreases |blocks|
  {
    var n := |blocks| - 1;
    var init := Concat(kind, blocks[..n]);
    if i < n {
      ConcatAt(kind, blocks[..n], i);
      SliceOfPrefix(init, blocks[n], Offset(kind, i), Offset(kind, i + 1));
    } else {
      assert (init + blocks[n])[|init|..] == blocks[n];
    }
  }

  function Assemble(kind: Kind, timestamp: uint32, blocks: seq<seq<byte>>): seq<byte>
    requires BlocksFit(kind, blocks) && |blocks| <= MaxCount(kind)
  {
    PutUint32(timestamp) + [|blocks|] + Concat(kind, blocks)
  }

  function BlocksOf(kind: Kind, payload: seq<byte>): (blocks: seq<seq<byte>>)
    requires HeaderOk(kind, payload)
    ensures |blocks| == payload[4] && BlocksFit(kind, blocks)
  {
    seq(payload[4], i requires 0 <= i < payload[4] => RecordAt(kind, payload, i))
  }

  /** Taking an assembled payload apart gives its blocks back. */
  lemma BlocksOfAssembled(kind: Kind, timestamp: uint32, blocks: seq<seq<byte>>)
    requires BlocksFit(kind, blocks) && 1 <= |blocks| <= MaxCount(kind)
    ensures HeaderOk(kind, Assemble(kind, timestamp, blocks))
    ensures BlocksOf(kind, Assemble(kind, timestamp, blocks)) == blocks
  {
    var p := Assemble(kind, timestamp, blocks);
    assert p[5..] == Concat(kind, blocks);
    forall i | 0 <= i < |blocks| ensures RecordAt(kind, p, i) == blocks[i] {
      ConcatAt(kind, blocks, i);
      SliceOfSuffix(p, 5, Offset(kind, i), Offset(kind, i + 1));
    }
  }

  lemma {:induction false} ConcatOfBlocks(kind: Kind, payload: seq<byte>, n: nat)
    requires HeaderOk(kind, payload) && n <= payload[4]
    ensures Concat(kind, BlocksOf(kind, payload)[..n]) == payload[5..5 + Offset(kind, n)]
  {
    if n != 0 {
      ConcatOfBlocks(kind, payload, n - 1);
      var blocks := BlocksOf(kind, payload);
      assert blocks[..n][..n - 1] == blocks[..n - 1];
      SliceSplit(payload, 5, 5 + Offset(kind, n - 1), 5 + Offset(kind, n));
    }
  }

  /** Assembling what was taken apart rebuilds the payload. */
  lemma AssembleBlocks(kind: Kind, payload: seq<byte>)
    requires HeaderOk(kind, payload)
    ensures Assemble(kind, Uint32(payload[..4]), BlocksOf(kind, payload)) == payload
  {
    var blocks := BlocksOf(kind, payload);
    assert blocks[..payload[4]] == blocks;
    ConcatOfBlocks(kind, payload, payload[4]);
    PutUint32OfUint32(payload[..4]);
    assert payload == payload[..4] + [payload[4]] + payload[5..];
  }

  // ---- The whole validator ----

  function FwBlockCount(fileSize: uint32): uint16 {
    // (fileSize + 1023) / 1024 in 32-bit arithmetic, capped at 65535.
    var blocks := (fileSize + 1023) % 0x1_0000_0000 / 1024;
    if blocks > 0xFFFF then 0xFFFF else blocks
  }

  predicate AckCodeAllowed(code: byte) {
    code <= 7 || code == 254 || code == 255
  }

  predicate SettingsAccepted(rec: seq<byte>)
    requires |rec| == 608
  {
    && rec[132] <= 4
    && rec[165] <= 23
    && AllAtMost(rec[166..170], 1)
    && AllAtMost(rec[191..199], 1)
    && AllAtMost(rec[202..210], 1)
  }

  /** ValidateServerCommandPayload: whether it returns nil. */
  predicate Accepts(commandId: byte, p: seq<byte>) {
    match commandId
    case 1 => |p| == 5 && p[0] <= 5
    case 2 => |p| == 1
    case 3 => |p| == 1
    case 5 => |p| == 16 && AllAtMost(p[..8], 1) && AllAtMost(p[8..], 0)
    case 6 => |p| == 3 && p[1] <= 3 && (p[1] == 3 <==> p[2] != 0)
    case 7 => |p| == 1 && p[0] != 0
    case 8 => |p| == 3 && p[0] != 0 && p[1] <= 1 && p[2] <= 1
    case 11 => |p| == 60 && DigitsOnly(p[..10])
    case 12 => |p| == 613 && p[4] == 1 && SettingsAccepted(p[5..])
    case 13 => RecordsAccepted(Ids, p)
    case 14 => RecordsAccepted(Schedules, p)
    case 15 => RecordsAccepted(Groups, p)
    case 16 => |p| >= 5 && p[4] >= 1 && (|p| - 5) % 4 == 0 && (|p| - 5) / 4 == p[4]
    case 18 => |p| == 1 && p[0] <= 100
    case 19 =>
      && |p| == 16
      && Uint16(p[0], p[1]) != 0
      && Uint32(p[6..10]) != 0
      && Uint32(p[10..14]) != 0
      && Uint16(p[14], p[15]) != 0
      && Uint16(p[14], p[15]) == FwBlockCount(Uint32(p[6..10]))
    case 20 => |p| == 1026
    case 23 => |p| == 4
    case 24 => |p| == 2 && AckCodeAllowed(p[1])
    case 25 => |p| == 281 && p[0] <= 3
    case 27 => |p| >= 3 && |p| - 3 == Uint16(p[1], p[2])
    case _ => commandId in {9, 10, 17, 21, 22} ==> p == []
  }

  /** The bytes of a payload whose length the command fixes. */
  function FixedSize(commandId: byte): (n: Option<nat>) {
    match commandId
    case 1 => Some(5)
    case 2 => Some(1)
    case 3 => Some(1)
    case 5 => Some(16)
    case 6 => Some(3)
    case 7 => Some(1)
    case 8 => Some(3)
    case 11 => Some(60)
    case 12 => Some(613)
    case 18 => Some(1)
    case 19 => Some(16)
    case 20 => Some(1026)
    case 23 => Some(4)
    case 24 => Some(2)
    case 25 => Some(281)
    case _ => if commandId in {9, 10, 17, 21, 22} then Some(0) else None
  }

  lemma AcceptedFixedSize(commandId: byte, p: seq<byte>)
    requires Accepts(commandId, p) && FixedSize(commandId).Some?
    ensures |p| == FixedSize(commandId).value
  {
  }

  /** A firmware start announces as many blocks of 1024 bytes as its file fills, if and only if
      65535 of them hold the file. For larger ones it announces 65535, and none at all for the last
      1023 sizes of 32 bits, where the sum wraps; such a start is refused. */
  lemma BlocksCoverFile(fileSize: uint32)
    ensures var n := FwBlockCount(fileSize);
            && ((n - 1) * 1024 < fileSize <= n * 1024 <==> fileSize <= 65535 * 1024)
            && (65535 * 1024 < fileSize <= 0xFFFF_FC00 ==> n == 65535)
            && (fileSize > 0xFFFF_FC00 || fileSize == 0 ==> n == 0)
  {
  }

  /** Only the custom command and unknown ids can pass validation with a payload that
      no frame can hold. */
  lemma AcceptedSize(commandId: byte, p: seq<byte>)
    requires Accepts(commandId, p) && IsKnownCommandId(commandId) && commandId != 4
    ensures commandId != 27 ==> |p| <= 8005
    ensures commandId == 27 ==> |p| <= 0xFFFF + 3
  {
  }
}
