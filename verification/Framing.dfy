/** internal/protocol/frame.go: the framing of messages on the controller link.

    marker "SLDN", length (2), ttl, sequence number (absent in compact mode),
    command id and payload, CRC-16 (2) over everything between marker and CRC. */
module Framing {
  import opened Bytes
  import opened Results
  import opened Messages
  import opened Crc16

  datatype FrameMode = Auto | Sequenced | Compact

  datatype Frame = Frame(ttl: byte, seqNo: byte, payload: seq<byte>, mode: FrameMode)

  datatype EncodeError = EmptyPayload | FrameTooLarge

  datatype ReadError = Eof | UnexpectedEof | InvalidMarker | FrameTooShort | CrcMismatch

  const MARKER: seq<byte> := [0x53, 0x4C, 0x44, 0x4E]

  // ---- Encoding ----

  function Header(f: Frame): (s: seq<byte>)
    ensures |s| == if f.mode == Compact then 1 else 2
  {
    if f.mode == Compact then [f.ttl] else [f.ttl, f.seqNo]
  }

  function DataLength(f: Frame): nat {
    |Header(f)| + |f.payload|
  }

  predicate Encodable(f: Frame) {
    f.payload != [] && DataLength(f) <= 0xFFFF
  }

  /** Length field and data: the part the checksum covers. */
  function Covered(f: Frame): (s: seq<byte>)
    requires Encodable(f)
    ensures |s| == 2 + DataLength(f)
  {
    PutUint16(DataLength(f)) + Header(f) + f.payload
  }

  function Wire(f: Frame): (s: seq<byte>)
    requires Encodable(f)
    ensures |s| == DataLength(f) + 8 >= 10
  {
    MARKER + Covered(f) + PutUint16(Crc(Covered(f)))
  }

  /** EncodeFrame: appends field after field to a buffer. */
  method EncodeFrame(f: Frame) returns (r: Result<seq<byte>, EncodeError>)
    ensures r.Success? <==> Encodable(f)
    ensures r.Success? ==> r.value == Wire(f)
    ensures r.Failure? ==> r.error == if f.payload == [] then EmptyPayload else FrameTooLarge
  {
    if |f.payload| == 0 { return Failure(EmptyPayload); }
    var dataLen := 1 + |f.payload|;
    if f.mode != Compact { dataLen := dataLen + 1; }
    if dataLen > 0xFFFF { return Failure(FrameTooLarge); }
    var buf := MARKER;
    buf := buf + PutUint16(dataLen);
    buf := buf + [f.ttl];
    if f.mode != Compact { buf := buf + [f.seqNo]; }
    buf := buf + f.payload;
    assert buf == MARKER + Covered(f) && |MARKER| == 4;
    assert buf[4..] == Covered(f);
    var crc := CRC16Modbus(buf[4..]);
    buf := buf + PutUint16(crc);
    return Success(buf);
  }

  // ---- Reading ----

  /** The three ways to read a data block. */
  function Interpret(data: seq<byte>, mode: FrameMode): Result<Frame, ReadError>
    requires data != []
  {
    match mode
    case Compact => if |data| < 2 then Failure(FrameTooShort) else Success(AsCompact(data))
    case Auto => Detect(data)
    case Sequenced => if |data| < 3 then Failure(FrameTooShort) else Success(AsSequenced(data))
  }

  function AsCompact(data: seq<byte>): Frame
    requires data != []
  {
    Frame(data[0], 0, data[1..], Compact)
  }

  function AsSequenced(data: seq<byte>): Frame
    requires |data| >= 2
  {
    Frame(data[0], data[1], data[2..], Sequenced)
  }

  /** readAutoFrame: a registration decides; otherwise the reading whose command id
      is known, compact when that does not decide. */
  function Detect(data: seq<byte>): Result<Frame, ReadError>
    requires data != []
  {
    if |data| < 2 then Failure(FrameTooShort)
    else if IsRegistration(data[1..]) then Success(AsCompact(data))
    else if |data| < 3 then Success(AsCompact(data))
    else if IsRegistration(data[2..]) then Success(AsSequenced(data))
    else if !IsKnownCommandId(data[1]) && IsKnownCommandId(data[2]) then Success(AsSequenced(data))
    else Success(AsCompact(data))
  }

  datatype ReadResult = Got(frame: Frame, rest: seq<byte>) | Bad(error: ReadError)

  /** One frame off the front of a byte stream that ends after `stream`. */
  function Read(stream: seq<byte>, mode: FrameMode): ReadResult {
    if |stream| < 6 then Bad(if stream == [] then Eof else UnexpectedEof)
    else if stream[..4] != MARKER then Bad(InvalidMarker)
    else
      var n := Uint16(stream[4], stream[5]);
      if n < 1 then Bad(FrameTooShort)
      else if |stream| < n + 8 then Bad(if |stream| == 6 then Eof else UnexpectedEof)
      else if Uint16(stream[n + 6], stream[n + 7]) != Crc(stream[4..n + 6]) then Bad(CrcMismatch)
      else
        match Interpret(stream[6..n + 6], mode)
        case Success(f) => Got(f, stream[n + 8..])
        case Failure(e) => Bad(e)
  }

  /** The buffered reader of a connection: what is still to come. */
  class Reader {
    var data: seq<byte>

    constructor (bytes: seq<byte>)
      ensures data == bytes
    {
      data := bytes;
    }

    /** io.ReadFull */
    method ReadFull(n: nat) returns (r: Result<seq<byte>, ReadError>)
      requires n > 0
      modifies this
      ensures |old(data)| >= n ==> r == Success(old(data)[..n]) && data == old(data)[n..]
      ensures |old(data)| < n ==> r == Failure(if old(data) == [] then Eof else UnexpectedEof) && data == []
    {
      if |data| >= n {
        r := Success(data[..n]);
        data := data[n..];
      } else {
        r := Failure(if |data| == 0 then Eof else UnexpectedEof);
        data := [];
      }
    }
  }

  /** How much of a stream one attempt to read takes, successful or not: the header if that
      already fails, the whole frame if it is there, everything if the stream ends too soon. */
  function Consumed(stream: seq<byte>): (k: nat)
    ensures k <= |stream|
  {
    if |stream| < 6 then |stream|
    else
      var n := Uint16(stream[4], stream[5]);
      if stream[..4] != MARKER || n < 1 then 6 else if |stream| < n + 8 then |stream| else n + 8
  }

  /** ReadFrameWithMode: consumes exactly one frame, or fails as `Read` does. */
  method ReadFrameWithMode(r: Reader, mode: FrameMode) returns (out: Result<Frame, ReadError>)
    modifies r
    ensures r.data == old(r.data)[Consumed(old(r.data))..]
    ensures match Read(old(r.data), mode)
            case Got(f, rest) => out == Success(f) && r.data == rest
            case Bad(e) => out == Failure(e)
  {
    ghost var stream := r.data;
    var header := r.ReadFull(6);
    if header.Failure? { return Failure(header.error); }
    var h := header.value;
    if h[0] != MARKER[0] || h[1] != MARKER[1] || h[2] != MARKER[2] || h[3] != MARKER[3] {
      return Failure(InvalidMarker);
    }
    assert stream[..4] == MARKER;
    var dataLen: int := Uint16(h[4], h[5]);
    if dataLen < 1 { return Failure(FrameTooShort); }
    var body := r.ReadFull(dataLen + 2);
    if body.Failure? { return Failure(body.error); }
    var dataAndCrc := body.value;
    assert stream[6..][..dataLen + 2] == stream[6..dataLen + 8];
    var wireCrc := Uint16(dataAndCrc[dataLen], dataAndCrc[dataLen + 1]);
    var calcCrc := CRC16Modbus(h[4..6] + dataAndCrc[..dataLen]);
    assert h[4..6] + dataAndCrc[..dataLen] == stream[4..dataLen + 6];
    if wireCrc != calcCrc { return Failure(CrcMismatch); }
    var data := dataAndCrc[..dataLen];
    assert data == stream[6..dataLen + 6];
    assert stream[6..][dataLen + 2..] == stream[dataLen + 8..];
    match mode {
      case Compact =>
        if |data| < 2 { return Failure(FrameTooShort); }
        return Success(Frame(data[0], 0, data[1..], Compact));
      case Auto =>
        out := ReadAutoFrame(data);
      case Sequenced =>
        if |data| < 3 { return Failure(FrameTooShort); }
        return Success(Frame(data[0], data[1], data[2..], Sequenced));
    }
  }

  /** readAutoFrame, branch by branch. */
  method ReadAutoFrame(data: seq<byte>) returns (out: Result<Frame, ReadError>)
    requires data != []
    ensures out == Detect(data)
  {
    if |data| < 2 { return Failure(FrameTooShort); }
    var compact := Frame(data[0], 0, data[1..], Compact);
    var asCompact := ParseRegistrationPayload(compact.payload);
    if asCompact.Success? { return Success(compact); }
    if |data| < 3 { return Success(compact); }
    var sequenced := Frame(data[0], data[1], data[2..], Sequenced);
    var asSequenced := ParseRegistrationPayload(sequenced.payload);
    if asSequenced.Success? { return Success(sequenced); }
    // Both readings have a command id here, so only the known-id tests can decide.
    var compactCmd, sequencedCmd := compact.payload[0], sequenced.payload[0];
    if !IsKnownCommandId(sequencedCmd) && IsKnownCommandId(compactCmd) { return Success(compact); }
    if !IsKnownCommandId(compactCmd) && IsKnownCommandId(sequencedCmd) { return Success(sequenced); }
    return Success(compact);
  }

  // ---- Encoder and reader are inverse to each other ----

  /** What survives the wire: compact frames carry no sequence number, every other
      frame is written as a sequenced one. */
  function Canonical(f: Frame): Frame {
    if f.mode == Compact then f.(seqNo := 0) else f.(mode := Sequenced)
  }

  function WireMode(f: Frame): FrameMode {
    if f.mode == Compact then Compact else Sequenced
  }

  /** The reader takes a written frame apart into length, data and rest, whatever mode
      it then reads the data in. */
  lemma ReadWire(f: Frame, rest: seq<byte>, mode: FrameMode)
    requires Encodable(f)
    ensures Read(Wire(f) + rest, mode) ==
            match Interpret(Header(f) + f.payload, mode)
            case Success(g) => Got(g, rest)
            case Failure(e) => Bad(e)
  {
    var stream := Wire(f) + rest;
    var n := DataLength(f);
    var c := PutUint16(n);
    assert stream[..4] == MARKER;
    assert stream[4] == c[0] && stream[5] == c[1];
    assert stream[4..n + 6] == Covered(f);
    assert stream[6..n + 6] == Header(f) + f.payload;
    var k := PutUint16(Crc(Covered(f)));
    assert stream[n + 6] == k[0] && stream[n + 7] == k[1];
    assert stream[n + 8..] == rest;
  }

  /** Reading a written frame gives it back and leaves the rest of the stream. */
  lemma ReadAfterEncode(f: Frame, rest: seq<byte>)
    requires Encodable(f)
    ensures Read(Wire(f) + rest, WireMode(f)) == Got(Canonical(f), rest)
  {
    ReadWire(f, rest, WireMode(f));
    var data := Header(f) + f.payload;
    assert data[|Header(f)|..] == f.payload;
  }

  /** A reading of a data block, in any mode, keeps all of its bytes. */
  lemma InterpretKeepsData(data: seq<byte>, mode: FrameMode)
    requires data != [] && |data| <= 0xFFFF && Interpret(data, mode).Success?
    ensures var f := Interpret(data, mode).value;
            Header(f) + f.payload == data && Encodable(f) && Canonical(f) == f
  {
  }

  lemma WireFromFields(f: Frame, stream: seq<byte>, n: nat)
    requires Encodable(f) && n == DataLength(f) && n + 8 <= |stream| && stream[..4] == MARKER
    requires Uint16(stream[4], stream[5]) == n && Header(f) + f.payload == stream[6..n + 6]
    requires Uint16(stream[n + 6], stream[n + 7]) == Crc(stream[4..n + 6])
    ensures Wire(f) == stream[..n + 8]
  {
    PutUint16OfUint16(stream[n + 6], stream[n + 7]);
    CoveredFromFields(f, stream, n);
    assert stream[..n + 8] == stream[..4] + stream[4..n + 6] + [stream[n + 6], stream[n + 7]];
  }

  lemma CoveredFromFields(f: Frame, stream: seq<byte>, n: nat)
    requires Encodable(f) && n == DataLength(f) && n + 8 <= |stream|
    requires Uint16(stream[4], stream[5]) == n && Header(f) + f.payload == stream[6..n + 6]
    ensures Covered(f) == stream[4..n + 6]
  {
    PutUint16OfUint16(stream[4], stream[5]);
    assert stream[4..n + 6] == [stream[4], stream[5]] + stream[6..n + 6];
  }

  /** Whatever the reader accepts, in any mode, encodes to the bytes it consumed. */
  lemma EncodeAfterRead(stream: seq<byte>, mode: FrameMode)
    requires Read(stream, mode).Got?
    ensures var f := Read(stream, mode).frame;
            Encodable(f) && Canonical(f) == f && Wire(f) + Read(stream, mode).rest == stream
  {
    var f := Read(stream, mode).frame;
    var n := Uint16(stream[4], stream[5]);
    InterpretKeepsData(stream[6..n + 6], mode);
    WireFromFields(f, stream, n);
    assert stream == stream[..n + 8] + stream[n + 8..];
  }

  predicate AllEncodable(frames: seq<Frame>) {
    forall i :: 0 <= i < |frames| ==> Encodable(frames[i])
  }

  function WireAll(frames: seq<Frame>): seq<byte>
    requires AllEncodable(frames)
  {
    if frames == [] then [] else Wire(frames[0]) + WireAll(frames[1..])
  }

  function CanonicalAll(frames: seq<Frame>): seq<Frame> {
    if frames == [] then [] else [Canonical(frames[0])] + CanonicalAll(frames[1..])
  }

  /** What a connection delivers: frames, the error that ended it, the bytes left then. */
  datatype Transcript = Transcript(frames: seq<Frame>, end: ReadError, left: seq<byte>)

  function ReadAll(stream: seq<byte>, mode: FrameMode): Transcript
    decreases |stream|
  {
    match Read(stream, mode)
    case Bad(e) => Transcript([], e, stream)
    case Got(f, rest) =>
      var more := ReadAll(rest, mode);
      more.(frames := [f] + more.frames)
  }

  /** A stream of written frames reads back to exactly those frames, then a clean end. */
  lemma {:induction false} StreamRoundTrip(frames: seq<Frame>, mode: FrameMode)
    requires AllEncodable(frames)
    requires forall i :: 0 <= i < |frames| ==> WireMode(frames[i]) == mode
    ensures ReadAll(WireAll(frames), mode) == Transcript(CanonicalAll(frames), Eof, [])
    decreases |frames|
  {
    if frames != [] {
      ReadAfterEncode(frames[0], WireAll(frames[1..]));
      StreamRoundTrip(frames[1..], mode);
    }
  }

  /** Any stream, read in any mode, is the encoding of the frames read from it followed
      by bytes on which the reader fails. */
  lemma {:induction false} StreamIsItsEncoding(stream: seq<byte>, mode: FrameMode)
    ensures var t := ReadAll(stream, mode);
            AllEncodable(t.frames) && stream == WireAll(t.frames) + t.left && Read(t.left, mode) == Bad(t.end)
    decreases |stream|
  {
    if Read(stream, mode).Got? {
      var Got(f, rest) := Read(stream, mode);
      EncodeAfterRead(stream, mode);
      StreamIsItsEncoding(rest, mode);
      var more := ReadAll(rest, mode);
      assert ([f] + more.frames)[1..] == more.frames;
      assert Wire(f) + (WireAll(more.frames) + more.left) == (Wire(f) + WireAll(more.frames)) + more.left;
    }
  }

  // ---- Auto-detection ----

  /** No data block is a registration both with and without a sequence number. */
  lemma RegistrationReadingsDisjoint(data: seq<byte>)
    requires |data| >= 3
    ensures !(IsRegistration(data[1..]) && IsRegistration(data[2..]))
  {
    if IsRegistration(data[1..]) {
      RegistrationSecondByte(data[1..]);
      assert data[1..][1] == data[2..][0];
    }
  }

  /** An encoded registration is detected with its own layout, for every ttl and
      every sequence number. */
  lemma AutoDetectsRegistration(f: Frame, rest: seq<byte>)
    requires Encodable(f) && IsRegistration(f.payload)
    ensures Read(Wire(f) + rest, Auto) == Got(Canonical(f), rest)
  {
    ReadWire(f, rest, Auto);
    var data := Header(f) + f.payload;
    assert data[|Header(f)|..] == f.payload;
    if f.mode != Compact { RegistrationReadingsDisjoint(data); }
  }

  /** A command id of the protocol. */
  predicate InProtocol(id: byte) {
    1 <= id <= 25 || id == 27
  }

  /** Without a mode, an encoded sequenced frame is read with its own layout exactly when its
      compact reading is no registration, and either it is one itself, or its number is no
      command id of the protocol and the byte after it is. */
  lemma AutoReadsSequenced(f: Frame, rest: seq<byte>)
    requires Encodable(f) && f.mode != Compact
    ensures Read(Wire(f) + rest, Auto) == Got(Canonical(f), rest) <==>
            && !IsRegistration([f.seqNo] + f.payload)
            && (IsRegistration(f.payload) || (!InProtocol(f.seqNo) && InProtocol(f.payload[0])))
  {
    ReadWire(f, rest, Auto);
    var data := Header(f) + f.payload;
    assert data[1..] == [f.seqNo] + f.payload && data[2..] == f.payload;
  }

  /** And a compact one exactly when it is a registration or a single byte, or when its sequenced
      reading is no registration and not the only one that begins with a command id. */
  lemma AutoReadsCompact(f: Frame, rest: seq<byte>)
    requires Encodable(f) && f.mode == Compact
    ensures Read(Wire(f) + rest, Auto) == Got(Canonical(f), rest) <==>
            || IsRegistration(f.payload)
            || |f.payload| == 1
            || (!IsRegistration(f.payload[1..]) && (InProtocol(f.payload[0]) || !InProtocol(f.payload[1])))
  {
    ReadWire(f, rest, Auto);
    var data := Header(f) + f.payload;
    assert data[1..] == f.payload;
    if |f.payload| > 1 { assert data[2..] == f.payload[1..]; }
  }

  // ---- Corruption ----

  /** Same length, same marker and length field, at most bytes i and i + 1 altered. */
  predicate AlteredAt(wire: seq<byte>, wire': seq<byte>, i: nat) {
    && |wire'| == |wire|
    && 6 <= i < |wire|
    && (forall j :: 0 <= j < |wire| && j != i && j != i + 1 ==> wire'[j] == wire[j])
    && wire' != wire
  }

  predicate LowFirst(lo: int, hi: int, word: int) {
    word == lo + 256 * hi
  }

  /** An encoded frame byte by byte: marker, length and checksum with the low byte first. */
  lemma OnTheWire(f: Frame)
    requires Encodable(f)
    ensures |Wire(f)| == |f.payload| + (if f.mode == Compact then 9 else 10)
    ensures var s := Wire(f); var n := |s| - 8; var h := if f.mode == Compact then 1 else 2;
            && s[0] == 0x53 && s[1] == 0x4C && s[2] == 0x44 && s[3] == 0x4E
            && LowFirst(s[4], s[5], n)
            && s[6] == f.ttl && (f.mode != Compact ==> s[7] == f.seqNo)
            && s[6 + h..6 + n] == f.payload
            && LowFirst(s[n + 6], s[n + 7], Crc(s[4..n + 6]))
  {
    var s, n := Wire(f), DataLength(f);
    var c, k := PutUint16(n), PutUint16(Crc(Covered(f)));
    assert s[4] == c[0] && s[5] == c[1] && s[n + 6] == k[0] && s[n + 7] == k[1];
    assert s[4..n + 6] == Covered(f);
    assert s[6..6 + n] == Header(f) + f.payload;
    assert s[6] == s[6..6 + n][0];
    if f.mode != Compact { assert s[7] == s[6..6 + n][1]; }
    assert (Header(f) + f.payload)[|Header(f)|..] == f.payload;
    assert s[6 + |Header(f)|..6 + n] == s[6..6 + n][|Header(f)|..];
  }

  /** Where the fields of an encoded frame are. */
  lemma WireLayout(f: Frame)
    requires Encodable(f)
    ensures var wire := Wire(f); var n := |wire| - 2;
            && wire[..4] == MARKER
            && Uint16(wire[4], wire[5]) == n - 6
            && Uint16(wire[n], wire[n + 1]) == Crc(wire[4..n])
  {
    var wire := Wire(f);
    var n := |wire| - 2;
    assert wire[4..n] == Covered(f);
    var len, crc := PutUint16(DataLength(f)), PutUint16(Crc(Covered(f)));
    assert wire[4] == len[0] && wire[5] == len[1];
    assert wire[n] == crc[0] && wire[n + 1] == crc[1];
  }

  /** A block of a frame's length with its marker and length field fails on the checksum
      whenever the checksum is not the one of its data. */
  lemma ReadChecksCrc(f: Frame, wire': seq<byte>, mode: FrameMode)
    requires Encodable(f) && |wire'| == |Wire(f)| && wire'[..6] == Wire(f)[..6]
    requires Uint16(wire'[|wire'| - 2], wire'[|wire'| - 1]) != Crc(wire'[4..|wire'| - 2])
    ensures Read(wire', mode) == Bad(CrcMismatch)
  {
    WireLayout(f);
    assert wire'[..4] == wire'[..6][..4];
    assert wire'[4] == wire'[..6][4] && wire'[5] == wire'[..6][5];
  }

  /** Checksums of two blocks that agree before and after a window of one or two bytes. */
  lemma CrcSeesWindow(pre: seq<byte>, a: seq<byte>, b: seq<byte>, post: seq<byte>)
    requires |a| == |b| && 1 <= |a| <= 2
    requires Crc(pre + a + post) == Crc(pre + b + post)
    ensures a == b
  {
    CrcFromConcat(0xFFFF, pre + a, post);
    CrcFromConcat(0xFFFF, pre + b, post);
    CrcFromInjective(Crc(pre + a), Crc(pre + b), post);
    CrcFromConcat(0xFFFF, pre, a);
    CrcFromConcat(0xFFFF, pre, b);
    var s := Crc(pre);
    if |a| == 1 {
      assert a[..0] == [] && b[..0] == [];
      ByteStepInjective(s, s, a[0], b[0]);
    } else {
      assert a[..1] == [a[0]] && b[..1] == [b[0]] && [a[0]][..0] == [] && [b[0]][..0] == [];
      assert CrcFrom(s, a) == ByteStep(CrcFrom(s, [a[0]]), a[1]) == ByteStep(ByteStep(s, a[0]), a[1]);
      assert CrcFrom(s, b) == ByteStep(CrcFrom(s, [b[0]]), b[1]) == ByteStep(ByteStep(s, b[0]), b[1]);
      TwoBytesInjective(s, a[0], a[1], b[0], b[1]);
    }
  }

  /** The last data byte decides the high byte of the checksum. */
  lemma CrcSeesLastByte(pre: seq<byte>, a: byte, b: byte)
    requires Crc(pre + [a]) / 256 == Crc(pre + [b]) / 256
    ensures a == b
  {
    assert (pre + [a])[..|pre|] == pre && (pre + [b])[..|pre|] == pre;
    ByteStepHighByte(Crc(pre), a, b);
  }

  /** Two adjacent altered bytes inside the data. */
  lemma CrcSeesPair(was: seq<byte>, now: seq<byte>, k: nat)
    requires |now| == |was| && k + 1 < |was| && now != was
    requires forall j :: 0 <= j < |was| && j != k && j != k + 1 ==> now[j] == was[j]
    ensures Crc(now) != Crc(was)
  {
    var pre, post := was[..k], was[k + 2..];
    assert was == pre + was[k..k + 2] + post;
    assert now == pre + now[k..k + 2] + post;
    if Crc(now) == Crc(was) { CrcSeesWindow(pre, was[k..k + 2], now[k..k + 2], post); }
  }

  /** An altered last data byte cannot be made good in the low checksum byte. */
  lemma CrcSeesBorder(was: seq<byte>, now: seq<byte>)
    requires |now| == |was| > 0 && now != was
    requires forall j :: 0 <= j < |was| - 1 ==> now[j] == was[j]
    ensures Crc(now) / 256 != Crc(was) / 256
  {
    var pre := was[..|was| - 1];
    assert was == pre + [was[|was| - 1]] && now == pre + [now[|was| - 1]];
    if Crc(now) / 256 == Crc(was) / 256 { CrcSeesLastByte(pre, was[|was| - 1], now[|was| - 1]); }
  }

  /** A block whose checksum fits stops fitting when one or two adjacent bytes change. */
  lemma AlterationBreaksCrc(wire: seq<byte>, wire': seq<byte>, i: nat)
    requires |wire| >= 9 && AlteredAt(wire, wire', i)
    requires Uint16(wire[|wire| - 2], wire[|wire| - 1]) == Crc(wire[4..|wire| - 2])
    ensures Uint16(wire'[|wire| - 2], wire'[|wire| - 1]) != Crc(wire'[4..|wire| - 2])
  {
    var n := |wire| - 2;
    var was, now := wire[4..n], wire'[4..n];
    if i >= n {
      assert now == was;
      assert wire'[n] != wire[n] || wire'[n + 1] != wire[n + 1];
    } else if i + 1 < n {
      assert wire'[n] == wire[n] && wire'[n + 1] == wire[n + 1];
      assert wire'[i] == now[i - 4] && wire[i] == was[i - 4];
      assert wire'[i + 1] == now[i - 3] && wire[i + 1] == was[i - 3];
      CrcSeesPair(was, now, i - 4);
    } else {
      assert wire'[i] == now[i - 4] && wire[i] == was[i - 4];
      assert wire'[n + 1] == wire[n + 1];
      if now != was { CrcSeesBorder(was, now); }
    }
  }

  /** Altering one byte, or two adjacent ones, anywhere after the length field of an
      encoded frame -- data, checksum, or the border between them -- is reported as a
      checksum error in every mode. */
  lemma ShortCorruptionDetected(f: Frame, wire': seq<byte>, i: nat, mode: FrameMode)
    requires Encodable(f) && AlteredAt(Wire(f), wire', i)
    ensures Read(wire', mode) == Bad(CrcMismatch)
  {
    WireLayout(f);
    AlterationBreaksCrc(Wire(f), wire', i);
    assert wire'[..6] == Wire(f)[..6];
    ReadChecksCrc(f, wire', mode);
  }

  /** A checksum that fits its data leaves an even number of one bits in all. */
  lemma ParityBalanced(covered: seq<byte>, lo: byte, hi: byte)
    requires Uint16(lo, hi) == Crc(covered)
    ensures !ParityOf(covered + [lo, hi])
  {
    CrcParity(covered);
    PutUint16OfUint16(lo, hi);
    ParityOfWord(Crc(covered));
    ParityOfConcat(covered, [lo, hi]);
  }

  lemma ParityAfterLength(block: seq<byte>)
    requires |block| >= 8
    requires Uint16(block[|block| - 2], block[|block| - 1]) == Crc(block[4..|block| - 2])
    ensures ParityOf(block[6..]) == ParityOf(block[..6][4..])
  {
    var n := |block| - 2;
    ParityBalanced(block[4..n], block[n], block[n + 1]);
    assert block[4..n] + [block[n], block[n + 1]] == block[..6][4..] + block[6..];
    ParityOfConcat(block[..6][4..], block[6..]);
  }

  /** Flipping an odd number of bits after the length field, wherever they are, is
      reported as a checksum error as well. */
  lemma OddCorruptionDetected(f: Frame, wire': seq<byte>, mode: FrameMode)
    requires Encodable(f) && |wire'| == |Wire(f)| && wire'[..6] == Wire(f)[..6]
    requires ParityOf(wire'[6..]) != ParityOf(Wire(f)[6..])
    ensures Read(wire', mode) == Bad(CrcMismatch)
  {
    var n := |wire'| - 2;
    WireLayout(f);
    ParityAfterLength(Wire(f));
    if Uint16(wire'[n], wire'[n + 1]) == Crc(wire'[4..n]) { ParityAfterLength(wire'); }
    ReadChecksCrc(f, wire', mode);
  }
}
