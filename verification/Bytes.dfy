/** Fixed-width integers of the wire format and of Go's `time.Duration`. */
module Bytes {

  type byte = x: int | 0 <= x < 256
  type uint16 = x: int | 0 <= x < 0x1_0000
  type uint32 = x: int | 0 <= x < 0x1_0000_0000
  type uint64 = x: int | 0 <= x < 0x1_0000_0000_0000_0000
  type int64 = x: int | -0x8000_0000_0000_0000 <= x < 0x8000_0000_0000_0000

  /** Two's-complement wrap-around of a 64-bit signed result. */
  function Wrap64(x: int): int64 {
    (x + 0x8000_0000_0000_0000) % 0x1_0000_0000_0000_0000 - 0x8000_0000_0000_0000
  }

  /** binary.LittleEndian.PutUint16 */
  function PutUint16(n: uint16): (s: seq<byte>)
    ensures |s| == 2 && Uint16(s[0], s[1]) == n
  {
    [n % 256, n / 256]
  }

  /** binary.LittleEndian.Uint16 */
  function Uint16(lo: byte, hi: byte): uint16 {
    lo + 256 * hi
  }

  /** binary.LittleEndian.PutUint32 */
  function PutUint32(n: uint32): (s: seq<byte>)
    ensures |s| == 4 && Uint32(s) == n
  {
    PutUint16(n % 0x1_0000) + PutUint16(n / 0x1_0000)
  }

  /** binary.LittleEndian.Uint32 */
  function Uint32(s: seq<byte>): uint32
    requires |s| == 4
  {
    var lo: int, hi: int := Uint16(s[0], s[1]), Uint16(s[2], s[3]);
    lo + 0x1_0000 * hi
  }

  /** What four bytes are worth, low byte first. */
  function Worth(b0: int, b1: int, b2: int, b3: int): int {
    b0 + 0x100 * b1 + 0x1_0000 * b2 + 0x100_0000 * b3
  }

  lemma LowByteFirst(n: uint32)
    ensures var s := PutUint32(n); Worth(s[0], s[1], s[2], s[3]) == n
  {
    var s := PutUint32(n);
    assert s[..2] == PutUint16(n % 0x1_0000) && s[2..] == PutUint16(n / 0x1_0000);
    assert s[0] == s[..2][0] && s[1] == s[..2][1] && s[2] == s[2..][0] && s[3] == s[2..][1];
  }

  /** Reading four bytes and writing them again gives the same bytes. */
  lemma PutUint32OfUint32(s: seq<byte>)
    requires |s| == 4
    ensures PutUint32(Uint32(s)) == s
  {
    PutUint16OfUint16(s[0], s[1]);
    PutUint16OfUint16(s[2], s[3]);
    assert Uint32(s) % 0x1_0000 == Uint16(s[0], s[1]);
    assert Uint32(s) / 0x1_0000 == Uint16(s[2], s[3]);
  }

  /** The same for two bytes. */
  lemma PutUint16OfUint16(lo: byte, hi: byte)
    ensures PutUint16(Uint16(lo, hi)) == [lo, hi]
  {
  }
}
