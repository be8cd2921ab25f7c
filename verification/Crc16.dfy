/** internal/protocol/crc16.go: CRC-16/MODBUS, section 6.2.2 of the MODBUS over
    Serial Line Specification and Implementation Guide V1.02.

    Machine words are modelled as naturals; `Xor` is the bitwise exclusive or,
    a right shift is a division by two. */
module Crc16 {
  import opened Bytes

  const POLYNOMIAL: uint16 := 0xA001

  /** Bitwise exclusive or of two naturals. */
  function Xor(a: nat, b: nat): nat
    decreases a + b
  {
    if a == 0 && b == 0 then 0 else (if a % 2 == b % 2 then 0 else 1) + 2 * Xor(a / 2, b / 2)
  }

  /** The last bit and the remaining bits of a combination. */
  lemma XorBits(a: nat, b: nat)
    ensures Xor(a, b) / 2 == Xor(a / 2, b / 2)
    ensures Xor(a, b) % 2 == if a % 2 == b % 2 then 0 else 1
  {
  }

  lemma {:induction false} XorComm(a: nat, b: nat)
    ensures Xor(a, b) == Xor(b, a)
    decreases a + b
  {
    if a != 0 || b != 0 { XorComm(a / 2, b / 2); }
  }

  lemma {:induction false} XorZero(a: nat)
    ensures Xor(a, 0) == a && Xor(0, a) == a
    decreases a
  {
    if a != 0 { XorZero(a / 2); }
  }

  lemma {:induction false} XorAssoc(a: nat, b: nat, c: nat)
    ensures Xor(Xor(a, b), c) == Xor(a, Xor(b, c))
    decreases a + b + c
  {
    if a != 0 || b != 0 || c != 0 {
      XorAssoc(a / 2, b / 2, c / 2);
      XorBits(a, b);
      XorBits(b, c);
      XorBits(Xor(a, b), c);
      XorBits(a, Xor(b, c));
    }
  }

  lemma {:induction false} XorSelf(a: nat)
    ensures Xor(a, a) == 0
    decreases a
  {
    if a != 0 { XorSelf(a / 2); }
  }

  /** Exclusive or with a fixed word can be cancelled. */
  lemma XorCancel(a: nat, b: nat, c: nat)
    requires Xor(a, c) == Xor(b, c)
    ensures a == b
  {
    XorAssoc(a, c, c);
    XorAssoc(b, c, c);
    XorSelf(c);
    XorZero(a);
    XorZero(b);
  }

  lemma XorCancelLeft(a: nat, b: nat, c: nat)
    requires Xor(c, a) == Xor(c, b)
    ensures a == b
  {
    XorComm(c, a);
    XorComm(c, b);
    XorCancel(a, b, c);
  }

  function Pow2(n: nat): (p: nat)
    ensures p >= 1
  {
    if n == 0 then 1 else 2 * Pow2(n - 1)
  }

  lemma {:induction false} XorBound(a: nat, b: nat, n: nat)
    requires a < Pow2(n) && b < Pow2(n)
    ensures Xor(a, b) < Pow2(n)
    decreases n
  {
    if a != 0 || b != 0 { XorBound(a / 2, b / 2, n - 1); }
  }

  /** A word with bit n set, combined with one below that bit, keeps the bit. */
  lemma {:induction false} XorTopBit(a: nat, b: nat, n: nat)
    requires a < Pow2(n) <= b < Pow2(n + 1)
    ensures Pow2(n) <= Xor(a, b) < Pow2(n + 1)
    decreases n
  {
    if n != 0 {
      XorTopBit(a / 2, b / 2, n - 1);
    } else {
      XorZero(b);
    }
  }

  lemma Pow2Words()
    ensures Pow2(8) == 0x100 && Pow2(15) == 0x8000 && Pow2(16) == 0x1_0000
  {
    assert Pow2(4) == 16;
    assert Pow2(8) == 0x100;
    assert Pow2(12) == 0x1000;
  }

  /** One round of the inner loop: shift right, fold the polynomial in when a one
      falls out. */
  function BitStep(crc: uint16): (r: uint16) {
    if crc % 2 == 1 then
      assert Xor(crc / 2, POLYNOMIAL) < 0x1_0000 by {
        Pow2Words();
        XorBound(crc / 2, POLYNOMIAL, 16);
      }
      Xor(crc / 2, POLYNOMIAL)
    else
      crc / 2
  }

  function BitSteps(crc: uint16, n: nat): uint16 {
    if n == 0 then crc else BitStep(BitSteps(crc, n - 1))
  }

  /** One round of the outer loop. */
  function ByteStep(crc: uint16, b: byte): uint16 {
    XorWord(crc, b);
    BitSteps(Xor(crc, b), 8)
  }

  lemma XorWord(a: uint16, b: uint16)
    ensures Xor(a, b) < 0x1_0000
  {
    Pow2Words();
    XorBound(a, b, 16);
  }

  function CrcFrom(crc: uint16, data: seq<byte>): uint16 {
    if data == [] then crc else ByteStep(CrcFrom(crc, data[..|data| - 1]), data[|data| - 1])
  }

  /** The checksum as a function of the data. */
  function Crc(data: seq<byte>): uint16 {
    CrcFrom(0xFFFF, data)
  }

  /** CRC16Modbus: the two nested loops compute `Crc`. */
  method CRC16Modbus(data: seq<byte>) returns (crc: uint16)
    ensures crc == Crc(data)
  {
    crc := 0xFFFF;
    for k := 0 to |data|
      invariant crc == Crc(data[..k])
    {
      ghost var before := crc;
      XorWord(crc, data[k]);
      crc := Xor(crc, data[k]);
      ghost var mixed := crc;
      for i := 0 to 8
        invariant crc == BitSteps(mixed, i)
      {
        if crc % 2 != 0 {
          XorWord(crc / 2, POLYNOMIAL);
          crc := Xor(crc / 2, POLYNOMIAL);
        } else {
          crc := crc / 2;
        }
      }
      assert data[..k + 1][..k] == data[..k];
    }
    assert data[..|data|] == data;
  }

  // ---- Injectivity ----

  lemma BitStepTop(x: uint16)
    ensures BitStep(x) >= 0x8000 <==> x % 2 == 1
  {
    if x % 2 == 1 {
      Pow2Words();
      XorTopBit(x / 2, POLYNOMIAL, 15);
    }
  }

  lemma BitStepInjective(x: uint16, y: uint16)
    requires BitStep(x) == BitStep(y)
    ensures x == y
  {
    BitStepTop(x);
    BitStepTop(y);
    if x % 2 == 1 { XorCancel(x / 2, y / 2, POLYNOMIAL); }
  }

  lemma {:induction false} BitStepsInjective(x: uint16, y: uint16, n: nat)
    requires BitSteps(x, n) == BitSteps(y, n)
    ensures x == y
  {
    if n != 0 {
      BitStepInjective(BitSteps(x, n - 1), BitSteps(y, n - 1));
      BitStepsInjective(x, y, n - 1);
    }
  }

  /** A byte step is injective in the state and in the byte. */
  lemma ByteStepInjective(x: uint16, y: uint16, b: byte, c: byte)
    requires ByteStep(x, b) == ByteStep(y, c)
    ensures x == y <==> b == c
  {
    XorWord(x, b);
    XorWord(y, c);
    BitStepsInjective(Xor(x, b), Xor(y, c), 8);
    if x == y {
      XorCancelLeft(b, c, x);
    } else if b == c {
      XorCancel(x, y, b);
    }
  }

  lemma {:induction false} CrcFromInjective(x: uint16, y: uint16, data: seq<byte>)
    requires CrcFrom(x, data) == CrcFrom(y, data)
    ensures x == y
    decreases |data|
  {
    if data != [] {
      var init := data[..|data| - 1];
      ByteStepInjective(CrcFrom(x, init), CrcFrom(y, init), data[|data| - 1], data[|data| - 1]);
      CrcFromInjective(x, y, init);
    }
  }

  lemma {:induction false} CrcFromConcat(crc: uint16, a: seq<byte>, b: seq<byte>)
    ensures CrcFrom(crc, a + b) == CrcFrom(CrcFrom(crc, a), b)
    decreases |b|
  {
    if b == [] {
      assert a + b == a;
    } else {
      assert (a + b)[..|a + b| - 1] == a + b[..|b| - 1];
      CrcFromConcat(crc, a, b[..|b| - 1]);
    }
  }

  // ---- Linearity, and what two adjacent bytes can do ----

  lemma BitStepLinear(x: uint16, y: uint16)
    ensures Xor(x, y) < 0x1_0000
    ensures BitStep(Xor(x, y)) == Xor(BitStep(x), BitStep(y))
  {
    XorWord(x, y);
    var p, q := x / 2, y / 2;
    XorBits(x, y);
    if x % 2 == 1 && y % 2 == 1 {
      XorAssoc(p, POLYNOMIAL, Xor(q, POLYNOMIAL));
      XorComm(q, POLYNOMIAL);
      XorAssoc(POLYNOMIAL, POLYNOMIAL, q);
      XorSelf(POLYNOMIAL);
      XorZero(q);
    } else if x % 2 == 1 {
      XorAssoc(p, POLYNOMIAL, q);
      XorComm(q, POLYNOMIAL);
      XorAssoc(p, q, POLYNOMIAL);
    } else if y % 2 == 1 {
      XorAssoc(p, q, POLYNOMIAL);
    }
  }

  lemma {:induction false} BitStepsLinear(x: uint16, y: uint16, n: nat)
    ensures Xor(x, y) < 0x1_0000
    ensures BitSteps(Xor(x, y), n) == Xor(BitSteps(x, n), BitSteps(y, n))
  {
    XorWord(x, y);
    if n != 0 {
      BitStepsLinear(x, y, n - 1);
      BitStepLinear(BitSteps(x, n - 1), BitSteps(y, n - 1));
    }
  }

  /** Eight rounds move the high byte of a word with an empty low byte down. */
  lemma HighByteFalls(b: byte)
    ensures BitSteps(256 * b, 8) == b
  {
    assert BitSteps(256 * b, 1) == 128 * b;
    assert BitSteps(256 * b, 2) == 64 * b;
    assert BitSteps(256 * b, 3) == 32 * b;
    assert BitSteps(256 * b, 4) == 16 * b;
    assert BitSteps(256 * b, 5) == 8 * b;
    assert BitSteps(256 * b, 6) == 4 * b;
    assert BitSteps(256 * b, 7) == 2 * b;
  }

  lemma TwiceTimes(a: nat, b: nat)
    ensures (2 * a) * b == 2 * (a * b)
  {
  }

  lemma {:induction false} XorDisjoint(lo: nat, hi: nat, n: nat)
    requires lo < Pow2(n)
    ensures Xor(lo, Pow2(n) * hi) == lo + Pow2(n) * hi
    decreases n
  {
    if n == 0 {
      XorZero(hi);
    } else {
      var rest := Pow2(n - 1) * hi;
      TwiceTimes(Pow2(n - 1), hi);
      XorDisjoint(lo / 2, hi, n - 1);
      XorBits(lo, 2 * rest);
    }
  }

  /** Folding a byte in after a byte step is folding it in, as the high byte, before. */
  lemma FoldBeforeStep(crc: uint16, b: byte, c: byte)
    ensures Xor(crc, b + 256 * c) < 0x1_0000
    ensures BitSteps(Xor(crc, b + 256 * c), 8) == Xor(ByteStep(crc, b), c)
  {
    XorWord(crc, b);
    HighByteFalls(c);
    BitStepsLinear(Xor(crc, b), 256 * c, 8);
    XorAssoc(crc, b, 256 * c);
    Pow2Words();
    XorDisjoint(b, c, 8);
  }

  /** Two byte steps tell apart any two pairs of bytes. */
  lemma TwoBytesInjective(crc: uint16, b1: byte, b2: byte, c1: byte, c2: byte)
    requires ByteStep(ByteStep(crc, b1), b2) == ByteStep(ByteStep(crc, c1), c2)
    ensures b1 == c1 && b2 == c2
  {
    FoldBeforeStep(crc, b1, b2);
    FoldBeforeStep(crc, c1, c2);
    var u, v := Xor(crc, b1 + 256 * b2), Xor(crc, c1 + 256 * c2);
    BitStepsInjective(BitSteps(u, 8), BitSteps(v, 8), 8);
    BitStepsInjective(u, v, 8);
    XorCancelLeft(b1 + 256 * b2, c1 + 256 * c2, crc);
  }

  lemma ClearLowByte(w: uint16)
    ensures Xor(w, w % 256) == 256 * (w / 256)
  {
    var lo, hi := w % 256, w / 256;
    Pow2Words();
    XorDisjoint(lo, hi, 8);
    XorComm(lo, 256 * hi);
    XorAssoc(256 * hi, lo, lo);
    XorSelf(lo);
    XorZero(256 * hi);
  }

  /** A change of one byte never stays inside the low byte of the checksum. */
  lemma ByteStepHighByte(crc: uint16, b: byte, c: byte)
    requires ByteStep(crc, b) / 256 == ByteStep(crc, c) / 256
    ensures b == c
  {
    var lo, lo' := ByteStep(crc, b) % 256, ByteStep(crc, c) % 256;
    FoldBeforeStep(crc, b, lo);
    FoldBeforeStep(crc, c, lo');
    ClearLowByte(ByteStep(crc, b));
    ClearLowByte(ByteStep(crc, c));
    BitStepsInjective(Xor(crc, b + 256 * lo), Xor(crc, c + 256 * lo'), 8);
    XorCancelLeft(b + 256 * lo, c + 256 * lo', crc);
  }

  // ---- Parity ----

  /** Number of one bits, modulo two. */
  function Parity(a: nat): bool {
    if a == 0 then false else (a % 2 == 1) != Parity(a / 2)
  }

  lemma {:induction false} ParityXor(a: nat, b: nat)
    ensures Parity(Xor(a, b)) == (Parity(a) != Parity(b))
    decreases a + b
  {
    if a != 0 || b != 0 {
      ParityXor(a / 2, b / 2);
      XorBits(a, b);
    }
  }

  lemma {:induction false} BitStepsParity(x: uint16, n: nat)
    ensures Parity(BitSteps(x, n)) == Parity(x)
  {
    if n != 0 {
      BitStepsParity(x, n - 1);
      var y := BitSteps(x, n - 1);
      if y % 2 == 1 {
        ParityXor(y / 2, POLYNOMIAL);
        assert Parity(POLYNOMIAL) by {
          assert !Parity(0xA) && !Parity(0xA0) && !Parity(0xA00) && !Parity(0x5000);
        }
      }
    }
  }

  function ParityOf(data: seq<byte>): bool {
    if data == [] then false else ParityOf(data[..|data| - 1]) != Parity(data[|data| - 1])
  }

  lemma {:induction false} ParityOfConcat(a: seq<byte>, b: seq<byte>)
    ensures ParityOf(a + b) == (ParityOf(a) != ParityOf(b))
    decreases |b|
  {
    if b == [] {
      assert a + b == a;
    } else {
      assert (a + b)[..|a + b| - 1] == a + b[..|b| - 1];
      ParityOfConcat(a, b[..|b| - 1]);
    }
  }

  lemma {:induction false} CrcFromParity(crc: uint16, data: seq<byte>)
    ensures Parity(CrcFrom(crc, data)) == (Parity(crc) != ParityOf(data))
    decreases |data|
  {
    if data != [] {
      var init := data[..|data| - 1];
      CrcFromParity(crc, init);
      XorWord(CrcFrom(crc, init), data[|data| - 1]);
      ParityXor(CrcFrom(crc, init), data[|data| - 1]);
      BitStepsParity(Xor(CrcFrom(crc, init), data[|data| - 1]), 8);
    }
  }

  /** The checksum has as many one bits as the data, modulo two. */
  lemma CrcParity(data: seq<byte>)
    ensures Parity(Crc(data)) == ParityOf(data)
  {
    CrcFromParity(0xFFFF, data);
    ParityShift(0xFF, 8);
    Pow2Words();
    XorDisjoint(0xFF, 0xFF, 8);
    ParityXor(0xFF, 0xFF00);
  }

  lemma {:induction false} ParityShift(a: nat, n: nat)
    ensures Parity(Pow2(n) * a) == Parity(a)
  {
    if n != 0 {
      assert Pow2(n) * a == 2 * (Pow2(n - 1) * a);
      ParityShift(a, n - 1);
    }
  }

  lemma ParityOfHalves(lo: byte, hi: byte)
    ensures Parity(lo + 256 * hi) == (Parity(lo) != Parity(hi))
  {
    Pow2Words();
    XorDisjoint(lo, hi, 8);
    ParityXor(lo, 256 * hi);
    ParityShift(hi, 8);
  }

  /** The two wire bytes of a word have its parity. */
  lemma ParityOfWord(w: uint16)
    ensures ParityOf(PutUint16(w)) == Parity(w)
  {
    var s := PutUint16(w);
    assert s == [s[0], s[1]];
    ParityOfBytes(s[0], s[1], w);
  }

  lemma ParityOfBytes(lo: byte, hi: byte, w: uint16)
    requires w == lo + 256 * hi
    ensures ParityOf([lo, hi]) == Parity(w)
  {
    ParityOfHalves(lo, hi);
    ParityOfPair(lo, hi);
  }

  lemma ParityOfPair(lo: byte, hi: byte)
    ensures ParityOf([lo, hi]) == (Parity(lo) != Parity(hi))
  {
    assert [lo, hi][..1] == [lo];
    assert ParityOf([lo, hi]) == (ParityOf([lo]) != Parity(hi));
    assert [lo][..0] == [];
  }
}
