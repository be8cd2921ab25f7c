/** CRC-16/MODBUS as its standard defines it: the remainder of a polynomial division over
    GF(2), with the bits of every byte taken last to first.

    A polynomial is the number whose binary digits are its coefficients. Addition is the
    exclusive or; multiplication is defined here, apart from the checksum loop. */
module Polynomials {
  import opened Bytes
  import opened Crc16

  /** x^16 + x^15 + x^2 + 1 */
  const GENERATOR: nat := 0x18005

  function OneBit(bit: nat, p: nat): nat {
    if bit == 1 then p else 0
  }

  /** Multiplication without carries. */
  function Clmul(a: nat, b: nat): nat {
    if a == 0 then 0 else Xor(OneBit(a % 2, b), 2 * Clmul(a / 2, b))
  }

  /** The last n binary digits in the opposite order. */
  function Reverse(a: nat, n: nat): nat {
    if n == 0 then 0 else OneBit(a % 2, Pow2(n - 1)) + Reverse(a / 2, n - 1)
  }

  /** The message polynomial: every byte reversed, the first byte in front. */
  function Message(data: seq<byte>): nat {
    if data == [] then 0 else 256 * Message(data[..|data| - 1]) + Reverse(data[|data| - 1], 8)
  }

  /** What is divided: the message times x^16, and sixteen ones in front of it. */
  function Dividend(data: seq<byte>): nat {
    Xor(0x1_0000 * Message(data), Ones(|data|))
  }

  /** 0xFFFF times x^(8 n) */
  function Ones(n: nat): nat {
    if n == 0 then 0xFFFF else 256 * Ones(n - 1)
  }

  // ---- Exclusive or and powers of two ----

  lemma XorTwice(a: nat, b: nat)
    ensures Xor(2 * a, 2 * b) == 2 * Xor(a, b)
  {
    if a != 0 || b != 0 { XorBits(2 * a, 2 * b); }
  }

  /** a times x^n */
  function Times(a: nat, n: nat): nat {
    if n == 0 then a else 2 * Times(a, n - 1)
  }

  lemma EightTimes(a: nat)
    ensures Times(a, 8) == 256 * a
  {
    assert Times(a, 1) == 2 * a;
    assert Times(a, 2) == 4 * a;
    assert Times(a, 3) == 8 * a;
    assert Times(a, 4) == 16 * a;
    assert Times(a, 5) == 32 * a;
    assert Times(a, 6) == 64 * a;
    assert Times(a, 7) == 128 * a;
  }

  lemma {:induction false} XorTimes(a: nat, b: nat, n: nat)
    ensures Xor(Times(a, n), Times(b, n)) == Times(Xor(a, b), n)
    decreases n
  {
    if n != 0 {
      XorTimes(a, b, n - 1);
      XorTwice(Times(a, n - 1), Times(b, n - 1));
    }
  }

  lemma XorBy256(a: nat, b: nat)
    ensures Xor(256 * a, 256 * b) == 256 * Xor(a, b)
  {
    EightTimes(a);
    EightTimes(b);
    EightTimes(Xor(a, b));
    XorTimes(a, b, 8);
  }

  lemma XorBy65536(a: nat, b: nat)
    ensures Xor(0x1_0000 * a, 0x1_0000 * b) == 0x1_0000 * Xor(a, b)
  {
    XorBy256(a, b);
    XorBy256(256 * a, 256 * b);
  }

  /** (a + b) + (c + d) == (a + c) + (b + d) */
  lemma XorSwap(a: nat, b: nat, c: nat, d: nat)
    ensures Xor(Xor(a, b), Xor(c, d)) == Xor(Xor(a, c), Xor(b, d))
  {
    XorAssoc(a, b, Xor(c, d));
    XorAssoc(b, c, d);
    XorComm(b, c);
    XorAssoc(c, b, d);
    XorAssoc(a, c, Xor(b, d));
  }

  lemma BitsAdd(s: nat, t: nat, p: nat)
    requires s <= 1 && t <= 1
    ensures Xor(OneBit(s, p), OneBit(t, p)) == OneBit(if s == t then 0 else 1, p)
  {
    XorSelf(p);
    XorZero(p);
    XorZero(0);
  }

  lemma ZeroMeansEqual(a: nat, b: nat)
    ensures Xor(a, b) == 0 <==> a == b
  {
    XorSelf(b);
    if Xor(a, b) == 0 { XorCancel(a, b, b); }
  }

  // ---- Multiplication ----

  lemma ClmulTwice(a: nat, bit: nat, b: nat)
    requires bit <= 1
    ensures Clmul(2 * a + bit, b) == Xor(OneBit(bit, b), 2 * Clmul(a, b))
  {
    if 2 * a + bit == 0 { XorZero(0); }
  }

  lemma {:induction false} ClmulAdds(a: nat, b: nat, p: nat)
    ensures Clmul(Xor(a, b), p) == Xor(Clmul(a, p), Clmul(b, p))
    decreases a + b
  {
    if a == 0 {
      XorZero(b);
      XorZero(Clmul(b, p));
    } else if b == 0 {
      XorZero(a);
      XorZero(Clmul(a, p));
    } else {
      ClmulAdds(a / 2, b / 2, p);
      ClmulAddsBit(a, b, p);
    }
  }

  lemma ClmulAddsBit(a: nat, b: nat, p: nat)
    requires Clmul(Xor(a / 2, b / 2), p) == Xor(Clmul(a / 2, p), Clmul(b / 2, p))
    ensures Clmul(Xor(a, b), p) == Xor(Clmul(a, p), Clmul(b, p))
  {
    var s, t, c := a % 2, b % 2, Xor(a / 2, b / 2);
    var bit := if s == t then 0 else 1;
    XorBits(a, b);
    ClmulHalved(Xor(a, b), c, bit, p);
    ClmulHalved(a, a / 2, s, p);
    ClmulHalved(b, b / 2, t, p);
    BitsAdd(s, t, p);
    XorTwice(Clmul(a / 2, p), Clmul(b / 2, p));
    XorSwap(OneBit(s, p), 2 * Clmul(a / 2, p), OneBit(t, p), 2 * Clmul(b / 2, p));
  }

  lemma ClmulHalved(a: nat, half: nat, bit: nat, p: nat)
    requires half == a / 2 && bit == a % 2
    ensures Clmul(a, p) == Xor(OneBit(bit, p), 2 * Clmul(half, p))
  {
    assert a == 2 * half + bit;
    ClmulTwice(half, bit, p);
  }

  // ---- Reversal ----

  lemma {:induction false} ReverseBound(a: nat, n: nat)
    ensures Reverse(a, n) < Pow2(n)
    decreases n
  {
    if n != 0 { ReverseBound(a / 2, n - 1); }
  }

  /** A leading zero becomes a trailing one. */
  lemma {:induction false} ReverseShort(a: nat, n: nat)
    requires a < Pow2(n)
    ensures Reverse(a, n + 1) == 2 * Reverse(a, n)
    decreases n
  {
    if n != 0 {
      ReverseShort(a / 2, n - 1);
      assert Pow2(n) == 2 * Pow2(n - 1);
    }
  }

  lemma {:induction false} ReverseAdds(a: nat, b: nat, n: nat)
    ensures Reverse(Xor(a, b), n) == Xor(Reverse(a, n), Reverse(b, n))
    decreases n
  {
    if n == 0 {
      XorZero(0);
    } else {
      ReverseAdds(a / 2, b / 2, n - 1);
      ReverseOfXor(a, b, n);
      ReverseTops(a, b, n);
    }
  }

  lemma ReverseTops(a: nat, b: nat, n: nat)
    requires n > 0
    ensures Xor(Reverse(a, n), Reverse(b, n)) ==
            OneBit(if a % 2 == b % 2 then 0 else 1, Pow2(n - 1)) + Xor(Reverse(a / 2, n - 1), Reverse(b / 2, n - 1))
  {
    var x, y := Reverse(a / 2, n - 1), Reverse(b / 2, n - 1);
    ReverseBound(a / 2, n - 1);
    ReverseBound(b / 2, n - 1);
    assert Reverse(a, n) == OneBit(a % 2, Pow2(n - 1)) + x;
    assert Reverse(b, n) == OneBit(b % 2, Pow2(n - 1)) + y;
    TopAdds(x, y, a % 2, b % 2, n - 1);
  }

  lemma ReverseOfXor(a: nat, b: nat, n: nat)
    requires n > 0
    ensures Reverse(Xor(a, b), n) ==
            OneBit(if a % 2 == b % 2 then 0 else 1, Pow2(n - 1)) + Reverse(Xor(a / 2, b / 2), n - 1)
  {
    XorBits(a, b);
  }

  /** Exclusive or of two words with a top bit each. */
  lemma TopAdds(x: nat, y: nat, s: nat, t: nat, n: nat)
    requires s <= 1 && t <= 1 && x < Pow2(n) && y < Pow2(n)
    ensures Xor(OneBit(s, Pow2(n)) + x, OneBit(t, Pow2(n)) + y) ==
            OneBit(if s == t then 0 else 1, Pow2(n)) + Xor(x, y)
  {
    var bit := if s == t then 0 else 1;
    BothTops(x, y, s, t, n);
    XorBound(x, y, n);
    WithTop(Xor(x, y), bit, n);
  }

  lemma BothTops(x: nat, y: nat, s: nat, t: nat, n: nat)
    requires s <= 1 && t <= 1 && x < Pow2(n) && y < Pow2(n)
    ensures Xor(OneBit(s, Pow2(n)) + x, OneBit(t, Pow2(n)) + y) ==
            Xor(Xor(x, y), OneBit(if s == t then 0 else 1, Pow2(n)))
  {
    var p := Pow2(n);
    WithTop(x, s, n);
    WithTop(y, t, n);
    BitsAdd(s, t, p);
    SumOfSums(OneBit(s, p) + x, OneBit(t, p) + y, x, OneBit(s, p), y, OneBit(t, p), OneBit(if s == t then 0 else 1, p));
  }

  lemma SumOfSums(a: nat, b: nat, x: nat, u: nat, y: nat, v: nat, w: nat)
    requires a == Xor(x, u) && b == Xor(y, v) && w == Xor(u, v)
    ensures Xor(a, b) == Xor(Xor(x, y), w)
  {
    XorSwap(x, u, y, v);
  }

  lemma WithTop(x: nat, s: nat, n: nat)
    requires s <= 1 && x < Pow2(n)
    ensures OneBit(s, Pow2(n)) + x == Xor(x, OneBit(s, Pow2(n)))
  {
    XorDisjoint(x, s, n);
  }

  // ---- The checksum loop as division ----

  /** The generator, reversed, is the constant of the loop. */
  lemma ReversedGenerator()
    ensures Reverse(POLYNOMIAL, 16) == 0x8005 && Xor(0x1_0000, 0x8005) == GENERATOR
  {
    assert Reverse(0xA, 4) == 5;
    assert Reverse(0xA0, 8) == 5;
    assert Reverse(0xA00, 12) == 5;
    assert Reverse(0x5000, 15) == 5;
    Pow2Words();
    XorDisjoint(0x8005, 1, 16);
    XorComm(0x8005, 0x1_0000);
  }

  lemma HalfReversed(x: uint16)
    ensures Reverse(x, 16) == OneBit(x % 2, 0x8000) + Reverse(x / 2, 15)
    ensures Reverse(x / 2, 16) == 2 * Reverse(x / 2, 15) < 0x1_0000
  {
    Pow2Words();
    ReverseShort(x / 2, 15);
    ReverseBound(x / 2, 16);
  }

  lemma StepReversed(x: uint16)
    ensures Reverse(BitStep(x), 16) == if x % 2 == 1 then Xor(Reverse(x / 2, 16), 0x8005) else Reverse(x / 2, 16)
  {
    if x % 2 == 1 {
      ReversedGenerator();
      ReverseAdds(x / 2, POLYNOMIAL, 16);
    }
  }

  /** A round of the inner loop, seen in reverse, multiplies by x and subtracts the generator
      when that makes a term x^16. */
  lemma RoundDivides(x: uint16)
    ensures 2 * Reverse(x, 16) == Xor(OneBit(x % 2, GENERATOR), Reverse(BitStep(x), 16))
  {
    HalfReversed(x);
    StepReversed(x);
    Divides(x % 2, Reverse(x, 16), Reverse(x / 2, 16), Reverse(BitStep(x), 16));
  }

  lemma Divides(bit: nat, r: nat, half: nat, r': nat)
    requires bit <= 1 && half < 0x1_0000 && 2 * r == OneBit(bit, 0x1_0000) + half
    requires r' == if bit == 1 then Xor(half, 0x8005) else half
    ensures 2 * r == Xor(OneBit(bit, GENERATOR), r')
  {
    if bit == 1 { OddRound(half); } else { XorZero(half); }
  }

  lemma OddRound(r: nat)
    requires r < 0x1_0000
    ensures 0x1_0000 + r == Xor(GENERATOR, Xor(r, 0x8005))
  {
    Pow2Words();
    XorDisjoint(r, 1, 16);
    ReversedGenerator();
    XorComm(r, 0x8005);
    XorAssoc(0x1_0000, 0x8005, Xor(0x8005, r));
    XorAssoc(0x8005, 0x8005, r);
    XorSelf(0x8005);
    XorZero(r);
    XorComm(r, 0x1_0000);
  }

  /** r is what is left of a after a multiple of the generator is taken away. */
  predicate Leaves(a: nat, q: nat, r: nat) {
    a == Xor(Clmul(q, GENERATOR), r)
  }

  lemma RoundLeaves(a: nat, q: nat, x: uint16, r: nat, r': nat) returns (q': nat)
    requires Leaves(a, q, r) && r == Reverse(x, 16) && r' == Reverse(BitStep(x), 16)
    ensures Leaves(2 * a, q', r')
  {
    RoundDivides(x);
    q' := LeavesTwice(a, q, r, x % 2, r');
  }

  lemma LeavesTwice(a: nat, q: nat, r: nat, bit: nat, r': nat) returns (q': nat)
    requires Leaves(a, q, r) && bit <= 1 && 2 * r == Xor(OneBit(bit, GENERATOR), r')
    ensures Leaves(2 * a, q', r')
  {
    q' := 2 * q + bit;
    ClmulTwice(q, bit, GENERATOR);
    TwiceLeaves(Clmul(q, GENERATOR), r, OneBit(bit, GENERATOR), r');
  }

  lemma TwiceLeaves(c: nat, r: nat, u: nat, r': nat)
    requires 2 * r == Xor(u, r')
    ensures 2 * Xor(c, r) == Xor(Xor(u, 2 * c), r')
  {
    XorTwice(c, r);
    XorAssoc(2 * c, u, r');
    XorComm(2 * c, u);
  }

  lemma {:induction false} RoundsLeave(a: nat, q: nat, x: uint16, n: nat) returns (q': nat)
    requires Leaves(a, q, Reverse(x, 16))
    ensures Leaves(Times(a, n), q', Reverse(BitSteps(x, n), 16))
    decreases n
  {
    if n == 0 {
      q' := q;
    } else {
      var q1 := RoundsLeave(a, q, x, n - 1);
      var y := BitSteps(x, n - 1);
      q' := RoundLeaves(Times(a, n - 1), q1, y, Reverse(y, 16), Reverse(BitStep(y), 16));
    }
  }

  lemma {:induction false} ReverseLonger(b: byte, n: nat)
    requires n >= 8
    ensures Reverse(b, n) == Pow2(n - 8) * Reverse(b, 8) && b < Pow2(n)
    decreases n
  {
    Pow2Words();
    if n > 8 {
      ReverseLonger(b, n - 1);
      ReverseShort(b, n - 1);
      TwiceTimes(Pow2(n - 9), Reverse(b, 8));
    }
  }

  /** Folding a byte into the checksum adds it to the dividend. */
  lemma ByteJoins(a: nat, q: nat, crc: uint16, b: byte)
    requires Leaves(a, q, Reverse(crc, 16))
    ensures Leaves(Xor(a, 256 * Reverse(b, 8)), q, Reverse(Xor(crc, b), 16))
  {
    ReverseAdds(crc, b, 16);
    ReverseLonger(b, 16);
    Pow2Words();
    XorAssoc(Clmul(q, GENERATOR), Reverse(crc, 16), Reverse(b, 16));
  }

  lemma NextDividend(init: seq<byte>, b: byte)
    ensures Dividend(init + [b]) == 256 * Xor(Dividend(init), 256 * Reverse(b, 8))
  {
    var data := init + [b];
    assert data[..|data| - 1] == init;
    NextWord(Message(init), Reverse(b, 8), Ones(|init|), b);
  }

  lemma NextWord(m: nat, r: nat, ones: nat, b: byte)
    requires r == Reverse(b, 8)
    ensures Xor(0x1_0000 * (256 * m + r), 256 * ones) == 256 * Xor(Xor(0x1_0000 * m, ones), 256 * r)
  {
    MessageJoins(m, r, b);
    XorBy65536(256 * m, r);
    XorBy256(0x1_0000 * m, ones);
    XorBy256(Xor(0x1_0000 * m, ones), 256 * r);
    XorLast(0x1_0000 * (256 * m), 0x1_0000 * r, 256 * ones);
  }

  /** (a + b) + c == (a + c) + b */
  lemma XorLast(a: nat, b: nat, c: nat)
    ensures Xor(Xor(a, b), c) == Xor(Xor(a, c), b)
  {
    XorAssoc(a, b, c);
    XorComm(b, c);
    XorAssoc(a, c, b);
  }

  lemma MessageJoins(m: nat, r: nat, b: byte)
    requires r == Reverse(b, 8)
    ensures 256 * m + r == Xor(256 * m, r)
  {
    ReverseBound(b, 8);
    Pow2Words();
    XorDisjoint(r, m, 8);
    XorComm(r, 256 * m);
  }

  lemma StartLeaves()
    ensures Leaves(Dividend([]), 0, Reverse(0xFFFF, 16))
  {
    XorZero(0xFFFF);
    AllOnes(16);
    Pow2Words();
  }

  lemma {:induction false} AllOnes(n: nat)
    ensures Reverse(Pow2(n) - 1, n) == Pow2(n) - 1
    decreases n
  {
    if n != 0 {
      AllOnes(n - 1);
      assert (Pow2(n) - 1) / 2 == Pow2(n - 1) - 1 && (Pow2(n) - 1) % 2 == 1;
    }
  }

  /** For all data, the checksum read from its last bit to its first is the remainder of that
      division by x^16 + x^15 + x^2 + 1. */
  lemma {:induction false} CrcIsRemainder(data: seq<byte>) returns (q: nat)
    ensures Dividend(data) == Xor(Clmul(q, 0x18005), Reverse(Crc(data), 16))
    ensures Reverse(Crc(data), 16) < 0x1_0000
    decreases |data|
  {
    ReverseBound(Crc(data), 16);
    Pow2Words();
    if data == [] {
      StartLeaves();
      q := 0;
    } else {
      var init, b := data[..|data| - 1], data[|data| - 1];
      assert data == init + [b];
      var q1 := CrcIsRemainder(init);
      q := ByteLeaves(init, b, q1);
    }
  }

  lemma ByteLeaves(init: seq<byte>, b: byte, q: nat) returns (q': nat)
    requires Leaves(Dividend(init), q, Reverse(Crc(init), 16))
    ensures Leaves(Dividend(init + [b]), q', Reverse(ByteStep(Crc(init), b), 16))
  {
    var a := Xor(Dividend(init), 256 * Reverse(b, 8));
    XorWord(Crc(init), b);
    ByteJoins(Dividend(init), q, Crc(init), b);
    NextDividend(init, b);
    q' := RoundsLeave(a, q, Xor(Crc(init), b), 8);
    EightTimes(a);
  }

  // ---- There is one remainder ----

  lemma {:induction false} HighStays(a: nat, b: nat, n: nat)
    requires a < Pow2(n) <= b
    ensures Xor(a, b) >= Pow2(n)
    decreases n
  {
    if n == 0 {
      XorZero(b);
    } else {
      HighStays(a / 2, b / 2, n - 1);
      XorBits(a, b);
    }
  }

  /** A multiple of the generator has a term x^16 or higher. */
  lemma {:induction false} MultiplesAreLong(q: nat)
    requires q > 0
    ensures Clmul(q, GENERATOR) >= 0x1_0000
    decreases q
  {
    if q == 1 {
      XorZero(GENERATOR);
    } else {
      MultiplesAreLong(q / 2);
      Pow2Words();
      assert Pow2(17) == 0x2_0000;
      HighStays(OneBit(q % 2, GENERATOR), 2 * Clmul(q / 2, GENERATOR), 17);
    }
  }

  /** So the division determines the checksum. */
  lemma RemainderUnique(a: nat, q: nat, r: nat, q': nat, r': nat)
    requires a == Xor(Clmul(q, 0x18005), r) == Xor(Clmul(q', 0x18005), r') && r < 0x1_0000 && r' < 0x1_0000
    ensures q == q' && r == r'
  {
    var d := Xor(q, q');
    XorSwap(Clmul(q, GENERATOR), r, Clmul(q', GENERATOR), r');
    XorSelf(a);
    ClmulAdds(q, q', GENERATOR);
    ZeroMeansEqual(Clmul(d, GENERATOR), Xor(r, r'));
    Pow2Words();
    XorBound(r, r', 16);
    if d > 0 { MultiplesAreLong(d); }
    ZeroMeansEqual(q, q');
    ZeroMeansEqual(r, r');
  }
}
