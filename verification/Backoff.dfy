/** internal/session/manager.go: retryDelay, its jitter, and the wait of an in-flight
    command, in 64-bit arithmetic. */
module Backoff {
  import opened Bytes
  import opened Crc16
  import opened Commands

  function Power2(shift: nat): nat
    requires shift <= 6
  {
    [1, 2, 4, 8, 16, 32, 64][shift]
  }

  /** Exponent of the exponential backoff: attempts - 2, cut off at 6. */
  function Shift(attempts: int): nat {
    if attempts <= 2 then 0 else if attempts >= 8 then 6 else attempts - 2
  }

  /** xorshift64 */
  function XorShift(x: uint64): uint64 {
    var x0 := if x == 0 then 0x9e3779b97f4a7c15 else x;
    MixLeft(MixRight(MixLeft(x0, 0x2000), 0x80), 0x2_0000)
  }

  /** `x ^= x << k` in 64 bits, with the power of two for k. */
  function MixLeft(x: uint64, factor: nat): uint64 {
    Xor(x, x * factor) % 0x1_0000_0000_0000_0000
  }

  /** `x ^= x >> k` */
  function MixRight(x: uint64, factor: nat): uint64
    requires factor > 0
  {
    Xor(x, x / factor) % 0x1_0000_0000_0000_0000
  }

  /** jitterSeedForEntry: the three fields do not overlap. */
  function JitterSeed(seqNo: byte, attempts: int, commandId: byte): uint64 {
    seqNo * 0x1_0000_0000 + attempts % 0x1_0000 * 0x1_0000 + commandId
  }

  /** Go's integer division. */
  function Quotient(a: int, b: int): int
    requires b > 0
  {
    if a >= 0 then a / b else -(-a / b)
  }

  function RetryDelay(attempts: int, base: Duration, seed: uint64): (d: Duration) {
    if attempts <= 1 || base <= 0 then 0
    else
      var delay := Wrap64(base * Power2(Shift(attempts)));
      if delay < 0 then base else Jittered(delay, seed)
  }

  function Shifted(delay: Duration, jitterRange: int, v: int): Duration {
    var out := Wrap64(delay + (v - jitterRange));
    if out < 0 then 0 else out
  }

  /** The delay moved by at most a fifth of itself. */
  function Jittered(delay: Duration, seed: uint64): Duration {
    var jitterRange := Quotient(Wrap64(delay * 20), 100);
    if jitterRange <= 0 then delay
    else
      var span := Wrap64(jitterRange * 2 + 1);
      if span <= 0 then delay
      else
        Shifted(delay, jitterRange, XorShift(seed) % span)
  }

  /** How long an entry waits for its acknowledgement. */
  function Wait(ackTimeout: Duration, attempts: int, base: Duration, seed: uint64): Duration {
    var wait := Wrap64(ackTimeout + RetryDelay(attempts, base, seed));
    if wait < 0 then ackTimeout else wait
  }

  /** The delay without jitter: nothing before the second attempt, then the base, doubled from
      attempt to attempt up to the eighth. */
  function Nominal(attempts: int, base: Duration): int
    decreases attempts
  {
    if attempts <= 1 || base <= 0 then 0
    else if attempts == 2 then base
    else if attempts > 8 then 64 * base
    else 2 * Nominal(attempts - 1, base)
  }

  lemma NominalIs(attempts: int, base: Duration)
    ensures Nominal(attempts, base) == if attempts <= 1 || base <= 0 then 0 else base * Power2(Shift(attempts))
    ensures 0 <= Nominal(attempts, base) && (base > 0 ==> Nominal(attempts, base) <= 64 * base)
    decreases attempts
  {
    if 2 < attempts <= 8 && base > 0 {
      NominalIs(attempts - 1, base);
      assert Power2(Shift(attempts)) == 2 * Power2(Shift(attempts - 1));
    }
  }

  /** Largest base for which none of the products overflows. */
  const SAFE_BASE := 0x7FFF_FFFF_FFFF_FFFF / 1280

  lemma WrapSmall(x: int)
    requires -0x8000_0000_0000_0000 <= x < 0x8000_0000_0000_0000
    ensures Wrap64(x) == x
  {
  }

  lemma ShiftedWithin(delay: Duration, jitterRange: int, v: int)
    requires 0 <= jitterRange <= delay <= 0x7FFF_FFFF_FFFF_FFFF / 20 && 0 <= v <= 2 * jitterRange
    ensures delay - jitterRange <= Shifted(delay, jitterRange, v) <= delay + jitterRange
  {
    WrapSmall(delay + (v - jitterRange));
  }

  lemma JitterWithinFifth(delay: Duration, seed: uint64)
    requires 0 <= delay <= 0x7FFF_FFFF_FFFF_FFFF / 20
    ensures delay - delay / 5 <= Jittered(delay, seed) <= delay + delay / 5
  {
    WrapSmall(delay * 20);
    assert delay * 20 / 100 == delay / 5;
    var jitterRange := delay / 5;
    if jitterRange > 0 {
      WrapSmall(jitterRange * 2 + 1);
      ShiftedWithin(delay, jitterRange, XorShift(seed) % (jitterRange * 2 + 1));
    }
  }

  /** For every base that does not overflow, the delay is within a fifth of the nominal
      exponential delay, whatever the seed. */
  lemma DelayWithinFifth(attempts: int, base: Duration, seed: uint64)
    requires base <= SAFE_BASE
    ensures var n := Nominal(attempts, base);
            n - n / 5 <= RetryDelay(attempts, base, seed) <= n + n / 5
  {
    NominalIs(attempts, base);
    if attempts > 1 && base > 0 {
      var n := base * Power2(Shift(attempts));
      WrapSmall(n);
      JitterWithinFifth(n, seed);
    }
  }

  lemma NominalDoubles(attempts: int, base: Duration)
    requires 0 < base && 1 <= attempts < 8
    ensures var n, m := Nominal(attempts, base), Nominal(attempts + 1, base);
            n + n / 5 < m - m / 5
  {
    NominalIs(attempts, base);
    if attempts > 1 {
      var n, m := Nominal(attempts, base), Nominal(attempts + 1, base);
      assert m == 2 * n && n >= 1;
    }
  }

  /** Up to the eighth attempt every delay exceeds every delay of the attempt before. */
  lemma DelayStrictlyIncreases(attempts: int, base: Duration, seed: uint64, seed': uint64)
    requires 0 < base <= SAFE_BASE && 1 <= attempts < 8
    ensures RetryDelay(attempts, base, seed) < RetryDelay(attempts + 1, base, seed')
  {
    var n, m := Nominal(attempts, base), Nominal(attempts + 1, base);
    var d, e := RetryDelay(attempts, base, seed), RetryDelay(attempts + 1, base, seed');
    assert d <= n + n / 5 by { DelayWithinFifth(attempts, base, seed); }
    assert m - m / 5 <= e by { DelayWithinFifth(attempts + 1, base, seed'); }
    NominalDoubles(attempts, base);
  }

  /** Despite overflow, for all inputs, a delay is never negative. */
  lemma DelayNotNegative(attempts: int, base: Duration, seed: uint64)
    ensures RetryDelay(attempts, base, seed) >= 0
  {
  }

  /** Despite overflow, for all inputs, an entry waits at least its ack timeout. */
  lemma WaitAtLeastTimeout(ackTimeout: Duration, attempts: int, base: Duration, seed: uint64)
    requires ackTimeout > 0
    ensures Wait(ackTimeout, attempts, base, seed) >= ackTimeout
  {
    DelayNotNegative(attempts, base, seed);
    var d := RetryDelay(attempts, base, seed);
    if ackTimeout + d < 0x8000_0000_0000_0000 { WrapSmall(ackTimeout + d); }
  }

  /** The longest timeout for which the wait does not overflow. */
  const SAFE_TIMEOUT := 0x1000_0000_0000_0000

  /** For every policy that does not overflow, an entry waits its timeout and a delay within a
      fifth of the nominal one. */
  lemma WaitWithinFifth(ackTimeout: Duration, attempts: int, base: Duration, seed: uint64)
    requires 0 < ackTimeout <= SAFE_TIMEOUT && base <= SAFE_BASE
    ensures var n := Nominal(attempts, base);
            ackTimeout + n - n / 5 <= Wait(ackTimeout, attempts, base, seed) <= ackTimeout + n + n / 5
  {
    DelayWithinFifth(attempts, base, seed);
    DelayNotNegative(attempts, base, seed);
    NominalIs(attempts, base);
    WrapSmall(ackTimeout + RetryDelay(attempts, base, seed));
  }

  /** So up to the eighth attempt every wait is longer than every wait of the attempt before. */
  lemma WaitStrictlyIncreases(ackTimeout: Duration, attempts: int, base: Duration, seed: uint64, seed': uint64)
    requires 0 < ackTimeout <= SAFE_TIMEOUT && 0 < base <= SAFE_BASE && 1 <= attempts < 8
    ensures Wait(ackTimeout, attempts, base, seed) < Wait(ackTimeout, attempts + 1, base, seed')
  {
    WaitWithinFifth(ackTimeout, attempts, base, seed);
    WaitWithinFifth(ackTimeout, attempts + 1, base, seed');
    NominalDoubles(attempts, base);
  }

  /** The jitter of an entry is its own: number, attempts and command can be read off the seed. */
  lemma SeedInjective(seqNo: byte, attempts: int, commandId: byte, seqNo': byte, attempts': int, commandId': byte)
    requires JitterSeed(seqNo, attempts, commandId) == JitterSeed(seqNo', attempts', commandId')
    ensures seqNo == seqNo' && attempts % 0x1_0000 == attempts' % 0x1_0000 && commandId == commandId'
  {
  }

  /** The jitter covers the whole fifth on either side: which point of it, the seed decides. */
  lemma JitterIs(delay: Duration, seed: uint64)
    requires 5 <= delay <= 0x7FFF_FFFF_FFFF_FFFF / 20
    ensures Jittered(delay, seed) == delay - delay / 5 + XorShift(seed) % (2 * (delay / 5) + 1)
  {
    WrapSmall(delay * 20);
    assert delay * 20 / 100 == delay / 5;
    var fifth := delay / 5;
    WrapSmall(fifth * 2 + 1);
    var v := XorShift(seed) % (fifth * 2 + 1);
    WrapSmall(delay + (v - fifth));
  }

  /** A value of the generator: shifts by 13, 7 and 17 of the seed 1. */
  lemma XorShiftOfOne()
    ensures XorShift(1) == 0x4082_2041
  {
    FirstShift();
    SecondShift();
    ThirdShift();
  }

  lemma FirstShift()
    ensures MixLeft(1, 0x2000) == 0x2001
  {
    assert Pow2(12) == 0x1000;
    XorDisjoint(1, 1, 13);
  }

  lemma SecondShift()
    ensures MixRight(0x2001, 0x80) == 0x2041
  {
    assert Pow2(7) == 0x80;
    XorDisjoint(0x40, 0x40, 7);
    XorComm(0x40, 0x2000);
    XorOdd(0x2000, 0x40);
  }

  lemma XorOdd(a: nat, b: nat)
    requires a % 2 == 0 && b % 2 == 0
    ensures Xor(a + 1, b) == Xor(a, b) + 1
  {
    XorBits(a, b);
    XorBits(a + 1, b);
  }

  lemma ThirdShift()
    ensures MixLeft(0x2041, 0x2_0000) == 0x4082_2041
  {
    Pow2Words();
    assert Pow2(17) == 0x2_0000;
    XorDisjoint(0x2041, 0x2041, 17);
  }
}
