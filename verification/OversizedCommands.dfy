/** Commands that are valid and still cannot be sent.

    A custom command (27) may declare up to 65535 bytes of argument, and its frame may then
    not fit the 16-bit length field. The flush gives such a command a sequence number before
    it finds that out (server.go:594, then 603-607), and the number goes unused. */
module OversizedCommands {
  import opened Bytes
  import opened Results
  import opened Framing
  import opened Payloads
  import opened Sums
  import opened Commands
  import opened PriorityBands
  import opened Policy
  import opened Sessions
  import opened Overflow
  import opened Engine
  import opened Ledger
  import opened FlushSafety

  predicate Oversized(c: Command, mode: FrameMode) {
    c.commandId == 27 && |c.payload| > LongestPayload(mode)
  }

  /** The longest payload a frame can carry besides its fixed fields. */
  function LongestPayload(mode: FrameMode): nat {
    0xFFFF - (if mode == Compact then 2 else 3)
  }

  function IsOversized(mode: FrameMode): Command -> int {
    (c: Command) => if Oversized(c, mode) then 1 else 0
  }

  function OversizedIn(b: Bands, mode: FrameMode): int {
    SumBands(b, IsOversized(mode))
  }

  /** Of the commands that pass the checks, exactly these cannot be encoded. */
  lemma OversizedMeans(c: Command, seqNo: byte, mode: FrameMode)
    requires Normal(c) && Accepts(c.commandId, c.payload)
    ensures Oversized(c, mode) <==> !Encodable(FrameFor(c, seqNo, mode))
  {
    EncodingFailsOnlyForCustom(c, seqNo, mode);
  }

  lemma {:induction false} CountNotNegative(s: seq<Command>, mode: FrameMode)
    ensures 0 <= Sum(s, IsOversized(mode)) <= |s|
    decreases |s|
  {
    if s != [] { CountNotNegative(s[..|s| - 1], mode); }
  }

  lemma OversizedBounds(b: Bands, mode: FrameMode)
    ensures 0 <= Sum(b.query, IsOversized(mode)) <= OversizedIn(b, mode) <= Length(b)
  {
    CountNotNegative(b.high, mode);
    CountNotNegative(b.fw, mode);
    CountNotNegative(b.sync, mode);
    CountNotNegative(b.query, mode);
  }

  // ---- How far a scan reaches ----

  /** Of the next `left` commands of the queue, those in the query band. */
  function Reach(b: Bands, left: int): (k: nat)
    ensures k <= |b.query|
  {
    var k := left - |b.high| - |b.fw| - |b.sync|;
    if k < 0 then 0 else if k > |b.query| then |b.query| else k
  }

  /** The oversized commands among them: only the query band has any. */
  function InReach(b: Bands, left: int, mode: FrameMode): int {
    Sum(b.query[..Reach(b, left)], IsOversized(mode))
  }

  lemma PrefixCounts(s: seq<Command>, k: nat, mode: FrameMode)
    requires k <= |s|
    ensures 0 <= Sum(s[..k], IsOversized(mode)) <= Sum(s, IsOversized(mode))
  {
    assert s == s[..k] + s[k..];
    SumConcat(s[..k], s[k..], IsOversized(mode));
    CountNotNegative(s[..k], mode);
    CountNotNegative(s[k..], mode);
  }

  lemma ReachBounds(b: Bands, left: int, mode: FrameMode)
    ensures 0 <= InReach(b, left, mode) <= OversizedIn(b, mode)
  {
    PrefixCounts(b.query, Reach(b, left), mode);
    OversizedBounds(b, mode);
  }

  /** What is pushed while a scan runs stays out of its reach. */
  lemma PushReach(b: Bands, c: Command, left: int, mode: FrameMode)
    requires left <= Length(b)
    ensures InReach(Push(b, c), left, mode) <= InReach(b, left, mode)
  {
    var b' := Push(b, c);
    var k := Reach(b', left);
    assert k <= Reach(b, left) && b'.query[..k] == b.query[..k] == b.query[..Reach(b, left)][..k];
    PrefixCounts(b.query[..Reach(b, left)], k, mode);
  }

  /** A scan that takes a command from the queue reaches one fewer. */
  lemma PopReach(b: Bands, left: int, mode: FrameMode)
    requires left > 0 && Sorted(b) && AllNormal(b) && PopNext(b, false, false).Some?
    ensures var (c, rest) := PopNext(b, false, false).value;
            InReach(rest, left - 1, mode) + IsOversized(mode)(c) == InReach(b, left, mode)
  {
    var (c, rest) := PopNext(b, false, false).value;
    assert Normal(c);
    if b.high == [] && b.fw == [] && b.sync == [] {
      var front := b.query[..Reach(b, left)];
      assert front[0] == c && front[1..] == rest.query[..Reach(rest, left - 1)];
      SumPop(front, IsOversized(mode));
    } else {
      assert c in b.high || c in b.fw || c in b.sync;
    }
  }

  /** While firmware or sync traffic has the line, no oversized command is taken. */
  lemma PopInModes(b: Bands, fw: bool, sync: bool, mode: FrameMode)
    requires Sorted(b) && AllNormal(b) && PopNext(b, fw, sync).Some? && (fw || sync)
    ensures !Oversized(PopNext(b, fw, sync).value.0, mode)
  {
    var (c, _) := PopNext(b, fw, sync).value;
    assert Normal(c);
    assert c in b.high || c in b.fw || c in b.sync;
  }

  lemma PopShortens(b: Bands, fw: bool, sync: bool)
    requires PopNext(b, fw, sync).Some?
    ensures Length(PopNext(b, fw, sync).value.1) == Length(b) - 1
  {
  }

  // ---- How many the queue can hold ----

  /** The queue limits admit no more than m oversized commands at a time. */
  predicate AtMost(cfg: Config, mode: FrameMode, m: nat) {
    || (cfg.maxQueueDepth > 0 && cfg.maxQueueDepth <= m)
    || (cfg.maxQueueBytes > 0 && cfg.maxQueueBytes < (m + 1) * (12 + LongestPayload(mode)))
  }

  /** The limits leave room for m oversized commands, the shortest there are, and a command
      without payload. */
  predicate RoomBeside(cfg: Config, mode: FrameMode, m: nat) {
    && (cfg.maxQueueDepth > 0 ==> m + 1 <= cfg.maxQueueDepth)
    && (cfg.maxQueueBytes > 0 ==> m * (12 + LongestPayload(mode)) + 11 <= cfg.maxQueueBytes)
  }

  lemma {:induction false} CountAgainstSize(s: seq<Command>, mode: FrameMode)
    ensures Sum(s, IsOversized(mode)) * (12 + LongestPayload(mode)) <= Sum(s, Size())
    decreases |s|
  {
    if s != [] { CountAgainstSize(s[..|s| - 1], mode); }
  }

  lemma SizeOfOversized(b: Bands, mode: FrameMode)
    ensures OversizedIn(b, mode) * (12 + LongestPayload(mode)) <= TotalEstimatedBytes(b)
  {
    CountAgainstSize(b.high, mode);
    CountAgainstSize(b.fw, mode);
    CountAgainstSize(b.sync, mode);
    CountAgainstSize(b.query, mode);
    var w := IsOversized(mode);
    FourTimes(Sum(b.high, w), Sum(b.fw, w), Sum(b.sync, w), Sum(b.query, w), 12 + LongestPayload(mode));
  }

  lemma FourTimes(a: int, b: int, c: int, d: int, k: int)
    ensures (a + b + c + d) * k == a * k + b * k + c * k + d * k
  {
  }

  lemma LimitsBound(cfg: Config, b: Bands, mode: FrameMode, m: nat)
    requires WithinLimits(cfg, b) && AtMost(cfg, mode, m)
    ensures OversizedIn(b, mode) <= m
  {
    if cfg.maxQueueDepth > 0 && cfg.maxQueueDepth <= m {
      OversizedBounds(b, mode);
    } else {
      SizeOfOversized(b, mode);
    }
  }

  /** However a new command is admitted, there are no more than m oversized ones. */
  lemma AdmitBound(cfg: Config, b: Bands, c: Command, mode: FrameMode, m: nat)
    requires OversizedIn(b, mode) <= m && (Oversized(c, mode) ==> AtMost(cfg, mode, m))
    ensures OversizedIn(Admit(cfg, b, c).bands, mode) <= m
  {
    var a := Admit(cfg, b, c);
    AdmitBalance(cfg, b, c, IsOversized(mode));
    CountNotNegative(a.dropped, mode);
    if Oversized(c, mode) && a.status == Queued {
      LimitsHoldAfterAdmission(cfg, b, c);
      LimitsBound(cfg, a.bands, mode, m);
    }
  }

  /** A queue that drops nothing only grows. */
  lemma AdmitReach(cfg: Config, b: Bands, c: Command, left: int, mode: FrameMode)
    requires cfg.overflow != DropOldestFirst && left <= Length(b)
    ensures var b' := Admit(cfg, b, c).bands;
            InReach(b', left, mode) <= InReach(b, left, mode) && left <= Length(b')
  {
    if Fits(cfg, b, c) { PushReach(b, c, left, mode); }
  }
}
