/** internal/server/server.go, flushQueue, lines 591 to 607: slots reused because oversized
    commands use up sequence numbers without using up the byte budget. */
module OversizedReuse {
  import opened Bytes
  import opened Framing
  import opened Sums
  import opened Commands
  import opened PriorityBands
  import opened Policy
  import opened Sessions
  import opened Engine
  import opened Invariants
  import opened Delivery
  import opened OversizedCommands
  import opened SequenceNumbers
  import opened SlotSafety
  import opened Runs
  import opened Rounds
  import opened Histories
  import opened SlotReuse
  import opened Burning

  /** No flush of a session that some run brings about, with this counter, budget, frame mode,
      these retry numbers and at most m oversized commands queued, reuses a slot, whatever else
      happens before the next flush. */
  ghost predicate NeverReusedAtAll(cfg: Config, n: byte, budget: nat, mode: FrameMode, retries: multiset<byte>, m: nat) {
    forall past: seq<Step>, steps: seq<Step> ::
      var w := After(cfg, START, past);
      && Possible(cfg, START, past) && Ready(w, n, budget, mode, retries, m)
      && Possible(cfg, FlushStep(w), steps) && NoFlush(steps) ==>
        NoOverwrite(w, After(cfg, FlushStep(w), steps))
  }

  // ---- Never ----

  /** If the queue drops nothing and has room for at most m oversized commands, numbers that
      are apart are enough. */
  lemma ApartIsEnoughWith(cfg: Config, n: byte, budget: nat, mode: FrameMode, retries: multiset<byte>, m: nat)
    requires AtMost(cfg, mode, m) && (m > 0 ==> cfg.overflow != DropOldestFirst)
    requires NumbersApart(n, budget, mode, retries, m)
    ensures NeverReusedAtAll(cfg, n, budget, mode, retries, m)
  {
    forall past: seq<Step>, steps: seq<Step> |
      var w := After(cfg, START, past);
      && Possible(cfg, START, past) && Ready(w, n, budget, mode, retries, m)
      && Possible(cfg, FlushStep(w), steps) && NoFlush(steps)
      ensures var w := After(cfg, START, past); NoOverwrite(w, After(cfg, FlushStep(w), steps))
    {
      StartSound(cfg);
      InvAlways(cfg, START, past);
      assert AllHarmless(cfg, steps, mode, m);
      FlushNeverOverwrites(cfg, After(cfg, START, past), steps, n, budget, mode, retries, m);
    }
  }

  // ---- Reused ----

  lemma {:induction false} LaterAdds(n: byte, a: nat, b: nat)
    ensures Later(Later(n, a), b) == Later(n, a + b)
    decreases b
  {
    if b > 0 { LaterAdds(n, a, b - 1); }
  }

  /** The session between rounds that hand out k numbers in all: nothing queued, nothing lost. */
  predicate AfterBurns(s: SessionState, s': SessionState, k: nat) {
    s'.bands == EMPTY_BANDS && s'.nextSeq == Later(s.nextSeq, k) && s.inFlight.Keys <= s'.inFlight.Keys
  }

  lemma AnotherBurn(s: SessionState, s1: SessionState, s2: SessionState, k: nat, m: nat, e: Entry)
    requires AfterBurns(s, s1, k)
    requires var n := Later(s1.nextSeq, m + 1); s2 == s1.(nextSeq := n, inFlight := s1.inFlight[n := e])
    ensures AfterBurns(s, s2, k + m + 1)
  {
    LaterAdds(s.nextSeq, k, m + 1);
  }

  /** j rounds, each with m oversized commands and a request. */
  lemma {:induction false} BurnRounds(cfg: Config, w: World, l: Locals, j: nat, m: nat, now: Time) returns (w': World)
    requires AtRound(w, l) && l.remaining >= Cost(j, l.frameMode)
    requires w.sess.bands == EMPTY_BANDS && RoomBeside(cfg, l.frameMode, m)
    ensures Continues(cfg, w, w') && AtRound(w', l.(remaining := l.remaining - Cost(j, l.frameMode)))
    ensures AfterBurns(w.sess, w'.sess, Share(j, m))
    decreases j
  {
    if j == 0 {
      ContinuesNowhere(cfg, w);
      w' := w;
    } else {
      var v := BurnRounds(cfg, w, l, j - 1, m, now);
      OneFrameOff(l, j);
      w' := BurnRound(cfg, v, v.pc.l, m, m, now);
      ContinuesTrans(cfg, w, v, w');
      AnotherBurn(w.sess, v.sess, w'.sess, Share(j - 1, m), m, w'.sess.inFlight[w'.sess.nextSeq]);
    }
  }

  /** 256 numbers after the first frame, its own number comes up again. */
  lemma ComesUpAgain(x: byte, k: nat, b: nat)
    requires k + b + 1 == 256
    ensures Later(Later(x, k), b + 1) == x
  {
    LaterAdds(x, k, b + 1);
    LaterIs(x, 256);
  }

  /** A first frame, then full rounds, then one more with just so many oversized commands. */
  lemma BurnAround(cfg: Config, w: World, l: Locals, j: nat, b: nat, m: nat, now: Time) returns (w': World)
    requires AtRound(w, l) && w.sess.bands == EMPTY_BANDS && RoomBeside(cfg, l.frameMode, m)
    requires Share(j, m) + b == 255 && b <= m && l.remaining >= Cost(j + 2, l.frameMode)
    ensures Continues(cfg, w, w') && |w'.log| > |w.log| && w'.log[|w'.log| - 1].Overwrote?
  {
    TwoMore(j, l.frameMode);
    var v1 := BurnRound(cfg, w, l, 0, m, now);
    var v2 := BurnRounds(cfg, v1, v1.pc.l, j, m, now);
    ContinuesTrans(cfg, w, v1, v2);
    ComesUpAgain(v1.sess.nextSeq, Share(j, m), b);
    w' := BurnThenCollide(cfg, v2, v2.pc.l, b, m, now);
    ContinuesTrans(cfg, w, v2, w');
    ContinuesGrow(cfg, w, v2);
  }

  lemma TwoMore(j: nat, mode: FrameMode)
    ensures Cost(j + 2, mode) == Cost(j, mode) + MinFrame(mode) + MinFrame(mode)
  {
  }

  /** A run that ends with a reused slot refutes the promise. */
  lemma RefutesAtAll(cfg: Config, w: World, v: World, n: byte, budget: nat, mode: FrameMode, retries: multiset<byte>, m: nat)
    requires Reaches(cfg, START, w) && Ready(w, n, budget, mode, retries, m)
    requires Continues(cfg, FlushStep(w), v) && |v.log| > |w.log| && v.log[|v.log| - 1].Overwrote?
    ensures !NeverReusedAtAll(cfg, n, budget, mode, retries, m)
  {
    var past :| Possible(cfg, START, past) && After(cfg, START, past) == w;
    var steps :| AllCalm(steps) && After(cfg, FlushStep(w), steps) == v;
    CalmIsPossible(cfg, FlushStep(w), steps);
    assert !NoOverwrite(After(cfg, START, past), After(cfg, FlushStep(After(cfg, START, past)), steps));
  }

  lemma RoomForOne(cfg: Config, mode: FrameMode, m: nat)
    requires RoomBeside(cfg, mode, m)
    ensures RoomFor(cfg, 1)
  {
    MoreCosts(0, m, 12 + LongestPayload(mode));
  }

  /** A session with an empty queue, ready for its flush. */
  lemma EmptyReady(cfg: Config, n: byte, budget: nat, mode: FrameMode, retries: multiset<byte>, m: nat) returns (w: World)
    requires RoomFor(cfg, 1) && budget > 0
    ensures Reaches(cfg, START, w) && Ready(w, n, budget, mode, retries, m)
    ensures AtRound(FlushStep(w), Locals(budget, false, false, mode, []))
    ensures FlushStep(w).sess.bands == EMPTY_BANDS && FlushStep(w).log == w.log
  {
    RoomInEmpty(cfg, Urgent("", 0, 0));
    var w0 := Beginning(cfg, mode);
    var w1 := AdvancingTo(cfg, w0, EMPTY_BANDS, 0, mode, n, 0);
    ReachesTrans(cfg, START, w0, w1);
    forall r: byte ensures SumBands(EMPTY_BANDS, RetryClaim(r)) == 0 { ClaimsOfTwo([], [], r); }
    w := Readying(cfg, w1, EMPTY_BANDS, n, budget, mode, retries);
  }

  lemma {:induction false} FullRounds(total: nat, m: nat) returns (j: nat, b: nat)
    ensures Share(j, m) + b == total && b <= m
    decreases total
  {
    if total <= m {
      j, b := 0, total;
    } else {
      j, b := FullRounds(total - m - 1, m);
      j := j + 1;
    }
  }

  /** Full rounds and a part of one for the 255 numbers between two equal ones. */
  lemma RoundsNeeded(budget: nat, mode: FrameMode, m: nat) returns (j: nat, b: nat)
    requires !CounterKeepsOff(budget, mode, m)
    ensures Share(j, m) + b == 255 && b <= m && Cost(j + 2, mode) <= budget
  {
    var frames := budget / MinFrame(mode);
    j, b := FullRounds(255, m);
    ShareIsProduct(frames - 1, m);
    if frames - 1 <= j { ShareGrows(frames - 1, j, m); }
    FramesFit(j + 2, budget, mode);
  }

  lemma ReuseAfter(cfg: Config, n: byte, budget: nat, mode: FrameMode, retries: multiset<byte>, m: nat, k: nat, j: nat, b: nat)
    requires RoomBeside(cfg, mode, k) && Share(j, k) + b == 255 && b <= k && Cost(j + 2, mode) <= budget
    ensures !NeverReusedAtAll(cfg, n, budget, mode, retries, m)
  {
    RoomForOne(cfg, mode, k);
    TwoMore(j, mode);
    var w := EmptyReady(cfg, n, budget, mode, retries, m);
    var v := BurnAround(cfg, FlushStep(w), Locals(budget, false, false, mode, []), j, b, k, 0);
    RefutesAtAll(cfg, w, v, n, budget, mode, retries, m);
  }

  /** If k oversized commands fit the queue beside a small one, a flush reuses a slot as soon as
      the frames after its first can come with 256 numbers. */
  lemma OversizedReuseSlots(cfg: Config, n: byte, budget: nat, mode: FrameMode, retries: multiset<byte>, m: nat, k: nat)
    requires RoomBeside(cfg, mode, k) && !CounterKeepsOff(budget, mode, k)
    ensures !NeverReusedAtAll(cfg, n, budget, mode, retries, m)
  {
    var j, b := RoundsNeeded(budget, mode, k);
    ReuseAfter(cfg, n, budget, mode, retries, m, k, j, b);
  }

  // ---- Retries ----

  /** The request of a retry waits behind j oversized commands. */
  function RetryBehind(c: Command, j: nat, r: byte): Bands {
    Bands([], [], [], Times(c, j) + [Request("", 1, r)])
  }

  /** While a request is in flight under r, j oversized commands come in. */
  lemma QueuedMeanwhile(cfg: Config, n: byte, mode: FrameMode, r: byte, c: Command, j: nat, m: nat) returns (w: World)
    requires RoomBeside(cfg, mode, m) && j <= m && Overlong(c, mode)
    ensures Reaches(cfg, START, w)
    ensures Quiet(w.(sess := w.sess.(inFlight := map[])), Bands([], [], [], Times(c, j)), n, mode)
    ensures w.sess.inFlight == map[r := Entry(r, Request("", 0, 0), 0, 1)]
  {
    RoomForOne(cfg, mode, m);
    var w1 := OutstandingUnder(cfg, n, mode, r);
    w := TakingOverlongs(cfg, w1, mode, c, j, m, 0);
    ContinuesReaches(cfg, w1, w);
    ReachesTrans(cfg, START, w1, w);
  }

  /** A request is in flight under r, and the counter has come to n. */
  lemma OutstandingUnder(cfg: Config, n: byte, mode: FrameMode, r: byte) returns (w: World)
    requires RoomFor(cfg, 1)
    ensures Reaches(cfg, START, w)
    ensures Quiet(w.(sess := w.sess.(inFlight := map[])), EMPTY_BANDS, n, mode)
    ensures w.sess.inFlight == map[r := Entry(r, Request("", 0, 0), 0, 1)]
  {
    var q := Request("", 0, 0);
    RoomInEmpty(cfg, q);
    RoomInEmpty(cfg, Urgent("", 0, 0));
    RequestFirst(q);
    LaterReaches(r, n);
    var w0 := Beginning(cfg, mode);
    var w1 := AdvancingTo(cfg, w0, EMPTY_BANDS, 0, mode, Before(r), 0);
    ReachesTrans(cfg, START, w0, w1);
    w := Outstanding(cfg, w1, EMPTY_BANDS, Before(r), mode, q, Distance(r, n), 0);
    ReachesTrans(cfg, START, w1, w);
  }

  /** It times out, and is put back behind them. */
  lemma RetryQueued(cfg: Config, n: byte, mode: FrameMode, r: byte, c: Command, j: nat, m: nat) returns (w: World)
    requires RoomBeside(cfg, mode, m) && j <= m && Overlong(c, mode) && MaxRetries(cfg, Request("", 0, 0)) >= 1
    ensures Reaches(cfg, START, w) && Quiet(w, RetryBehind(c, j, r), n, mode)
  {
    var v := QueuedMeanwhile(cfg, n, mode, r, c, j, m);
    var now;
    w, now := PuttingBack(cfg, v, r, Request("", 0, 0), 0);
    ReachesTrans(cfg, START, v, w);
  }

  lemma ClaimsBehind(c: Command, j: nat, r: byte, retries: multiset<byte>, q: byte)
    requires c.retrySeq == 0 && retries[r] >= 1 && q != 0
    ensures SumBands(RetryBehind(c, j, r), RetryClaim(q)) <= retries[q]
  {
    TimesOnly(c, j);
    SumZero(Times(c, j), RetryClaim(q));
    SumPush(Times(c, j), Request("", 1, r), RetryClaim(q));
  }

  lemma OversizedBehind(c: Command, j: nat, r: byte, mode: FrameMode)
    requires Overlong(c, mode)
    ensures OversizedIn(RetryBehind(c, j, r), mode) == j
  {
    CountOfTimes(c, j, mode);
    SumPush(Times(c, j), Request("", 1, r), IsOversized(mode));
  }

  /** That session is ready for its flush. */
  lemma RetryReady(cfg: Config, n: byte, budget: nat, mode: FrameMode, retries: multiset<byte>, r: byte,
                   c: Command, j: nat, m: nat) returns (w: World)
    requires RoomBeside(cfg, mode, m) && j <= m && Overlong(c, mode) && MaxRetries(cfg, Request("", 0, 0)) >= 1
    requires retries[r] >= 1 && budget > 0
    ensures Reaches(cfg, START, w) && Ready(w, n, budget, mode, retries, m)
    ensures FlushStep(w) == w.(pc := Outer(Locals(budget, false, false, mode, [])))
    ensures w.sess.bands == RetryBehind(c, j, r)
  {
    var v := RetryQueued(cfg, n, mode, r, c, j, m);
    w := TellingFree(cfg, v, budget);
    ReachesTrans(cfg, START, v, w);
    OversizedBehind(c, j, r, mode);
    forall q: byte | q != 0 ensures SumBands(w.sess.bands, RetryClaim(q)) <= retries[q] {
      ClaimsBehind(c, j, r, retries, q);
    }
  }

  lemma TimelessBehind(c: Command, j: nat, r: byte, now: Time)
    requires c.ttl == 0
    ensures Unexpired(RetryBehind(c, j, r), now) == RetryBehind(c, j, r) && Drained(RetryBehind(c, j, r), now) == []
  {
    TimesOnly(c, j);
    NothingDrained(RetryBehind(c, j, r), now);
  }

  /** The oversized commands use up j numbers before the retry is reached. */
  lemma BurnToRetry(cfg: Config, w: World, l: Locals, c: Command, j: nat, r: byte, now: Time) returns (w': World)
    requires w.pc == Outer(l) && !l.fw && !l.sync && l.remaining > 0 && w.sess.bands == RetryBehind(c, j, r)
    requires Overlong(c, l.frameMode)
    ensures Continues(cfg, w, w')
    ensures At(w', w.sess.(bands := EMPTY_BANDS, nextSeq := Later(w.sess.nextSeq, j)), Popped(l, 0, Request("", 1, r)))
  {
    var q := Request("", 1, r);
    TimelessBehind(c, j, r, now);
    var w1 := StartScan(cfg, w, l, now);
    var w2 := BurnMany(cfg, w1, c, j, [q], now);
    ContinuesTrans(cfg, w, w1, w2);
    w' := TakeLast(cfg, w2, l, q, now);
    ContinuesTrans(cfg, w, w2, w');
  }

  /** Then it is sent under its own number. */
  lemma RetryGoesOut(cfg: Config, w: World, l: Locals, r: byte, now: Time) returns (w': World)
    requires w.pc == Popped(l, 0, Request("", 1, r)) && r != 0 && !l.fw && !l.sync && l.skipped == []
    requires l.remaining >= MinFrame(l.frameMode) && w.sess.bands == EMPTY_BANDS
    ensures Continues(cfg, w, w') && AtRound(w', l.(remaining := l.remaining - MinFrame(l.frameMode)))
    ensures w'.sess.bands == EMPTY_BANDS && w'.sess.nextSeq == w.sess.nextSeq && r in w'.sess.inFlight
  {
    var q := Request("", 1, r);
    SmallPasses(q, l, now);
    var v := Sending(cfg, w, l, 0, q, now);
    w' := Closing(cfg, v, v.pc.l, q.(retrySeq := 0), r, now);
    LeadsTrans(cfg, w, v, w');
    LeadsContinues(cfg, w, w');
  }

  /** And the counter comes to that number: i full rounds, then b oversized commands and a request. */
  lemma CounterCatchesUp(cfg: Config, w: World, l: Locals, r: byte, i: nat, b: nat, m: nat, now: Time) returns (w': World)
    requires AtRound(w, l) && w.sess.bands == EMPTY_BANDS && r in w.sess.inFlight && RoomBeside(cfg, l.frameMode, m)
    requires b <= m && l.remaining >= Cost(i + 1, l.frameMode) && Later(w.sess.nextSeq, Share(i, m) + b + 1) == r
    ensures Continues(cfg, w, w') && |w'.log| > |w.log| && w'.log[|w'.log| - 1].Overwrote?
  {
    var v := BurnRounds(cfg, w, l, i, m, now);
    LaterAdds(w.sess.nextSeq, Share(i, m), b + 1);
    w' := BurnThenCollide(cfg, v, v.pc.l, b, m, now);
    ContinuesTrans(cfg, w, v, w');
    ContinuesGrow(cfg, w, v);
  }

  lemma RetrySent(cfg: Config, w: World, l: Locals, c: Command, r: byte, j: nat, now: Time) returns (w': World)
    requires w.pc == Outer(l) && !l.fw && !l.sync && l.skipped == [] && w.sess.bands == RetryBehind(c, j, r)
    requires Overlong(c, l.frameMode) && r != 0 && l.remaining >= MinFrame(l.frameMode)
    ensures Continues(cfg, w, w') && AtRound(w', l.(remaining := l.remaining - MinFrame(l.frameMode)))
    ensures w'.sess.bands == EMPTY_BANDS && w'.sess.nextSeq == Later(w.sess.nextSeq, j) && r in w'.sess.inFlight
    ensures |w'.log| >= |w.log|
  {
    var v := BurnToRetry(cfg, w, l, c, j, r, now);
    w' := RetryGoesOut(cfg, v, l, r, now);
    ContinuesTrans(cfg, w, v, w');
    ContinuesGrow(cfg, w, w');
  }

  lemma RetryIsCaught(cfg: Config, w: World, l: Locals, c: Command, r: byte, j: nat, i: nat, b: nat, m: nat, now: Time)
    returns (w': World)
    requires w.pc == Outer(l) && !l.fw && !l.sync && l.skipped == [] && w.sess.bands == RetryBehind(c, j, r)
    requires Overlong(c, l.frameMode) && r != 0 && RoomBeside(cfg, l.frameMode, m)
    requires b <= m && l.remaining >= Cost(i + 2, l.frameMode) && Later(w.sess.nextSeq, j + Share(i, m) + b + 1) == r
    ensures Continues(cfg, w, w') && |w'.log| > |w.log| && w'.log[|w'.log| - 1].Overwrote?
  {
    assert Cost(i + 2, l.frameMode) == Cost(i + 1, l.frameMode) + MinFrame(l.frameMode);
    var v := RetrySent(cfg, w, l, c, r, j, now);
    LaterAdds(w.sess.nextSeq, j, Share(i, m) + b + 1);
    w' := CounterCatchesUp(cfg, v, v.pc.l, r, i, b, m, now);
    ContinuesTrans(cfg, w, v, w');
  }

  /** How d numbers are spread over the scan of the retry and the frames after it. */
  lemma Spread(d: nat, frames: nat, m: nat) returns (j: nat, i: nat, b: nat)
    requires frames >= 2 && 1 <= d <= frames * (m + 1) - 1
    ensures j <= m && b <= m && j + Share(i, m) + b + 1 == d && i + 2 <= frames
  {
    ShareIsProduct(frames - 1, m);
    assert frames * (m + 1) == (frames - 1) * (m + 1) + (m + 1);
    var most := Share(frames - 1, m);
    j := if d <= most then 0 else d - most;
    i, b := FullRounds(d - j - 1, m);
    if frames - 1 <= i { ShareGrows(frames - 1, i, m); }
  }

  /** A retry under a number the counter can come to with a frame to spare. */
  lemma RetryIsReachedWith(cfg: Config, n: byte, budget: nat, mode: FrameMode, retries: multiset<byte>, r: byte, m: nat)
    requires RoomBeside(cfg, mode, m) && MaxRetries(cfg, Request("", 0, 0)) >= 1 && r != 0 && retries[r] >= 1
    requires var frames := budget / MinFrame(mode); frames >= 2 && InRun(r, n, frames * (m + 1) - 1)
    ensures !NeverReusedAtAll(cfg, n, budget, mode, retries, m)
  {
    var frames := budget / MinFrame(mode);
    AtLeastOne(frames, m);
    var d := WithinRun(r, n, frames * (m + 1) - 1);
    var j, i, b := Spread(d, frames, m);
    FramesFit(i + 2, budget, mode);
    CaughtAfter(cfg, n, budget, mode, retries, r, j, i, b, m);
  }

  lemma AtLeastOne(frames: nat, m: nat)
    requires frames >= 2
    ensures frames * (m + 1) - 1 >= 1
  {
    ShareIsProduct(frames, m);
  }

  lemma CaughtAfter(cfg: Config, n: byte, budget: nat, mode: FrameMode, retries: multiset<byte>, r: byte,
                    j: nat, i: nat, b: nat, m: nat)
    requires RoomBeside(cfg, mode, m) && MaxRetries(cfg, Request("", 0, 0)) >= 1 && r != 0 && retries[r] >= 1
    requires j <= m && b <= m && Cost(i + 2, mode) <= budget && Later(n, j + Share(i, m) + b + 1) == r
    ensures !NeverReusedAtAll(cfg, n, budget, mode, retries, m)
  {
    TwoMore(i, mode);
    var c := OverlongExists(mode);
    var w := RetryReady(cfg, n, budget, mode, retries, r, c, j, m);
    var v := RetryIsCaught(cfg, FlushStep(w), FlushStep(w).pc.l, c, r, j, i, b, m, 0);
    RefutesAtAll(cfg, w, v, n, budget, mode, retries, m);
  }

  /** Two retries under one number, and room for two frames. */
  lemma RetriesMeetAtAll(cfg: Config, n: byte, budget: nat, mode: FrameMode, retries: multiset<byte>, r: byte, m: nat)
    requires Roomy(cfg) && r != 0 && retries[r] >= 2 && Cost(2, mode) <= budget
    ensures !NeverReusedAtAll(cfg, n, budget, mode, retries, m)
  {
    assert Cost(2, mode) == MinFrame(mode) + MinFrame(mode);
    var w, now := TwoRetriesReady(cfg, n, budget, mode, retries, r);
    var v := BothGoOut(cfg, FlushStep(w), Locals(budget, false, false, mode, []), r, now);
    LeadsContinues(cfg, FlushStep(w), v);
    RefutesAtAll(cfg, w, v, n, budget, mode, retries, m);
  }

  // ---- The exact condition ----

  /** Whenever the condition fails, some run from the start leads to a flush that reuses a slot. */
  lemma ApartIsNeededWith(cfg: Config, n: byte, budget: nat, mode: FrameMode, retries: multiset<byte>, m: nat)
    requires Roomy(cfg) && RoomBeside(cfg, mode, m) && !NumbersApart(n, budget, mode, retries, m)
    ensures !NeverReusedAtAll(cfg, n, budget, mode, retries, m)
  {
    if !CounterKeepsOff(budget, mode, m) {
      OversizedReuseSlots(cfg, n, budget, mode, retries, m, m);
    } else {
      var frames := budget / MinFrame(mode);
      var r: byte :| r != 0 && frames >= 2 && Clashes(r, n, frames, retries[r], m);
      if retries[r] >= 2 {
        FramesFit(2, budget, mode);
        RetriesMeetAtAll(cfg, n, budget, mode, retries, r, m);
      } else {
        RetryIsReachedWith(cfg, n, budget, mode, retries, r, m);
      }
    }
  }

  /** If the queue drops nothing, and m is the largest number of oversized commands it has room
      for, also beside a small command: slots are never reused exactly when numbers are apart. */
  lemma ReusedExactlyWhen(cfg: Config, n: byte, budget: nat, mode: FrameMode, retries: multiset<byte>, m: nat)
    requires AtMost(cfg, mode, m) && RoomBeside(cfg, mode, m) && (m > 0 ==> cfg.overflow != DropOldestFirst)
    requires Roomy(cfg) || retries == multiset{}
    ensures NeverReusedAtAll(cfg, n, budget, mode, retries, m) <==> NumbersApart(n, budget, mode, retries, m)
  {
    if NumbersApart(n, budget, mode, retries, m) {
      ApartIsEnoughWith(cfg, n, budget, mode, retries, m);
    } else if Roomy(cfg) {
      ApartIsNeededWith(cfg, n, budget, mode, retries, m);
    } else {
      OversizedReuseSlots(cfg, n, budget, mode, retries, m, m);
    }
  }

  /** With the default limits of 1000 commands and a megabyte, but the policy to reject what does
      not fit: without queued retries, exactly when the budget is for fewer than 17 frames. */
  lemma DefaultLimits(cfg: Config, n: byte, budget: nat)
    requires cfg.maxQueueDepth == 1000 && cfg.maxQueueBytes == 1048576 && cfg.overflow == Reject
    ensures NeverReusedAtAll(cfg, n, budget, Sequenced, multiset{}, 15) <==> budget < 17 * 11
  {
    RoomForFifteen(cfg);
    ReusedExactlyWhen(cfg, n, budget, Sequenced, multiset{}, 15);
    SixteenFrames(budget);
  }

  lemma RoomForFifteen(cfg: Config)
    requires cfg.maxQueueDepth == 1000 && cfg.maxQueueBytes == 1048576
    ensures AtMost(cfg, Sequenced, 15) && RoomBeside(cfg, Sequenced, 15)
  {
  }

  lemma SixteenFrames(budget: nat)
    ensures CounterKeepsOff(budget, Sequenced, 15) <==> budget < 17 * 11
  {
  }
}
