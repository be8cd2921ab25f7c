/** internal/server/server.go, flushQueue, and internal/session/manager.go, NextCommandSeq and
    RegisterInFlight: when a flush can reuse an in-flight slot. */
module SlotReuse {
  import opened Bytes
  import opened Results
  import opened Framing
  import opened Sums
  import opened Commands
  import opened PriorityBands
  import opened Policy
  import opened Sessions
  import opened Engine
  import opened Invariants
  import opened Delivery
  import opened OversizedCommands
  import opened SequenceNumbers
  import opened SlotSafety
  import opened Runs
  import opened Rounds
  import opened Histories

  /** No flush of a session that some run brings about, with this counter, budget, frame mode
      and these retry numbers, reuses a slot, whatever harmless steps come in between. */
  ghost predicate NeverReused(cfg: Config, n: byte, budget: nat, mode: FrameMode, retries: multiset<byte>) {
    forall past: seq<Step>, steps: seq<Step> ::
      var w := After(cfg, START, past);
      && Possible(cfg, START, past) && Ready(w, n, budget, mode, retries, 0) && Possible(cfg, FlushStep(w), steps)
      && AllHarmless(cfg, steps, mode, 0) ==>
        NoOverwrite(w, After(cfg, FlushStep(w), steps))
  }

  /** Room for two commands without payload, and at least one retry for each. */
  predicate Roomy(cfg: Config) {
    RoomFor(cfg, 2) && MaxRetries(cfg, Request("", 0, 0)) >= 1 && MaxRetries(cfg, Urgent("", 0, 0)) >= 1
  }

  // ---- Room and readiness ----

  lemma SizeOfOne(c: Command)
    requires Small(c)
    ensures TotalEstimatedBytes(EMPTY_BANDS) == 0 && TotalEstimatedBytes(Bands([], [], [], [c])) == 11
  {
    SumPush([], c, Size());
    assert [] + [c] == [c];
  }

  lemma RoomInEmpty(cfg: Config, c: Command)
    requires RoomFor(cfg, 1) && Small(c)
    ensures Fits(cfg, EMPTY_BANDS, c)
  {
    SizeOfOne(c);
  }

  lemma RoomForSecond(cfg: Config, c: Command, d: Command)
    requires RoomFor(cfg, 2) && Small(c) && Small(d)
    ensures Fits(cfg, EMPTY_BANDS, c) && Fits(cfg, Bands([], [], [], [c]), d)
  {
    SizeOfOne(c);
  }

  lemma SmallIsNotOversized(b: Bands, mode: FrameMode)
    requires AllSmall(b)
    ensures OversizedIn(b, mode) == 0
  {
    SumZero(b.high, IsOversized(mode));
    SumZero(b.query, IsOversized(mode));
  }

  /** A quiet session that was told its budget is ready for a flush. */
  lemma Readying(cfg: Config, w: World, b: Bands, n: byte, budget: nat, mode: FrameMode, retries: multiset<byte>)
    returns (w': World)
    requires Reaches(cfg, START, w) && Quiet(w, b, n, mode) && AllSmall(b) && budget > 0
    requires forall r: byte :: r != 0 ==> SumBands(b, RetryClaim(r)) <= retries[r]
    ensures Reaches(cfg, START, w') && Ready(w', n, budget, mode, retries, 0)
    ensures AtRound(FlushStep(w'), Locals(budget, false, false, mode, []))
    ensures FlushStep(w').sess.bands == b && FlushStep(w').sess.nextSeq == n && FlushStep(w').log == w'.log
  {
    w' := TellingFree(cfg, w, budget);
    ReachesTrans(cfg, START, w, w');
    SmallIsNotOversized(b, mode);
  }

  lemma ClaimsOfTwo(h: seq<Command>, q: seq<Command>, r: byte)
    requires |h| <= 1 && |q| <= 1
    ensures SumBands(Bands(h, [], [], q), RetryClaim(r)) ==
            (if h == [] then 0 else RetryClaim(r)(h[0])) + (if q == [] then 0 else RetryClaim(r)(q[0]))
  {
  }

  // ---- Runs that reuse a slot ----

  /** A run that ends with a reused slot refutes the promise. */
  lemma Refutes(cfg: Config, w: World, v: World, n: byte, budget: nat, mode: FrameMode, retries: multiset<byte>)
    requires Reaches(cfg, START, w) && Ready(w, n, budget, mode, retries, 0)
    requires Leads(cfg, FlushStep(w), v) && |v.log| > |w.log| && v.log[|v.log| - 1].Overwrote?
    ensures !NeverReused(cfg, n, budget, mode, retries)
  {
    var past :| Possible(cfg, START, past) && After(cfg, START, past) == w;
    var steps :| AllGentle(steps) && After(cfg, FlushStep(w), steps) == v;
    GentleIsHarmless(cfg, FlushStep(w), steps, mode);
    assert !NoOverwrite(After(cfg, START, past), After(cfg, FlushStep(After(cfg, START, past)), steps));
  }

  /** From a flush in a given state on: the next command has a number that is already taken. */
  lemma Collides(cfg: Config, w: World, v: World, l: Locals, c: Command, rest: Bands, now: Time) returns (w': World)
    requires Leads(cfg, w, v) && AtRound(v, l) && l.remaining >= MinFrame(l.frameMode)
    requires PopNext(v.sess.bands, false, false) == Some((c, rest)) && NumberFor(v.sess, c) in v.sess.inFlight
    ensures Leads(cfg, w, w') && |w'.log| > |w.log| && w'.log[|w'.log| - 1].Overwrote?
  {
    w' := HalfRound(cfg, v, l, c, rest, now);
    LeadsGrow(cfg, w, v);
    LeadsTrans(cfg, w, v, w');
  }

  /** After k rounds the number of the next command is taken, if it is one of the k used. */
  lemma RoundsThenCollides(cfg: Config, w: World, l: Locals, k: nat, c: Command, rest: Bands, now: Time) returns (w': World)
    requires AtRound(w, l) && l.remaining >= Cost(k + 1, l.frameMode)
    requires w.sess.bands.high == [] && Fits(cfg, w.sess.bands, Urgent("", 0, 0))
    requires PopNext(w.sess.bands, false, false) == Some((c, rest)) && c.retrySeq in Numbers(w.sess.nextSeq, k) - {0}
    ensures Leads(cfg, w, w') && |w'.log| > |w.log| && w'.log[|w'.log| - 1].Overwrote?
  {
    var v := ManyRounds(cfg, w, l, k, now);
    w' := Collides(cfg, w, v, v.pc.l, c, rest, now);
  }

  /** More than 256 frames: the counter comes round. */
  lemma CounterComesRound(cfg: Config, n: byte, budget: nat, mode: FrameMode, retries: multiset<byte>)
    requires RoomFor(cfg, 1) && Cost(257, mode) <= budget
    ensures !NeverReused(cfg, n, budget, mode, retries)
  {
    var u := Urgent("", 0, 0);
    RoomInEmpty(cfg, u);
    var w0 := Beginning(cfg, mode);
    var w1 := AdvancingTo(cfg, w0, EMPTY_BANDS, 0, mode, n, 0);
    ReachesTrans(cfg, START, w0, w1);
    forall r: byte ensures SumBands(EMPTY_BANDS, RetryClaim(r)) == 0 { ClaimsOfTwo([], [], r); }
    var w := Readying(cfg, w1, EMPTY_BANDS, n, budget, mode, retries);
    var v := RoundAndAHalf(cfg, FlushStep(w), Locals(budget, false, false, mode, []), 0);
    Refutes(cfg, w, v, n, budget, mode, retries);
  }

  lemma ComesRound(n: byte)
    ensures NextSeq(Later(n, 256)) in Numbers(n, 256)
  {
    LaterIs(n, 256);
    LaterIs(n, 1);
    assert Later(n, 256) == n;
    InNumbers(n, 256, 1);
    assert Later(n, 1) == NextSeq(Later(n, 0));
  }

  lemma RoundAndAHalf(cfg: Config, w: World, l: Locals, now: Time) returns (w': World)
    requires AtRound(w, l) && l.remaining >= Cost(257, l.frameMode) && w.sess.bands == EMPTY_BANDS
    requires Fits(cfg, EMPTY_BANDS, Urgent("", 0, 0))
    ensures Leads(cfg, w, w') && |w'.log| > |w.log| && w'.log[|w'.log| - 1].Overwrote?
  {
    var u := Urgent("", 0, 0);
    assert Cost(257, l.frameMode) == Cost(256, l.frameMode) + MinFrame(l.frameMode);
    var v1 := ManyRounds(cfg, w, l, 256, now);
    var v2 := Queueing(cfg, v1, u, now);
    LeadsTrans(cfg, w, v1, v2);
    UrgentFirst(EMPTY_BANDS);
    ComesRound(w.sess.nextSeq);
    w' := Collides(cfg, w, v2, v1.pc.l, u, EMPTY_BANDS, now);
  }

  lemma RequestFirst(c: Command)
    requires c.priority == Query
    ensures GoesFirst(EMPTY_BANDS, c)
  {
    assert ([] + [c])[1..] == [];
  }

  /** A request has timed out under r and the counter is at n. */
  lemma FirstRetry(cfg: Config, mode: FrameMode, r: byte, n: byte) returns (w: World, now: Time)
    requires Roomy(cfg)
    ensures Reaches(cfg, START, w) && Quiet(w, Bands([], [], [], [Request("", 1, r)]), n, mode) && Synced(w)
  {
    var c := Request("", 0, 0);
    RoomInEmpty(cfg, c);
    RoomInEmpty(cfg, Urgent("", 0, 0));
    RequestFirst(c);
    var w0 := Beginning(cfg, mode);
    w, now := QueueingRetry(cfg, w0, EMPTY_BANDS, 0, mode, c, r, n, 0);
    ReachesTrans(cfg, START, w0, w);
    assert Push(EMPTY_BANDS, Request("", 1, r)).query == [Request("", 1, r)];
  }

  lemma OneRetryReady(cfg: Config, n: byte, budget: nat, mode: FrameMode, retries: multiset<byte>, r: byte)
    returns (w: World, now: Time)
    requires Roomy(cfg) && r != 0 && retries[r] >= 1 && budget > 0
    ensures Reaches(cfg, START, w) && Ready(w, n, budget, mode, retries, 0)
    ensures AtRound(FlushStep(w), Locals(budget, false, false, mode, []))
    ensures FlushStep(w).sess.bands == Bands([], [], [], [Request("", 1, r)]) && FlushStep(w).sess.nextSeq == n
    ensures FlushStep(w).log == w.log
  {
    var w1;
    w1, now := FirstRetry(cfg, mode, r, n);
    var b := Bands([], [], [], [Request("", 1, r)]);
    OneClaim(b.query[0], r, retries);
    w := Readying(cfg, w1, b, n, budget, mode, retries);
  }

  lemma OneClaim(c: Command, r: byte, retries: multiset<byte>)
    requires r != 0 && c.retrySeq == r && retries[r] >= 1
    ensures forall q: byte :: q != 0 ==> SumBands(Bands([], [], [], [c]), RetryClaim(q)) <= retries[q]
  {
    forall q: byte | q != 0 ensures SumBands(Bands([], [], [], [c]), RetryClaim(q)) <= retries[q] {
      ClaimsOfTwo([], [c], q);
    }
  }

  lemma TwoClaims(c: Command, d: Command, r: byte, retries: multiset<byte>)
    requires r != 0 && c.retrySeq == d.retrySeq == r && retries[r] >= 2
    ensures forall q: byte :: q != 0 ==> SumBands(Bands([d], [], [], [c]), RetryClaim(q)) <= retries[q]
  {
    forall q: byte | q != 0 ensures SumBands(Bands([d], [], [], [c]), RetryClaim(q)) <= retries[q] {
      ClaimsOfTwo([d], [c], q);
    }
  }

  lemma OnlyOne(c: Command)
    ensures PopNext(Bands([], [], [], [c]), false, false) == Some((c, EMPTY_BANDS))
  {
    assert [c][1..] == [];
  }

  /** A retry under a number the counter reaches with a frame to spare. */
  lemma RetryIsReached(cfg: Config, n: byte, budget: nat, mode: FrameMode, retries: multiset<byte>, r: byte, k: nat)
    requires Roomy(cfg) && r != 0 && retries[r] >= 1 && k >= 1 && Later(n, k) == r && Cost(k + 1, mode) <= budget
    ensures !NeverReused(cfg, n, budget, mode, retries)
  {
    var w, now := OneRetryReady(cfg, n, budget, mode, retries, r);
    var c := Request("", 1, r);
    RoomForSecond(cfg, c, Urgent("", 0, 0));
    assert r in Numbers(n, k) by { InNumbers(n, k, k); }
    OnlyOne(c);
    var v := RoundsThenCollides(cfg, FlushStep(w), Locals(budget, false, false, mode, []), k, c, EMPTY_BANDS, now);
    Refutes(cfg, w, v, n, budget, mode, retries);
  }

  lemma SecondRetry(cfg: Config, w: World, mode: FrameMode, r: byte, n: byte, now: Time) returns (w': World, now': Time)
    requires Roomy(cfg) && Quiet(w, Bands([], [], [], [Request("", 1, r)]), Before(r), mode)
    ensures Reaches(cfg, w, w') && Quiet(w', Bands([Urgent("", 1, r)], [], [], [Request("", 1, r)]), n, mode)
  {
    var b := Bands([], [], [], [Request("", 1, r)]);
    var u := Urgent("", 0, 0);
    RoomForSecond(cfg, Request("", 1, r), u);
    UrgentFirst(b);
    w', now' := QueueingRetry(cfg, w, b, Before(r), mode, u, r, n, now);
  }

  lemma TwoRetries(cfg: Config, mode: FrameMode, r: byte, n: byte) returns (w: World, now: Time)
    requires Roomy(cfg)
    ensures Reaches(cfg, START, w) && Quiet(w, Bands([Urgent("", 1, r)], [], [], [Request("", 1, r)]), n, mode)
  {
    var v, now1 := FirstRetry(cfg, mode, r, Before(r));
    w, now := SecondRetry(cfg, v, mode, r, n, now1);
    ReachesTrans(cfg, START, v, w);
  }

  lemma TwoRetriesReady(cfg: Config, n: byte, budget: nat, mode: FrameMode, retries: multiset<byte>, r: byte)
    returns (w: World, now: Time)
    requires Roomy(cfg) && r != 0 && retries[r] >= 2 && budget > 0
    ensures Reaches(cfg, START, w) && Ready(w, n, budget, mode, retries, 0)
    ensures AtRound(FlushStep(w), Locals(budget, false, false, mode, []))
    ensures FlushStep(w).sess.bands == Bands([Urgent("", 1, r)], [], [], [Request("", 1, r)])
    ensures FlushStep(w).log == w.log
  {
    var v;
    v, now := TwoRetries(cfg, mode, r, n);
    var c, d := Request("", 1, r), Urgent("", 1, r);
    TwoClaims(c, d, r, retries);
    w := Readying(cfg, v, Bands([d], [], [], [c]), n, budget, mode, retries);
  }

  /** Two retries under one number, and room for two frames. */
  lemma RetriesMeet(cfg: Config, n: byte, budget: nat, mode: FrameMode, retries: multiset<byte>, r: byte)
    requires Roomy(cfg) && r != 0 && retries[r] >= 2 && Cost(2, mode) <= budget
    ensures !NeverReused(cfg, n, budget, mode, retries)
  {
    var w, now := TwoRetriesReady(cfg, n, budget, mode, retries, r);
    var v := BothGoOut(cfg, FlushStep(w), Locals(budget, false, false, mode, []), r, now);
    Refutes(cfg, w, v, n, budget, mode, retries);
  }

  lemma BothGoOut(cfg: Config, w: World, l: Locals, r: byte, now: Time) returns (w': World)
    requires AtRound(w, l) && l.remaining >= Cost(2, l.frameMode) && r != 0
    requires w.sess.bands == Bands([Urgent("", 1, r)], [], [], [Request("", 1, r)])
    ensures Leads(cfg, w, w') && |w'.log| > |w.log| && w'.log[|w'.log| - 1].Overwrote?
  {
    var c, d := Request("", 1, r), Urgent("", 1, r);
    var b := Bands([], [], [], [c]);
    assert [d][1..] == [] && [c][1..] == [];
    assert Cost(2, l.frameMode) == MinFrame(l.frameMode) + MinFrame(l.frameMode);
    var v := Round(cfg, w, l, d, b, now);
    w' := Collides(cfg, w, v, v.pc.l, c, EMPTY_BANDS, now);
  }

  // ---- The exact condition ----

  /** Slots are never reused exactly when the numbers are apart. */
  lemma SlotsNeverReused(cfg: Config, n: byte, budget: nat, mode: FrameMode, retries: multiset<byte>)
    requires Roomy(cfg)
    ensures NeverReused(cfg, n, budget, mode, retries) <==> NumbersApart(n, budget, mode, retries, 0)
  {
    if NumbersApart(n, budget, mode, retries, 0) {
      ApartIsEnough(cfg, n, budget, mode, retries);
    } else {
      ApartIsNeeded(cfg, n, budget, mode, retries);
    }
  }

  lemma ApartIsEnough(cfg: Config, n: byte, budget: nat, mode: FrameMode, retries: multiset<byte>)
    requires NumbersApart(n, budget, mode, retries, 0)
    ensures NeverReused(cfg, n, budget, mode, retries)
  {
    forall past: seq<Step>, steps: seq<Step> |
      var w := After(cfg, START, past);
      && Possible(cfg, START, past) && Ready(w, n, budget, mode, retries, 0) && Possible(cfg, FlushStep(w), steps)
      && AllHarmless(cfg, steps, mode, 0)
      ensures var w := After(cfg, START, past); NoOverwrite(w, After(cfg, FlushStep(w), steps))
    {
      StartSound(cfg);
      InvAlways(cfg, START, past);
      FlushNeverOverwrites(cfg, After(cfg, START, past), steps, n, budget, mode, retries, 0);
    }
  }

  lemma WithinRun(r: byte, n: byte, count: nat) returns (k: nat)
    requires InRun(r, n, count)
    ensures 1 <= k <= count && Later(n, k) == r
  {
    k := if r > n then r - n else r - n + 256;
    StepsBetween(r, n, k);
  }

  lemma StepsBetween(r: byte, n: byte, k: nat)
    requires 1 <= k <= 256 && (k == r - n || k == r - n + 256)
    ensures Later(n, k) == r && (r - n - 1) % 256 == k - 1
  {
    LaterIs(n, k);
    Remainder(r, n + k);
    Remainder(k - 1, r - n - 1);
  }

  lemma Remainder(r: nat, x: int)
    requires r < 256 && (x == r || x == r + 256 || x == r - 256)
    ensures x % 256 == r
  {
  }

  /** Whenever the condition fails, some run from the start leads to a flush that reuses a slot. */
  lemma ApartIsNeeded(cfg: Config, n: byte, budget: nat, mode: FrameMode, retries: multiset<byte>)
    requires Roomy(cfg) && !NumbersApart(n, budget, mode, retries, 0)
    ensures !NeverReused(cfg, n, budget, mode, retries)
  {
    var frames := budget / MinFrame(mode);
    if frames > 256 {
      FramesFit(257, budget, mode);
      CounterComesRound(cfg, n, budget, mode, retries);
    } else {
      var r: byte :| r != 0 && frames >= 2 && Clashes(r, n, frames, retries[r], 0);
      RetryFails(cfg, n, budget, mode, retries, r);
    }
  }

  lemma RetryFails(cfg: Config, n: byte, budget: nat, mode: FrameMode, retries: multiset<byte>, r: byte)
    requires Roomy(cfg) && r != 0 && budget / MinFrame(mode) >= 2
    requires Clashes(r, n, budget / MinFrame(mode), retries[r], 0)
    ensures !NeverReused(cfg, n, budget, mode, retries)
  {
    if retries[r] >= 2 {
      FramesFit(2, budget, mode);
      RetriesMeet(cfg, n, budget, mode, retries, r);
    } else {
      var k := WithinRun(r, n, budget / MinFrame(mode) - 1);
      FramesFit(k + 1, budget, mode);
      RetryIsReached(cfg, n, budget, mode, retries, r, k);
    }
  }

  /** Without queued retries: exactly when the budget is for at most 256 frames. A single
      command needs to fit the queue. */
  lemma WithoutRetries(cfg: Config, n: byte, budget: nat, mode: FrameMode)
    requires RoomFor(cfg, 1)
    ensures NeverReused(cfg, n, budget, mode, multiset{}) <==> budget < 257 * MinFrame(mode)
  {
    if budget < 257 * MinFrame(mode) {
      ApartIsEnough(cfg, n, budget, mode, multiset{});
    } else {
      FramesFit(257, budget, mode);
      CounterComesRound(cfg, n, budget, mode, multiset{});
    }
  }
}
