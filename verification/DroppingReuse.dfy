/** internal/session/manager.go, lines 293 to 319, under a running scan of flushQueue: a queue
    that drops its oldest commands to make room lets one scan hand out any number of sequence
    numbers. The scan counts the commands that were queued when it began, and goes on to what
    came in their place. */
module DroppingReuse {
  import opened Bytes
  import opened Results
  import opened Framing
  import opened Sums
  import opened Commands
  import opened PriorityBands
  import opened Policy
  import opened Sessions
  import opened Overflow
  import opened Engine
  import opened OversizedCommands
  import opened SequenceNumbers
  import opened SlotSafety
  import opened Runs
  import opened Rounds
  import opened SlotReuse
  import opened OneAtATime
  import opened Burning
  import opened OversizedReuse
  import opened SyncScenario
  import opened StuckSync
  import opened QueueGrowth

  /** h urgent commands, and i times the same oversized one. */
  function Mixed(c: Command, h: nat, i: nat): Bands {
    Bands(Times(URGENT, h), [], [], Times(c, i))
  }

  // ---- What is dropped ----

  lemma OldestIsFirst(s: seq<Command>)
    requires s != [] && forall i :: 0 <= i < |s| ==> s[i].createdAt == 0
    ensures Oldest(s) == 0
  {
  }

  lemma DropFromMixed(c: Command, h: nat, i: nat)
    requires h + i > 0 && c.createdAt == 0
    ensures DropOldest(Mixed(c, h, i)) == if h > 0 then Mixed(c, h - 1, i) else Mixed(c, 0, i - 1)
  {
    TimesOnly(URGENT, h);
    TimesOnly(c, i);
    OldestIsFirst(Snapshot(Mixed(c, h, i)));
    if h > 0 {
      assert RemoveAt(Times(URGENT, h), 0) == Times(URGENT, h - 1);
    } else {
      assert RemoveAt(Times(c, i), 0) == Times(c, i - 1);
    }
  }

  /** Urgent commands are dropped before oversized ones. */
  lemma {:induction false} RoomMade(cfg: Config, c: Command, h: nat, i: nat, d: Command) returns (h': nat, i': nat)
    requires c.createdAt == 0
    ensures MakeRoom(cfg, Mixed(c, h, i), d).0 == Mixed(c, h', i')
    ensures h' <= h && i' <= i && (h' == 0 || i' == i)
    decreases h + i
  {
    h', i' := h, i;
    if !Fits(cfg, Mixed(c, h, i), d) && h + i > 0 {
      var h1, i1 := OneDropped(cfg, c, h, i, d);
      h', i' := RoomMade(cfg, c, h1, i1, d);
    } else {
      NoDrop(cfg, Mixed(c, h, i), d);
    }
  }

  lemma OneDropped(cfg: Config, c: Command, h: nat, i: nat, d: Command) returns (h': nat, i': nat)
    requires c.createdAt == 0 && !Fits(cfg, Mixed(c, h, i), d) && h + i > 0
    ensures MakeRoom(cfg, Mixed(c, h, i), d).0 == MakeRoom(cfg, Mixed(c, h', i'), d).0
    ensures if h > 0 then h' == h - 1 && i' == i else h' == 0 && i' == i - 1
  {
    DropFromMixed(c, h, i);
    DropGoesOn(cfg, Mixed(c, h, i), d);
    h', i' := if h > 0 then h - 1 else 0, if h > 0 then i else i - 1;
  }

  lemma DropGoesOn(cfg: Config, b: Bands, d: Command)
    requires !Fits(cfg, b, d) && Length(b) > 0
    ensures MakeRoom(cfg, b, d).0 == MakeRoom(cfg, DropOldest(b), d).0
  {
  }

  lemma NoDrop(cfg: Config, b: Bands, d: Command)
    requires Fits(cfg, b, d) || Length(b) == 0
    ensures MakeRoom(cfg, b, d).0 == b
  {
  }

  /** A command that fits an empty queue is taken in, whatever has to go. */
  lemma ForcingIn(cfg: Config, w: World, d: Command, now: Time) returns (w': World)
    requires cfg.overflow == DropOldestFirst && FitsIn(cfg, 0, 0, d)
    requires d == Core(d) && Normalize(d) == Some(d) && d.dedupKey == ""
    ensures Continues(cfg, w, w')
    ensures At(w', w.sess.(bands := Push(MakeRoom(cfg, w.sess.bands, d).0, d)), w.pc)
    ensures WithinLimits(cfg, w'.sess.bands)
  {
    AcceptedIffFitsAlone(cfg, w.sess.bands, d);
    LimitsHoldAfterAdmission(cfg, w.sess.bands, d);
    ContinuesStep(cfg, w, Enqueue(d, now));
    w' := EnqueueStep(cfg, w, d, now).0;
  }

  lemma ForcingOverlong(cfg: Config, w: World, mode: FrameMode, c: Command, h: nat, i: nat, now: Time)
    returns (w': World, h': nat, i': nat)
    requires cfg.overflow == DropOldestFirst && FitsIn(cfg, 0, 0, c) && Overlong(c, mode)
    requires w.sess.bands == Mixed(c, h, i)
    ensures Continues(cfg, w, w') && At(w', w.sess.(bands := Mixed(c, h', i')), w.pc) && WithinLimits(cfg, w'.sess.bands)
    ensures 1 <= i' && (h' > 0 ==> i' == i + 1)
  {
    var i1;
    h', i1 := RoomMade(cfg, c, h, i, c);
    w' := ForcingIn(cfg, w, c, now);
    TimesMore(c, i1);
    i' := i1 + 1;
  }

  lemma MixedCount(c: Command, h: nat, i: nat, mode: FrameMode)
    requires Overlong(c, mode)
    ensures OversizedIn(Mixed(c, h, i), mode) == i
  {
    CountOfTimes(URGENT, h, mode);
    CountOfTimes(c, i, mode);
  }

  /** Enough oversized commands push everything else out of the queue. */
  lemma {:induction false} PushingOut(cfg: Config, w: World, mode: FrameMode, c: Command, h: nat, i: nat, cap: nat, now: Time)
    returns (w': World, i': nat)
    requires cfg.overflow == DropOldestFirst && FitsIn(cfg, 0, 0, c) && Overlong(c, mode) && AtMost(cfg, mode, cap)
    requires w.sess.bands == Mixed(c, h, i)
    ensures Continues(cfg, w, w') && At(w', w.sess.(bands := Mixed(c, 0, i')), w.pc)
    ensures i' >= 1 && WithinLimits(cfg, w'.sess.bands)
    decreases cap - i
  {
    var h1;
    w', h1, i' := ForcingOverlong(cfg, w, mode, c, h, i, now);
    if h1 > 0 {
      LimitsBound(cfg, w'.sess.bands, mode, cap);
      MixedCount(c, h1, i', mode);
      var v := w';
      w', i' := PushingOut(cfg, v, mode, c, h1, i', cap, now);
      ContinuesTrans(cfg, w, v, w');
    }
  }

  // ---- One long scan ----

  lemma RoomForLast(cfg: Config, c: Command, i: nat)
    requires i >= 1 && WithinLimits(cfg, Mixed(c, 0, i))
    ensures c.priority == Query ==> Refillable(cfg, c, Mixed(c, 0, i - 1), Mixed(c, 0, i))
  {
    TimesMore(c, i - 1);
    assert Times(c, i)[1..] == Times(c, i - 1);
    SumPop(Times(c, i), Size());
  }

  /** The urgent command that now comes in is next. */
  lemma UrgentNext(cfg: Config, w: World, c: Command, i: nat, now: Time) returns (w': World)
    requires w.pc.Inner? && w.pc.left > 0 && !w.pc.l.fw && !w.pc.l.sync && c.createdAt == 0
    requires cfg.overflow == DropOldestFirst && FitsIn(cfg, 0, 0, URGENT) && w.sess.bands == Mixed(c, 0, i)
    ensures Continues(cfg, w, w') && w'.sess == w.sess.(bands := w'.sess.bands)
    ensures w'.pc == Popped(w.pc.l, w.pc.left - 1, URGENT)
  {
    var h, i' := RoomMade(cfg, c, 0, i, URGENT);
    var v := ForcingIn(cfg, w, URGENT, now);
    assert [] + [URGENT] == Times(URGENT, 1);
    w' := TakeUrgent(cfg, v, 1, now);
    LeadsContinues(cfg, v, w');
    ContinuesTrans(cfg, w, v, w');
  }

  /** 255 numbers go to oversized commands, and the 256th to an urgent one. */
  lemma OneLongScan(cfg: Config, w: World, c: Command, cap: nat, now: Time) returns (w': World)
    requires w.pc.Inner? && w.pc.left >= 256 && !w.pc.l.fw && !w.pc.l.sync && w.sess.bands == Urgents(w.pc.left)
    requires cfg.overflow == DropOldestFirst && FitsIn(cfg, 0, 0, c) && FitsIn(cfg, 0, 0, URGENT)
    requires Overlong(c, w.pc.l.frameMode) && AtMost(cfg, w.pc.l.frameMode, cap)
    ensures Continues(cfg, w, w') && w'.pc == Popped(w.pc.l, w.pc.left - 256, URGENT)
    ensures w'.sess == w.sess.(bands := w'.sess.bands, nextSeq := Later(w.sess.nextSeq, 255))
  {
    var mode := w.pc.l.frameMode;
    var w1, i1 := PushingOut(cfg, w, mode, c, w.pc.left, 0, cap, now);
    RoomForLast(cfg, c, i1);
    var w2 := BurnOn(cfg, w1, c, Mixed(c, 0, i1 - 1), 255, now);
    ContinuesTrans(cfg, w, w1, w2);
    w' := UrgentNext(cfg, w2, c, i1, now);
    ContinuesTrans(cfg, w, w2, w');
  }

  // ---- The exact condition ----

  lemma UrgentsAreSmall(k: nat)
    ensures AllSmall(Urgents(k)) && Timeless(Urgents(k))
    ensures forall r: byte :: SumBands(Urgents(k), RetryClaim(r)) == 0
  {
    TimesOnly(URGENT, k);
    forall r: byte ensures SumBands(Urgents(k), RetryClaim(r)) == 0 { SumZero(Times(URGENT, k), RetryClaim(r)); }
  }

  /** A flush of 257 urgent commands: the first goes out, and the scan for the second begins. */
  lemma FirstOfMany(cfg: Config, w: World, l: Locals, now: Time) returns (w': World)
    requires AtRound(w, l) && l.remaining >= Cost(2, l.frameMode) && w.sess.bands == Urgents(257)
    ensures Continues(cfg, w, w') && w'.sess.bands == Urgents(256)
    ensures w'.pc == Inner(l.(remaining := l.remaining - MinFrame(l.frameMode)), 256)
    ensures w'.sess.nextSeq == NextSeq(w.sess.nextSeq) && w'.sess.nextSeq in w'.sess.inFlight
  {
    assert Times(URGENT, 257)[1..] == Times(URGENT, 256);
    assert Cost(2, l.frameMode) == MinFrame(l.frameMode) + MinFrame(l.frameMode);
    var v := Round(cfg, w, l, URGENT, Urgents(256), now);
    LeadsContinues(cfg, w, v);
    UrgentsAreSmall(256);
    NothingDrained(Urgents(256), now);
    w' := StartScan(cfg, v, v.pc.l, now);
    ContinuesTrans(cfg, w, v, w');
  }

  lemma Wraps(x: byte)
    ensures NextSeq(Later(x, 255)) == x
  {
    LaterIs(x, 255);
  }

  lemma SecondCollides(cfg: Config, w: World, l: Locals, x: byte, now: Time) returns (w': World)
    requires w.pc == Popped(l, 0, URGENT) && !l.fw && !l.sync && l.remaining >= MinFrame(l.frameMode)
    requires w.sess.nextSeq == Later(x, 255) && x in w.sess.inFlight
    ensures Continues(cfg, w, w') && |w'.log| > |w.log| && w'.log[|w'.log| - 1].Overwrote?
  {
    SmallPasses(URGENT, l, now);
    Wraps(x);
    w' := Sending(cfg, w, l, 0, URGENT, now);
    LeadsContinues(cfg, w, w');
  }

  lemma TwoFramesCollide(cfg: Config, w: World, l: Locals, c: Command, cap: nat, now: Time) returns (w': World)
    requires AtRound(w, l) && l.remaining >= Cost(2, l.frameMode) && w.sess.bands == Urgents(257)
    requires cfg.overflow == DropOldestFirst && FitsIn(cfg, 0, 0, c) && FitsIn(cfg, 0, 0, URGENT)
    requires Overlong(c, l.frameMode) && AtMost(cfg, l.frameMode, cap)
    ensures Continues(cfg, w, w') && |w'.log| > |w.log| && w'.log[|w'.log| - 1].Overwrote?
  {
    var v1 := FirstOfMany(cfg, w, l, now);
    assert Cost(2, l.frameMode) == MinFrame(l.frameMode) + MinFrame(l.frameMode);
    var v2 := OneLongScan(cfg, v1, c, cap, now);
    ContinuesTrans(cfg, w, v1, v2);
    w' := SecondCollides(cfg, v2, v1.pc.l, v1.sess.nextSeq, now);
    ContinuesTrans(cfg, w, v2, w');
    ContinuesGrow(cfg, w, v2);
  }

  /** An oversized command fits an otherwise empty queue. */
  predicate RoomForOversized(cfg: Config, mode: FrameMode) {
    cfg.maxQueueBytes > 0 ==> 12 + LongestPayload(mode) <= cfg.maxQueueBytes
  }

  lemma RoomMeans(cfg: Config, mode: FrameMode, c: Command)
    requires RoomForOversized(cfg, mode) && Overlong(c, mode)
    ensures FitsIn(cfg, 0, 0, c) && FitsIn(cfg, 0, 0, URGENT) && RoomForSync(cfg)
  {
  }

  /** With a limit of any kind, oversized commands push the others out. */
  lemma DroppingReusesWith(cfg: Config, n: byte, budget: nat, mode: FrameMode, retries: multiset<byte>, m: nat, cap: nat)
    requires cfg.overflow == DropOldestFirst && RoomForOversized(cfg, mode) && AtMost(cfg, mode, cap)
    requires Cost(2, mode) <= budget
    ensures !NeverReusedAtAll(cfg, n, budget, mode, retries, m)
  {
    var c := OverlongExists(mode);
    RoomMeans(cfg, mode, c);
    UrgentsAreSmall(257);
    assert Cost(2, mode) == MinFrame(mode) + MinFrame(mode);
    var w1 := ManyUrgent(cfg, 257, n, mode);
    var w := Readying(cfg, w1, Urgents(257), n, budget, mode, retries);
    var v := TwoFramesCollide(cfg, FlushStep(w), Locals(budget, false, false, mode, []), c, cap, 0);
    RefutesAtAll(cfg, w, v, n, budget, mode, retries, m);
  }

  lemma CapExists(cfg: Config, mode: FrameMode) returns (cap: nat)
    requires cfg.maxQueueDepth > 0 || cfg.maxQueueBytes > 0
    ensures AtMost(cfg, mode, cap)
  {
    cap := if cfg.maxQueueDepth > 0 then cfg.maxQueueDepth else cfg.maxQueueBytes;
  }

  /** Room for two frames is enough. */
  lemma DroppingReuses(cfg: Config, n: byte, budget: nat, mode: FrameMode, retries: multiset<byte>, m: nat)
    requires cfg.overflow == DropOldestFirst && RoomForOversized(cfg, mode) && Cost(2, mode) <= budget
    ensures !NeverReusedAtAll(cfg, n, budget, mode, retries, m)
  {
    if cfg.maxQueueDepth > 0 || cfg.maxQueueBytes > 0 {
      var cap := CapExists(cfg, mode);
      DroppingReusesWith(cfg, n, budget, mode, retries, m, cap);
    } else {
      FramesFit(2, budget, mode);
      AtLeast256(budget / MinFrame(mode));
      OversizedReuseSlots(cfg, n, budget, mode, retries, m, 255);
    }
  }

  lemma AtLeast256(frames: nat)
    requires frames >= 2
    ensures (frames - 1) * (255 + 1) >= 256
  {
  }

  /** Under drop_oldest, with room in the queue for a single oversized command: slots are never
      reused exactly when the budget has no room for two frames. */
  lemma DroppingExactlyWhen(cfg: Config, n: byte, budget: nat, mode: FrameMode, retries: multiset<byte>, m: nat)
    requires cfg.overflow == DropOldestFirst && RoomForOversized(cfg, mode)
    ensures NeverReusedAtAll(cfg, n, budget, mode, retries, m) <==> budget < 2 * MinFrame(mode)
  {
    if budget < 2 * MinFrame(mode) {
      OneFrameIsSafe(cfg, n, budget, mode, retries, m);
    } else {
      assert Cost(2, mode) == MinFrame(mode) + MinFrame(mode);
      DroppingReuses(cfg, n, budget, mode, retries, m);
    }
  }

  lemma OneFrameIsSafe(cfg: Config, n: byte, budget: nat, mode: FrameMode, retries: multiset<byte>, m: nat)
    requires budget < 2 * MinFrame(mode)
    ensures NeverReusedAtAll(cfg, n, budget, mode, retries, m)
  {
    forall past: seq<Step>, steps: seq<Step> |
      var w := After(cfg, START, past);
      && Possible(cfg, START, past) && Ready(w, n, budget, mode, retries, m)
      && Possible(cfg, FlushStep(w), steps) && NoFlush(steps)
      ensures var w := After(cfg, START, past); NoOverwrite(w, After(cfg, FlushStep(w), steps))
    {
      OneFrameOverwritesNothing(cfg, After(cfg, START, past), steps);
    }
  }
}
