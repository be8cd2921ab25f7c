/** internal/server/server.go, flushQueue, lines 558 to 688: the queue limits are checked when a
    command is enqueued, but not when a flush puts back what it had set aside. While it holds
    commands, others can take their place. */
module QueueGrowth {
  import opened Bytes
  import opened Results
  import opened Framing
  import opened Commands
  import opened PriorityBands
  import opened Policy
  import opened Sessions
  import opened Engine
  import opened Capacity
  import opened Runs
  import opened Rounds
  import opened Histories
  import opened Burning
  import opened SyncScenario
  import opened StuckSync

  /** Urgent commands only. */
  function Urgents(k: nat): Bands {
    Bands(Times(URGENT, k), [], [], [])
  }

  // ---- Setting aside ----

  /** w' is w after the scan set k urgent commands aside. */
  predicate AfterAside(w: World, w': World, k: nat) {
    && w.pc.Inner? && w.pc.left >= k && w.sess.bands.high == Times(URGENT, k)
    && w'.pc == Inner(w.pc.l.(skipped := w.pc.l.skipped + Times(URGENT, k)), w.pc.left - k)
    && w'.sess == w.sess.(bands := w.sess.bands.(high := []))
  }

  lemma TakeUrgent(cfg: Config, w: World, k: nat, now: Time) returns (w': World)
    requires w.pc.Inner? && w.pc.left > 0 && k > 0 && w.sess.bands.high == Times(URGENT, k)
    ensures Leads(cfg, w, w')
    ensures w' == w.(sess := w.sess.(bands := w.sess.bands.(high := Times(URGENT, k - 1))),
                     pc := Popped(w.pc.l, w.pc.left - 1, URGENT))
  {
    assert Times(URGENT, k)[0] == URGENT && Times(URGENT, k)[1..] == Times(URGENT, k - 1);
    LeadsStep(cfg, w, Run(now, true));
    w' := Tick(w, now, true);
  }

  lemma RefuseUrgent(cfg: Config, w: World, l: Locals, left: nat, now: Time) returns (w': World)
    requires w.pc == Popped(l, left, URGENT) && l.sync && !l.fw
    ensures Leads(cfg, w, w') && w' == w.(pc := Inner(l.(skipped := l.skipped + [URGENT]), left))
  {
    assert Examine(URGENT, l, now) == Refused;
    LeadsStep(cfg, w, Run(now, true));
    w' := Tick(w, now, true);
    assert w' == TickPopped(w, l, left, URGENT, now, Refused);
  }

  lemma AsideFurther(w: World, v: World, w': World, k: nat)
    requires k > 0 && w.pc.Inner? && w.pc.left >= k && w.sess.bands.high == Times(URGENT, k)
    requires v.pc == Inner(w.pc.l.(skipped := w.pc.l.skipped + [URGENT]), w.pc.left - 1)
    requires v.sess == w.sess.(bands := w.sess.bands.(high := Times(URGENT, k - 1))) && AfterAside(v, w', k - 1)
    ensures AfterAside(w, w', k)
  {
    assert w.pc.l.skipped + [URGENT] + Times(URGENT, k - 1) == w.pc.l.skipped + Times(URGENT, k);
  }

  lemma {:induction false} AsideMany(cfg: Config, w: World, k: nat, now: Time) returns (w': World)
    requires w.pc.Inner? && w.pc.left >= k && w.pc.l.sync && !w.pc.l.fw && w.sess.bands.high == Times(URGENT, k)
    ensures Leads(cfg, w, w') && AfterAside(w, w', k)
    decreases k
  {
    if k == 0 {
      assert w.pc.l.skipped + [] == w.pc.l.skipped;
      LeadsNowhere(cfg, w);
      w' := w;
    } else {
      var v := AsideOne(cfg, w, k, now);
      w' := AsideMany(cfg, v, k - 1, now);
      LeadsTrans(cfg, w, v, w');
      AsideFurther(w, v, w', k);
    }
  }

  lemma AsideOne(cfg: Config, w: World, k: nat, now: Time) returns (w': World)
    requires w.pc.Inner? && w.pc.left > 0 && w.pc.l.sync && !w.pc.l.fw && k > 0 && w.sess.bands.high == Times(URGENT, k)
    ensures Leads(cfg, w, w')
    ensures w'.pc == Inner(w.pc.l.(skipped := w.pc.l.skipped + [URGENT]), w.pc.left - 1)
    ensures w'.sess == w.sess.(bands := w.sess.bands.(high := Times(URGENT, k - 1)))
  {
    var v := TakeUrgent(cfg, w, k, now);
    w' := RefuseUrgent(cfg, v, w.pc.l, w.pc.left - 1, now);
    LeadsTrans(cfg, w, v, w');
  }

  // ---- One flush ----

  /** A flush in sync mode begins to scan the queue. */
  lemma ScanInSync(cfg: Config, w: World, b: Bands, n: byte, mode: FrameMode) returns (w': World)
    requires InSync(w, b, n, mode) && Timeless(b) && Length(b) > 0
    ensures Reaches(cfg, w, w') && At(w', w.sess, Inner(Locals(Budget(w.sess), false, true, mode, []), Length(b)))
  {
    ReachesStep(cfg, w, Flush);
    var v := FlushStep(w);
    NothingDrained(b, 0);
    w' := StartScan(cfg, v, v.pc.l, 0);
    ContinuesReaches(cfg, v, w');
    ReachesTrans(cfg, w, v, w');
  }

  /** The end of a scan that sent nothing: what was set aside goes back. */
  lemma NothingSent(cfg: Config, w: World, l: Locals, now: Time) returns (w': World)
    requires w.pc == Inner(l, 0)
    ensures Leads(cfg, w, w') && At(w', w.sess.(bands := PushAll(w.sess.bands, l.skipped)), Idle)
  {
    LeadsStep(cfg, w, Run(now, true));
    var v1 := Tick(w, now, true);
    var v2 := GivingBackAll(cfg, v1, l, false, now);
    LeadsTrans(cfg, w, v1, v2);
    LeadsOn(cfg, w, v2, now);
    w' := Tick(v2, now, true);
  }

  lemma UrgentsGoBack(b: Bands, k: nat)
    ensures PushAll(b, Times(URGENT, k)) == b.(high := b.high + Times(URGENT, k))
  {
    TimesOnly(URGENT, k);
    PushAllOneBand(b, Times(URGENT, k), 0);
  }

  /** While the flush holds all k, one more command of any kind comes in. */
  lemma HoldAndQueue(cfg: Config, w: World, k: nat, c: Command, n: byte, mode: FrameMode) returns (w': World)
    requires InSync(w, Urgents(k), n, mode) && k > 0
    requires c == Core(c) && Normalize(c) == Some(c) && c.dedupKey == "" && Fits(cfg, EMPTY_BANDS, c)
    ensures Reaches(cfg, w, w') && InSync(w', PushAll(Push(EMPTY_BANDS, c), Times(URGENT, k)), n, mode)
  {
    TimesOnly(URGENT, k);
    var w1 := ScanInSync(cfg, w, Urgents(k), n, mode);
    var w2 := AsideMany(cfg, w1, k, 0);
    LeadsReaches(cfg, w1, w2);
    ReachesTrans(cfg, w, w1, w2);
    assert [] + Times(URGENT, k) == Times(URGENT, k);
    var w3 := TakingIn(cfg, w2, c, 0);
    ContinuesReaches(cfg, w2, w3);
    ReachesTrans(cfg, w, w2, w3);
    w' := NothingSent(cfg, w3, w3.pc.l, 0);
    LeadsReaches(cfg, w3, w');
    ReachesTrans(cfg, w, w3, w');
  }

  lemma UrgentFits(cfg: Config)
    requires RoomForSync(cfg)
    ensures Fits(cfg, EMPTY_BANDS, URGENT) && URGENT == Core(URGENT) && Normalize(URGENT) == Some(URGENT)
  {
    SyncFits(cfg, URGENT);
  }

  lemma GrowByOne(cfg: Config, w: World, k: nat, n: byte, mode: FrameMode) returns (w': World)
    requires InSync(w, Urgents(k), n, mode) && RoomForSync(cfg)
    ensures Reaches(cfg, w, w') && InSync(w', Urgents(k + 1), n, mode)
  {
    UrgentFits(cfg);
    if k == 0 {
      w' := TakingOne(cfg, w, URGENT);
      assert [] + [URGENT] == Times(URGENT, 1);
    } else {
      w' := HoldAndQueue(cfg, w, k, URGENT, n, mode);
      UrgentsGoBack(Push(EMPTY_BANDS, URGENT), k);
      assert [] + [URGENT] + Times(URGENT, k) == Times(URGENT, k + 1);
    }
  }

  lemma {:induction false} Grow(cfg: Config, w: World, k: nat, n: byte, mode: FrameMode) returns (w': World)
    requires InSync(w, EMPTY_BANDS, n, mode) && RoomForSync(cfg)
    ensures Reaches(cfg, w, w') && InSync(w', Urgents(k), n, mode)
    decreases k
  {
    if k == 0 {
      w' := TellingSame(cfg, w);
    } else {
      var v := Grow(cfg, w, k - 1, n, mode);
      w' := GrowByOne(cfg, v, k - 1, n, mode);
      ReachesTrans(cfg, w, v, w');
    }
  }

  lemma QueuedOccupies(w: World)
    requires w.pc == Idle
    ensures Occupancy(w) >= Length(w.sess.bands)
  {
    UnitBands(w.sess.bands);
    UnitTable(w.sess.inFlight, 256);
  }

  /** Whatever the limits, as long as a single sync command fits: for every k some run from the
      start leaves k commands in the queue. */
  lemma OutgrowsEveryLimit(cfg: Config, k: nat, n: byte, mode: FrameMode) returns (w: World)
    requires RoomForSync(cfg)
    ensures Reaches(cfg, START, w) && InSync(w, Urgents(k), n, mode)
    ensures Length(w.sess.bands) == k && Occupancy(w) >= k
  {
    var v := StuckIsReached(cfg, n, mode);
    w := Grow(cfg, v, k, n, mode);
    ReachesTrans(cfg, START, v, w);
    QueuedOccupies(w);
  }

  // ---- Back to normal ----

  function UrgentsAndSync(k: nat): Bands {
    Bands(Times(URGENT, k), [], [HOLIDAYS], [])
  }

  /** Another sync command comes in behind them. */
  lemma SyncBehind(cfg: Config, w: World, k: nat, n: byte, mode: FrameMode) returns (w': World)
    requires InSync(w, Urgents(k), n, mode) && k > 0 && RoomForSync(cfg)
    ensures Reaches(cfg, w, w') && InSync(w', UrgentsAndSync(k), n, mode)
  {
    SyncFits(cfg, HOLIDAYS);
    w' := HoldAndQueue(cfg, w, k, HOLIDAYS, n, mode);
    UrgentsGoBack(Push(EMPTY_BANDS, HOLIDAYS), k);
    assert [] + [HOLIDAYS] == [HOLIDAYS] && [] + Times(URGENT, k) == Times(URGENT, k);
  }

  /** The flush that will send it has set the others aside. */
  lemma SyncReached(cfg: Config, w: World, k: nat, n: byte, mode: FrameMode) returns (w': World)
    requires InSync(w, UrgentsAndSync(k), n, mode) && Budget(w.sess) == SyncFrame(mode)
    ensures Reaches(cfg, w, w')
    ensures At(w', w.sess.(bands := EMPTY_BANDS),
               Popped(Locals(SyncFrame(mode), false, true, mode, Times(URGENT, k)), 0, HOLIDAYS))
  {
    TimesOnly(URGENT, k);
    var w1 := ScanInSync(cfg, w, UrgentsAndSync(k), n, mode);
    var w2 := AsideMany(cfg, w1, k, 0);
    LeadsReaches(cfg, w1, w2);
    ReachesTrans(cfg, w, w1, w2);
    assert [] + Times(URGENT, k) == Times(URGENT, k);
    w' := TakeSync(cfg, w2, w2.pc.l);
    LeadsReaches(cfg, w2, w');
    ReachesTrans(cfg, w, w2, w');
  }

  lemma TakeSync(cfg: Config, w: World, l: Locals) returns (w': World)
    requires w.pc == Inner(l, 1) && l.sync && !l.fw && w.sess.bands == Bands([], [], [HOLIDAYS], [])
    ensures Leads(cfg, w, w') && At(w', w.sess.(bands := EMPTY_BANDS), Popped(l, 0, HOLIDAYS))
  {
    assert [HOLIDAYS][1..] == [];
    LeadsStep(cfg, w, Run(0, true));
    w' := Tick(w, 0, true);
  }

  /** With nothing more to sync the flush leaves the mode, and it has used up its budget. */
  lemma LeavingSyncMode(cfg: Config, w: World, l: Locals, now: Time) returns (w': World)
    requires w.pc == ClearSync(l) && l.sync && !l.fw && l.remaining == 0 && w.sess.bands.sync == []
    ensures Leads(cfg, w, w') && At(w', w.sess.(syncMode := false), Idle)
  {
    var v := SwitchingSyncOff(cfg, w, l, now);
    w' := NothingLeftToDo(cfg, v, l.(sync := false), now);
    LeadsTrans(cfg, w, v, w');
  }

  lemma SwitchingSyncOff(cfg: Config, w: World, l: Locals, now: Time) returns (w': World)
    requires w.pc == ClearSync(l) && l.sync && w.sess.bands.sync == []
    ensures Leads(cfg, w, w') && At(w', w.sess.(syncMode := false), ClearFw(l.(sync := false)))
  {
    LeadsStep(cfg, w, Run(now, true));
    var v := Tick(w, now, true);
    LeadsOn(cfg, w, v, now);
    w' := Tick(v, now, true);
  }

  lemma NothingLeftToDo(cfg: Config, w: World, l: Locals, now: Time) returns (w': World)
    requires w.pc == ClearFw(l) && !l.fw && l.remaining == 0
    ensures Leads(cfg, w, w') && At(w', w.sess, Idle)
  {
    LeadsStep(cfg, w, Run(now, true));
    var v := Tick(w, now, true);
    LeadsOn(cfg, w, v, now);
    w' := Tick(v, now, true);
  }

  lemma SyncDone(cfg: Config, w: World, k: nat, n: byte, mode: FrameMode) returns (w': World)
    requires At(w, w.sess, Popped(Locals(SyncFrame(mode), false, true, mode, Times(URGENT, k)), 0, HOLIDAYS))
    requires w.sess.bands == EMPTY_BANDS && w.sess.inFlight == map[] && w.sess.nextSeq == n
    ensures Reaches(cfg, w, w') && w'.pc == Idle
    ensures w'.sess == w.sess.(bands := Urgents(k), nextSeq := NextSeq(n), syncMode := false,
                               inFlight := map[NextSeq(n) := Entry(NextSeq(n), HOLIDAYS, 0, 1)])
  {
    var v := SyncGoesOut(cfg, w, w.pc.l, 0, 0);
    UrgentsGoBack(EMPTY_BANDS, k);
    assert [] + Times(URGENT, k) == Times(URGENT, k) && HOLIDAYS.(retrySeq := 0) == HOLIDAYS;
    w' := LeavingSyncMode(cfg, v, v.pc.l, 0);
    LeadsTrans(cfg, w, v, w');
    LeadsReaches(cfg, w, w');
  }

  /** It goes out and is acknowledged: no mode is set, and the urgent commands still wait. */
  lemma BackToNormal(cfg: Config, w: World, k: nat, n: byte, mode: FrameMode) returns (w': World)
    requires InSync(w, UrgentsAndSync(k), n, mode)
    ensures Reaches(cfg, w, w') && Quiet(w', Urgents(k), NextSeq(n), mode)
  {
    var w1 := TellingFree(cfg, w, SyncFrame(mode));
    var w2 := SyncReached(cfg, w1, k, n, mode);
    ReachesTrans(cfg, w, w1, w2);
    var w3 := SyncDone(cfg, w2, k, n, mode);
    ReachesTrans(cfg, w, w2, w3);
    w' := Acknowledging(cfg, w3, NextSeq(n));
    ReachesTrans(cfg, w, w3, w');
    assert w'.sess.inFlight == map[];
  }

  /** For every k some run from the start leaves k urgent commands in the queue, no mode set, and
      the counter where one likes. */
  lemma ManyUrgent(cfg: Config, k: nat, n: byte, mode: FrameMode) returns (w: World)
    requires RoomForSync(cfg) && k > 0
    ensures Reaches(cfg, START, w) && Quiet(w, Urgents(k), n, mode)
  {
    var w1 := OutgrowsEveryLimit(cfg, k, Before(n), mode);
    var w2 := SyncBehind(cfg, w1, k, Before(n), mode);
    ReachesTrans(cfg, START, w1, w2);
    w := BackToNormal(cfg, w2, k, Before(n), mode);
    ReachesTrans(cfg, START, w2, w);
  }

}
