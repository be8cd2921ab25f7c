/** internal/server/server.go, flushQueue, lines 547 to 698: a session that is left in the sync
    mode with nothing to sync. Its requests are held up until something urgent or another sync
    command comes, and what a flush sets aside meanwhile makes its queue outgrow every limit. */
module StuckSync {
  import opened Bytes
  import opened Results
  import opened Framing
  import opened Sums
  import opened Commands
  import opened PriorityBands
  import opened Policy
  import opened Sessions
  import opened Engine
  import opened Events
  import opened Persistence
  import opened Invariants
  import opened WholeFlush
  import opened Runs
  import opened Rounds
  import opened Histories
  import opened SyncScenario
  import opened Starvation

  /** Room for a single sync command. */
  predicate RoomForSync(cfg: Config) {
    (cfg.maxQueueDepth > 0 ==> 1 <= cfg.maxQueueDepth) && (cfg.maxQueueBytes > 0 ==> 20 <= cfg.maxQueueBytes)
  }

  /** Connected, between flushes, nothing in flight, in sync mode. */
  predicate InSync(w: World, b: Bands, n: byte, mode: FrameMode) {
    && w.pc == Idle && w.sess.bands == b && w.sess.inFlight == map[] && w.sess.nextSeq == n
    && w.sess.online && w.sess.frameMode == mode && !w.sess.fwMode && w.sess.syncMode
  }

  // ---- How a session gets there ----

  /** A sync command that expires after a nanosecond. */
  const BRIEF := HOLIDAYS.(messageId := "t", ttl := 1)

  lemma SyncFits(cfg: Config, c: Command)
    requires RoomForSync(cfg) && |c.payload| <= 9
    ensures Fits(cfg, EMPTY_BANDS, c)
  {
  }

  /** A flush starts with exactly the budget for the sync command that waits. */
  lemma SyncQueued(cfg: Config, w: World, n: byte, mode: FrameMode) returns (w': World)
    requires RoomForSync(cfg) && Quiet(w, EMPTY_BANDS, n, mode)
    ensures Reaches(cfg, w, w') && w'.pc == Outer(Locals(SyncFrame(mode), false, false, mode, []))
    ensures w'.sess == w.sess.(bands := Bands([], [], [HOLIDAYS], []), bufferFree := SyncFrame(mode))
  {
    SyncFits(cfg, HOLIDAYS);
    var w1 := TakingOne(cfg, w, HOLIDAYS);
    assert [] + [HOLIDAYS] == [HOLIDAYS];
    var w2 := TellingFree(cfg, w1, SyncFrame(mode));
    ReachesTrans(cfg, w, w1, w2);
    ReachesOn(cfg, w, w2, Flush);
    w' := FlushStep(w2);
  }

  /** While it is in hand, another one is queued. */
  lemma SyncPopped(cfg: Config, w: World, l: Locals) returns (w': World)
    requires RoomForSync(cfg) && w.pc == Outer(l) && l.remaining > 0 && !l.fw && !l.sync
    requires w.sess.bands == Bands([], [], [HOLIDAYS], [])
    ensures Continues(cfg, w, w') && At(w', w.sess.(bands := Bands([], [], [BRIEF], [])), Popped(l, 0, HOLIDAYS))
  {
    NothingDrained(w.sess.bands, 0);
    assert [HOLIDAYS][1..] == [];
    var v := Popping(cfg, w, l, HOLIDAYS, EMPTY_BANDS, 0);
    LeadsContinues(cfg, w, v);
    w' := BriefQueued(cfg, v);
    ContinuesTrans(cfg, w, v, w');
  }

  lemma BriefQueued(cfg: Config, w: World) returns (w': World)
    requires RoomForSync(cfg) && w.sess.bands == EMPTY_BANDS
    ensures Continues(cfg, w, w') && At(w', w.sess.(bands := Bands([], [], [BRIEF], [])), w.pc)
  {
    SyncFits(cfg, BRIEF);
    w' := TakingIn(cfg, w, BRIEF, 0);
    assert [] + [BRIEF] == [BRIEF];
  }

  /** So the mode stays on. */
  lemma SyncEntered(cfg: Config, w: World, l: Locals) returns (w': World)
    requires RoomForSync(cfg) && w.pc == Outer(l) && l == Locals(SyncFrame(l.frameMode), false, false, l.frameMode, [])
    requires w.sess.bands == Bands([], [], [HOLIDAYS], []) && w.sess.inFlight == map[]
    ensures Continues(cfg, w, w') && w'.pc == Outer(Locals(0, false, true, l.frameMode, []))
    ensures var n := NextSeq(w.sess.nextSeq);
            w'.sess == w.sess.(bands := Bands([], [], [BRIEF], []), nextSeq := n, syncMode := true,
                               inFlight := map[n := Entry(n, HOLIDAYS, 0, 1)])
  {
    var v := SyncPopped(cfg, w, l);
    assert PushAll(v.sess.bands, []) == v.sess.bands;
    w' := SyncSend(cfg, v, l, 0, 0);
    LeadsContinues(cfg, v, w');
    ContinuesTrans(cfg, w, v, w');
    assert HOLIDAYS.(retrySeq := 0) == HOLIDAYS;
  }

  lemma BriefDrained(now: Time)
    requires now > 1
    ensures Unexpired(Bands([], [], [BRIEF], []), now) == EMPTY_BANDS
  {
    assert [BRIEF][..0] == [];
    assert Filter([BRIEF], Live(now)) == Filter([BRIEF][..0], Live(now)) + [];
  }

  /** By the next flush the other one has expired. */
  lemma SyncRunsDry(cfg: Config, w: World, n: byte, mode: FrameMode) returns (w': World)
    requires InSync(w, Bands([], [], [BRIEF], []), n, mode) && w.sess.bufferFree > 0
    ensures Reaches(cfg, w, w') && InSync(w', EMPTY_BANDS, n, mode)
  {
    ReachesStep(cfg, w, Flush);
    var w1 := FlushStep(w);
    BriefDrained(2);
    ReachesOn(cfg, w, w1, Run(2, true));
    var w2 := Tick(w1, 2, true);
    ReachesOn(cfg, w, w2, Run(2, true));
    w' := Tick(w2, 2, true);
  }

  /** A run from the start to a session in sync mode with an empty queue. */
  lemma StuckIsReached(cfg: Config, n: byte, mode: FrameMode) returns (w: World)
    requires RoomForSync(cfg)
    ensures Reaches(cfg, START, w) && InSync(w, EMPTY_BANDS, n, mode)
  {
    var w0 := Beginning(cfg, mode);
    SyncFits(cfg, Urgent("", 0, 0));
    var w1 := AdvancingTo(cfg, w0, EMPTY_BANDS, 0, mode, Before(n), 0);
    ReachesTrans(cfg, START, w0, w1);
    var w2 := SyncQueued(cfg, w1, Before(n), mode);
    ReachesTrans(cfg, START, w1, w2);
    var w3 := SyncEntered(cfg, w2, w2.pc.l);
    ContinuesReaches(cfg, w2, w3);
    ReachesTrans(cfg, START, w2, w3);
    var w4 := Ending(cfg, w3, w3.pc.l, 0);
    ReachesTrans(cfg, START, w3, w4);
    var w5 := Acknowledging(cfg, w4, n);
    ReachesTrans(cfg, START, w4, w5);
    assert w5.sess.inFlight == map[];
    w := SyncRunsDry(cfg, w5, n, mode);
    ReachesTrans(cfg, START, w5, w);
  }

  // ---- Requests are held up ----

  lemma RequestQueued(cfg: Config, mode: FrameMode) returns (w: World)
    requires RoomForSync(cfg)
    ensures Reaches(cfg, START, w) && InSync(w, Bands([], [], [], [Request("", 0, 0)]), 0, mode) && Synced(w)
  {
    var c := Request("", 0, 0);
    var v := StuckIsReached(cfg, 0, mode);
    SyncFits(cfg, c);
    w := TakingIn(cfg, v, c, 0);
    ContinuesReaches(cfg, v, w);
    ReachesTrans(cfg, START, v, w);
    assert [] + [c] == [c];
  }

  lemma WaitingIsStuck(w: World, mode: FrameMode)
    requires InSync(w, Bands([], [], [], [Request("", 0, 0)]), 0, mode) && Synced(w)
    ensures Stuck(w)
  {
    SyncedReload(w);
  }

  /** A run from the start to a session whose waiting request no flush sends, although the line
      is up, nothing is in flight and nothing else is queued. */
  lemma RequestIsHeldUp(cfg: Config, mode: FrameMode) returns (w: World)
    requires RoomForSync(cfg)
    ensures Reaches(cfg, START, w) && InSync(w, Bands([], [], [], [Request("", 0, 0)]), 0, mode) && Stuck(w)
    ensures forall env: Inputs, now: Time :: Steady(env, now) ==>
              var w' := Finish(FlushStep(w), env, 0); Writes(w'.log) == Writes(w.log) && w'.sess.syncMode
  {
    w := RequestQueued(cfg, mode);
    WaitingIsStuck(w, mode);
    forall env: Inputs, now: Time | Steady(env, now)
      ensures var w' := Finish(FlushStep(w), env, 0); Writes(w'.log) == Writes(w.log) && w'.sess.syncMode
    {
      NothingDrained(w.sess.bands, now);
      SyncHoldsUpRequests(cfg, w, env, now);
    }
  }

  predicate PutsOff(c: Command) {
    c.priority != High && c.priority != Sync
  }

  /** In sync mode with nothing to sync and nothing urgent, queued or in flight. */
  predicate NothingToSend(s: SessionState) {
    && s.syncMode && !s.fwMode && s.bands.high == [] && s.bands.sync == []
    && forall k :: k in s.inFlight ==> PutsOff(s.inFlight[k].cmd)
  }

  predicate StuckPc(pc: Pc) {
    || pc == Idle
    || ((pc.Outer? || pc.AfterDrain? || pc.Inner? || (pc.PutBack? && !pc.again))
        && pc.l.sync && !pc.l.fw && pc.l.skipped == [])
  }

  /** In memory and in the store. */
  predicate Stuck(w: World) {
    NothingToSend(w.sess) && StuckPc(w.pc) && NothingToSend(Load(w.saved))
  }

  /** Anything but a new urgent or sync command and the start of a firmware update. */
  predicate BringsNothing(step: Step) {
    match step
    case Enqueue(cmd, _) => CanonicalPriority(cmd.commandId) != Some(High) && CanonicalPriority(cmd.commandId) != Some(Sync)
    case SetFwMode(on) => !on
    case _ => true
  }

  lemma PushPutsOff(b: Bands, c: Command)
    requires PutsOff(c)
    ensures Push(b, c).high == b.high && Push(b, c).sync == b.sync
  {
  }

  lemma {:induction false} MakeRoomStaysEmpty(cfg: Config, b: Bands, c: Command)
    requires b.high == [] && b.sync == []
    ensures MakeRoom(cfg, b, c).0.high == [] && MakeRoom(cfg, b, c).0.sync == []
    decreases Length(b)
  {
    if !(Fits(cfg, b, c) || Length(b) == 0) { MakeRoomStaysEmpty(cfg, DropOldest(b), c); }
  }

  lemma AdmitStaysEmpty(cfg: Config, b: Bands, c: Command)
    requires b.high == [] && b.sync == [] && PutsOff(c)
    ensures Admit(cfg, b, c).bands.high == [] && Admit(cfg, b, c).bands.sync == []
  {
    PushPutsOff(b, c);
    PushPutsOff(MakeRoom(cfg, b, c).0, c);
    MakeRoomStaysEmpty(cfg, b, c);
  }

  lemma EnqueueStuck(cfg: Config, w: World, cmd: Command, now: Time)
    requires NothingToSend(w.sess) && BringsNothing(Enqueue(cmd, now))
    ensures NothingToSend(EnqueueStep(cfg, w, cmd, now).0.sess)
  {
    EnqueueShape(cfg, w, cmd, now);
    if Normalize(cmd).Some? { AdmitStaysEmpty(cfg, w.sess.bands, Normalize(cmd).value); }
  }

  lemma {:induction false} VisitsStuck(cfg: Config, w: World, order: seq<byte>, now: Time)
    requires NothingToSend(w.sess)
    ensures NothingToSend(Visits(cfg, w, order, now).sess)
    decreases |order|
  {
    if order != [] {
      var init := order[..|order| - 1];
      VisitsStuck(cfg, w, init, now);
      var v, key := Visits(cfg, w, init, now), order[|order| - 1];
      if key in v.sess.inFlight { PushPutsOff(v.sess.bands, Requeued(v.sess.inFlight[key], key)); }
    }
  }

  lemma TickStuck(w: World, now: Time, writeOk: bool)
    requires NothingToSend(w.sess) && StuckPc(w.pc)
    ensures var w' := Tick(w, now, writeOk); NothingToSend(w'.sess) && StuckPc(w'.pc)
  {
  }

  lemma StepStuck(cfg: Config, w: World, step: Step)
    requires NothingToSend(w.sess) && StuckPc(w.pc) && BringsNothing(step) && !step.Restart?
    ensures var w' := Apply(cfg, w, step); NothingToSend(w'.sess) && StuckPc(w'.pc)
  {
    match step
    case Run(now, writeOk) => TickStuck(w, now, writeOk);
    case Enqueue(cmd, now) =>
      EnqueueStuck(cfg, w, cmd, now);
      OthersLeavePc(cfg, w, step);
    case Sweep(order, now) =>
      VisitsStuck(cfg, w, order, now);
      OthersLeavePc(cfg, w, step);
    case _ =>
  }

  lemma StoreStuck(cfg: Config, w: World, step: Step)
    requires Sound(cfg, w) && Enabled(w, step) && Stuck(w) && BringsNothing(step)
    ensures Stuck(Apply(cfg, w, step))
  {
    var w' := Apply(cfg, w, step);
    if !step.Restart? {
      StepStuck(cfg, w, step);
      StepKeeps(cfg, w, step);
      SavesExactly(cfg, w, step);
      if Synced(w') { SyncedReload(w'); }
    }
  }

  lemma StuckWritesNothing(cfg: Config, w: World, step: Step)
    requires StuckPc(w.pc)
    ensures Writes(Apply(cfg, w, step).log) == Writes(w.log)
  {
    var added;
    if step.Run? {
      added := QuietTick(w, step.now, step.writeOk);
    } else {
      added := OnlyRunWrites(cfg, w, step);
    }
    SumZero(added, IsWritten());
    SumConcat(w.log, added, IsWritten());
  }

  /** Once there, a session stays there: no run without an urgent command, a sync command or a
      firmware update ever writes a frame or leaves the sync mode, whatever is queued, whatever
      times out, through reconnects and restarts. */
  lemma {:induction false} StuckForGood(cfg: Config, w: World, steps: seq<Step>)
    requires Sound(cfg, w) && Stuck(w) && Possible(cfg, w, steps)
    requires forall i :: 0 <= i < |steps| ==> BringsNothing(steps[i])
    ensures var w' := After(cfg, w, steps); Stuck(w') && w'.sess.syncMode && Writes(w'.log) == Writes(w.log)
    decreases |steps|
  {
    if steps != [] {
      var init, last := steps[..|steps| - 1], steps[|steps| - 1];
      Unroll(cfg, w, steps);
      StuckForGood(cfg, w, init);
      InvAlways(cfg, w, init);
      StoreStuck(cfg, After(cfg, w, init), last);
      StuckWritesNothing(cfg, After(cfg, w, init), last);
    }
  }
}
