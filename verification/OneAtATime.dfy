/** internal/server/server.go, flushQueue: whether at most one command is in flight. The check
    before the loop is made once per flush, so it depends on how much one flush sends. */
module OneAtATime {
  import opened Bytes
  import opened Framing
  import opened Sums
  import opened Commands
  import opened PriorityBands
  import opened Policy
  import opened Sessions
  import opened Engine
  import opened Events
  import opened Persistence
  import opened Invariants
  import opened Delivery
  import opened FlushSafety
  import opened SequenceNumbers
  import opened SlotSafety
  import opened Reports
  import opened Runs
  import opened Rounds
  import opened Histories
  import opened SlotReuse

  /** No flush of a session that some run brings about, with this budget and frame mode,
      writes more than one frame before the next flush starts. */
  ghost predicate AtMostOne(cfg: Config, budget: nat, mode: FrameMode) {
    forall past: seq<Step>, steps: seq<Step> ::
      var w := After(cfg, START, past);
      && Possible(cfg, START, past) && w.pc == Idle && Budget(w.sess) == budget && w.sess.frameMode == mode
      && Possible(cfg, FlushStep(w), steps) && NoFlush(steps) ==>
        Writes(After(cfg, FlushStep(w), steps).log) - Writes(w.log) <= 1
  }

  // ---- Every frame uses up budget ----

  function FrameCost(mode: FrameMode): Event -> int {
    (e: Event) => if e.Wrote? then MinFrame(mode) else 0
  }

  lemma {:induction false} CostOfLog(log: seq<Event>, mode: FrameMode)
    ensures Sum(log, FrameCost(mode)) == if mode == Compact then 10 * Writes(log) else 11 * Writes(log)
    decreases |log|
  {
    if log != [] { CostOfLog(log[..|log| - 1], mode); }
  }

  predicate InMode(pc: Pc, mode: FrameMode) {
    pc != Idle ==> pc.l.frameMode == mode
  }

  lemma NumberedCost(w: World, o: Outcome, mode: FrameMode)
    requires w.pc.Numbered? && InMode(w.pc, mode) && (o.Sent? ==> MinFrame(mode) <= o.size <= w.pc.l.remaining)
    ensures var w' := TickNumbered(w, w.pc.l, w.pc.left, w.pc.cmd, w.pc.seqNo, w.pc.checkedAt, o);
            && Sum(w'.log, FrameCost(mode)) + Remaining(w'.pc) <= Sum(w.log, FrameCost(mode)) + Remaining(w.pc)
            && InMode(w'.pc, mode)
  {
    var Numbered(l, left, cmd, seqNo, checkedAt) := w.pc;
    if o != OverBudget {
      var e := TickNumbered(w, l, left, cmd, seqNo, checkedAt, o).log[|w.log|];
      SumPush(w.log, e, FrameCost(mode));
    }
  }

  lemma TickCost(w: World, now: Time, writeOk: bool, mode: FrameMode)
    requires InMode(w.pc, mode)
    ensures var w' := Tick(w, now, writeOk);
            && Sum(w'.log, FrameCost(mode)) + Remaining(w'.pc) <= Sum(w.log, FrameCost(mode)) + Remaining(w.pc)
            && InMode(w'.pc, mode)
  {
    if w.pc.Numbered? {
      var Numbered(l, left, cmd, seqNo, checkedAt) := w.pc;
      NumberedCost(w, Dispatch(FrameFor(cmd, seqNo, l.frameMode), l, writeOk), mode);
    } else {
      var added := QuietTick(w, now, writeOk);
      NothingElseWrites(w, now, writeOk);
      SumZero(added, FrameCost(mode));
      SumConcat(w.log, added, FrameCost(mode));
      KeepsMode(w, now, writeOk, mode);
    }
  }

  lemma KeepsMode(w: World, now: Time, writeOk: bool, mode: FrameMode)
    requires InMode(w.pc, mode) && !w.pc.Numbered?
    ensures InMode(Tick(w, now, writeOk).pc, mode)
  {
    if w.pc.Popped? {
      assert Tick(w, now, writeOk) == TickPopped(w, w.pc.l, w.pc.left, w.pc.cmd, now, Examine(w.pc.cmd, w.pc.l, now));
    } else {
      RestFrames(w, now, writeOk);
    }
  }

  lemma {:induction false} CostRun(cfg: Config, w: World, steps: seq<Step>, mode: FrameMode)
    requires Possible(cfg, w, steps) && NoFlush(steps) && InMode(w.pc, mode)
    ensures var w' := After(cfg, w, steps);
            && Sum(w'.log, FrameCost(mode)) + Remaining(w'.pc) <= Sum(w.log, FrameCost(mode)) + Remaining(w.pc)
            && InMode(w'.pc, mode)
    decreases |steps|
  {
    if steps != [] {
      var init, last := steps[..|steps| - 1], steps[|steps| - 1];
      Unroll(cfg, w, steps);
      CostRun(cfg, w, init, mode);
      var v := After(cfg, w, init);
      if last.Run? {
        TickCost(v, last.now, last.writeOk, mode);
      } else {
        var added := OnlyRunWrites(cfg, v, last);
        SumZero(added, FrameCost(mode));
        SumConcat(v.log, added, FrameCost(mode));
        if !last.Restart? { OthersLeavePc(cfg, v, last); }
      }
    }
  }

  /** A flush writes at most as many frames as its budget has room for. */
  lemma FramesWithinBudget(cfg: Config, w: World, steps: seq<Step>)
    requires w.pc == Idle && Possible(cfg, FlushStep(w), steps) && NoFlush(steps)
    ensures var frames := Writes(After(cfg, FlushStep(w), steps).log) - Writes(w.log);
            (if w.sess.frameMode == Compact then 10 * frames else 11 * frames) <= Budget(w.sess)
  {
    var mode := w.sess.frameMode;
    CostRun(cfg, FlushStep(w), steps, mode);
    CostOfLog(w.log, mode);
    CostOfLog(After(cfg, FlushStep(w), steps).log, mode);
  }

  // ---- Two frames ----

  /** A run from the start: a flush with room for two frames sends two commands, and both are
      in flight. A single command needs to fit the queue: the second comes in meanwhile. */
  lemma TwoInFlight(cfg: Config, budget: nat, mode: FrameMode) returns (w: World, w': World)
    requires RoomFor(cfg, 1) && 2 * MinFrame(mode) <= budget
    ensures Reaches(cfg, START, w) && w.pc == Idle && Budget(w.sess) == budget && w.sess.frameMode == mode
    ensures Leads(cfg, FlushStep(w), w') && Writes(w'.log) >= Writes(w.log) + 2
    ensures w'.sess.inFlight.Keys == {1, 2}
  {
    var w0 := Beginning(cfg, mode);
    w := TellingFree(cfg, w0, budget);
    ReachesTrans(cfg, START, w0, w);
    w' := TwoRounds(cfg, FlushStep(w), Locals(budget, false, false, mode, []));
  }

  lemma TwoRounds(cfg: Config, w: World, l: Locals) returns (w': World)
    requires AtRound(w, l) && 2 * MinFrame(l.frameMode) <= l.remaining && RoomFor(cfg, 1)
    requires w.sess.bands == EMPTY_BANDS && w.sess.nextSeq == 0 && w.sess.inFlight == map[]
    ensures Leads(cfg, w, w') && Writes(w'.log) >= Writes(w.log) + 2
    ensures w'.sess.inFlight.Keys == {1, 2}
  {
    var u := Urgent("", 0, 0);
    RoomInEmpty(cfg, u);
    UrgentFirst(EMPTY_BANDS);
    var v := OneMore(cfg, w, l, u, 0);
    w' := OneMore(cfg, v, v.pc.l, u, 0);
    LeadsTrans(cfg, w, v, w');
  }

  /** At most one command is in flight per flush exactly when the budget has no room for two
      frames. */
  lemma OneOutstandingExactlyWhen(cfg: Config, budget: nat, mode: FrameMode)
    requires RoomFor(cfg, 1)
    ensures AtMostOne(cfg, budget, mode) <==> budget < 2 * MinFrame(mode)
  {
    if budget < 2 * MinFrame(mode) {
      SmallBudget(cfg, budget, mode);
    } else {
      var w, w' := TwoInFlight(cfg, budget, mode);
      var past :| Possible(cfg, START, past) && After(cfg, START, past) == w;
      var steps :| AllGentle(steps) && After(cfg, FlushStep(w), steps) == w';
      GentleIsHarmless(cfg, FlushStep(w), steps, mode);
      assert Writes(After(cfg, FlushStep(After(cfg, START, past)), steps).log) - Writes(After(cfg, START, past).log) > 1;
    }
  }

  lemma SmallBudget(cfg: Config, budget: nat, mode: FrameMode)
    requires budget < 2 * MinFrame(mode)
    ensures AtMostOne(cfg, budget, mode)
  {
    forall past: seq<Step>, steps: seq<Step> |
      var w := After(cfg, START, past);
      && Possible(cfg, START, past) && w.pc == Idle && Budget(w.sess) == budget && w.sess.frameMode == mode
      && Possible(cfg, FlushStep(w), steps) && NoFlush(steps)
      ensures var w := After(cfg, START, past); Writes(After(cfg, FlushStep(w), steps).log) - Writes(w.log) <= 1
    {
      FramesWithinBudget(cfg, After(cfg, START, past), steps);
    }
  }

  // ---- A single frame overwrites nothing ----

  /** Before its first write a flush has nothing in flight, and none at the moment of the write. */
  predicate NothingBefore(w: World, before: int) {
    || w.pc == Idle
    || ((Writes(w.log) <= before || w.pc.Written?) ==> w.sess.inFlight == map[] && (w.pc.Written? ==> Writes(w.log) > before))
  }

  lemma {:induction false} VisitsOfNone(cfg: Config, w: World, order: seq<byte>, now: Time)
    requires w.sess.inFlight == map[]
    ensures Visits(cfg, w, order, now) == w
    decreases |order|
  {
    if order != [] { VisitsOfNone(cfg, w, order[..|order| - 1], now); }
  }

  lemma TableStaysEmpty(cfg: Config, w: World, step: Step)
    requires w.sess.inFlight == map[] && !step.Run? && !step.Flush? && !step.Restart?
    ensures Apply(cfg, w, step).sess.inFlight == map[]
  {
    match step
    case Sweep(order, now) => VisitsOfNone(cfg, w, order, now);
    case Enqueue(cmd, now) => EnqueueShape(cfg, w, cmd, now);
    case _ =>
  }

  lemma OtherBefore(cfg: Config, w: World, step: Step, before: int)
    requires NothingBefore(w, before) && !step.Run? && !step.Flush?
    ensures NothingBefore(Apply(cfg, w, step), before)
  {
    if !step.Restart? {
      OthersLeavePc(cfg, w, step);
      var added := OnlyRunWrites(cfg, w, step);
      SumZero(added, IsWritten());
      SumConcat(w.log, added, IsWritten());
      if w.sess.inFlight == map[] { TableStaysEmpty(cfg, w, step); }
    }
  }

  lemma NumberedBefore(w: World, now: Time, writeOk: bool, before: int)
    requires w.pc.Numbered? && NothingBefore(w, before)
    requires Writes(Tick(w, now, writeOk).log) <= before + 1 && Writes(w.log) >= before
    ensures NothingBefore(Tick(w, now, writeOk), before)
  {
    var Numbered(l, left, cmd, seqNo, checkedAt) := w.pc;
    OutcomeBefore(w, Dispatch(FrameFor(cmd, seqNo, l.frameMode), l, writeOk), before);
  }

  lemma OutcomeBefore(w: World, o: Outcome, before: int)
    requires w.pc.Numbered? && NothingBefore(w, before) && (o.Sent? ==> o.size <= w.pc.l.remaining)
    requires var w' := TickNumbered(w, w.pc.l, w.pc.left, w.pc.cmd, w.pc.seqNo, w.pc.checkedAt, o);
             Writes(w'.log) <= before + 1 && Writes(w.log) >= before
    ensures NothingBefore(TickNumbered(w, w.pc.l, w.pc.left, w.pc.cmd, w.pc.seqNo, w.pc.checkedAt, o), before)
  {
    var w' := TickNumbered(w, w.pc.l, w.pc.left, w.pc.cmd, w.pc.seqNo, w.pc.checkedAt, o);
    if o != OverBudget { SumPush(w.log, w'.log[|w.log|], IsWritten()); }
  }

  lemma QuietBefore(w: World, now: Time, writeOk: bool, before: int)
    requires !w.pc.Numbered? && NothingBefore(w, before)
    ensures NothingBefore(Tick(w, now, writeOk), before)
  {
    var w' := Tick(w, now, writeOk);
    var added := QuietTick(w, now, writeOk);
    SumZero(added, IsWritten());
    SumConcat(w.log, added, IsWritten());
    if w.pc.Popped? {
      assert w' == TickPopped(w, w.pc.l, w.pc.left, w.pc.cmd, now, Examine(w.pc.cmd, w.pc.l, now));
    } else if !w.pc.Written? {
      TickTable(w, now, writeOk);
    }
  }

  /** A flush whose budget has no room for two frames, of a session with nothing in flight,
      overwrites no slot. */
  lemma {:induction false} OneFrameOverwritesNothing(cfg: Config, w: World, steps: seq<Step>)
    requires w.pc == Idle && w.sess.inFlight == map[] && Budget(w.sess) < 2 * MinFrame(w.sess.frameMode)
    requires Possible(cfg, FlushStep(w), steps) && NoFlush(steps)
    ensures var w' := After(cfg, FlushStep(w), steps); NoOverwrite(w, w') && NothingBefore(w', Writes(w.log))
    decreases |steps|
  {
    if steps != [] {
      var init, last := steps[..|steps| - 1], steps[|steps| - 1];
      Unroll(cfg, FlushStep(w), steps);
      OneFrameOverwritesNothing(cfg, w, init);
      var v := After(cfg, FlushStep(w), init);
      FramesWithinBudget(cfg, w, steps);
      LogOnlyWrites(w, v);
      OneFrameStep(cfg, v, last, Writes(w.log));
      NoOverwriteTrans(w, v, Apply(cfg, v, last));
    }
  }

  lemma LogOnlyWrites(w: World, v: World)
    requires NoOverwrite(w, v)
    ensures Writes(v.log) >= Writes(w.log)
  {
    var added := v.log[|w.log|..];
    assert v.log == w.log + added;
    SumConcat(w.log, added, IsWritten());
    SumAtLeast(added, IsWritten(), 0);
  }

  lemma OneFrameStep(cfg: Config, w: World, step: Step, before: int)
    requires NothingBefore(w, before) && !step.Flush?
    requires Writes(Apply(cfg, w, step).log) <= before + 1 && Writes(w.log) >= before
    ensures NoOverwrite(w, Apply(cfg, w, step)) && NothingBefore(Apply(cfg, w, step), before)
  {
    if step.Run? {
      TickOverwritesNothing(w, step.now, step.writeOk);
      if w.pc.Numbered? {
        NumberedBefore(w, step.now, step.writeOk, before);
      } else {
        QuietBefore(w, step.now, step.writeOk, before);
      }
    } else {
      OthersOverwriteNothing(cfg, w, step);
      OtherBefore(cfg, w, step, before);
    }
  }

  // ---- At most one command in flight, over whole runs ----

  predicate Single(m: Table) {
    forall j, k :: j in m && k in m ==> j == k
  }

  /** A flush has room for at most one more frame, and none once it has sent one. */
  predicate LonePc(w: World) {
    w.pc != Idle ==>
      var min := MinFrame(w.pc.l.frameMode);
      && w.pc.l.remaining < 2 * min
      && (w.pc.l.remaining >= min || w.pc.Written? ==> w.sess.inFlight == map[])
      && (w.pc.Written? ==> w.pc.l.remaining < min)
  }

  predicate Lone(w: World) {
    Single(w.sess.inFlight) && Single(Reloaded(w).sess.inFlight) && LonePc(w)
  }

  /** Whenever a flush starts, its budget has no room for two frames. */
  predicate SmallBudgets(cfg: Config, steps: seq<Step>) {
    forall i :: 0 <= i < |steps| && steps[i].Flush? ==>
      var s := After(cfg, START, steps[..i]).sess; Budget(s) < 2 * MinFrame(s.frameMode)
  }

  lemma NumberedLone(w: World, o: Outcome)
    requires w.pc.Numbered? && Single(w.sess.inFlight) && LonePc(w)
    requires o.Sent? ==> MinFrame(w.pc.l.frameMode) <= o.size <= w.pc.l.remaining
    ensures var w' := TickNumbered(w, w.pc.l, w.pc.left, w.pc.cmd, w.pc.seqNo, w.pc.checkedAt, o);
            Single(w'.sess.inFlight) && LonePc(w')
  {
  }

  lemma TickLone(w: World, now: Time, writeOk: bool)
    requires Single(w.sess.inFlight) && LonePc(w)
    ensures var w' := Tick(w, now, writeOk); Single(w'.sess.inFlight) && LonePc(w')
  {
    match w.pc
    case Popped(l, _, cmd) => PoppedLone(w, now, Examine(cmd, l, now));
    case Numbered(l, _, cmd, seqNo, _) => NumberedLone(w, Dispatch(FrameFor(cmd, seqNo, l.frameMode), l, writeOk));
    case Written(_, _, _) => WrittenLone(w, now, writeOk);
    case _ => RestLone(w, now, writeOk);
  }

  lemma PoppedLone(w: World, now: Time, finding: Finding)
    requires w.pc.Popped? && Single(w.sess.inFlight) && LonePc(w)
    ensures var w' := TickPopped(w, w.pc.l, w.pc.left, w.pc.cmd, now, finding); Single(w'.sess.inFlight) && LonePc(w')
  {
  }

  lemma WrittenLone(w: World, now: Time, writeOk: bool)
    requires w.pc.Written? && LonePc(w)
    ensures var w' := Tick(w, now, writeOk); Single(w'.sess.inFlight) && LonePc(w')
  {
  }

  lemma RestLone(w: World, now: Time, writeOk: bool)
    requires !w.pc.Popped? && !w.pc.Numbered? && !w.pc.Written? && Single(w.sess.inFlight) && LonePc(w)
    ensures var w' := Tick(w, now, writeOk); Single(w'.sess.inFlight) && LonePc(w')
  {
    TickTable(w, now, writeOk);
    RestBudget(w, now, writeOk);
  }

  lemma RestBudget(w: World, now: Time, writeOk: bool)
    requires !w.pc.Popped? && !w.pc.Numbered? && !w.pc.Written?
    ensures var pc' := Tick(w, now, writeOk).pc;
            pc' != Idle ==> w.pc != Idle && pc'.l.remaining == w.pc.l.remaining && pc'.l.frameMode == w.pc.l.frameMode
  {
  }

  lemma TableOnlyShrinks(cfg: Config, w: World, step: Step, k: byte)
    requires !step.Run? && !step.Restart? && k in Apply(cfg, w, step).sess.inFlight
    ensures k in w.sess.inFlight
  {
    TableGrowsBy(cfg, w, step, k);
  }

  lemma OtherLone(cfg: Config, w: World, step: Step)
    requires Single(w.sess.inFlight) && LonePc(w) && Enabled(w, step) && !step.Run? && !step.Restart?
    requires step.Flush? ==> Budget(w.sess) < 2 * MinFrame(w.sess.frameMode)
    ensures var w' := Apply(cfg, w, step); Single(w'.sess.inFlight) && LonePc(w')
  {
    var w' := Apply(cfg, w, step);
    forall k | k in w'.sess.inFlight ensures k in w.sess.inFlight { TableOnlyShrinks(cfg, w, step, k); }
    if !step.Flush? {
      OthersLeavePc(cfg, w, step);
      if w.sess.inFlight == map[] { assert w'.sess.inFlight == map[]; }
    }
  }

  lemma StoreLone(cfg: Config, w: World, step: Step)
    requires Sound(cfg, w) && Enabled(w, step) && Lone(w) && Single(Apply(cfg, w, step).sess.inFlight)
    ensures Single(Reloaded(Apply(cfg, w, step)).sess.inFlight)
  {
    SavesExactly(cfg, w, step);
    if Saves(cfg, w, step) {
      StepKeeps(cfg, w, step);
      SyncedReload(Apply(cfg, w, step));
    }
  }

  lemma StepLone(cfg: Config, w: World, step: Step)
    requires Sound(cfg, w) && Enabled(w, step) && Lone(w)
    requires step.Flush? ==> Budget(w.sess) < 2 * MinFrame(w.sess.frameMode)
    ensures Lone(Apply(cfg, w, step))
  {
    if step.Run? {
      TickLone(w, step.now, step.writeOk);
    } else if !step.Restart? {
      OtherLone(cfg, w, step);
    }
    StoreLone(cfg, w, step);
  }

  /** In every run whose flushes all start with a budget without room for two frames, at most one
      command is ever in flight, through restarts too. */
  lemma {:induction false} OneInFlightAlways(cfg: Config, steps: seq<Step>)
    requires Possible(cfg, START, steps) && SmallBudgets(cfg, steps)
    ensures Lone(After(cfg, START, steps)) && |After(cfg, START, steps).sess.inFlight| <= 1
    decreases |steps|
  {
    StartSound(cfg);
    if steps == [] {
      SyncedReload(START);
    } else {
      var init, last := steps[..|steps| - 1], steps[|steps| - 1];
      Unroll(cfg, START, steps);
      SmallPrefix(cfg, steps);
      OneInFlightAlways(cfg, init);
      InvAlways(cfg, START, init);
      StepLone(cfg, After(cfg, START, init), last);
      AtMostOneEntry(After(cfg, START, steps).sess.inFlight);
    }
  }

  lemma SmallPrefix(cfg: Config, steps: seq<Step>)
    requires SmallBudgets(cfg, steps) && steps != []
    ensures SmallBudgets(cfg, steps[..|steps| - 1])
  {
    var init := steps[..|steps| - 1];
    assert forall i :: 0 <= i < |init| ==> init[..i] == steps[..i] && init[i] == steps[i];
  }

  lemma AtMostOneEntry(m: Table)
    requires Single(m)
    ensures |m| <= 1
  {
    if m != map[] {
      var k :| k in m;
      assert m.Keys == {k};
    }
  }
}
