/** internal/server/server.go, flushQueue: what a flush may write, how much, and that it ends. */
module FlushSafety {
  import opened Bytes
  import opened Messages
  import opened Framing
  import opened Payloads
  import opened Sums
  import opened Commands
  import opened PriorityBands
  import opened Policy
  import opened Engine
  import opened Events
  import opened Invariants
  import opened Delivery

  // ---- What is written ----

  /** The tests a command passes before it gets a sequence number. */
  predicate Checked(c: Command, at: Time, fwMode: bool, syncMode: bool) {
    !IsExpired(c, at) && Allowed(c.commandId, fwMode, syncMode) && Accepts(c.commandId, c.payload)
  }

  /** Ids refused during a sync although the queue hands them out. */
  predicate Blockable(c: Command, l: Locals) {
    !l.fw && l.sync && c.commandId in {2, 3, 17, 18, 19, 23}
  }

  predicate PcSafe(pc: Pc) {
    && (pc.Numbered? ==> Checked(pc.cmd, pc.checkedAt, pc.l.fw, pc.l.sync))
    && (pc.Popped? ==> Allowed(pc.cmd.commandId, pc.l.fw, pc.l.sync) || Blockable(pc.cmd, pc.l))
    && (pc.Inner? || pc.Popped? || pc.Numbered? ==>
          forall i :: 0 <= i < |pc.l.skipped| ==> Blockable(pc.l.skipped[i], pc.l))
  }

  predicate WriteSafe(e: Event) {
    e.Wrote? ==>
      && e.frame == FrameFor(e.cmd, e.frame.seqNo, e.frame.mode)
      && Encodable(e.frame)
      && Checked(e.cmd, e.checkedAt, e.fwMode, e.syncMode)
  }

  predicate Safe(w: World) {
    PcSafe(w.pc) && forall i :: 0 <= i < |w.log| ==> WriteSafe(w.log[i])
  }

  lemma TickPoppedSafe(w: World, now: Time, finding: Finding)
    requires Safe(w) && w.pc.Popped?
    requires finding == Refused ==> !Allowed(w.pc.cmd.commandId, w.pc.l.fw, w.pc.l.sync)
    requires finding == Renumbered || finding == Unnumbered ==>
               Checked(w.pc.cmd.(retrySeq := 0), now, w.pc.l.fw, w.pc.l.sync)
    ensures Safe(TickPopped(w, w.pc.l, w.pc.left, w.pc.cmd, now, finding))
  {
    var w' := TickPopped(w, w.pc.l, w.pc.left, w.pc.cmd, now, finding);
    assert w'.log == w.log || (!w'.log[|w.log|].Wrote? && w'.log == w.log + [w'.log[|w.log|]]);
  }

  lemma TickNumberedSafe(w: World, o: Outcome)
    requires Safe(w) && w.pc.Numbered? && (o.Sent? ==> o.size <= w.pc.l.remaining)
    requires o.Sent? ==> Encodable(FrameFor(w.pc.cmd, w.pc.seqNo, w.pc.l.frameMode))
    ensures Safe(TickNumbered(w, w.pc.l, w.pc.left, w.pc.cmd, w.pc.seqNo, w.pc.checkedAt, o))
  {
  }

  lemma TickInnerSafe(cfg: Config, w: World, now: Time, writeOk: bool)
    requires Inv(Bounded(cfg), w) && Safe(w) && w.pc.Inner?
    ensures Safe(Tick(w, now, writeOk))
  {
    var b, l := w.sess.bands, w.pc.l;
    if PopNext(b, l.fw, l.sync).Some? {
      AllAreNormal(cfg, b);
      RefusedWhenPopped(b, l.fw, l.sync);
    }
  }

  lemma AllAreNormal(cfg: Config, b: Bands)
    requires BandsFit(Bounded(cfg), b)
    ensures AllNormal(b)
  {
    SeqNormal(cfg, b.high);
    SeqNormal(cfg, b.fw);
    SeqNormal(cfg, b.sync);
    SeqNormal(cfg, b.query);
  }

  lemma SeqNormal(cfg: Config, s: seq<Command>)
    requires AllFit(Bounded(cfg), s)
    ensures forall c :: c in s ==> Normal(c)
  {
    forall c | c in s ensures Normal(c) {
      var i :| 0 <= i < |s| && s[i] == c;
      FitMeans(cfg, s[i]);
    }
  }

  lemma TickRestSafe(w: World, now: Time, writeOk: bool)
    requires Safe(w) && Tidy(w.pc) && !w.pc.Inner? && !w.pc.Popped? && !w.pc.Numbered?
    ensures Safe(Tick(w, now, writeOk))
  {
    var w' := Tick(w, now, writeOk);
    var added := NewOfTick(w, now, writeOk);
    forall i | 0 <= i < |w'.log| ensures WriteSafe(w'.log[i]) {
      if i < |w.log| { assert w'.log[i] == w.log[i]; }
    }
  }

  lemma TickSafe(cfg: Config, w: World, now: Time, writeOk: bool)
    requires Inv(Bounded(cfg), w) && Safe(w)
    ensures Safe(Tick(w, now, writeOk))
  {
    match w.pc
    case Inner(_, _) => TickInnerSafe(cfg, w, now, writeOk);
    case Popped(l, _, cmd) => TickPoppedSafe(w, now, Examine(cmd, l, now));
    case Numbered(l, _, cmd, seqNo, _) =>
      TickNumberedSafe(w, Dispatch(FrameFor(cmd, seqNo, l.frameMode), l, writeOk));
    case _ => TickRestSafe(w, now, writeOk);
  }

  lemma StepSafe(cfg: Config, w: World, step: Step)
    requires Sound(cfg, w) && Safe(w) && Enabled(w, step)
    ensures Safe(Apply(cfg, w, step))
  {
    if step.Run? {
      TickSafe(cfg, w, step.now, step.writeOk);
    } else {
      var added := OnlyRunWrites(cfg, w, step);
      if !step.Flush? && !step.Restart? { OthersLeavePc(cfg, w, step); }
    }
  }

  /** In every run, everything ever written was, at its check, unexpired, allowed in the
      mode of its flush and accepted by the payload validator, and went out as its own
      frame; and what a flush skips is one of six ids, in sync mode. */
  lemma {:induction false} SafeAlways(cfg: Config, steps: seq<Step>)
    requires Possible(cfg, START, steps)
    ensures Safe(After(cfg, START, steps))
    decreases |steps|
  {
    if steps != [] {
      var init := steps[..|steps| - 1];
      Unroll(cfg, START, steps);
      SafeAlways(cfg, init);
      StartSound(cfg);
      InvAlways(cfg, START, init);
      StepSafe(cfg, After(cfg, START, init), steps[|steps| - 1]);
    }
  }

  /** The frames written, in order. */
  function Frames(log: seq<Event>): seq<Frame> {
    if log == [] then []
    else Frames(log[..|log| - 1]) + (if log[|log| - 1].Wrote? then [log[|log| - 1].frame] else [])
  }

  lemma {:induction false} FramesEncodable(log: seq<Event>)
    requires forall i :: 0 <= i < |log| ==> WriteSafe(log[i])
    ensures AllEncodable(Frames(log))
    decreases |log|
  {
    if log != [] { FramesEncodable(log[..|log| - 1]); }
  }

  /** What a controller reads off the line is what the flushes wrote: over any run, the
      bytes sent in one frame mode parse back to the frames of the log, then end. */
  lemma WhatIsWrittenIsRead(cfg: Config, steps: seq<Step>, mode: FrameMode)
    requires Possible(cfg, START, steps)
    requires forall i :: 0 <= i < |Frames(After(cfg, START, steps).log)| ==>
               WireMode(Frames(After(cfg, START, steps).log)[i]) == mode
    ensures var frames := Frames(After(cfg, START, steps).log);
            AllEncodable(frames) && ReadAll(WireAll(frames), mode) == Transcript(CanonicalAll(frames), Eof, [])
  {
    SafeAlways(cfg, steps);
    FramesEncodable(After(cfg, START, steps).log);
    StreamRoundTrip(Frames(After(cfg, START, steps).log), mode);
  }

  /** The time limit a frame carries: whole seconds, at least one, and 255 for none or for more
      than 250 seconds. */
  predicate CarriesTtl(ttl: Duration, wire: byte) {
    && (wire == 255 <==> ttl <= 0 || ttl >= 251_000_000_000)
    && (wire != 255 ==> if ttl < 2_000_000_000 then wire == 1
                        else wire * 1_000_000_000 <= ttl < (wire + 1) * 1_000_000_000)
  }

  lemma TtlOnWire(ttl: Duration)
    ensures CarriesTtl(ttl, TtlToWire(ttl))
  {
  }

  /** In every run, whatever is written, the controller reads off the wire as one frame with the
      id of the command in front of its payload, its time limit and, unless the mode leaves it
      out, the number it was given. */
  lemma WhatIsSent(cfg: Config, steps: seq<Step>, i: nat)
    requires Possible(cfg, START, steps)
    requires i < |After(cfg, START, steps).log| && After(cfg, START, steps).log[i].Wrote?
    ensures var e := After(cfg, START, steps).log[i];
            && Encodable(e.frame)
            && var r := Read(Wire(e.frame), if e.frame.mode == Compact then Compact else Sequenced);
            && r.Got? && r.rest == []
            && r.frame.payload == [e.cmd.commandId] + e.cmd.payload
            && r.frame.seqNo == (if e.frame.mode == Compact then 0 else e.frame.seqNo)
            && CarriesTtl(e.cmd.ttl, r.frame.ttl)
  {
    var e := After(cfg, START, steps).log[i];
    SafeAlways(cfg, steps);
    assert WriteSafe(e);
    ReadAfterEncode(e.frame, []);
    assert Wire(e.frame) + [] == Wire(e.frame);
    TtlOnWire(e.cmd.ttl);
  }

  // ---- How much is written ----

  function Remaining(pc: Pc): nat {
    if pc == Idle then 0 else pc.l.remaining
  }

  function WireSize(): Event -> int {
    (e: Event) => if e.Wrote? && Encodable(e.frame) then |Wire(e.frame)| else 0
  }

  lemma TickNumberedBudget(w: World, writeOk: bool)
    requires w.pc.Numbered?
    ensures var w' := Tick(w, 0, writeOk);
            Sum(w'.log, WireSize()) + Remaining(w'.pc) <= Sum(w.log, WireSize()) + Remaining(w.pc)
  {
    var Numbered(l, left, cmd, seqNo, checkedAt) := w.pc;
    var frame := FrameFor(cmd, seqNo, l.frameMode);
    match Dispatch(frame, l, writeOk)
    case OverBudget =>
    case Sent(size) => SumPush(w.log, Wrote(cmd, frame, checkedAt, l.fw, l.sync), WireSize());
    case _ => SumPush(w.log, EndedQueued(Failed, cmd), WireSize());
  }

  lemma TickBudget(w: World, now: Time, writeOk: bool)
    ensures var w' := Tick(w, now, writeOk);
            Sum(w'.log, WireSize()) + Remaining(w'.pc) <= Sum(w.log, WireSize()) + Remaining(w.pc)
  {
    if w.pc.Numbered? {
      TickNumberedBudget(w, writeOk);
    } else {
      var added := NewOfTick(w, now, writeOk);
      NothingElseWrites(w, now, writeOk);
      assert added == Tick(w, now, writeOk).log[|w.log|..];
      SumZero(added, WireSize());
      SumConcat(w.log, added, WireSize());
    }
  }

  lemma NothingElseWrites(w: World, now: Time, writeOk: bool)
    requires !w.pc.Numbered?
    ensures var w' := Tick(w, now, writeOk);
            |w'.log| >= |w.log| && NothingWritten(w'.log[|w.log|..]) && Remaining(w'.pc) <= Remaining(w.pc)
  {
    var w' := Tick(w, now, writeOk);
    if w.pc.Popped? {
      assert w' == TickPopped(w, w.pc.l, w.pc.left, w.pc.cmd, now, Examine(w.pc.cmd, w.pc.l, now));
    }
  }

  lemma {:induction false} BudgetRun(cfg: Config, w: World, steps: seq<Step>)
    requires Possible(cfg, w, steps) && forall i :: 0 <= i < |steps| ==> !steps[i].Flush?
    ensures var w' := After(cfg, w, steps);
            Sum(w'.log, WireSize()) + Remaining(w'.pc) <= Sum(w.log, WireSize()) + Remaining(w.pc)
    decreases |steps|
  {
    if steps != [] {
      var init, last := steps[..|steps| - 1], steps[|steps| - 1];
      Unroll(cfg, w, steps);
      BudgetRun(cfg, w, init);
      var v := After(cfg, w, init);
      if last.Run? {
        TickBudget(v, last.now, last.writeOk);
      } else {
        var added := OnlyRunWrites(cfg, v, last);
        SumZero(added, WireSize());
        SumConcat(v.log, added, WireSize());
        if !last.Restart? { OthersLeavePc(cfg, v, last); }
      }
    }
  }

  /** From its start until the next one starts, whatever happens in between, a flush puts at
      most the controller's free buffer on the wire, 1500 bytes if that is not positive. */
  lemma FlushWithinBudget(cfg: Config, w: World, steps: seq<Step>)
    requires w.pc == Idle && Possible(cfg, FlushStep(w), steps)
    requires forall i :: 0 <= i < |steps| ==> !steps[i].Flush?
    ensures Sum(After(cfg, FlushStep(w), steps).log, WireSize()) - Sum(w.log, WireSize())
            <= if w.sess.bufferFree <= 0 then 1500 else w.sess.bufferFree
  {
    BudgetRun(cfg, FlushStep(w), steps);
  }

  /** EstimatedCommandBytes is the size of the sequenced frame, one more than the compact. */
  lemma EstimateIsExact(c: Command, seqNo: byte, mode: FrameMode)
    requires Encodable(FrameFor(c, seqNo, mode))
    ensures |Wire(FrameFor(c, seqNo, mode))| == EstimatedCommandBytes(c) - (if mode == Compact then 1 else 0)
  {
  }

  /** Of the commands that pass validation, encoding fails for the custom command alone, and
      for it exactly when its argument is too long for the length field. */
  lemma EncodingFailsOnlyForCustom(c: Command, seqNo: byte, mode: FrameMode)
    requires Normal(c) && Accepts(c.commandId, c.payload)
    ensures !Encodable(FrameFor(c, seqNo, mode)) <==>
            c.commandId == 27 && |c.payload| > 0xFFFF - (if mode == Compact then 2 else 3)
  {
    AcceptedSize(c.commandId, c.payload);
  }

  // ---- Termination ----

  function Stage(pc: Pc): nat {
    match pc
    case Written(_, _, _) => 13
    case Registered(_, _, _) => 12
    case Marked(_) => 11
    case PutBack(_, again) => if again then 10 else 2
    case ClearSync(_) => 9
    case SyncOff(_) => 8
    case ClearFw(_) => 7
    case FwOff(_) => 6
    case Outer(_) => 5
    case AfterDrain(_) => 4
    case Inner(_, _) => 3
    case Popped(_, _, _) => 3
    case Numbered(_, _, _, _, _) => 3
    case Idle => 0
  }

  function Left(pc: Pc): nat {
    match pc
    case Inner(_, left) => 3 * left
    case Popped(_, left, _) => 3 * left + 2
    case Numbered(_, left, _, _, _) => 3 * left + 1
    case PutBack(l, _) => |l.skipped|
    case _ => 0
  }

  /** A flush always ends: each tick lowers, in this order, the bytes it may still write, the
      stage it is in, and the commands left to look at -- whatever other steps do to the
      session in between, since they leave the program counter alone. */
  lemma TickDescends(w: World, now: Time, writeOk: bool)
    requires w.pc != Idle
    ensures var pc, pc' := w.pc, Tick(w, now, writeOk).pc;
            || Remaining(pc') < Remaining(pc)
            || (Remaining(pc') == Remaining(pc) && Stage(pc') < Stage(pc))
            || (Remaining(pc') == Remaining(pc) && Stage(pc') == Stage(pc) && Left(pc') < Left(pc))
  {
    match w.pc
    case Popped(l, left, cmd) =>
      var finding := Examine(cmd, l, now);
      assert Tick(w, now, writeOk) == TickPopped(w, l, left, cmd, now, finding);
    case Numbered(l, left, cmd, seqNo, checkedAt) =>
      var o := Dispatch(FrameFor(cmd, seqNo, l.frameMode), l, writeOk);
      assert o.Sent? ==> o.size >= 10;
      assert Tick(w, now, writeOk) == TickNumbered(w, l, left, cmd, seqNo, checkedAt, o);
    case _ =>
  }
}
