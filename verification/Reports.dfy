/** Why every event of a run is in its log: which step added it, and what was the case then.
    Acknowledgement codes, time limits and ids are written out here, apart from the engine. */
module Reports {
  import opened Bytes
  import opened Messages
  import opened Framing
  import opened Payloads
  import opened Sums
  import opened Commands
  import opened PriorityBands
  import opened Policy
  import opened Sessions
  import opened Overflow
  import opened Engine
  import opened Events
  import opened Persistence
  import opened Invariants
  import opened Delivery

  /** The final status an acknowledgement with a given code stands for; code 5 is not final. */
  predicate CodeMeans(code: byte, status: AckStatus) {
    match status
    case Delivered => code == 0
    case Expired => code == 6
    case Unsupported => code == 255
    case Failed => code !in {0, 5, 6, 255}
    case _ => false
  }

  predicate PastTtl(c: Command, now: Time) {
    c.ttl > 0 && now > c.createdAt + c.ttl
  }

  /** Which commands may be sent during a firmware update or a sync. */
  predicate Permitted(id: byte, fwMode: bool, syncMode: bool) {
    if fwMode then id in {1, 2, 3, 5, 8, 17, 18, 19, 20, 23, 24}
    else if syncMode then id in {1, 5, 8, 12, 13, 14, 15, 16, 24}
    else true
  }

  lemma PermittedIs(id: byte, fwMode: bool, syncMode: bool)
    ensures Permitted(id, fwMode, syncMode) <==> Allowed(id, fwMode, syncMode)
  {
  }

  /** The payload is longer than the 16-bit length field of a frame allows. */
  predicate TooLong(c: Command, mode: FrameMode) {
    |c.payload| + (if mode == Compact then 2 else 3) > 65535
  }

  predicate InFlight(w: World, e: Entry) {
    e.seqNo in w.sess.inFlight && w.sess.inFlight[e.seqNo] == e
  }

  /** Its acknowledgement did not come in time. */
  predicate TimedOut(cfg: Config, e: Entry, now: Time) {
    now >= e.sentAt + EntryWait(cfg, e)
  }

  /** Nor within two more seconds. */
  predicate GraceOver(cfg: Config, e: Entry, now: Time) {
    now >= e.sentAt + Wrap64(EntryWait(cfg, e) + 2_000_000_000)
  }

  /** When a sweep gives an entry up with a final status. */
  predicate GivenUp(cfg: Config, e: Entry, now: Time, status: AckStatus) {
    && TimedOut(cfg, e, now)
    && match status
       case Expired => PastTtl(e.cmd, now)
       case Failed => !PastTtl(e.cmd, now) && e.attempts > MaxRetries(cfg, e.cmd) && GraceOver(cfg, e, now)
       case _ => false
  }

  /** When a tick gives up a command that is not in flight with a final status. */
  predicate Withdrawn(w: World, now: Time, writeOk: bool, c: Command, status: AckStatus) {
    match status
    case Expired => PastTtl(c, now) && ((w.pc.Outer? && c in Snapshot(w.sess.bands)) || (w.pc.Popped? && w.pc.cmd == c))
    case Failed =>
      || (w.pc.Popped? && w.pc.cmd == c && !PastTtl(c, now) && Permitted(c.commandId, w.pc.l.fw, w.pc.l.sync)
          && !Accepts(c.commandId, c.payload))
      || (w.pc.Numbered? && w.pc.cmd == c && (TooLong(c, w.pc.l.frameMode) || !writeOk))
    case _ => false
  }

  /** The step adds the event for a reason. */
  predicate Caused(cfg: Config, w: World, step: Step, e: Event) {
    match e
    case Enqueued(c) => step.Enqueue? && c == step.cmd.(priority := c.priority)
    case Dropped(c) => step.Enqueue? && cfg.overflow == DropOldestFirst && c in Snapshot(w.sess.bands)
    case EndedQueued(status, c) => step.Run? && Withdrawn(w, step.now, step.writeOk, c, status)
    case EndedFlying(status, entry) =>
      && InFlight(w, entry)
      && (|| (step.Ack? && step.seqNo == entry.seqNo && CodeMeans(step.code, status))
          || (step.Sweep? && GivenUp(cfg, entry, step.now, status)))
    case Wrote(c, frame, _, fwMode, syncMode) =>
      && step.Run? && step.writeOk && w.pc.Numbered? && w.pc.cmd == c && w.pc.seqNo == frame.seqNo
      && w.pc.l.fw == fwMode && w.pc.l.sync == syncMode && w.pc.l.frameMode == frame.mode
    case Overwrote(entry) => step.Run? && w.pc.Written? && w.pc.seqNo == entry.seqNo && InFlight(w, entry)
    case Retrying(entry) =>
      && step.Sweep? && InFlight(w, entry) && TimedOut(cfg, entry, step.now)
      && !PastTtl(entry.cmd, step.now) && entry.attempts <= MaxRetries(cfg, entry.cmd)
    case AcceptedBy(c, seqNo) => step.Run? && w.pc.Registered? && w.pc.cmd == c && w.pc.seqNo == seqNo
    case Progress(seqNo) => step.Ack? && step.seqNo == seqNo && step.code == 5
  }

  // ---- Acknowledgements ----

  /** An acknowledgement with code 5 only says that the command is under way. Any other, of a
      number in flight, ends that entry with one report of what the code means. Of any other
      number it is ignored. */
  lemma AckReports(w: World, seqNo: byte, code: byte, free: int) returns (status: AckStatus)
    ensures code != 5 ==> CodeMeans(code, status)
    ensures var w' := AckStep(w, seqNo, code, free);
            && w'.log == w.log + (if code == 5 then [Progress(seqNo)]
                                  else if seqNo in w.sess.inFlight then [EndedFlying(status, w.sess.inFlight[seqNo])] else [])
            && w'.sess == w.sess.(bufferFree := free, inFlight := if code == 5 then w.sess.inFlight
                                                                  else w.sess.inFlight - {seqNo})
  {
    status := AckStatusOf(code);
    if seqNo !in w.sess.inFlight { assert w.sess.inFlight - {seqNo} == w.sess.inFlight; }
  }

  lemma AckCauses(cfg: Config, w: World, seqNo: byte, code: byte, free: int, i: nat)
    requires Keyed(w.sess.inFlight) && |w.log| <= i < |AckStep(w, seqNo, code, free).log|
    ensures Caused(cfg, w, Ack(seqNo, code, free), AckStep(w, seqNo, code, free).log[i])
  {
    var status := AckReports(w, seqNo, code, free);
  }

  // ---- Enqueueing ----

  lemma DropsFromQueue(cfg: Config, b: Bands, c: Command, i: nat)
    requires i < |MakeRoom(cfg, b, c).1|
    ensures MakeRoom(cfg, b, c).1[i] in Snapshot(b)
  {
    var kept, gone := DropsShortestOldestPrefix(cfg, b, c);
    assert MakeRoom(cfg, b, c).1[i] == Snapshot(b)[gone[i]];
  }

  lemma EnqueueCauses(cfg: Config, w: World, cmd: Command, now: Time, i: nat)
    requires |w.log| <= i < |EnqueueStep(cfg, w, cmd, now).0.log|
    ensures Caused(cfg, w, Enqueue(cmd, now), EnqueueStep(cfg, w, cmd, now).0.log[i])
  {
    if Normalize(cmd).Some? && !IsDuplicate(w.sess, Normalize(cmd).value, now) {
      var c := Normalize(cmd).value;
      var a := Admit(cfg, w.sess.bands, c);
      assert EnqueueStep(cfg, w, cmd, now).0.log ==
             w.log + DroppedEvents(a.dropped) + (if a.status == Sessions.Queued then [Enqueued(c)] else []);
      var j := i - |w.log|;
      if j < |a.dropped| {
        assert EnqueueStep(cfg, w, cmd, now).0.log[i] == Dropped(a.dropped[j]);
        DropsFromQueue(cfg, w.sess.bands, c, j);
      }
    }
  }

  // ---- Sweeps ----

  /** What is left in flight during a sweep was in flight before it. */
  lemma {:induction false} VisitsOnlyRemove(cfg: Config, w: World, order: seq<byte>, now: Time, k: byte)
    requires k in Visits(cfg, w, order, now).sess.inFlight
    ensures k in w.sess.inFlight && Visits(cfg, w, order, now).sess.inFlight[k] == w.sess.inFlight[k]
    decreases |order|
  {
    if order != [] { VisitsOnlyRemove(cfg, w, order[..|order| - 1], now, k); }
  }

  lemma VerdictCauses(cfg: Config, w: World, key: byte, now: Time, order: seq<byte>)
    requires key in w.sess.inFlight && w.sess.inFlight[key].seqNo == key && Judge(cfg, w.sess.inFlight[key], now) != Keep
    ensures var v := Visit(cfg, w, key, now);
            |v.log| == |w.log| + 1 && v.log[..|w.log|] == w.log && Caused(cfg, w, Sweep(order, now), v.log[|w.log|])
  {
  }

  /** A cause seen during a sweep was there when it began. */
  lemma CausedBefore(cfg: Config, w: World, v: World, step: Step, e: Event)
    requires step.Sweep? && Caused(cfg, v, step, e)
    requires forall k :: k in v.sess.inFlight ==> k in w.sess.inFlight && v.sess.inFlight[k] == w.sess.inFlight[k]
    ensures Caused(cfg, w, step, e)
  {
  }

  lemma {:induction false} VisitsCause(cfg: Config, w: World, visited: seq<byte>, order: seq<byte>, now: Time, i: nat)
    requires Keyed(w.sess.inFlight) && |w.log| <= i < |Visits(cfg, w, visited, now).log|
    ensures Caused(cfg, w, Sweep(order, now), Visits(cfg, w, visited, now).log[i])
    decreases |visited|
  {
    if visited != [] {
      var init, key := visited[..|visited| - 1], visited[|visited| - 1];
      var v := Visits(cfg, w, init, now);
      if key in v.sess.inFlight && Judge(cfg, v.sess.inFlight[key], now) != Keep {
        VisitsOnlyRemove(cfg, w, init, now, key);
        VerdictCauses(cfg, v, key, now, order);
      }
      if i < |v.log| {
        VisitsCause(cfg, w, init, order, now, i);
      } else {
        LastVisitCauses(cfg, w, init, key, order, now);
      }
    }
  }

  lemma LastVisitCauses(cfg: Config, w: World, init: seq<byte>, key: byte, order: seq<byte>, now: Time)
    requires Keyed(w.sess.inFlight)
    requires var v := Visits(cfg, w, init, now); |Visit(cfg, v, key, now).log| > |v.log|
    ensures var v := Visits(cfg, w, init, now); Caused(cfg, w, Sweep(order, now), Visit(cfg, v, key, now).log[|v.log|])
  {
    var v := Visits(cfg, w, init, now);
    forall k | k in v.sess.inFlight ensures k in w.sess.inFlight && v.sess.inFlight[k] == w.sess.inFlight[k] {
      VisitsOnlyRemove(cfg, w, init, now, k);
    }
    VerdictCauses(cfg, v, key, now, order);
    CausedBefore(cfg, w, v, Sweep(order, now), Visit(cfg, v, key, now).log[|v.log|]);
  }

  // ---- Ticks ----

  lemma ExpiredInQueue(b: Bands, now: Time, c: Command)
    requires c in Drained(b, now)
    ensures c in Snapshot(b) && PastTtl(c, now)
  {
    var gone := Not(Live(now));
    FilterMembers(b.high, gone);
    FilterMembers(b.fw, gone);
    FilterMembers(b.sync, gone);
    FilterMembers(b.query, gone);
  }

  lemma OuterCauses(cfg: Config, w: World, now: Time, writeOk: bool, i: nat)
    requires w.pc.Outer? && |w.log| <= i < |Tick(w, now, writeOk).log|
    ensures Caused(cfg, w, Run(now, writeOk), Tick(w, now, writeOk).log[i])
  {
    var gone := Drained(w.sess.bands, now);
    assert Tick(w, now, writeOk).log[i] == EndedQueued(Expired, gone[i - |w.log|]);
    ExpiredInQueue(w.sess.bands, now, gone[i - |w.log|]);
  }

  lemma PoppedCauses(cfg: Config, w: World, now: Time, writeOk: bool, finding: Finding)
    requires w.pc.Popped? && finding == Examine(w.pc.cmd, w.pc.l, now)
    ensures var w' := TickPopped(w, w.pc.l, w.pc.left, w.pc.cmd, now, finding);
            && |w.log| <= |w'.log| <= |w.log| + 1
            && (|w'.log| > |w.log| ==> Caused(cfg, w, Run(now, writeOk), w'.log[|w.log|]))
  {
    PermittedIs(w.pc.cmd.commandId, w.pc.l.fw, w.pc.l.sync);
  }

  lemma NumberedCauses(cfg: Config, w: World, now: Time, writeOk: bool, o: Outcome)
    requires w.pc.Numbered? && o == Dispatch(FrameFor(w.pc.cmd, w.pc.seqNo, w.pc.l.frameMode), w.pc.l, writeOk)
    ensures var w' := TickNumbered(w, w.pc.l, w.pc.left, w.pc.cmd, w.pc.seqNo, w.pc.checkedAt, o);
            && |w.log| <= |w'.log| <= |w.log| + 1
            && (|w'.log| > |w.log| ==> Caused(cfg, w, Run(now, writeOk), w'.log[|w.log|]))
  {
  }

  lemma RestCauses(cfg: Config, w: World, now: Time, writeOk: bool)
    requires !w.pc.Outer? && !w.pc.Popped? && !w.pc.Numbered? && Keyed(w.sess.inFlight)
    ensures var w' := Tick(w, now, writeOk);
            && |w.log| <= |w'.log| <= |w.log| + 1
            && (|w'.log| > |w.log| ==> Caused(cfg, w, Run(now, writeOk), w'.log[|w.log|]))
  {
  }

  lemma TickCauses(cfg: Config, w: World, now: Time, writeOk: bool, i: nat)
    requires Keyed(w.sess.inFlight) && |w.log| <= i < |Tick(w, now, writeOk).log|
    ensures Caused(cfg, w, Run(now, writeOk), Tick(w, now, writeOk).log[i])
  {
    match w.pc
    case Outer(_) => OuterCauses(cfg, w, now, writeOk, i);
    case Popped(l, _, cmd) => PoppedCauses(cfg, w, now, writeOk, Examine(cmd, l, now));
    case Numbered(l, _, cmd, seqNo, _) =>
      NumberedCauses(cfg, w, now, writeOk, Dispatch(FrameFor(cmd, seqNo, l.frameMode), l, writeOk));
    case _ => RestCauses(cfg, w, now, writeOk);
  }

  // ---- Runs ----

  lemma StepCauses(cfg: Config, w: World, step: Step, i: nat)
    requires Keyed(w.sess.inFlight) && |w.log| <= i < |Apply(cfg, w, step).log|
    ensures Caused(cfg, w, step, Apply(cfg, w, step).log[i])
  {
    match step
    case Enqueue(cmd, now) => EnqueueCauses(cfg, w, cmd, now, i);
    case Ack(seqNo, code, free) => AckCauses(cfg, w, seqNo, code, free, i);
    case Sweep(order, now) => VisitsCause(cfg, w, order, order, now, i);
    case Run(now, writeOk) => TickCauses(cfg, w, now, writeOk, i);
    case _ =>
  }

  /** Event i of the log was added by step k, which had cause to. */
  predicate AddedBy(cfg: Config, steps: seq<Step>, e: Event, i: nat, k: nat) {
    && k < |steps|
    && |After(cfg, START, steps[..k]).log| <= i < |After(cfg, START, steps[..k + 1]).log|
    && Caused(cfg, After(cfg, START, steps[..k]), steps[k], e)
  }

  lemma AddedEarlier(cfg: Config, steps: seq<Step>, e: Event, i: nat, k: nat)
    requires steps != [] && AddedBy(cfg, steps[..|steps| - 1], e, i, k)
    ensures AddedBy(cfg, steps, e, i, k)
  {
    var init := steps[..|steps| - 1];
    assert init[..k] == steps[..k] && init[..k + 1] == steps[..k + 1];
  }

  lemma AddedLast(cfg: Config, steps: seq<Step>, i: nat)
    requires Possible(cfg, START, steps) && steps != []
    requires |After(cfg, START, steps[..|steps| - 1]).log| <= i < |After(cfg, START, steps).log|
    ensures AddedBy(cfg, steps, After(cfg, START, steps).log[i], i, |steps| - 1)
  {
    var n := |steps| - 1;
    Unroll(cfg, START, steps);
    assert steps[..n + 1] == steps;
    StartSound(cfg);
    InvAlways(cfg, START, steps[..n]);
    StepCauses(cfg, After(cfg, START, steps[..n]), steps[n], i);
  }

  /** In every run, every event in the log was added by a step that had cause to: final reports
      by the acknowledgement code, the time limit, the retries used up or the payload. */
  lemma {:induction false} EveryEventHasItsCause(cfg: Config, steps: seq<Step>, i: nat) returns (k: nat)
    requires Possible(cfg, START, steps) && i < |After(cfg, START, steps).log|
    ensures AddedBy(cfg, steps, After(cfg, START, steps).log[i], i, k)
    decreases |steps|
  {
    var n := |steps| - 1;
    if n >= 0 && i < |After(cfg, START, steps[..n]).log| {
      Unroll(cfg, START, steps);
      k := EveryEventHasItsCause(cfg, steps[..n], i);
      var added := NewEvents(cfg, After(cfg, START, steps[..n]), steps[n]);
      AddedEarlier(cfg, steps, After(cfg, START, steps).log[i], i, k);
    } else {
      k := n;
      AddedLast(cfg, steps, i);
    }
  }

  // ---- Nothing is reported of a command in flight that was not written ----

  predicate WasWritten(log: seq<Event>, c: Command, seqNo: byte) {
    exists i :: 0 <= i < |log| && log[i].Wrote? && log[i].cmd == c && log[i].frame.seqNo == seqNo
  }

  predicate TableWritten(log: seq<Event>, m: Table) {
    forall k :: k in m ==> WasWritten(log, m[k].cmd, k)
  }

  /** What is in flight, in memory and in the store, was written under its number. */
  predicate AllWritten(w: World) {
    && TableWritten(w.log, w.sess.inFlight)
    && TableWritten(w.log, Reloaded(w).sess.inFlight)
    && (w.pc.Written? ==> WasWritten(w.log, w.pc.cmd, w.pc.seqNo))
  }

  lemma StaysWritten(log: seq<Event>, added: seq<Event>, c: Command, seqNo: byte)
    requires WasWritten(log, c, seqNo)
    ensures WasWritten(log + added, c, seqNo)
  {
    var i :| 0 <= i < |log| && log[i].Wrote? && log[i].cmd == c && log[i].frame.seqNo == seqNo;
    assert (log + added)[i] == log[i];
  }

  lemma TableStaysWritten(log: seq<Event>, added: seq<Event>, m: Table)
    requires TableWritten(log, m)
    ensures TableWritten(log + added, m)
  {
    forall k | k in m ensures WasWritten(log + added, m[k].cmd, k) { StaysWritten(log, added, m[k].cmd, k); }
  }

  /** A step adds to the table only the command whose write came just before. */
  lemma TableGrowsBy(cfg: Config, w: World, step: Step, k: byte)
    requires !step.Restart? && k in Apply(cfg, w, step).sess.inFlight
    ensures var m' := Apply(cfg, w, step).sess.inFlight;
            || (k in w.sess.inFlight && m'[k] == w.sess.inFlight[k])
            || (step.Run? && w.pc.Written? && w.pc.seqNo == k && m'[k].cmd == w.pc.cmd)
  {
    match step
    case Sweep(order, now) => VisitsOnlyRemove(cfg, w, order, now, k);
    case Enqueue(cmd, now) => EnqueueShape(cfg, w, cmd, now);
    case Run(now, writeOk) => TickGrowsBy(w, now, writeOk, k);
    case _ =>
  }

  lemma TickGrowsBy(w: World, now: Time, writeOk: bool, k: byte)
    requires k in Tick(w, now, writeOk).sess.inFlight
    ensures var m' := Tick(w, now, writeOk).sess.inFlight;
            || (k in w.sess.inFlight && m'[k] == w.sess.inFlight[k])
            || (w.pc.Written? && w.pc.seqNo == k && m'[k].cmd == w.pc.cmd)
  {
    match w.pc
    case Popped(l, left, cmd) =>
      assert Tick(w, now, writeOk) == TickPopped(w, l, left, cmd, now, Examine(cmd, l, now));
    case Numbered(l, left, cmd, seqNo, checkedAt) =>
      var o := Dispatch(FrameFor(cmd, seqNo, l.frameMode), l, writeOk);
      assert Tick(w, now, writeOk) == TickNumbered(w, l, left, cmd, seqNo, checkedAt, o);
    case Written(_, _, _) =>
    case _ => TickTable(w, now, writeOk);
  }

  lemma MemoryWritten(cfg: Config, w: World, step: Step)
    requires AllWritten(w) && !step.Restart?
    ensures TableWritten(Apply(cfg, w, step).log, Apply(cfg, w, step).sess.inFlight)
  {
    var w' := Apply(cfg, w, step);
    var added := NewEvents(cfg, w, step);
    forall k | k in w'.sess.inFlight ensures WasWritten(w'.log, w'.sess.inFlight[k].cmd, k) {
      TableGrowsBy(cfg, w, step, k);
      if k in w.sess.inFlight && w'.sess.inFlight[k] == w.sess.inFlight[k] {
        StaysWritten(w.log, added, w.sess.inFlight[k].cmd, k);
      } else {
        StaysWritten(w.log, added, w.pc.cmd, k);
      }
    }
  }

  lemma PcWritten(cfg: Config, w: World, step: Step)
    requires AllWritten(w)
    ensures var w' := Apply(cfg, w, step); w'.pc.Written? ==> WasWritten(w'.log, w'.pc.cmd, w'.pc.seqNo)
  {
    var w' := Apply(cfg, w, step);
    if w'.pc.Written? {
      if step.Run? {
        TickPcWritten(w, step.now, step.writeOk);
      } else if !step.Flush? && !step.Restart? {
        var added := NewEvents(cfg, w, step);
        OthersLeavePc(cfg, w, step);
        StaysWritten(w.log, added, w.pc.cmd, w.pc.seqNo);
      }
    }
  }

  lemma TickPcWritten(w: World, now: Time, writeOk: bool)
    requires Tick(w, now, writeOk).pc.Written?
    ensures var w' := Tick(w, now, writeOk); WasWritten(w'.log, w'.pc.cmd, w'.pc.seqNo)
  {
    if w.pc.Numbered? {
      var Numbered(l, left, cmd, seqNo, checkedAt) := w.pc;
      var w' := TickNumbered(w, l, left, cmd, seqNo, checkedAt, Dispatch(FrameFor(cmd, seqNo, l.frameMode), l, writeOk));
      assert w'.log[|w.log|].Wrote?;
    } else {
      var added := QuietTick(w, now, writeOk);
      assert false;
    }
  }

  lemma StepWritten(cfg: Config, w: World, step: Step)
    requires Sound(cfg, w) && Enabled(w, step) && AllWritten(w)
    ensures AllWritten(Apply(cfg, w, step))
  {
    var w' := Apply(cfg, w, step);
    PcWritten(cfg, w, step);
    if step.Restart? {
      assert Reloaded(w').sess.inFlight == w'.sess.inFlight;
    } else {
      MemoryWritten(cfg, w, step);
      StoreWritten(cfg, w, step);
    }
  }

  lemma StoreWritten(cfg: Config, w: World, step: Step)
    requires Sound(cfg, w) && Enabled(w, step) && AllWritten(w) && !step.Restart?
    requires TableWritten(Apply(cfg, w, step).log, Apply(cfg, w, step).sess.inFlight)
    ensures TableWritten(Apply(cfg, w, step).log, Reloaded(Apply(cfg, w, step)).sess.inFlight)
  {
    var w' := Apply(cfg, w, step);
    SavesExactly(cfg, w, step);
    if Saves(cfg, w, step) {
      StepKeeps(cfg, w, step);
      SyncedReload(w');
    } else {
      var added := NewEvents(cfg, w, step);
      TableStaysWritten(w.log, added, Reloaded(w).sess.inFlight);
    }
  }

  lemma {:induction false} AllWrittenAlways(cfg: Config, steps: seq<Step>)
    requires Possible(cfg, START, steps)
    ensures AllWritten(After(cfg, START, steps))
    decreases |steps|
  {
    StartSound(cfg);
    if steps == [] {
      SyncedReload(START);
    } else {
      var init := steps[..|steps| - 1];
      Unroll(cfg, START, steps);
      AllWrittenAlways(cfg, init);
      InvAlways(cfg, START, init);
      StepWritten(cfg, After(cfg, START, init), steps[|steps| - 1]);
    }
  }

  /** In every run, whatever is reported of a command in flight, that command was written before,
      under the number it is reported with. */
  lemma ReportedWasWritten(cfg: Config, steps: seq<Step>, i: nat)
    requires Possible(cfg, START, steps) && i < |After(cfg, START, steps).log|
    requires var e := After(cfg, START, steps).log[i]; e.EndedFlying? || e.Retrying? || e.Overwrote?
    ensures var log := After(cfg, START, steps).log; WasWritten(log[..i], log[i].entry.cmd, log[i].entry.seqNo)
  {
    var log := After(cfg, START, steps).log;
    var k := EveryEventHasItsCause(cfg, steps, i);
    WrittenByThen(cfg, steps, log[i], i, k);
    LogPrefix(cfg, steps, k);
    PrefixWritten(After(cfg, START, steps[..k]).log, log, i, log[i].entry);
  }

  lemma WrittenByThen(cfg: Config, steps: seq<Step>, e: Event, i: nat, k: nat)
    requires Possible(cfg, START, steps) && AddedBy(cfg, steps, e, i, k) && (e.EndedFlying? || e.Retrying? || e.Overwrote?)
    ensures WasWritten(After(cfg, START, steps[..k]).log, e.entry.cmd, e.entry.seqNo)
  {
    PossiblePrefix(cfg, steps, k);
    AllWrittenAlways(cfg, steps[..k]);
    assert InFlight(After(cfg, START, steps[..k]), e.entry);
  }

  lemma PrefixWritten(early: seq<Event>, log: seq<Event>, i: nat, e: Entry)
    requires |early| <= i <= |log| && log[..|early|] == early && WasWritten(early, e.cmd, e.seqNo)
    ensures WasWritten(log[..i], e.cmd, e.seqNo)
  {
    assert log[..i] == early + log[|early|..i];
    StaysWritten(early, log[|early|..i], e.cmd, e.seqNo);
  }

  lemma PossiblePrefix(cfg: Config, steps: seq<Step>, k: nat)
    requires Possible(cfg, START, steps) && k <= |steps|
    ensures Possible(cfg, START, steps[..k])
  {
    forall i | 0 <= i < k ensures Enabled(After(cfg, START, steps[..k][..i]), steps[..k][i]) {
      assert steps[..k][..i] == steps[..i];
    }
  }

  lemma {:induction false} LogPrefix(cfg: Config, steps: seq<Step>, k: nat)
    requires k <= |steps|
    ensures var v, w := After(cfg, START, steps[..k]), After(cfg, START, steps);
            |v.log| <= |w.log| && w.log[..|v.log|] == v.log
    decreases |steps|
  {
    if k < |steps| {
      var init := steps[..|steps| - 1];
      LogPrefix(cfg, init, k);
      assert init[..k] == steps[..k];
      var added := NewEvents(cfg, After(cfg, START, init), steps[|steps| - 1]);
    } else {
      assert steps[..k] == steps;
    }
  }
}
