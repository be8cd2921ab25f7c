/** internal/server/command_policy.go and the mode switches of flushQueue: which command stands in
    which band, what starts and ends a mode, and what is sent in it. Ids are written out here. */
module ModeRules {
  import opened Bytes
  import opened Results
  import opened Framing
  import opened Commands
  import opened PriorityBands
  import opened Policy
  import opened Sessions
  import opened Engine
  import opened Events
  import opened Invariants
  import opened Delivery
  import opened FlushSafety
  import opened Reports

  /** The ids of the protocol that the server sends: all but 4. */
  lemma SupportedIds(id: byte)
    ensures CanonicalPriority(id).Some? <==> id != 4 && (1 <= id <= 25 || id == 27)
  {
  }

  /** Which ids a band holds. */
  predicate BandHolds(band: nat, id: byte) {
    match band
    case 0 => id in {1, 2, 3, 5, 8, 17, 18, 19, 23, 24}
    case 1 => id == 20
    case 2 => id in {12, 13, 14, 15, 16}
    case _ => id in {6, 7, 9, 10, 11, 21, 22, 25, 27}
  }

  predicate AllOfBand(s: seq<Command>, band: nat) {
    forall i :: 0 <= i < |s| ==> BandHolds(band, s[i].commandId)
  }

  lemma InItsBand(cfg: Config, s: seq<Command>, band: nat)
    requires AllFit(Bounded(cfg), s) && band <= 3 && forall c :: c in s ==> BandOf(c.priority) == band
    ensures AllOfBand(s, band)
  {
    forall i | 0 <= i < |s| ensures BandHolds(band, s[i].commandId) {
      FitMeans(cfg, s[i]);
      assert s[i] in s;
    }
  }

  /** In every run, urgent commands, firmware blocks, sync commands and requests stand in their
      own bands, by id. */
  lemma BandsById(cfg: Config, steps: seq<Step>)
    requires Possible(cfg, START, steps)
    ensures var b := After(cfg, START, steps).sess.bands;
            AllOfBand(b.high, 0) && AllOfBand(b.fw, 1) && AllOfBand(b.sync, 2) && AllOfBand(b.query, 3)
  {
    StartSound(cfg);
    InvAlways(cfg, START, steps);
    var b := After(cfg, START, steps).sess.bands;
    InItsBand(cfg, b.high, 0);
    InItsBand(cfg, b.fw, 1);
    InItsBand(cfg, b.sync, 2);
    InItsBand(cfg, b.query, 3);
  }

  /** In every run, a flush in firmware mode writes only urgent commands and firmware blocks, and
      one in sync mode only sync commands and four urgent ones. */
  lemma ModesObeyed(cfg: Config, steps: seq<Step>, i: nat)
    requires Possible(cfg, START, steps)
    requires i < |After(cfg, START, steps).log| && After(cfg, START, steps).log[i].Wrote?
    ensures var e := After(cfg, START, steps).log[i]; Permitted(e.cmd.commandId, e.fwMode, e.syncMode)
  {
    var e := After(cfg, START, steps).log[i];
    SafeAlways(cfg, steps);
    assert WriteSafe(e);
    PermittedIs(e.cmd.commandId, e.fwMode, e.syncMode);
  }

  // ---- Changes of mode ----

  /** What a step makes of a mode: on when a command with one of these ids is registered, off when
      a flush that sent something finds its band empty, otherwise as it was. */
  function ModeAfter(w: World, step: Step, was: bool, starts: set<byte>, ends: bool): bool {
    if step.Run? && w.pc.Registered? && w.pc.cmd.commandId in starts then true
    else if step.Run? && ends then false
    else was
  }

  /** Firmware mode starts with command 19, sync mode with the commands 12 to 16, and nothing else
      in a run starts them but an explicit request for firmware mode. */
  lemma ModeChanges(cfg: Config, w: World, step: Step)
    requires !step.Restart?
    ensures var s, s' := w.sess, Apply(cfg, w, step).sess;
            && s'.fwMode == (if step.SetFwMode? then step.on else ModeAfter(w, step, s.fwMode, {19}, w.pc.FwOff?))
            && s'.syncMode == ModeAfter(w, step, s.syncMode, {12, 13, 14, 15, 16}, w.pc.SyncOff?)
  {
    match step
    case Enqueue(cmd, now) => EnqueueModes(cfg, w, cmd, now);
    case Sweep(order, now) => VisitsModes(cfg, w, order, now);
    case Run(now, writeOk) => TickModes(w, now, writeOk);
    case _ =>
  }

  lemma EnqueueModes(cfg: Config, w: World, cmd: Command, now: Time)
    ensures var s' := EnqueueStep(cfg, w, cmd, now).0.sess; s'.fwMode == w.sess.fwMode && s'.syncMode == w.sess.syncMode
  {
  }

  lemma {:induction false} VisitsModes(cfg: Config, w: World, order: seq<byte>, now: Time)
    ensures var s' := Visits(cfg, w, order, now).sess; s'.fwMode == w.sess.fwMode && s'.syncMode == w.sess.syncMode
    decreases |order|
  {
    if order != [] { VisitsModes(cfg, w, order[..|order| - 1], now); }
  }

  lemma TickModes(w: World, now: Time, writeOk: bool)
    ensures var s, s' := w.sess, Tick(w, now, writeOk).sess;
            && s'.fwMode == ModeAfter(w, Run(now, writeOk), s.fwMode, {19}, w.pc.FwOff?)
            && s'.syncMode == ModeAfter(w, Run(now, writeOk), s.syncMode, {12, 13, 14, 15, 16}, w.pc.SyncOff?)
  {
    match w.pc
    case Popped(l, left, cmd) =>
      assert Tick(w, now, writeOk) == TickPopped(w, l, left, cmd, now, Examine(cmd, l, now));
    case Numbered(l, left, cmd, seqNo, checkedAt) =>
      var o := Dispatch(FrameFor(cmd, seqNo, l.frameMode), l, writeOk);
      assert Tick(w, now, writeOk) == TickNumbered(w, l, left, cmd, seqNo, checkedAt, o);
    case _ =>
  }

  /** A flush goes by the modes of the session when it starts, and follows them as it changes them;
      it ends a mode exactly when it has sent something and the band of that mode is empty. */
  lemma FlushModes(w: World, now: Time, writeOk: bool)
    requires w.pc != Idle
    ensures var pc, pc' := w.pc, Tick(w, now, writeOk).pc;
            && (pc' != Idle ==>
                  && pc'.l.fw == ModeAfter(w, Run(now, writeOk), pc.l.fw, {19}, pc.FwOff?)
                  && pc'.l.sync == ModeAfter(w, Run(now, writeOk), pc.l.sync, {12, 13, 14, 15, 16}, pc.SyncOff?))
            && (pc'.SyncOff? <==> pc.ClearSync? && pc.l.sync && w.sess.bands.sync == [])
            && (pc'.FwOff? <==> pc.ClearFw? && pc.l.fw && w.sess.bands.fw == [])
  {
    match w.pc
    case Popped(l, left, cmd) =>
      assert Tick(w, now, writeOk) == TickPopped(w, l, left, cmd, now, Examine(cmd, l, now));
    case Numbered(l, left, cmd, seqNo, checkedAt) =>
      var o := Dispatch(FrameFor(cmd, seqNo, l.frameMode), l, writeOk);
      assert Tick(w, now, writeOk) == TickNumbered(w, l, left, cmd, seqNo, checkedAt, o);
    case _ =>
  }

  /** A flush starts only on an open line with nothing in flight. It takes over the modes and what
      the controller has told of its buffer, 1500 bytes if that is nothing. */
  lemma FlushStarts(w: World)
    requires w.pc == Idle
    ensures FlushStep(w).pc != Idle <==> w.sess.online && w.sess.inFlight == map[]
    ensures FlushStep(w).pc != Idle ==>
              var l := FlushStep(w).pc.l;
              && l.fw == w.sess.fwMode && l.sync == w.sess.syncMode && l.frameMode == w.sess.frameMode
              && l.remaining == (if w.sess.bufferFree > 0 then w.sess.bufferFree else 1500)
  {
  }
}
