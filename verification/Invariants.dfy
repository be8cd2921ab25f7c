/** What every step of the delivery engine keeps. */
module Invariants {
  import opened Bytes
  import opened Messages
  import opened Sums
  import opened Commands
  import opened PriorityBands
  import opened Policy
  import opened Sessions
  import opened Engine
  import opened Persistence

  /** A property of a command's identity and its number of attempts. */
  type Rule = (Command, int) -> bool

  predicate Fit(ok: Rule, c: Command) {
    ok(Core(c), c.attempts)
  }

  predicate AllFit(ok: Rule, s: seq<Command>) {
    forall i :: 0 <= i < |s| ==> Fit(ok, s[i])
  }

  predicate BandsFit(ok: Rule, b: Bands) {
    AllFit(ok, b.high) && AllFit(ok, b.fw) && AllFit(ok, b.sync) && AllFit(ok, b.query)
  }

  /** An entry counts one attempt more than the command it was made from, and the command
      has given up its claim on a sequence number. */
  predicate EntryFit(ok: Rule, e: Entry) {
    Fit(ok, e.cmd) && e.attempts == e.cmd.attempts + 1 && e.cmd.retrySeq == 0
  }

  predicate TableFit(ok: Rule, m: Table) {
    forall k :: k in m ==> EntryFit(ok, m[k])
  }

  predicate PcFit(ok: Rule, pc: Pc) {
    && Tidy(pc)
    && (pc != Idle ==> AllFit(ok, pc.l.skipped))
    && (pc.Popped? ==> Fit(ok, pc.cmd))
    && (pc.Numbered? || pc.Written? ==> Fit(ok, pc.cmd) && pc.cmd.retrySeq == 0)
  }

  predicate EventFit(ok: Rule, e: Event) {
    match e
    case Enqueued(c) => Fit(ok, c) && c.attempts == 0
    case Dropped(c) => Fit(ok, c)
    case EndedQueued(status, c) => Fit(ok, c) && IsTerminal(status)
    case EndedFlying(status, entry) => EntryFit(ok, entry) && IsTerminal(status)
    case Wrote(c, _, _, _, _) => Fit(ok, c)
    case Overwrote(entry) => EntryFit(ok, entry)
    case Retrying(entry) => EntryFit(ok, entry) && ok(Core(entry.cmd), entry.attempts)
    case AcceptedBy(_, _) => true
    case Progress(_) => true
  }

  predicate LogFit(ok: Rule, log: seq<Event>) {
    forall i :: 0 <= i < |log| ==> EventFit(ok, log[i])
  }

  /** The invariant: bands match priorities, table keys match sequence numbers, and the
      rule holds of every command anywhere. */
  predicate Inv(ok: Rule, w: World) {
    Waits(ok, w) && Records(ok, w)
  }

  /** The part about commands in the queue or in the hands of a flush. */
  predicate Waits(ok: Rule, w: World) {
    Sorted(w.sess.bands) && BandsFit(ok, w.sess.bands) && PcFit(ok, w.pc)
  }

  /** The part about the in-flight table and the log. */
  predicate Records(ok: Rule, w: World) {
    Keyed(w.sess.inFlight) && TableFit(ok, w.sess.inFlight) && LogFit(ok, w.log)
  }

  // ---- Queue operations ----

  lemma PushKeeps(ok: Rule, b: Bands, c: Command)
    requires Sorted(b) && BandsFit(ok, b) && Fit(ok, c)
    ensures Sorted(Push(b, c)) && BandsFit(ok, Push(b, c))
  {
  }

  lemma PopKeeps(ok: Rule, b: Bands, fwMode: bool, syncMode: bool)
    requires Sorted(b) && BandsFit(ok, b) && PopNext(b, fwMode, syncMode).Some?
    ensures var (c, rest) := PopNext(b, fwMode, syncMode).value;
            Fit(ok, c) && Sorted(rest) && BandsFit(ok, rest)
  {
  }

  lemma FilterFit(ok: Rule, s: seq<Command>, p: Command -> bool)
    requires AllFit(ok, s)
    ensures AllFit(ok, Filter(s, p))
  {
    FilterMembers(s, p);
  }

  lemma DrainSorted(b: Bands, now: Time)
    requires Sorted(b)
    ensures Sorted(Unexpired(b, now))
  {
    FilterMembers(b.high, Live(now));
    FilterMembers(b.fw, Live(now));
    FilterMembers(b.sync, Live(now));
    FilterMembers(b.query, Live(now));
  }

  lemma DrainKeeps(ok: Rule, b: Bands, now: Time)
    requires Sorted(b) && BandsFit(ok, b)
    ensures Sorted(Unexpired(b, now)) && BandsFit(ok, Unexpired(b, now))
    ensures AllFit(ok, Drained(b, now))
  {
    var live, gone := Live(now), Not(Live(now));
    DrainSorted(b, now);
    FilterFit(ok, b.high, live);
    FilterFit(ok, b.fw, live);
    FilterFit(ok, b.sync, live);
    FilterFit(ok, b.query, live);
    FilterFit(ok, b.high, gone);
    FilterFit(ok, b.fw, gone);
    FilterFit(ok, b.sync, gone);
    FilterFit(ok, b.query, gone);
  }

  lemma RemoveKeeps(ok: Rule, b: Bands, i: nat)
    requires Sorted(b) && BandsFit(ok, b) && i < Length(b)
    ensures Fit(ok, Snapshot(b)[i]) && Sorted(RemoveFrom(b, i)) && BandsFit(ok, RemoveFrom(b, i))
  {
    var j := i - |b.high|;
    var k := j - |b.fw|;
    var l := k - |b.sync|;
    if j < 0 {
      assert Snapshot(b)[i] == b.high[i];
    } else if k < 0 {
      assert Snapshot(b)[i] == b.fw[j];
    } else if l < 0 {
      assert Snapshot(b)[i] == b.sync[k];
    } else {
      assert Snapshot(b)[i] == b.query[l];
    }
  }

  lemma {:induction false} MakeRoomKeeps(ok: Rule, cfg: Config, b: Bands, c: Command)
    requires Sorted(b) && BandsFit(ok, b)
    ensures var (rest, dropped) := MakeRoom(cfg, b, c);
            Sorted(rest) && BandsFit(ok, rest) && AllFit(ok, dropped)
    decreases Length(b)
  {
    if !(Fits(cfg, b, c) || Length(b) == 0) {
      RemoveKeeps(ok, b, Oldest(Snapshot(b)));
      MakeRoomKeeps(ok, cfg, DropOldest(b), c);
    }
  }

  lemma AdmitKeeps(ok: Rule, cfg: Config, b: Bands, c: Command)
    requires Sorted(b) && BandsFit(ok, b) && Fit(ok, c)
    ensures var a := Admit(cfg, b, c);
            Sorted(a.bands) && BandsFit(ok, a.bands) && AllFit(ok, a.dropped)
  {
    if Fits(cfg, b, c) {
      PushKeeps(ok, b, c);
    } else if cfg.overflow == DropOldestFirst {
      MakeRoomKeeps(ok, cfg, b, c);
      PushKeeps(ok, MakeRoom(cfg, b, c).0, c);
    }
  }

  // ---- Steps ----

  lemma EnqueueWaits(ok: Rule, cfg: Config, w: World, cmd: Command, now: Time)
    requires Waits(ok, w) && (Normalize(cmd).Some? ==> Fit(ok, Normalize(cmd).value))
    ensures Waits(ok, EnqueueStep(cfg, w, cmd, now).0)
  {
    if Normalize(cmd).Some? { AdmitKeeps(ok, cfg, w.sess.bands, Normalize(cmd).value); }
  }

  lemma EnqueueRecords(ok: Rule, cfg: Config, w: World, cmd: Command, now: Time)
    requires Inv(ok, w)
    requires Normalize(cmd).Some? ==> Fit(ok, Normalize(cmd).value) && cmd.attempts == 0
    ensures Records(ok, EnqueueStep(cfg, w, cmd, now).0)
  {
    if Normalize(cmd).Some? {
      var c := Normalize(cmd).value;
      AdmitKeeps(ok, cfg, w.sess.bands, c);
      LogGrows(ok, w.log, Admit(cfg, w.sess.bands, c).dropped, c);
    }
  }

  lemma EnqueueKeeps(ok: Rule, cfg: Config, w: World, cmd: Command, now: Time)
    requires Inv(ok, w)
    requires Normalize(cmd).Some? ==> Fit(ok, Normalize(cmd).value) && cmd.attempts == 0
    ensures Inv(ok, EnqueueStep(cfg, w, cmd, now).0)
  {
    EnqueueWaits(ok, cfg, w, cmd, now);
    EnqueueRecords(ok, cfg, w, cmd, now);
  }

  lemma LogGrows(ok: Rule, log: seq<Event>, dropped: seq<Command>, c: Command)
    requires LogFit(ok, log) && AllFit(ok, dropped) && Fit(ok, c) && c.attempts == 0
    ensures LogFit(ok, log + DroppedEvents(dropped)) && LogFit(ok, log + DroppedEvents(dropped) + [Enqueued(c)])
  {
    var more := DroppedEvents(dropped);
    forall i | 0 <= i < |log + more| ensures EventFit(ok, (log + more)[i]) {
      if i >= |log| { assert (log + more)[i] == Dropped(dropped[i - |log|]); }
    }
  }

  lemma AckKeeps(ok: Rule, w: World, seqNo: byte, code: byte, free: int)
    requires Inv(ok, w)
    ensures Inv(ok, AckStep(w, seqNo, code, free))
  {
  }

  lemma SettleKeeps(ok: Rule, w: World, key: byte, verdict: Verdict)
    requires Inv(ok, w) && key in w.sess.inFlight
    requires verdict == Retry ==> ok(Core(w.sess.inFlight[key].cmd), w.sess.inFlight[key].attempts)
    ensures Inv(ok, Settle(w, key, verdict))
  {
    var e := w.sess.inFlight[key];
    assert Core(Requeued(e, key)) == Core(e.cmd);
    if verdict == Retry { PushKeeps(ok, w.sess.bands, Requeued(e, key)); }
  }

  lemma TickPoppedWaits(ok: Rule, w: World, now: Time, finding: Finding)
    requires Waits(ok, w) && w.pc.Popped?
    ensures Waits(ok, TickPopped(w, w.pc.l, w.pc.left, w.pc.cmd, now, finding))
  {
    assert Core(w.pc.cmd.(retrySeq := 0)) == Core(w.pc.cmd);
  }

  lemma TickNumberedWaits(ok: Rule, w: World, o: Outcome)
    requires Waits(ok, w) && w.pc.Numbered? && (o.Sent? ==> o.size <= w.pc.l.remaining)
    ensures Waits(ok, TickNumbered(w, w.pc.l, w.pc.left, w.pc.cmd, w.pc.seqNo, w.pc.checkedAt, o))
  {
    if o == OverBudget { PushKeeps(ok, w.sess.bands, w.pc.cmd); }
  }

  lemma TickOuterWaits(ok: Rule, w: World, now: Time, writeOk: bool)
    requires Waits(ok, w) && w.pc.Outer?
    ensures Waits(ok, Tick(w, now, writeOk))
  {
    DrainKeeps(ok, w.sess.bands, now);
  }

  lemma TickInnerWaits(ok: Rule, w: World, now: Time, writeOk: bool)
    requires Waits(ok, w) && w.pc.Inner?
    ensures Waits(ok, Tick(w, now, writeOk))
  {
    var b, l := w.sess.bands, w.pc.l;
    if PopNext(b, l.fw, l.sync).Some? { PopKeeps(ok, b, l.fw, l.sync); }
  }

  lemma TickPutBackWaits(ok: Rule, w: World, now: Time, writeOk: bool)
    requires Waits(ok, w) && w.pc.PutBack?
    ensures Waits(ok, Tick(w, now, writeOk))
  {
    if w.pc.l.skipped != [] { PushKeeps(ok, w.sess.bands, w.pc.l.skipped[0]); }
  }

  lemma TickModesWaits(ok: Rule, w: World, now: Time, writeOk: bool)
    requires Waits(ok, w)
    requires !w.pc.Outer? && !w.pc.Inner? && !w.pc.PutBack? && !w.pc.Popped? && !w.pc.Numbered?
    ensures Waits(ok, Tick(w, now, writeOk))
  {
  }

  lemma TickWaits(ok: Rule, w: World, now: Time, writeOk: bool)
    requires Waits(ok, w)
    ensures Waits(ok, Tick(w, now, writeOk))
  {
    match w.pc
    case Outer(_) => TickOuterWaits(ok, w, now, writeOk);
    case Inner(_, _) => TickInnerWaits(ok, w, now, writeOk);
    case PutBack(_, _) => TickPutBackWaits(ok, w, now, writeOk);
    case Popped(l, _, cmd) => TickPoppedWaits(ok, w, now, Examine(cmd, l, now));
    case Numbered(l, _, cmd, seqNo, _) =>
      TickNumberedWaits(ok, w, Dispatch(FrameFor(cmd, seqNo, l.frameMode), l, writeOk));
    case _ => TickModesWaits(ok, w, now, writeOk);
  }

  lemma TickOuterRecords(ok: Rule, w: World, now: Time, writeOk: bool)
    requires Waits(ok, w) && Records(ok, w) && w.pc.Outer?
    ensures Records(ok, Tick(w, now, writeOk))
  {
    DrainKeeps(ok, w.sess.bands, now);
    var more := EndedEvents(Expired, Drained(w.sess.bands, now));
    assert LogFit(ok, more);
    assert LogFit(ok, w.log + more);
  }

  lemma TickPoppedRecords(ok: Rule, w: World, now: Time, finding: Finding)
    requires Waits(ok, w) && Records(ok, w) && w.pc.Popped?
    ensures Records(ok, TickPopped(w, w.pc.l, w.pc.left, w.pc.cmd, now, finding))
  {
  }

  lemma TickNumberedRecords(ok: Rule, w: World, o: Outcome)
    requires Waits(ok, w) && Records(ok, w) && w.pc.Numbered? && (o.Sent? ==> o.size <= w.pc.l.remaining)
    ensures Records(ok, TickNumbered(w, w.pc.l, w.pc.left, w.pc.cmd, w.pc.seqNo, w.pc.checkedAt, o))
  {
  }

  lemma TickModesRecords(ok: Rule, w: World, now: Time, writeOk: bool)
    requires Waits(ok, w) && Records(ok, w) && !w.pc.Outer? && !w.pc.Popped? && !w.pc.Numbered?
    ensures Records(ok, Tick(w, now, writeOk))
  {
  }

  lemma TickRecords(ok: Rule, w: World, now: Time, writeOk: bool)
    requires Waits(ok, w) && Records(ok, w)
    ensures Records(ok, Tick(w, now, writeOk))
  {
    match w.pc
    case Outer(_) => TickOuterRecords(ok, w, now, writeOk);
    case Popped(l, _, cmd) => TickPoppedRecords(ok, w, now, Examine(cmd, l, now));
    case Numbered(l, _, cmd, seqNo, _) =>
      TickNumberedRecords(ok, w, Dispatch(FrameFor(cmd, seqNo, l.frameMode), l, writeOk));
    case _ => TickModesRecords(ok, w, now, writeOk);
  }

  lemma TickKeeps(ok: Rule, w: World, now: Time, writeOk: bool)
    requires Inv(ok, w)
    ensures Inv(ok, Tick(w, now, writeOk))
  {
    TickWaits(ok, w, now, writeOk);
    TickRecords(ok, w, now, writeOk);
  }

  // ---- The rule of the delivery engine ----

  /** In its canonical band, and never tried more often than its policy allows. */
  function Bounded(cfg: Config): Rule {
    (c: Command, attempts: int) => Normal(c) && 0 <= attempts <= MaxRetries(cfg, c)
  }

  lemma BoundedMeans(cfg: Config, c: Command, attempts: int)
    ensures Bounded(cfg)(c, attempts) <==> Normal(c) && 0 <= attempts <= MaxRetries(cfg, c)
  {
    var rule := Bounded(cfg);
    assert rule(c, attempts) == (Normal(c) && 0 <= attempts <= MaxRetries(cfg, c));
  }

  lemma RetryWithinPolicy(cfg: Config, e: Entry, now: Time)
    requires EntryFit(Bounded(cfg), e) && Judge(cfg, e, now) == Retry
    ensures Bounded(cfg)(Core(e.cmd), e.attempts)
  {
    assert MaxRetries(cfg, Core(e.cmd)) == MaxRetries(cfg, e.cmd);
  }

  lemma NormalizedFits(cfg: Config, cmd: Command)
    requires cmd == Core(cmd) && Normalize(cmd).Some?
    ensures Fit(Bounded(cfg), Normalize(cmd).value)
  {
    var c := Normalize(cmd).value;
    assert cmd.attempts == Core(cmd).attempts == 0 && Core(c) == c && Normal(c);
    BoundedMeans(cfg, c, c.attempts);
  }

  lemma {:induction false} VisitsKeep(cfg: Config, w: World, order: seq<byte>, now: Time)
    requires Inv(Bounded(cfg), w)
    ensures Inv(Bounded(cfg), Visits(cfg, w, order, now))
    decreases |order|
  {
    if order != [] {
      var init := order[..|order| - 1];
      VisitsKeep(cfg, w, init, now);
      var w', key := Visits(cfg, w, init, now), order[|order| - 1];
      if key in w'.sess.inFlight {
        var e := w'.sess.inFlight[key];
        if Judge(cfg, e, now) == Retry { RetryWithinPolicy(cfg, e, now); }
        SettleKeeps(Bounded(cfg), w', key, Judge(cfg, e, now));
      }
    }
  }

  /** The invariant of what is in memory, and of what a restart would bring back. */
  predicate Sound(cfg: Config, w: World) {
    Inv(Bounded(cfg), w) && Inv(Bounded(cfg), Reloaded(w))
  }

  /** An up-to-date store brings back the session itself. */
  lemma SyncedReload(w: World)
    requires Synced(w) && Sorted(w.sess.bands) && Keyed(w.sess.inFlight)
    ensures var s := Reloaded(w).sess;
            && s.bands == w.sess.bands && s.inFlight == w.sess.inFlight && s.nextSeq == w.sess.nextSeq
            && s.fwMode == w.sess.fwMode && s.syncMode == w.sess.syncMode
  {
    SaveAndLoad(w.sess);
  }

  lemma StepKeepsMemory(cfg: Config, w: World, step: Step)
    requires Inv(Bounded(cfg), w) && Enabled(w, step) && !step.Restart?
    ensures Inv(Bounded(cfg), Apply(cfg, w, step))
  {
    match step
    case Enqueue(cmd, now) =>
      if Normalize(cmd).Some? { NormalizedFits(cfg, cmd); }
      EnqueueKeeps(Bounded(cfg), cfg, w, cmd, now);
    case Ack(seqNo, code, free) => AckKeeps(Bounded(cfg), w, seqNo, code, free);
    case Sweep(order, now) => VisitsKeep(cfg, w, order, now);
    case Run(now, writeOk) => TickKeeps(Bounded(cfg), w, now, writeOk);
    case _ =>
  }

  /** Every step keeps the invariant, restarts from a stale store included. */
  lemma StepKeeps(cfg: Config, w: World, step: Step)
    requires Sound(cfg, w) && Enabled(w, step)
    ensures Sound(cfg, Apply(cfg, w, step))
  {
    var w' := Apply(cfg, w, step);
    if !step.Restart? {
      StepKeepsMemory(cfg, w, step);
      SavesExactly(cfg, w, step);
      if Synced(w') {
        SyncedReload(w');
      } else {
        assert Reloaded(w').sess == Reloaded(w).sess;
      }
    }
  }

  /** The invariant holds in every reachable state. */
  lemma {:induction false} InvAlways(cfg: Config, w: World, steps: seq<Step>)
    requires Sound(cfg, w) && Possible(cfg, w, steps)
    ensures Sound(cfg, After(cfg, w, steps))
    decreases |steps|
  {
    if steps != [] {
      var init := steps[..|steps| - 1];
      Unroll(cfg, w, steps);
      InvAlways(cfg, w, init);
      StepKeeps(cfg, After(cfg, w, init), steps[|steps| - 1]);
    }
  }
}
