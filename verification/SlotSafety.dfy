/** A flush never reuses an in-flight slot if the numbers it can come to use lie apart,
    whatever else happens to the session meanwhile. */
module SlotSafety {
  import opened Bytes
  import opened Results
  import opened Framing
  import opened Sums
  import opened Commands
  import opened PriorityBands
  import opened Policy
  import opened Sessions
  import opened Engine
  import opened Events
  import opened Ledger
  import opened Invariants
  import opened Claims
  import opened OversizedCommands
  import opened SequenceNumbers

  /** The log grew, but by no overwritten slot. */
  predicate NoOverwrite(w: World, w': World) {
    && |w.log| <= |w'.log| && w'.log[..|w.log|] == w.log
    && forall i :: |w.log| <= i < |w'.log| ==> !w'.log[i].Overwrote?
  }

  lemma NoOverwriteTrans(w: World, v: World, w': World)
    requires NoOverwrite(w, v) && NoOverwrite(v, w')
    ensures NoOverwrite(w, w')
  {
    assert w'.log[..|w.log|] == w'.log[..|v.log|][..|w.log|];
    forall i | |w.log| <= i < |w'.log| ensures !w'.log[i].Overwrote? {
      if i < |v.log| { assert w'.log[i] == w'.log[..|v.log|][i] == v.log[i]; }
    }
  }

  /** The command just written finds its slot empty; the table grows by one. */
  lemma SlotIsFree(w: World, now: Time, writeOk: bool, m: nat)
    requires w.pc.Written? && ApartAt(w, m, w.pc.seqNo)
    ensures w.pc.seqNo !in w.sess.inFlight
    ensures |Tick(w, now, writeOk).sess.inFlight| == |w.sess.inFlight| + 1
    ensures Tick(w, now, writeOk).log == w.log
  {
    var r, table := w.pc.seqNo, w.sess.inFlight;
    assert InHand(w.pc, r) == 1;
    assert Tick(w, now, writeOk).sess.inFlight.Keys == table.Keys + {r};
  }

  lemma TickOverwritesNothing(w: World, now: Time, writeOk: bool)
    requires w.pc.Written? ==> w.pc.seqNo !in w.sess.inFlight
    ensures NoOverwrite(w, Tick(w, now, writeOk))
  {
    match w.pc
    case Popped(l, left, cmd) =>
      assert Tick(w, now, writeOk) == TickPopped(w, l, left, cmd, now, Examine(cmd, l, now));
    case Numbered(l, left, cmd, seqNo, checkedAt) =>
      var o := Dispatch(FrameFor(cmd, seqNo, l.frameMode), l, writeOk);
      assert Tick(w, now, writeOk) == TickNumbered(w, l, left, cmd, seqNo, checkedAt, o);
    case _ =>
  }

  /** Only a tick overwrites. */
  lemma OthersOverwriteNothing(cfg: Config, w: World, step: Step)
    requires !step.Run?
    ensures NoOverwrite(w, Apply(cfg, w, step))
  {
    match step
    case Sweep(order, now) => var added := NewOfVisits(cfg, w, order, now);
    case Enqueue(cmd, now) => var added := NewOfEnqueue(cfg, w, cmd, now);
    case _ =>
  }

  // ---- Steps that may come between the ticks of a flush ----

  predicate TableWithin(m: Table, m': Table) {
    forall k :: k in m' ==> k in m && m'[k] == m[k]
  }

  lemma FrugalStays(w: World, w': World, mode: FrameMode, m: nat)
    requires Frugal(w, mode, m) && w'.pc == w.pc && TableWithin(w.sess.inFlight, w'.sess.inFlight)
    requires WithinQueue(w', m) && OversizedIn(w'.sess.bands, mode) <= m
    ensures Frugal(w', mode, m)
  {
  }

  /** Only the table of entries in flight, or nothing that matters, has changed. */
  lemma TableShrinks(cfg: Config, w: World, w': World, mode: FrameMode, m: nat)
    requires Exclusive(cfg, w, mode, m) && Inv(Bounded(cfg), w')
    requires w'.pc == w.pc && w'.sess.bands == w.sess.bands && w'.sess.nextSeq == w.sess.nextSeq
    requires TableWithin(w.sess.inFlight, w'.sess.inFlight)
    ensures Exclusive(cfg, w', mode, m)
  {
    FrugalStays(w, w', mode, m);
    forall r: byte ensures ApartAt(w', m, r) {
      assert ApartAt(w, m, r);
      TableApart(w, w', m, r);
    }
  }

  lemma TableApart(w: World, w': World, m: nat, r: byte)
    requires ApartAt(w, m, r)
    requires w'.pc == w.pc && w'.sess.bands == w.sess.bands && w'.sess.nextSeq == w.sess.nextSeq
    requires TableWithin(w.sess.inFlight, w'.sess.inFlight)
    ensures ApartAt(w', m, r)
  {
    Fewer(w, w', m, r);
  }

  /** A queue that lets no more oversized commands into reach, and claims no more. */
  lemma QueueChanges(w: World, w': World, m: nat, r: byte)
    requires ApartAt(w, m, r) && w'.pc == w.pc && w'.sess.nextSeq == w.sess.nextSeq
    requires Taken(w', r) <= Taken(w, r) && Awaited(w', r) <= Awaited(w, r)
    requires MidScan(w.pc) ==> Ahead(w') <= Ahead(w)
    ensures ApartAt(w', m, r)
  {
    Fewer(w, w', m, r);
  }

  lemma AdmitAhead(cfg: Config, w: World, w': World, c: Command, mode: FrameMode, m: nat)
    requires Frugal(w, mode, m) && w'.pc == w.pc && w'.sess.bands == Admit(cfg, w.sess.bands, c).bands
    requires (Oversized(c, mode) ==> AtMost(cfg, mode, m)) && (m > 0 ==> cfg.overflow != DropOldestFirst)
    ensures MidScan(w.pc) ==> Ahead(w') <= Ahead(w)
    ensures WithinQueue(w', m) && OversizedIn(w'.sess.bands, mode) <= m
  {
    AdmitBound(cfg, w.sess.bands, c, mode, m);
    if w.pc.Inner? || w.pc.Popped? || w.pc.Numbered? {
      if m > 0 {
        AdmitReach(cfg, w.sess.bands, c, w.pc.left, mode);
      } else {
        ReachBounds(w.sess.bands, w.pc.left, mode);
        ReachBounds(w'.sess.bands, w.pc.left, mode);
      }
    }
  }

  lemma EnqueueAhead(cfg: Config, w: World, cmd: Command, now: Time, mode: FrameMode, m: nat)
    requires Frugal(w, mode, m)
    requires (Oversized(cmd, mode) ==> AtMost(cfg, mode, m)) && (m > 0 ==> cfg.overflow != DropOldestFirst)
    ensures var w' := EnqueueStep(cfg, w, cmd, now).0; Frugal(w', mode, m) && (MidScan(w.pc) ==> Ahead(w') <= Ahead(w))
  {
    var w' := EnqueueStep(cfg, w, cmd, now).0;
    EnqueueShape(cfg, w, cmd, now);
    if w'.sess.bands != w.sess.bands { AdmitAhead(cfg, w, w', Normalize(cmd).value, mode, m); }
    FrugalStays(w, w', mode, m);
  }

  lemma EnqueueApart(cfg: Config, w: World, cmd: Command, now: Time, m: nat, r: byte)
    requires ApartAt(w, m, r) && cmd == Core(cmd)
    requires MidScan(w.pc) ==> Ahead(EnqueueStep(cfg, w, cmd, now).0) <= Ahead(w)
    ensures ApartAt(EnqueueStep(cfg, w, cmd, now).0, m, r)
  {
    RetryIsClaim(r);
    EnqueueClaims(cfg, w, cmd, now, RetryClaim(r));
    EnqueueShape(cfg, w, cmd, now);
    QueueChanges(w, EnqueueStep(cfg, w, cmd, now).0, m, r);
  }

  lemma EnqueueExclusive(cfg: Config, w: World, cmd: Command, now: Time, mode: FrameMode, m: nat)
    requires Exclusive(cfg, w, mode, m) && cmd == Core(cmd)
    requires (Oversized(cmd, mode) ==> AtMost(cfg, mode, m)) && (m > 0 ==> cfg.overflow != DropOldestFirst)
    ensures Exclusive(cfg, EnqueueStep(cfg, w, cmd, now).0, mode, m)
  {
    StepKeepsMemory(cfg, w, Enqueue(cmd, now));
    EnqueueAhead(cfg, w, cmd, now, mode, m);
    forall r: byte ensures ApartAt(EnqueueStep(cfg, w, cmd, now).0, m, r) {
      assert ApartAt(w, m, r);
      EnqueueApart(cfg, w, cmd, now, m, r);
    }
  }

  /** A number goes from taken to awaited. */
  lemma TakenToAwaited(awaited: int, left: int, numbers: int, numbers': int, r: byte, n: byte)
    requires Apart(1, awaited, left, numbers, r, n) && numbers' <= numbers
    ensures Apart(0, awaited + 1, left, numbers', r, n)
  {
  }

  /** A command put back behind a scan adds nothing to what it can reach. */
  lemma PushAhead(w: World, w': World, c: Command, mode: FrameMode, m: nat)
    requires Frugal(w, mode, m) && !Oversized(c, mode)
    requires w'.pc == w.pc && w'.sess.bands == Push(w.sess.bands, c)
    ensures MidScan(w.pc) ==> Ahead(w') <= Ahead(w)
    ensures WithinQueue(w', m) && OversizedIn(w'.sess.bands, mode) <= m
  {
    SumOfPush(w.sess.bands, c, IsOversized(mode));
    if w.pc.Inner? || w.pc.Popped? || w.pc.Numbered? {
      if m > 0 {
        PushReach(w.sess.bands, c, w.pc.left, mode);
      } else {
        ReachBounds(w.sess.bands, w.pc.left, mode);
        ReachBounds(w'.sess.bands, w.pc.left, mode);
      }
    }
  }

  lemma FewerAhead(w: World, w': World, m: nat)
    requires w'.pc == w.pc && (MidScan(w.pc) ==> Ahead(w') <= Ahead(w))
    ensures NumbersLeft(w', m) <= NumbersLeft(w, m)
  {
  }

  /** The entry that timed out gives up its slot and claims its number. */
  lemma RetryMoves(w: World, key: byte, r: byte)
    requires key in w.sess.inFlight
    ensures var w' := Settle(w, key, Retry);
            var moved := if r == key then 1 else 0;
            && Taken(w', r) == Taken(w, r) - moved
            && Awaited(w', r) == Awaited(w, r) + (if r == 0 then 0 else moved)
  {
    SumOfPush(w.sess.bands, Requeued(w.sess.inFlight[key], key), RetryClaim(r));
  }

  lemma RetryApart(w: World, key: byte, mode: FrameMode, m: nat, r: byte)
    requires Frugal(w, mode, m) && ApartAt(w, m, r) && key in w.sess.inFlight
    ensures ApartAt(Settle(w, key, Retry), m, r)
  {
    var w' := Settle(w, key, Retry);
    PushAhead(w, w', Requeued(w.sess.inFlight[key], key), mode, m);
    RetryMoves(w, key, r);
    FewerAhead(w, w', m);
    if r == key && r != 0 {
      TakenToAwaited(Awaited(w, r), FramesLeft(w.pc), NumbersLeft(w, m), NumbersLeft(w', m), r, w.sess.nextSeq);
    } else {
      Fewer(w, w', m, r);
    }
  }

  lemma RetryExclusive(cfg: Config, w: World, key: byte, mode: FrameMode, m: nat)
    requires Exclusive(cfg, w, mode, m) && key in w.sess.inFlight && Inv(Bounded(cfg), Settle(w, key, Retry))
    ensures Exclusive(cfg, Settle(w, key, Retry), mode, m)
  {
    var w' := Settle(w, key, Retry);
    PushAhead(w, w', Requeued(w.sess.inFlight[key], key), mode, m);
    FrugalStays(w, w', mode, m);
    forall r: byte ensures ApartAt(w', m, r) {
      assert ApartAt(w, m, r);
      RetryApart(w, key, mode, m, r);
    }
  }

  lemma SettleExclusive(cfg: Config, w: World, key: byte, verdict: Verdict, mode: FrameMode, m: nat)
    requires Exclusive(cfg, w, mode, m) && key in w.sess.inFlight && Inv(Bounded(cfg), Settle(w, key, verdict))
    ensures Exclusive(cfg, Settle(w, key, verdict), mode, m)
  {
    if verdict == Retry {
      RetryExclusive(cfg, w, key, mode, m);
    } else {
      TableShrinks(cfg, w, Settle(w, key, verdict), mode, m);
    }
  }

  lemma {:induction false} VisitsExclusive(cfg: Config, w: World, order: seq<byte>, now: Time, mode: FrameMode, m: nat)
    requires Exclusive(cfg, w, mode, m)
    ensures Exclusive(cfg, Visits(cfg, w, order, now), mode, m)
    decreases |order|
  {
    if order != [] {
      var init := order[..|order| - 1];
      VisitsExclusive(cfg, w, init, now, mode, m);
      var v, key := Visits(cfg, w, init, now), order[|order| - 1];
      if key in v.sess.inFlight {
        VisitsKeep(cfg, w, order, now);
        SettleExclusive(cfg, v, key, Judge(cfg, v.sess.inFlight[key], now), mode, m);
      }
    }
  }

  lemma SweepExclusive(cfg: Config, w: World, order: seq<byte>, now: Time, mode: FrameMode, m: nat)
    requires Exclusive(cfg, w, mode, m)
    ensures Exclusive(cfg, SweepStep(cfg, w, order, now), mode, m)
  {
    VisitsExclusive(cfg, w, order, now, mode, m);
    TableShrinks(cfg, Visits(cfg, w, order, now), SweepStep(cfg, w, order, now), mode, m);
  }

  /** Anything but a new flush. Oversized commands may come in if no more than m of them fit
      the queue; and if there can be any, the queue must not drop commands under a scan. */
  predicate Harmless(cfg: Config, step: Step, mode: FrameMode, m: nat) {
    match step
    case Enqueue(cmd, _) =>
      (Oversized(cmd, mode) ==> AtMost(cfg, mode, m)) && (m > 0 ==> cfg.overflow != DropOldestFirst)
    case Flush => false
    case _ => true
  }

  predicate AllHarmless(cfg: Config, steps: seq<Step>, mode: FrameMode, m: nat) {
    forall i :: 0 <= i < |steps| ==> Harmless(cfg, steps[i], mode, m)
  }

  lemma StepExclusive(cfg: Config, w: World, step: Step, mode: FrameMode, m: nat)
    requires Harmless(cfg, step, mode, m) && Enabled(w, step) && Exclusive(cfg, w, mode, m) && !step.Restart?
    ensures Exclusive(cfg, Apply(cfg, w, step), mode, m)
  {
    match step
    case Run(now, writeOk) => TickExclusive(cfg, w, now, writeOk, mode, m);
    case Enqueue(cmd, now) => EnqueueExclusive(cfg, w, cmd, now, mode, m);
    case Sweep(order, now) => SweepExclusive(cfg, w, order, now, mode, m);
    case Ack(seqNo, code, free) => AckExclusive(cfg, w, seqNo, code, free, mode, m);
    case _ => ModeExclusive(cfg, w, step, mode, m);
  }

  lemma AckExclusive(cfg: Config, w: World, seqNo: byte, code: byte, free: int, mode: FrameMode, m: nat)
    requires Exclusive(cfg, w, mode, m)
    ensures Exclusive(cfg, AckStep(w, seqNo, code, free), mode, m)
  {
    AckKeeps(Bounded(cfg), w, seqNo, code, free);
    TableShrinks(cfg, w, AckStep(w, seqNo, code, free), mode, m);
  }

  lemma ModeExclusive(cfg: Config, w: World, step: Step, mode: FrameMode, m: nat)
    requires Exclusive(cfg, w, mode, m) && (step.SetFwMode? || step.Connect? || step.Disconnect?)
    ensures Exclusive(cfg, Apply(cfg, w, step), mode, m)
  {
    StepKeepsMemory(cfg, w, step);
    TableShrinks(cfg, w, Apply(cfg, w, step), mode, m);
  }

  /** Numbers stay apart until the flush is over or cut off by a restart. */
  ghost predicate Undisturbed(cfg: Config, w: World, mode: FrameMode, m: nat) {
    w.pc == Idle || Exclusive(cfg, w, mode, m)
  }

  lemma HarmlessStep(cfg: Config, w: World, step: Step, mode: FrameMode, m: nat)
    requires Harmless(cfg, step, mode, m) && Enabled(w, step) && Undisturbed(cfg, w, mode, m)
    ensures Undisturbed(cfg, Apply(cfg, w, step), mode, m) && NoOverwrite(w, Apply(cfg, w, step))
  {
    if step.Run? {
      if w.pc.Written? {
        assert ApartAt(w, m, w.pc.seqNo);
        SlotIsFree(w, step.now, step.writeOk, m);
      }
      TickOverwritesNothing(w, step.now, step.writeOk);
    } else {
      OthersOverwriteNothing(cfg, w, step);
      if !step.Restart? { OthersLeavePc(cfg, w, step); }
    }
    if w.pc != Idle && !step.Restart? { StepExclusive(cfg, w, step, mode, m); }
  }

  lemma {:induction false} NoOverwriteRun(cfg: Config, w: World, steps: seq<Step>, mode: FrameMode, m: nat)
    requires Undisturbed(cfg, w, mode, m) && Possible(cfg, w, steps) && AllHarmless(cfg, steps, mode, m)
    ensures NoOverwrite(w, After(cfg, w, steps)) && Undisturbed(cfg, After(cfg, w, steps), mode, m)
    decreases |steps|
  {
    if steps != [] {
      var init, last := steps[..|steps| - 1], steps[|steps| - 1];
      Unroll(cfg, w, steps);
      NoOverwriteRun(cfg, w, init, mode, m);
      var v := After(cfg, w, init);
      HarmlessStep(cfg, v, last, mode, m);
      NoOverwriteTrans(w, v, Apply(cfg, v, last));
    }
  }

  // ---- A whole flush ----

  /** An idle, connected session with nothing in flight. Its last sequence number, its byte
      budget and its frame mode are given, at most m of its commands are oversized, and the
      numbers its queued retries ask for are among `retries`. */
  ghost predicate Ready(w: World, n: byte, budget: nat, mode: FrameMode, retries: multiset<byte>, m: nat) {
    && w.pc == Idle && w.sess.online && w.sess.inFlight == map[]
    && w.sess.nextSeq == n && Budget(w.sess) == budget && w.sess.frameMode == mode
    && OversizedIn(w.sess.bands, mode) <= m
    && forall r: byte :: r != 0 ==> SumBands(w.sess.bands, RetryClaim(r)) <= retries[r]
  }

  /** From the first frame to the last the counter does not come round. */
  predicate CounterKeepsOff(budget: nat, mode: FrameMode, m: nat) {
    var frames := budget / MinFrame(mode);
    frames <= 1 || (frames - 1) * (m + 1) < 256
  }

  /** A number to be retried that the counter can reach with a frame to spare, or that is asked
      for twice. */
  predicate Clashes(r: byte, n: byte, frames: nat, asked: nat, m: nat) {
    (asked >= 1 && InRun(r, n, frames * (m + 1) - 1)) || asked >= 2
  }

  /** And if there is room for two frames, no number to be retried is one the counter can reach
      with a frame to spare, and none is asked for twice. */
  ghost predicate NumbersApart(n: byte, budget: nat, mode: FrameMode, retries: multiset<byte>, m: nat) {
    var frames := budget / MinFrame(mode);
    && CounterKeepsOff(budget, mode, m)
    && forall r: byte :: r != 0 && frames >= 2 ==> !Clashes(r, n, frames, retries[r], m)
  }

  lemma StartApart(w: World, n: byte, budget: nat, mode: FrameMode, retries: multiset<byte>, m: nat, r: byte)
    requires Ready(w, n, budget, mode, retries, m) && NumbersApart(n, budget, mode, retries, m)
    ensures ApartAt(FlushStep(w), m, r)
  {
    ShareIsProduct(budget / MinFrame(mode), m);
    if r == 0 {
      NoZeroClaims(w.sess.bands);
    } else {
      assert SumBands(w.sess.bands, RetryClaim(r)) <= retries[r];
    }
  }

  lemma StartFrugal(w: World, n: byte, budget: nat, mode: FrameMode, retries: multiset<byte>, m: nat)
    requires Ready(w, n, budget, mode, retries, m) && NumbersApart(n, budget, mode, retries, m)
    ensures Frugal(FlushStep(w), mode, m)
  {
    var frames := budget / MinFrame(mode);
    if frames > 1 { ShareIsProduct(frames - 1, m); }
  }

  lemma NoZeroClaims(b: Bands)
    ensures SumBands(b, RetryClaim(0)) == 0
  {
    SumZero(b.high, RetryClaim(0));
    SumZero(b.fw, RetryClaim(0));
    SumZero(b.sync, RetryClaim(0));
    SumZero(b.query, RetryClaim(0));
  }

  /** Then a flush never reuses an in-flight slot, whatever else comes in between: new
      commands, acknowledgements, mode changes, sweeps, disconnects, a restart. */
  lemma FlushNeverOverwrites(cfg: Config, w: World, steps: seq<Step>,
                             n: byte, budget: nat, mode: FrameMode, retries: multiset<byte>, m: nat)
    requires Inv(Bounded(cfg), w)
    requires Ready(w, n, budget, mode, retries, m) && NumbersApart(n, budget, mode, retries, m)
    requires Possible(cfg, FlushStep(w), steps) && AllHarmless(cfg, steps, mode, m)
    ensures NoOverwrite(w, After(cfg, FlushStep(w), steps))
  {
    var w0 := FlushStep(w);
    StartFrugal(w, n, budget, mode, retries, m);
    forall r: byte ensures ApartAt(w0, m, r) {
      StartApart(w, n, budget, mode, retries, m, r);
    }
    NoOverwriteRun(cfg, w0, steps, mode, m);
  }
}
