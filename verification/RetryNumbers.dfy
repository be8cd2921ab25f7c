/** internal/server/server.go, flushQueue, lines 591 to 615: under which number a retry goes out.
    A command waiting for its retry carries its old number; taking it from the queue for
    sending clears that, whether or not it is then sent. */
module RetryNumbers {
  import opened Bytes
  import opened Framing
  import opened Sums
  import opened Commands
  import opened PriorityBands
  import opened Policy
  import opened Sessions
  import opened Engine
  import opened Events
  import opened Ledger
  import opened Invariants
  import opened Claims
  import opened Delivery
  import opened StoreLag

  /** Copies of x that still carry a number. */
  function CarriesNumber(x: Command): Command -> int {
    (c: Command) => if Core(c) == x && c.retrySeq != 0 then 1 else 0
  }

  function KeyedCopies(w: World, x: Command): int {
    Claimed(w, CarriesNumber(x))
  }

  lemma NumberIsClaim(x: Command)
    ensures IsClaim(CarriesNumber(x))
  {
  }

  predicate NoneFlying(w: World, x: Command) {
    && (forall k :: k in w.sess.inFlight ==> Core(w.sess.inFlight[k].cmd) != x)
    && (w.pc.Written? ==> Core(w.pc.cmd) != x)
  }

  /** No copy of x carries a number any more. */
  predicate Unkeyed(w: World, x: Command) {
    KeyedCopies(w, x) <= 0 && NoneFlying(w, x)
  }

  /** A copy of x about to be sent has just been given its number by the counter. */
  predicate CounterGave(w: World, x: Command) {
    w.pc.Numbered? && Core(w.pc.cmd) == x ==> w.pc.seqNo == w.sess.nextSeq
  }

  // ---- Ticks ----

  /** A write of x by this step. */
  predicate WritesNow(w: World, w': World, x: Command) {
    w.pc.Numbered? && Core(w.pc.cmd) == x && w'.pc.Written?
  }

  lemma TickFlying(w: World, now: Time, writeOk: bool, x: Command)
    requires NoneFlying(w, x)
    ensures var w' := Tick(w, now, writeOk); NoneFlying(w', x) || WritesNow(w, w', x)
  {
    match w.pc
    case Popped(l, left, cmd) =>
      assert Tick(w, now, writeOk) == TickPopped(w, l, left, cmd, now, Examine(cmd, l, now));
    case Numbered(l, left, cmd, seqNo, checkedAt) =>
      var o := Dispatch(FrameFor(cmd, seqNo, l.frameMode), l, writeOk);
      assert Tick(w, now, writeOk) == TickNumbered(w, l, left, cmd, seqNo, checkedAt, o);
    case Written(_, _, _) => WrittenFlying(w, now, writeOk, x);
    case _ => RestFlying(w, now, writeOk, x);
  }

  lemma WrittenFlying(w: World, now: Time, writeOk: bool, x: Command)
    requires NoneFlying(w, x) && w.pc.Written?
    ensures NoneFlying(Tick(w, now, writeOk), x)
  {
  }

  lemma RestFlying(w: World, now: Time, writeOk: bool, x: Command)
    requires NoneFlying(w, x) && !w.pc.Popped? && !w.pc.Numbered? && !w.pc.Written?
    ensures NoneFlying(Tick(w, now, writeOk), x)
  {
    TickTable(w, now, writeOk);
  }

  lemma TickGave(w: World, now: Time, writeOk: bool, x: Command)
    requires Unkeyed(w, x) && CounterGave(w, x)
    ensures CounterGave(Tick(w, now, writeOk), x)
  {
    match w.pc
    case Popped(l, left, cmd) =>
      NumberIsClaim(x);
      PoppedIsClaimed(w, CarriesNumber(x));
      assert Core(cmd) == x ==> cmd.retrySeq == 0;
      PoppedGave(w, now, Examine(cmd, l, now), x);
    case Numbered(l, left, cmd, seqNo, checkedAt) =>
      var o := Dispatch(FrameFor(cmd, seqNo, l.frameMode), l, writeOk);
      assert Tick(w, now, writeOk) == TickNumbered(w, l, left, cmd, seqNo, checkedAt, o);
    case _ =>
  }

  lemma PoppedGave(w: World, now: Time, finding: Finding, x: Command)
    requires w.pc.Popped? && (finding == Renumbered ==> w.pc.cmd.retrySeq != 0)
    requires Core(w.pc.cmd) == x ==> w.pc.cmd.retrySeq == 0
    ensures CounterGave(TickPopped(w, w.pc.l, w.pc.left, w.pc.cmd, now, finding), x)
  {
    assert Core(w.pc.cmd.(retrySeq := 0)) == Core(w.pc.cmd);
  }

  // ---- Other steps ----

  lemma EnqueueUnkeyed(cfg: Config, w: World, cmd: Command, now: Time, x: Command)
    requires Unkeyed(w, x) && cmd == Core(cmd)
    ensures Unkeyed(EnqueueStep(cfg, w, cmd, now).0, x)
  {
    EnqueueShape(cfg, w, cmd, now);
    NumberIsClaim(x);
    EnqueueClaims(cfg, w, cmd, now, CarriesNumber(x));
  }

  lemma SettleUnkeyed(w: World, key: byte, verdict: Verdict, x: Command)
    requires Unkeyed(w, x) && key in w.sess.inFlight
    ensures Unkeyed(Settle(w, key, verdict), x) && Settle(w, key, verdict).pc == w.pc
    ensures Settle(w, key, verdict).sess.nextSeq == w.sess.nextSeq
  {
    var e := w.sess.inFlight[key];
    assert Core(Requeued(e, key)) == Core(e.cmd);
    if verdict == Retry { SumOfPush(w.sess.bands, Requeued(e, key), CarriesNumber(x)); }
  }

  lemma {:induction false} VisitsUnkeyed(cfg: Config, w: World, order: seq<byte>, now: Time, x: Command)
    requires Unkeyed(w, x)
    ensures Unkeyed(Visits(cfg, w, order, now), x) && Visits(cfg, w, order, now).pc == w.pc
    ensures Visits(cfg, w, order, now).sess.nextSeq == w.sess.nextSeq
    decreases |order|
  {
    if order != [] {
      var init := order[..|order| - 1];
      VisitsUnkeyed(cfg, w, init, now, x);
      var v, key := Visits(cfg, w, init, now), order[|order| - 1];
      if key in v.sess.inFlight { SettleUnkeyed(v, key, Judge(cfg, v.sess.inFlight[key], now), x); }
    }
  }

  lemma SameQueue(w: World, w': World, x: Command)
    requires Unkeyed(w, x) && w'.sess.bands == w.sess.bands && w'.pc == w.pc
    requires forall k :: k in w'.sess.inFlight ==> k in w.sess.inFlight && w'.sess.inFlight[k] == w.sess.inFlight[k]
    ensures Unkeyed(w', x)
  {
  }

  lemma AckUnkeyed(w: World, seqNo: byte, code: byte, free: int, x: Command)
    requires Unkeyed(w, x)
    ensures Unkeyed(AckStep(w, seqNo, code, free), x)
  {
    SameQueue(w, AckStep(w, seqNo, code, free), x);
  }

  lemma FlushUnkeyed(w: World, x: Command)
    requires Unkeyed(w, x) && w.pc == Idle
    ensures Unkeyed(FlushStep(w), x)
  {
  }

  lemma OtherUnkeyed(cfg: Config, w: World, step: Step, x: Command)
    requires Unkeyed(w, x) && Enabled(w, step) && !step.Run? && !step.Restart?
    ensures Unkeyed(Apply(cfg, w, step), x)
  {
    match step
    case Enqueue(cmd, now) => EnqueueUnkeyed(cfg, w, cmd, now, x);
    case Sweep(order, now) => VisitsUnkeyed(cfg, w, order, now, x);
    case Flush => FlushUnkeyed(w, x);
    case Ack(seqNo, code, free) => AckUnkeyed(w, seqNo, code, free, x);
    case _ => SameQueue(w, Apply(cfg, w, step), x);
  }

  /** Only ticks change the number in hand and the counter. */
  lemma OtherGave(cfg: Config, w: World, step: Step, x: Command)
    requires Unkeyed(w, x) && Enabled(w, step) && !step.Run? && !step.Restart?
    ensures CounterGave(w, x) ==> CounterGave(Apply(cfg, w, step), x)
    ensures Apply(cfg, w, step).sess.nextSeq == w.sess.nextSeq
  {
    match step
    case Sweep(order, now) => VisitsUnkeyed(cfg, w, order, now, x);
    case Enqueue(cmd, now) => EnqueueShape(cfg, w, cmd, now);
    case Ack(seqNo, code, free) => AckLeavesNumbers(w, seqNo, code, free);
    case _ =>
  }

  lemma AckLeavesNumbers(w: World, seqNo: byte, code: byte, free: int)
    ensures var w' := AckStep(w, seqNo, code, free); w'.pc == w.pc && w'.sess.nextSeq == w.sess.nextSeq
  {
  }

  predicate NoRestart(steps: seq<Step>) {
    forall i :: 0 <= i < |steps| ==> !steps[i].Restart?
  }

  lemma WriteMeans(cfg: Config, w: World, step: Step, x: Command)
    requires Enabled(w, step)
    ensures Sum(Apply(cfg, w, step).log, IsWrite(x)) >= Sum(w.log, IsWrite(x))
  {
    if step.Run? { TickWrites(w, step.now, step.writeOk, x); } else { OtherWrites(cfg, w, step, x); }
  }

  lemma OtherWrites(cfg: Config, w: World, step: Step, x: Command)
    requires Enabled(w, step) && !step.Run?
    ensures Sum(Apply(cfg, w, step).log, IsWrite(x)) == Sum(w.log, IsWrite(x))
  {
    var added := OnlyRunWrites(cfg, w, step);
    SumZero(added, IsWrite(x));
    SumConcat(w.log, added, IsWrite(x));
  }

  lemma TickWrites(w: World, now: Time, writeOk: bool, x: Command)
    ensures var w' := Tick(w, now, writeOk);
            && Sum(w'.log, IsWrite(x)) == Sum(w.log, IsWrite(x)) + (if WritesNow(w, w', x) then 1 else 0)
            && (WritesNow(w, w', x) ==> LastWroteUnder(w', w.pc.seqNo))
  {
    if w.pc.Numbered? {
      NumberedWrites(w, now, writeOk, x);
    } else {
      var added := QuietTick(w, now, writeOk);
      SumZero(added, IsWrite(x));
      SumConcat(w.log, added, IsWrite(x));
    }
  }

  lemma NumberedWrites(w: World, now: Time, writeOk: bool, x: Command)
    requires w.pc.Numbered?
    ensures var w' := Tick(w, now, writeOk);
            && Sum(w'.log, IsWrite(x)) == Sum(w.log, IsWrite(x)) + (if WritesNow(w, w', x) then 1 else 0)
            && (WritesNow(w, w', x) ==> LastWroteUnder(w', w.pc.seqNo))
  {
    var Numbered(l, left, cmd, seqNo, checkedAt) := w.pc;
    OutcomeWrites(w, Dispatch(FrameFor(cmd, seqNo, l.frameMode), l, writeOk), x);
  }

  lemma OutcomeWrites(w: World, o: Outcome, x: Command)
    requires w.pc.Numbered? && (o.Sent? ==> o.size <= w.pc.l.remaining)
    ensures var w' := TickNumbered(w, w.pc.l, w.pc.left, w.pc.cmd, w.pc.seqNo, w.pc.checkedAt, o);
            && Sum(w'.log, IsWrite(x)) == Sum(w.log, IsWrite(x)) + (if WritesNow(w, w', x) then 1 else 0)
            && (WritesNow(w, w', x) ==> LastWroteUnder(w', w.pc.seqNo))
  {
    var w' := TickNumbered(w, w.pc.l, w.pc.left, w.pc.cmd, w.pc.seqNo, w.pc.checkedAt, o);
    if o != OverBudget { SumPush(w.log, w'.log[|w.log|], IsWrite(x)); }
  }

  // ---- The next write ----

  predicate Fresh(w: World, x: Command) {
    Unkeyed(w, x) && CounterGave(w, x)
  }

  lemma FreshTick(ok: Rule, w: World, now: Time, writeOk: bool, x: Command)
    requires PcFit(ok, w.pc) && Fresh(w, x)
    ensures var w' := Tick(w, now, writeOk);
            if WritesNow(w, w', x) then LastWroteUnder(w', w.sess.nextSeq) else Fresh(w', x)
  {
    NumberIsClaim(x);
    TickClaims(ok, w, now, writeOk, CarriesNumber(x));
    TickFlying(w, now, writeOk, x);
    TickGave(w, now, writeOk, x);
    TickWrites(w, now, writeOk, x);
  }

  lemma FreshStep(cfg: Config, w: World, step: Step, x: Command)
    requires Sound(cfg, w) && Fresh(w, x) && Enabled(w, step) && !step.Restart?
    ensures var w' := Apply(cfg, w, step);
            if Sum(w'.log, IsWrite(x)) == Sum(w.log, IsWrite(x)) then Fresh(w', x)
            else LastWroteUnder(w', w.sess.nextSeq)
  {
    if step.Run? {
      FreshTick(Bounded(cfg), w, step.now, step.writeOk, x);
      TickWrites(w, step.now, step.writeOk, x);
    } else {
      OtherUnkeyed(cfg, w, step, x);
      OtherGave(cfg, w, step, x);
      OtherWrites(cfg, w, step, x);
    }
  }

  lemma {:induction false} StaysFresh(cfg: Config, w: World, steps: seq<Step>, x: Command)
    requires Sound(cfg, w) && Fresh(w, x) && Possible(cfg, w, steps) && NoRestart(steps)
    requires Sum(After(cfg, w, steps).log, IsWrite(x)) == Sum(w.log, IsWrite(x))
    ensures Fresh(After(cfg, w, steps), x)
    decreases |steps|
  {
    if steps != [] {
      var init, last := steps[..|steps| - 1], steps[|steps| - 1];
      Unroll(cfg, w, steps);
      WritesGrow(cfg, w, init, x);
      WriteMeans(cfg, After(cfg, w, init), last, x);
      StaysFresh(cfg, w, init, x);
      InvAlways(cfg, w, init);
      FreshStep(cfg, After(cfg, w, init), last, x);
    }
  }

  lemma {:induction false} WritesGrow(cfg: Config, w: World, steps: seq<Step>, x: Command)
    requires Possible(cfg, w, steps)
    ensures Sum(After(cfg, w, steps).log, IsWrite(x)) >= Sum(w.log, IsWrite(x))
    decreases |steps|
  {
    if steps != [] {
      var init := steps[..|steps| - 1];
      Unroll(cfg, w, steps);
      WritesGrow(cfg, w, init, x);
      WriteMeans(cfg, After(cfg, w, init), steps[|steps| - 1], x);
    }
  }

  /** The last step of a run is its only write of x. */
  predicate FirstWrite(cfg: Config, w: World, steps: seq<Step>, x: Command) {
    && steps != [] && Possible(cfg, w, steps) && NoRestart(steps)
    && Sum(After(cfg, w, steps[..|steps| - 1]).log, IsWrite(x)) == Sum(w.log, IsWrite(x))
    && Sum(After(cfg, w, steps).log, IsWrite(x)) != Sum(w.log, IsWrite(x))
  }

  predicate LastWroteUnder(w: World, n: byte) {
    w.log != [] && w.log[|w.log| - 1].Wrote? && w.log[|w.log| - 1].frame.seqNo == n
  }

  /** Once no copy of x carries a number, the next write of x in any run without restarts goes
      out under the number the counter has just handed out. */
  lemma NextWriteIsFresh(cfg: Config, w: World, steps: seq<Step>, x: Command)
    requires Sound(cfg, w) && Fresh(w, x) && FirstWrite(cfg, w, steps, x)
    ensures LastWroteUnder(After(cfg, w, steps), After(cfg, w, steps[..|steps| - 1]).sess.nextSeq)
  {
    var init := steps[..|steps| - 1];
    Unroll(cfg, w, steps);
    StaysFresh(cfg, w, init, x);
    InvAlways(cfg, w, init);
    FreshStep(cfg, After(cfg, w, init), steps[|steps| - 1], x);
  }

  /** Steps during which the flush stands still. */
  predicate Aside(steps: seq<Step>) {
    forall i :: 0 <= i < |steps| ==> !steps[i].Run? && !steps[i].Restart? && !steps[i].Flush?
  }

  lemma {:induction false} StandingStill(cfg: Config, w: World, steps: seq<Step>, x: Command)
    requires Sound(cfg, w) && Unkeyed(w, x) && Possible(cfg, w, steps) && Aside(steps)
    ensures var v := After(cfg, w, steps);
            Sound(cfg, v) && Unkeyed(v, x) && v.pc == w.pc && v.sess.nextSeq == w.sess.nextSeq
    decreases |steps|
  {
    if steps != [] {
      var init, last := steps[..|steps| - 1], steps[|steps| - 1];
      Unroll(cfg, w, steps);
      StandingStill(cfg, w, init, x);
      var v := After(cfg, w, init);
      OtherUnkeyed(cfg, v, last, x);
      OtherGave(cfg, v, last, x);
      OthersLeavePc(cfg, v, last);
      StepKeeps(cfg, v, last);
    }
  }

  /** Taking the number: the queue has no copy of x left that carries one. */
  lemma TakingNumber(cfg: Config, w: World, now: Time, ok: bool, x: Command) returns (w': World)
    requires Sound(cfg, w) && w.pc.Popped? && Core(w.pc.cmd) == x && Passes(w.pc.cmd, w.pc.l, now)
    requires KeyedCopies(w, x) == CarriesNumber(x)(w.pc.cmd) && NoneFlying(w, x)
    ensures w' == Tick(w, now, ok) && Sound(cfg, w') && Unkeyed(w', x) && TookNumber(w, w', now)
  {
    StepKeeps(cfg, w, Run(now, ok));
    w' := Tick(w, now, ok);
    NumberingTick(w, now, ok, x);
  }

  /** The popped command has its number, its own or the next one. */
  predicate TookNumber(w: World, w': World, now: Time)
    requires w.pc.Popped?
  {
    var c := w.pc.cmd; var n := if c.retrySeq != 0 then c.retrySeq else NextSeq(w.sess.nextSeq);
    && w'.pc == Numbered(w.pc.l, w.pc.left, c.(retrySeq := 0), n, now) && w'.log == w.log
    && w'.sess.nextSeq == if c.retrySeq != 0 then w.sess.nextSeq else n
  }

  lemma NumberingTick(w: World, now: Time, ok: bool, x: Command)
    requires w.pc.Popped? && Core(w.pc.cmd) == x && Passes(w.pc.cmd, w.pc.l, now)
    requires KeyedCopies(w, x) == CarriesNumber(x)(w.pc.cmd) && NoneFlying(w, x)
    ensures var w' := Tick(w, now, ok); Unkeyed(w', x) && TookNumber(w, w', now)
  {
    var Popped(l, left, c) := w.pc;
    var finding := if c.retrySeq != 0 then Renumbered else Unnumbered;
    assert Tick(w, now, ok) == TickPopped(w, l, left, c, now, finding);
    NumberingGivesUp(w, now, finding, CarriesNumber(x));
  }

  /** A frame that fits goes out under that number. */
  lemma GoingOut(w: World, now: Time, x: Command) returns (w': World)
    requires w.pc.Numbered? && Core(w.pc.cmd) == x && w.pc.cmd.retrySeq == 0
    requires Encodable(FrameFor(w.pc.cmd, 0, w.pc.l.frameMode)) && !TooBig(w.pc.cmd, w.pc.l)
    ensures w' == Tick(w, now, true) && LastWroteUnder(w', w.pc.seqNo)
  {
    var Numbered(l, left, d, n, at) := w.pc;
    w' := Tick(w, now, true);
    var size := |Wire(FrameFor(d, n, l.frameMode))|;
    assert w' == TickNumbered(w, l, left, d, n, at, Sent(size));
  }

  /** A frame that does not fit sends the command back without its number. */
  lemma GoingBack(cfg: Config, w: World, now: Time, x: Command) returns (w': World)
    requires Sound(cfg, w) && Unkeyed(w, x)
    requires w.pc.Numbered? && w.pc.cmd.retrySeq == 0 && TooBig(w.pc.cmd, w.pc.l)
    ensures w' == Tick(w, now, true) && Sound(cfg, w') && Fresh(w', x)
  {
    TooBigTick(w, now, true);
    w' := Tick(w, now, true);
    StepKeeps(cfg, w, Run(now, true));
    SumOfPush(w.sess.bands, w.pc.cmd, CarriesNumber(x));
  }

  /** A retry taken from the queue under its old number, its only copy with a number, which
      passes all tests; `mid` may happen before the flush tries to write it, and the line is up.
      If its frame fits what is left of the budget, it goes out at once, under its old number
      exactly when that is not zero or zero comes next. If not, it goes back, and its next write
      is under the number the counter hands out then, so under the old one only if that is what
      comes up again. */
  lemma RetryKeepsItsNumber(cfg: Config, w: World, now: Time, ok: bool, mid: seq<Step>, now': Time,
                            rest: seq<Step>, x: Command) returns (n: byte)
    requires Sound(cfg, w) && w.pc.Popped? && Core(w.pc.cmd) == x && Passes(w.pc.cmd, w.pc.l, now)
    requires Encodable(FrameFor(w.pc.cmd, 0, w.pc.l.frameMode))
    requires KeyedCopies(w, x) == CarriesNumber(x)(w.pc.cmd) && NoneFlying(w, x)
    requires Possible(cfg, Tick(w, now, ok), mid) && Aside(mid)
    requires var v := Tick(After(cfg, Tick(w, now, ok), mid), now', true);
             TooBig(w.pc.cmd, w.pc.l) ==> FirstWrite(cfg, v, rest, x)
    ensures var key, v := w.pc.cmd.retrySeq, Tick(After(cfg, Tick(w, now, ok), mid), now', true);
            if TooBig(w.pc.cmd, w.pc.l)
            then LastWroteUnder(After(cfg, v, rest), n) && n == After(cfg, v, rest[..|rest| - 1]).sess.nextSeq
            else LastWroteUnder(v, n) && (n == key <==> key != 0 || w.sess.nextSeq == 255)
  {
    var c, l := w.pc.cmd, w.pc.l;
    var w1 := TakingNumber(cfg, w, now, ok, x);
    StandingStill(cfg, w1, mid, x);
    var w2 := After(cfg, w1, mid);
    assert Core(c.(retrySeq := 0)) == Core(c);
    SameFrame(c, l);
    if TooBig(c, l) {
      var v := GoingBack(cfg, w2, now', x);
      NextWriteIsFresh(cfg, v, rest, x);
      n := After(cfg, v, rest[..|rest| - 1]).sess.nextSeq;
    } else {
      var v := GoingOut(w2, now', x);
      n := w1.pc.seqNo;
    }
  }

  lemma SameFrame(c: Command, l: Locals)
    ensures FrameFor(c.(retrySeq := 0), 0, l.frameMode) == FrameFor(c, 0, l.frameMode)
    ensures TooBig(c.(retrySeq := 0), l) <==> TooBig(c, l)
  {
  }
}
