/** Double-entry bookkeeping for the delivery engine.

    Give a command a weight that may depend on its identity and on its number of attempts,
    one while it waits and one while it flies. Then the weight present in a session always
    equals what the log says was put in, minus what it says was taken out. */
module Ledger {
  import opened Bytes
  import opened Messages
  import opened Sums
  import opened Commands
  import opened PriorityBands
  import opened Policy
  import opened Sessions
  import opened Engine

  datatype Weights = Weights(waiting: (Command, int) -> int, flying: (Command, int) -> int)

  function Waiting(W: Weights): Command -> int {
    c => W.waiting(Core(c), c.attempts)
  }

  function Flying(W: Weights): Entry -> int {
    (e: Entry) => W.flying(Core(e.cmd), e.attempts)
  }

  function SumTable(m: Table, n: nat, f: Entry -> int): int
    requires n <= 256
  {
    if n == 0 then 0
    else
      var k: byte := n - 1;
      SumTable(m, n - 1, f) + (if k in m then f(m[k]) else 0)
  }

  /** Weight of what the running flush holds in its local variables. */
  function Held(W: Weights, pc: Pc): int {
    if pc == Idle then 0
    else
      Sum(pc.l.skipped, Waiting(W)) +
      (match pc
       case Popped(_, _, cmd) => Waiting(W)(cmd)
       case Numbered(_, _, cmd, _, _) => Waiting(W)(cmd)
       case Written(_, cmd, _) => W.flying(Core(cmd), cmd.attempts + 1)
       case _ => 0)
  }

  function Present(W: Weights, w: World): int {
    SumBands(w.sess.bands, Waiting(W)) + SumTable(w.sess.inFlight, 256, Flying(W)) + Held(W, w.pc)
  }

  /** What an event puts into the session, or takes out of it. */
  function NetOf(W: Weights, e: Event): int {
    match e
    case Enqueued(c) => W.waiting(Core(c), c.attempts)
    case Dropped(c) => -W.waiting(Core(c), c.attempts)
    case EndedQueued(_, c) => -W.waiting(Core(c), c.attempts)
    case EndedFlying(_, entry) => -W.flying(Core(entry.cmd), entry.attempts)
    case Wrote(c, _, _, _, _) => W.flying(Core(c), c.attempts + 1) - W.waiting(Core(c), c.attempts)
    case Overwrote(entry) => -W.flying(Core(entry.cmd), entry.attempts)
    case Retrying(entry) => W.waiting(Core(entry.cmd), entry.attempts) - W.flying(Core(entry.cmd), entry.attempts)
    case AcceptedBy(_, _) => 0
    case Progress(_) => 0
  }

  function Net(W: Weights): Event -> int {
    (e: Event) => NetOf(W, e)
  }

  function Balance(W: Weights, w: World): int {
    Present(W, w) - Sum(w.log, Net(W))
  }

  // ---- The table ----

  lemma {:induction false} SumTableSame(m: Table, m': Table, n: nat, f: Entry -> int)
    requires n <= 256
    requires forall k: byte :: k < n ==> (k in m <==> k in m') && (k in m ==> m[k] == m'[k])
    ensures SumTable(m, n, f) == SumTable(m', n, f)
  {
    if n != 0 { SumTableSame(m, m', n - 1, f); }
  }

  lemma {:induction false} SumTableRemove(m: Table, key: byte, n: nat, f: Entry -> int)
    requires key in m && key < n <= 256
    ensures SumTable(m, n, f) == SumTable(m - {key}, n, f) + f(m[key])
  {
    if n - 1 == key {
      SumTableSame(m, m - {key}, n - 1, f);
    } else {
      SumTableRemove(m, key, n - 1, f);
    }
  }

  lemma SumTablePut(m: Table, key: byte, e: Entry, f: Entry -> int)
    ensures SumTable(m[key := e], 256, f) == SumTable(m, 256, f) + f(e) - (if key in m then f(m[key]) else 0)
  {
    var m' := m[key := e];
    SumTableRemove(m', key, 256, f);
    if key in m {
      SumTableRemove(m, key, 256, f);
      SumTableSame(m' - {key}, m - {key}, 256, f);
    } else {
      SumTableSame(m' - {key}, m, 256, f);
    }
  }

  // ---- Lists of events ----

  lemma ReportBalance(W: Weights, w: World, e: Event)
    ensures Balance(W, Report(w, e)) == Balance(W, w) - Net(W)(e)
  {
    SumPush(w.log, e, Net(W));
  }

  lemma {:induction false} DroppedNet(W: Weights, cmds: seq<Command>)
    ensures Sum(DroppedEvents(cmds), Net(W)) == -Sum(cmds, Waiting(W))
    decreases |cmds|
  {
    if cmds != [] {
      var n := |cmds| - 1;
      DroppedNet(W, cmds[..n]);
      assert DroppedEvents(cmds)[..n] == DroppedEvents(cmds[..n]);
    }
  }

  lemma {:induction false} EndedNet(W: Weights, status: AckStatus, cmds: seq<Command>)
    ensures Sum(EndedEvents(status, cmds), Net(W)) == -Sum(cmds, Waiting(W))
    decreases |cmds|
  {
    if cmds != [] {
      var n := |cmds| - 1;
      EndedNet(W, status, cmds[..n]);
      assert EndedEvents(status, cmds)[..n] == EndedEvents(status, cmds[..n]);
    }
  }

  // ---- Step by step ----

  lemma {:induction false} MakeRoomBalance(cfg: Config, b: Bands, c: Command, f: Command -> int)
    ensures var (rest, dropped) := MakeRoom(cfg, b, c);
            SumBands(b, f) == SumBands(rest, f) + Sum(dropped, f)
    decreases Length(b)
  {
    if !(Fits(cfg, b, c) || Length(b) == 0) {
      var i := Oldest(Snapshot(b));
      var (rest, dropped) := MakeRoom(cfg, DropOldest(b), c);
      SumOfRemove(b, i, f);
      MakeRoomBalance(cfg, DropOldest(b), c, f);
      var all := [Snapshot(b)[i]] + dropped;
      SumPop(all, f);
      assert all[1..] == dropped;
    }
  }

  lemma AdmitBalance(cfg: Config, b: Bands, c: Command, f: Command -> int)
    ensures var a := Admit(cfg, b, c);
            SumBands(a.bands, f) + Sum(a.dropped, f) == SumBands(b, f) + (if a.status == Queued then f(c) else 0)
  {
    if Fits(cfg, b, c) {
      SumOfPush(b, c, f);
    } else if cfg.overflow == DropOldestFirst {
      MakeRoomBalance(cfg, b, c, f);
      SumOfPush(MakeRoom(cfg, b, c).0, c, f);
    }
  }

  lemma EnqueueBalance(W: Weights, cfg: Config, w: World, cmd: Command, now: Time)
    ensures Balance(W, EnqueueStep(cfg, w, cmd, now).0) == Balance(W, w)
  {
    if Normalize(cmd).Some? && !IsDuplicate(w.sess, Normalize(cmd).value, now) {
      var c := Normalize(cmd).value;
      var a := Admit(cfg, w.sess.bands, c);
      AdmitBalance(cfg, w.sess.bands, c, Waiting(W));
      DroppedNet(W, a.dropped);
      SumConcat(w.log, DroppedEvents(a.dropped), Net(W));
      SumPush(w.log + DroppedEvents(a.dropped), Enqueued(c), Net(W));
    }
  }

  lemma AckBalance(W: Weights, w: World, seqNo: byte, code: byte, free: int)
    ensures Balance(W, AckStep(w, seqNo, code, free)) == Balance(W, w)
  {
    if !IsTerminal(AckStatusOf(code)) {
      SumPush(w.log, Progress(seqNo), Net(W));
    } else if seqNo in w.sess.inFlight {
      var e := w.sess.inFlight[seqNo];
      SumTableRemove(w.sess.inFlight, seqNo, 256, Flying(W));
      SumPush(w.log, EndedFlying(AckStatusOf(code), e), Net(W));
    }
  }

  lemma RemoveBalance(W: Weights, w: World, key: byte)
    requires key in w.sess.inFlight
    ensures Balance(W, w.(sess := w.sess.(inFlight := w.sess.inFlight - {key})))
            == Balance(W, w) - Flying(W)(w.sess.inFlight[key])
  {
    SumTableRemove(w.sess.inFlight, key, 256, Flying(W));
  }

  lemma RequeuedWeight(W: Weights, e: Entry, key: byte)
    ensures Waiting(W)(Requeued(e, key)) == W.waiting(Core(e.cmd), e.attempts)
  {
    assert Core(Requeued(e, key)) == Core(e.cmd);
  }

  /** What moves from the table to the queue, and is reported so, changes no balance. */
  lemma Reentered(W: Weights, w: World, w': World, waiting: int, flying: int)
    requires w'.pc == w.pc
    requires SumBands(w'.sess.bands, Waiting(W)) == SumBands(w.sess.bands, Waiting(W)) + waiting
    requires SumTable(w'.sess.inFlight, 256, Flying(W)) == SumTable(w.sess.inFlight, 256, Flying(W)) - flying
    requires Sum(w'.log, Net(W)) == Sum(w.log, Net(W)) + waiting - flying
    ensures Balance(W, w') == Balance(W, w)
  {
  }

  lemma RetryBalance(W: Weights, w: World, key: byte)
    requires key in w.sess.inFlight
    ensures Balance(W, Settle(w, key, Retry)) == Balance(W, w)
  {
    var e := w.sess.inFlight[key];
    SumTableRemove(w.sess.inFlight, key, 256, Flying(W));
    RequeuedWeight(W, e, key);
    SumOfPush(w.sess.bands, Requeued(e, key), Waiting(W));
    SumPush(w.log, Retrying(e), Net(W));
    Reentered(W, w, Settle(w, key, Retry), W.waiting(Core(e.cmd), e.attempts), W.flying(Core(e.cmd), e.attempts));
  }

  lemma SettleBalance(W: Weights, w: World, key: byte, verdict: Verdict)
    requires key in w.sess.inFlight
    ensures Balance(W, Settle(w, key, verdict)) == Balance(W, w)
  {
    if verdict == Retry {
      RetryBalance(W, w, key);
    } else if verdict != Keep {
      var v := w.(sess := w.sess.(inFlight := w.sess.inFlight - {key}));
      RemoveBalance(W, w, key);
      ReportBalance(W, v, EndedFlying(if verdict == Expire then Expired else Failed, w.sess.inFlight[key]));
    }
  }

  lemma {:induction false} VisitsBalance(W: Weights, cfg: Config, w: World, order: seq<byte>, now: Time)
    ensures Balance(W, Visits(cfg, w, order, now)) == Balance(W, w)
    decreases |order|
  {
    if order != [] {
      var init := order[..|order| - 1];
      VisitsBalance(W, cfg, w, init, now);
      var w', key := Visits(cfg, w, init, now), order[|order| - 1];
      if key in w'.sess.inFlight { SettleBalance(W, w', key, Judge(cfg, w'.sess.inFlight[key], now)); }
    }
  }

  /** What moves between the queue and the hands of a flush changes no balance. */
  lemma Moved(W: Weights, w: World, w': World)
    requires w'.sess.inFlight == w.sess.inFlight && w'.log == w.log
    requires SumBands(w'.sess.bands, Waiting(W)) + Held(W, w'.pc) == SumBands(w.sess.bands, Waiting(W)) + Held(W, w.pc)
    ensures Balance(W, w') == Balance(W, w)
  {
  }

  lemma TickOuterBalance(W: Weights, w: World, now: Time, writeOk: bool)
    requires w.pc.Outer? && Tidy(w.pc)
    ensures Balance(W, Tick(w, now, writeOk)) == Balance(W, w)
  {
    if w.pc.l.remaining != 0 {
      var gone := Drained(w.sess.bands, now);
      SumOfDrain(w.sess.bands, now, Waiting(W));
      EndedNet(W, Expired, gone);
      SumConcat(w.log, EndedEvents(Expired, gone), Net(W));
    }
  }

  lemma TickPoppedBalance(W: Weights, w: World, now: Time, finding: Finding)
    requires w.pc.Popped?
    ensures Balance(W, TickPopped(w, w.pc.l, w.pc.left, w.pc.cmd, now, finding)) == Balance(W, w)
  {
    var Popped(l, left, cmd) := w.pc;
    match finding
    case Stale => SumPush(w.log, EndedQueued(Expired, cmd), Net(W));
    case Refused => SumPush(l.skipped, cmd, Waiting(W));
    case Malformed => SumPush(w.log, EndedQueued(Failed, cmd), Net(W));
    case _ => assert Core(cmd.(retrySeq := 0)) == Core(cmd);
  }

  lemma OverBudgetBalance(W: Weights, w: World)
    requires w.pc.Numbered?
    ensures Balance(W, TickNumbered(w, w.pc.l, w.pc.left, w.pc.cmd, w.pc.seqNo, w.pc.checkedAt, OverBudget)) == Balance(W, w)
  {
    var Numbered(l, left, cmd, seqNo, checkedAt) := w.pc;
    SumOfPush(w.sess.bands, cmd, Waiting(W));
    Moved(W, w, TickNumbered(w, l, left, cmd, seqNo, checkedAt, OverBudget));
  }

  lemma TickNumberedBalance(W: Weights, w: World, o: Outcome)
    requires w.pc.Numbered? && (o.Sent? ==> o.size <= w.pc.l.remaining)
    ensures Balance(W, TickNumbered(w, w.pc.l, w.pc.left, w.pc.cmd, w.pc.seqNo, w.pc.checkedAt, o)) == Balance(W, w)
  {
    var Numbered(l, left, cmd, seqNo, checkedAt) := w.pc;
    match o
    case OverBudget => OverBudgetBalance(W, w);
    case Sent(_) => SumPush(w.log, Wrote(cmd, FrameFor(cmd, seqNo, l.frameMode), checkedAt, l.fw, l.sync), Net(W));
    case _ => SumPush(w.log, EndedQueued(Failed, cmd), Net(W));
  }

  lemma TickWrittenBalance(W: Weights, w: World, now: Time, writeOk: bool)
    requires w.pc.Written?
    ensures Balance(W, Tick(w, now, writeOk)) == Balance(W, w)
  {
    var Written(l, cmd, seqNo) := w.pc;
    var m := w.sess.inFlight;
    SumTablePut(m, seqNo, Entry(seqNo, cmd, now, cmd.attempts + 1), Flying(W));
    if seqNo in m { SumPush(w.log, Overwrote(m[seqNo]), Net(W)); }
  }

  lemma TickScanBalance(W: Weights, w: World, now: Time, writeOk: bool)
    requires w.pc.Inner? || w.pc.PutBack?
    ensures Balance(W, Tick(w, now, writeOk)) == Balance(W, w)
  {
    var l := w.pc.l;
    if w.pc.Inner? {
      if PopNext(w.sess.bands, l.fw, l.sync).Some? { SumOfPop(w.sess.bands, l.fw, l.sync, Waiting(W)); }
    } else if l.skipped != [] {
      SumPop(l.skipped, Waiting(W));
      SumOfPush(w.sess.bands, l.skipped[0], Waiting(W));
    }
    Moved(W, w, Tick(w, now, writeOk));
  }

  /** An interim report changes no balance. */
  lemma Interim(W: Weights, w: World, w': World, e: Event)
    requires w'.sess.bands == w.sess.bands && w'.sess.inFlight == w.sess.inFlight && Held(W, w'.pc) == Held(W, w.pc)
    requires w'.log == w.log + [e] && (e.AcceptedBy? || e.Progress?)
    ensures Balance(W, w') == Balance(W, w)
  {
    SumPush(w.log, e, Net(W));
  }

  lemma TickRegisteredBalance(W: Weights, w: World, now: Time, writeOk: bool)
    requires w.pc.Registered?
    ensures Balance(W, Tick(w, now, writeOk)) == Balance(W, w)
  {
    Interim(W, w, Tick(w, now, writeOk), AcceptedBy(w.pc.cmd, w.pc.seqNo));
  }

  lemma TickModesBalance(W: Weights, w: World, now: Time, writeOk: bool)
    requires Tidy(w.pc) && !w.pc.Registered?
    requires !w.pc.Outer? && !w.pc.Inner? && !w.pc.PutBack? && !w.pc.Popped? && !w.pc.Numbered? && !w.pc.Written?
    ensures Balance(W, Tick(w, now, writeOk)) == Balance(W, w)
  {
  }

  lemma TickBalance(W: Weights, w: World, now: Time, writeOk: bool)
    requires Tidy(w.pc)
    ensures Balance(W, Tick(w, now, writeOk)) == Balance(W, w)
  {
    match w.pc
    case Outer(_) => TickOuterBalance(W, w, now, writeOk);
    case Popped(l, _, cmd) => TickPoppedBalance(W, w, now, Examine(cmd, l, now));
    case Numbered(l, _, cmd, seqNo, _) =>
      TickNumberedBalance(W, w, Dispatch(FrameFor(cmd, seqNo, l.frameMode), l, writeOk));
    case Written(_, _, _) => TickWrittenBalance(W, w, now, writeOk);
    case Inner(_, _) => TickScanBalance(W, w, now, writeOk);
    case PutBack(_, _) => TickScanBalance(W, w, now, writeOk);
    case Registered(_, _, _) => TickRegisteredBalance(W, w, now, writeOk);
    case _ => TickModesBalance(W, w, now, writeOk);
  }

  /** What a step takes out of the books: nothing, unless it is a restart, which takes out
      what was in memory and puts in what the store has. */
  function RestartShift(W: Weights, w: World, step: Step): int {
    if step.Restart? then Present(W, w) - Present(W, Reloaded(w)) else 0
  }

  /** Every step keeps the books balanced, for every choice of weights, up to what a restart
      loses or brings back. */
  lemma StepBalance(W: Weights, cfg: Config, w: World, step: Step)
    requires Enabled(w, step) && Tidy(w.pc)
    ensures Balance(W, Apply(cfg, w, step)) == Balance(W, w) - RestartShift(W, w, step)
  {
    match step
    case Enqueue(cmd, now) => EnqueueBalance(W, cfg, w, cmd, now);
    case Ack(seqNo, code, free) => AckBalance(W, w, seqNo, code, free);
    case Sweep(order, now) => VisitsBalance(W, cfg, w, order, now);
    case Run(now, writeOk) => TickBalance(W, w, now, writeOk);
    case _ =>
  }
}
