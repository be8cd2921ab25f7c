/** What holds over whole runs of the delivery engine, in every interleaving. */
module Delivery {
  import opened Bytes
  import opened Messages
  import opened Sums
  import opened Commands
  import opened PriorityBands
  import opened Policy
  import opened Sessions
  import opened Engine
  import opened Events
  import opened Persistence
  import opened Ledger
  import opened Invariants

  /** What the restarts of a run took out of the books, on balance. */
  function Drift(W: Weights, cfg: Config, w: World, steps: seq<Step>): int {
    if steps == [] then 0
    else
      var init := steps[..|steps| - 1];
      Drift(W, cfg, w, init) + RestartShift(W, After(cfg, w, init), steps[|steps| - 1])
  }

  /** The books balance in every reachable state, for all weights, up to what restarts lost
      or brought back. */
  lemma {:induction false} BalanceAlways(W: Weights, cfg: Config, w: World, steps: seq<Step>)
    requires Sound(cfg, w) && Possible(cfg, w, steps)
    ensures Balance(W, After(cfg, w, steps)) == Balance(W, w) - Drift(W, cfg, w, steps)
    decreases |steps|
  {
    if steps != [] {
      var init := steps[..|steps| - 1];
      Unroll(cfg, w, steps);
      BalanceAlways(W, cfg, w, init);
      InvAlways(cfg, w, init);
      StepBalance(W, cfg, After(cfg, w, init), steps[|steps| - 1]);
    }
  }

  lemma StartSound(cfg: Config)
    ensures Sound(cfg, START)
  {
    assert Inv(Bounded(cfg), START);
    SyncedReload(START);
  }

  lemma StartBalance(W: Weights, cfg: Config, steps: seq<Step>)
    requires Possible(cfg, START, steps)
    ensures Present(W, After(cfg, START, steps)) == Sum(After(cfg, START, steps).log, Net(W)) - Drift(W, cfg, START, steps)
    ensures Sound(cfg, After(cfg, START, steps))
  {
    StartSound(cfg);
    BalanceAlways(W, cfg, START, steps);
    InvAlways(cfg, START, steps);
    EmptyTable(256, Flying(W));
  }

  /** Restarts between flushes with the store up to date. */
  predicate CleanRestarts(cfg: Config, w: World, steps: seq<Step>) {
    forall i :: 0 <= i < |steps| && steps[i].Restart? ==>
      After(cfg, w, steps[..i]).pc == Idle && Synced(After(cfg, w, steps[..i]))
  }

  /** Such restarts lose and bring back nothing. */
  lemma {:induction false} NoDrift(W: Weights, cfg: Config, w: World, steps: seq<Step>)
    requires Sound(cfg, w) && Possible(cfg, w, steps) && CleanRestarts(cfg, w, steps)
    ensures Drift(W, cfg, w, steps) == 0
    decreases |steps|
  {
    if steps != [] {
      var init := steps[..|steps| - 1];
      Unroll(cfg, w, steps);
      assert forall i :: 0 <= i < |init| ==> init[..i] == steps[..i];
      NoDrift(W, cfg, w, init);
      InvAlways(cfg, w, init);
      if steps[|steps| - 1].Restart? { SyncedReload(After(cfg, w, init)); }
    }
  }

  lemma {:induction false} EmptyTable(n: nat, f: Entry -> int)
    requires n <= 256
    ensures SumTable(map[], n, f) == 0
  {
    if n != 0 { EmptyTable(n - 1, f); }
  }

  // ---- Conservation ----

  /** Weight one for commands of identity x, zero for all others. */
  function One(x: Command): Weights {
    Weights((c: Command, a: int) => if c == x then 1 else 0, (c: Command, a: int) => if c == x then 1 else 0)
  }

  function InQueue(w: World, x: Command): int {
    SumBands(w.sess.bands, Waiting(One(x)))
  }

  function InFlight(w: World, x: Command): int {
    SumTable(w.sess.inFlight, 256, Flying(One(x)))
  }

  function HeldByFlush(w: World, x: Command): int {
    Held(One(x), w.pc)
  }

  function IsEnqueued(x: Command): Event -> int {
    (e: Event) => if e.Enqueued? && Core(e.cmd) == x then 1 else 0
  }

  /** A final report: expired, failed, delivered or unsupported. */
  function IsEnded(x: Command): Event -> int {
    (e: Event) => if (e.EndedQueued? && Core(e.cmd) == x) || (e.EndedFlying? && Core(e.entry.cmd) == x) then 1 else 0
  }

  function IsDropped(x: Command): Event -> int {
    (e: Event) => if e.Dropped? && Core(e.cmd) == x then 1 else 0
  }

  function IsOverwritten(x: Command): Event -> int {
    (e: Event) => if e.Overwrote? && Core(e.entry.cmd) == x then 1 else 0
  }

  lemma {:induction false} NetOfOne(x: Command, log: seq<Event>)
    ensures Sum(log, Net(One(x))) ==
            Sum(log, IsEnqueued(x)) - Sum(log, IsEnded(x)) - Sum(log, IsDropped(x)) - Sum(log, IsOverwritten(x))
    decreases |log|
  {
    if log != [] {
      NetOfOne(x, log[..|log| - 1]);
      NetOfOneEvent(x, log[|log| - 1]);
    }
  }

  lemma NetOfOneEvent(x: Command, e: Event)
    ensures Net(One(x))(e) == IsEnqueued(x)(e) - IsEnded(x)(e) - IsDropped(x)(e) - IsOverwritten(x)(e)
  {
    assert Net(One(x))(e) == NetOf(One(x), e);
  }

  /** Conservation: in every reachable state, as many commands of any identity have been
      accepted as are queued, in flight, in the hands of the running flush, finally
      reported, dropped by overflow, lost to a reused in-flight slot, or lost by restarts,
      less what restarts brought back. */
  lemma Conservation(cfg: Config, steps: seq<Step>, x: Command)
    requires Possible(cfg, START, steps)
    ensures var w := After(cfg, START, steps);
            Sum(w.log, IsEnqueued(x)) ==
              InQueue(w, x) + InFlight(w, x) + HeldByFlush(w, x)
              + Sum(w.log, IsEnded(x)) + Sum(w.log, IsDropped(x)) + Sum(w.log, IsOverwritten(x))
              + Drift(One(x), cfg, START, steps)
  {
    StartBalance(One(x), cfg, steps);
    NetOfOne(x, After(cfg, START, steps).log);
  }

  lemma CountsNotNegative(w: World, x: Command)
    ensures InQueue(w, x) >= 0 && InFlight(w, x) >= 0 && HeldByFlush(w, x) >= 0
    ensures Sum(w.log, IsEnded(x)) >= 0 && Sum(w.log, IsDropped(x)) >= 0 && Sum(w.log, IsOverwritten(x)) >= 0
  {
    SumAtLeast(w.sess.bands.high, Waiting(One(x)), 0);
    SumAtLeast(w.sess.bands.fw, Waiting(One(x)), 0);
    SumAtLeast(w.sess.bands.sync, Waiting(One(x)), 0);
    SumAtLeast(w.sess.bands.query, Waiting(One(x)), 0);
    TableAtLeast(w.sess.inFlight, 256, Flying(One(x)));
    if w.pc != Idle { SumAtLeast(w.pc.l.skipped, Waiting(One(x)), 0); }
    SumAtLeast(w.log, IsEnded(x), 0);
    SumAtLeast(w.log, IsDropped(x), 0);
    SumAtLeast(w.log, IsOverwritten(x), 0);
  }

  lemma {:induction false} TableAtLeast(m: Table, n: nat, f: Entry -> int)
    requires n <= 256 && forall k :: k in m ==> f(m[k]) >= 0
    ensures SumTable(m, n, f) >= 0
  {
    if n != 0 { TableAtLeast(m, n - 1, f); }
  }

  /** One of six, the others none. */
  predicate Single(a: int, b: int, c: int, d: int, e: int, f: int) {
    && 0 <= a && 0 <= b && 0 <= c && 0 <= d && 0 <= e && 0 <= f
    && a + b + c + d + e + f == 1
  }

  /** A command accepted once is in exactly one place, and is finally reported at most once,
      if restarts come between flushes with the store up to date. */
  lemma ExactlyOnePlace(cfg: Config, steps: seq<Step>, x: Command)
    requires Possible(cfg, START, steps) && CleanRestarts(cfg, START, steps)
    requires Sum(After(cfg, START, steps).log, IsEnqueued(x)) == 1
    ensures var w := After(cfg, START, steps);
            Single(InQueue(w, x), InFlight(w, x), HeldByFlush(w, x),
                   Sum(w.log, IsEnded(x)), Sum(w.log, IsDropped(x)), Sum(w.log, IsOverwritten(x)))
  {
    Conservation(cfg, steps, x);
    StartSound(cfg);
    NoDrift(One(x), cfg, START, steps);
    CountsNotNegative(After(cfg, START, steps), x);
  }

  // ---- Retry bound ----

  /** Attempts still allowed to commands of identity x. */
  function Credit(cfg: Config, x: Command): Weights {
    Weights((c: Command, a: int) => if c == x then MaxRetries(cfg, x) + 1 - a else 0,
            (c: Command, a: int) => if c == x then MaxRetries(cfg, x) + 1 - a else 0)
  }

  function IsWrite(x: Command): Event -> int {
    (e: Event) => if e.Wrote? && Core(e.cmd) == x then 1 else 0
  }

  /** The writes an acceptance allows. */
  function Allowance(cfg: Config, x: Command): Event -> int {
    (e: Event) => if e.Enqueued? && Core(e.cmd) == x then MaxRetries(cfg, x) + 1 else 0
  }

  lemma {:induction false} AllowanceOfLog(cfg: Config, x: Command, log: seq<Event>)
    ensures Sum(log, Allowance(cfg, x)) == (MaxRetries(cfg, x) + 1) * Sum(log, IsEnqueued(x))
    decreases |log|
  {
    if log != [] {
      var init, last := log[..|log| - 1], log[|log| - 1];
      AllowanceOfLog(cfg, x, init);
      var n, a, b := MaxRetries(cfg, x) + 1, Sum(init, IsEnqueued(x)), IsEnqueued(x)(last);
      assert n * (a + b) == n * a + n * b;
    }
  }

  lemma CreditOfEvent(cfg: Config, x: Command, e: Event)
    requires EventFit(Bounded(cfg), e)
    ensures Net(Credit(cfg, x))(e) + IsWrite(x)(e) <= Allowance(cfg, x)(e)
  {
    assert Net(Credit(cfg, x))(e) == NetOf(Credit(cfg, x), e);
    match e
    case Enqueued(c) => CreditMeans(cfg, x, c);
    case Dropped(c) => CreditMeans(cfg, x, c);
    case EndedQueued(_, c) => CreditMeans(cfg, x, c);
    case EndedFlying(_, entry) => CreditMeans(cfg, x, entry.cmd);
    case Wrote(c, _, _, _, _) => CreditMeans(cfg, x, c);
    case Overwrote(entry) => CreditMeans(cfg, x, entry.cmd);
    case Retrying(entry) => CreditMeans(cfg, x, entry.cmd);
    case _ =>
  }

  /** The rule, and the weights, for one command. */
  lemma CreditMeans(cfg: Config, x: Command, c: Command)
    requires Fit(Bounded(cfg), c)
    ensures 0 <= c.attempts <= MaxRetries(cfg, Core(c))
    ensures Waiting(Credit(cfg, x))(c) == if Core(c) == x then MaxRetries(cfg, x) + 1 - c.attempts else 0
    ensures forall a :: Credit(cfg, x).flying(Core(c), a) == if Core(c) == x then MaxRetries(cfg, x) + 1 - a else 0
    ensures forall a :: Credit(cfg, x).waiting(Core(c), a) == if Core(c) == x then MaxRetries(cfg, x) + 1 - a else 0
  {
    BoundedMeans(cfg, Core(c), c.attempts);
  }

  lemma {:induction false} CreditOfLog(cfg: Config, x: Command, log: seq<Event>)
    requires LogFit(Bounded(cfg), log)
    ensures Sum(log, Net(Credit(cfg, x))) + Sum(log, IsWrite(x)) <= Sum(log, Allowance(cfg, x))
    decreases |log|
  {
    if log != [] {
      var init, last := log[..|log| - 1], log[|log| - 1];
      CreditOfLog(cfg, x, init);
      CreditOfEvent(cfg, x, last);
    }
  }

  lemma CreditNotNegative(cfg: Config, x: Command, w: World)
    requires Inv(Bounded(cfg), w)
    ensures Present(Credit(cfg, x), w) >= 0
  {
    var W := Credit(cfg, x);
    SeqCredit(cfg, x, w.sess.bands.high);
    SeqCredit(cfg, x, w.sess.bands.fw);
    SeqCredit(cfg, x, w.sess.bands.sync);
    SeqCredit(cfg, x, w.sess.bands.query);
    forall k | k in w.sess.inFlight ensures Flying(W)(w.sess.inFlight[k]) >= 0 {
      CreditMeans(cfg, x, w.sess.inFlight[k].cmd);
    }
    TableAtLeast(w.sess.inFlight, 256, Flying(W));
    if w.pc != Idle { SeqCredit(cfg, x, w.pc.l.skipped); }
    if w.pc.Popped? || w.pc.Numbered? || w.pc.Written? { CreditMeans(cfg, x, w.pc.cmd); }
  }

  lemma SeqCredit(cfg: Config, x: Command, s: seq<Command>)
    requires AllFit(Bounded(cfg), s)
    ensures Sum(s, Waiting(Credit(cfg, x))) >= 0
  {
    forall i | 0 <= i < |s| ensures Waiting(Credit(cfg, x))(s[i]) >= 0 {
      CreditMeans(cfg, x, s[i]);
    }
    SumAtLeast(s, Waiting(Credit(cfg, x)), 0);
  }

  /** Writes so far, less the writes the acceptances so far allow. */
  function Excess(cfg: Config, x: Command, log: seq<Event>): int {
    Sum(log, IsWrite(x)) - Sum(log, Allowance(cfg, x))
  }

  /** Outside restarts, the credit present falls by at least the growth of the excess. */
  lemma CreditStep(cfg: Config, x: Command, w: World, step: Step)
    requires Sound(cfg, w) && Enabled(w, step) && !step.Restart?
    ensures var w' := Apply(cfg, w, step);
            Present(Credit(cfg, x), w') + Excess(cfg, x, w'.log) <= Present(Credit(cfg, x), w) + Excess(cfg, x, w.log)
  {
    StepKeeps(cfg, w, step);
    StepBalance(Credit(cfg, x), cfg, w, step);
    var added := NewEvents(cfg, w, step);
    TailFit(Bounded(cfg), w.log, added);
    CreditOfLog(cfg, x, added);
    SumConcat(w.log, added, Net(Credit(cfg, x)));
    ExcessGrows(cfg, x, w.log, added);
  }

  lemma ExcessGrows(cfg: Config, x: Command, log: seq<Event>, added: seq<Event>)
    ensures Excess(cfg, x, log + added) == Excess(cfg, x, log) + Excess(cfg, x, added)
  {
    SumConcat(log, added, IsWrite(x));
    SumConcat(log, added, Allowance(cfg, x));
  }

  /** 1 between a write of x and its registration. */
  function Unregistered(pc: Pc, x: Command): int {
    if pc.Written? && Core(pc.cmd) == x then 1 else 0
  }

  /** A step that does not save adds to the excess only by a write that is not registered. */
  lemma UnsavedExcess(cfg: Config, x: Command, w: World, step: Step)
    requires Enabled(w, step) && !step.Restart? && !Saves(cfg, w, step)
    ensures var w' := Apply(cfg, w, step);
            Excess(cfg, x, w'.log) - Unregistered(w'.pc, x) <= Excess(cfg, x, w.log) - Unregistered(w.pc, x)
  {
    var w' := Apply(cfg, w, step);
    if step.Run? {
      TickExcess(cfg, x, w, step.now, step.writeOk);
    } else {
      var added := OnlyRunWrites(cfg, w, step);
      NoExcess(cfg, x, w.log, added);
      if !step.Flush? { OthersLeavePc(cfg, w, step); }
    }
  }

  lemma NoExcess(cfg: Config, x: Command, log: seq<Event>, added: seq<Event>)
    requires NothingWritten(added)
    ensures Excess(cfg, x, log + added) <= Excess(cfg, x, log)
  {
    SumZero(added, IsWrite(x));
    SumAtLeast(added, Allowance(cfg, x), 0);
    ExcessGrows(cfg, x, log, added);
  }

  lemma TickExcess(cfg: Config, x: Command, w: World, now: Time, writeOk: bool)
    requires !TickSaves(w.pc, now)
    ensures var w' := Tick(w, now, writeOk);
            Excess(cfg, x, w'.log) - Unregistered(w'.pc, x) <= Excess(cfg, x, w.log) - Unregistered(w.pc, x)
  {
    if w.pc.Numbered? {
      var Numbered(l, left, cmd, seqNo, checkedAt) := w.pc;
      NumberedExcess(cfg, x, w, Dispatch(FrameFor(cmd, seqNo, l.frameMode), l, writeOk));
    } else {
      var added := QuietTick(w, now, writeOk);
      NoExcess(cfg, x, w.log, added);
    }
  }

  lemma NumberedExcess(cfg: Config, x: Command, w: World, o: Outcome)
    requires w.pc.Numbered? && (o.Sent? ==> o.size <= w.pc.l.remaining)
    ensures var w' := TickNumbered(w, w.pc.l, w.pc.left, w.pc.cmd, w.pc.seqNo, w.pc.checkedAt, o);
            Excess(cfg, x, w'.log) - Unregistered(w'.pc, x) == Excess(cfg, x, w.log)
  {
    var Numbered(l, left, cmd, seqNo, checkedAt) := w.pc;
    if o != OverBudget {
      var e := if o.Sent? then Wrote(cmd, FrameFor(cmd, seqNo, l.frameMode), checkedAt, l.fw, l.sync)
               else EndedQueued(Failed, cmd);
      SumPush(w.log, e, IsWrite(x));
      SumPush(w.log, e, Allowance(cfg, x));
    }
  }

  /** Restarts that hit the moment between a write of x and its registration. */
  function TornWrites(cfg: Config, w: World, steps: seq<Step>, x: Command): int {
    if steps == [] then 0
    else
      var init := steps[..|steps| - 1];
      TornWrites(cfg, w, init, x)
      + (if steps[|steps| - 1].Restart? then Unregistered(After(cfg, w, init).pc, x) else 0)
  }

  /** The credit in memory, and the credit in the store, pay for the writes so far. */
  predicate Paid(cfg: Config, x: Command, w: World, torn: int) {
    && Present(Credit(cfg, x), w) + Excess(cfg, x, w.log) <= torn
    && Present(Credit(cfg, x), Reloaded(w)) + Excess(cfg, x, w.log) <= torn + Unregistered(w.pc, x)
  }

  lemma PaidStep(cfg: Config, x: Command, w: World, step: Step, torn: int)
    requires Sound(cfg, w) && Enabled(w, step) && Paid(cfg, x, w, torn)
    ensures Paid(cfg, x, Apply(cfg, w, step), torn + (if step.Restart? then Unregistered(w.pc, x) else 0))
  {
    var w' := Apply(cfg, w, step);
    if !step.Restart? {
      CreditStep(cfg, x, w, step);
      SavesExactly(cfg, w, step);
      if Saves(cfg, w, step) {
        StepKeeps(cfg, w, step);
        SyncedReload(w');
        HeldCredit(cfg, x, w');
      } else {
        UnsavedExcess(cfg, x, w, step);
        assert Reloaded(w').sess == Reloaded(w).sess;
      }
    }
  }

  lemma HeldCredit(cfg: Config, x: Command, w: World)
    requires Inv(Bounded(cfg), w)
    ensures Held(Credit(cfg, x), w.pc) >= 0
  {
    if w.pc != Idle { SeqCredit(cfg, x, w.pc.l.skipped); }
    if w.pc.Popped? || w.pc.Numbered? || w.pc.Written? { CreditMeans(cfg, x, w.pc.cmd); }
  }

  lemma {:induction false} PaidAlways(cfg: Config, steps: seq<Step>, x: Command)
    requires Possible(cfg, START, steps)
    ensures Paid(cfg, x, After(cfg, START, steps), TornWrites(cfg, START, steps, x))
    ensures Sound(cfg, After(cfg, START, steps))
    decreases |steps|
  {
    StartSound(cfg);
    if steps == [] {
      EmptyTable(256, Flying(Credit(cfg, x)));
      SyncedReload(START);
    } else {
      var init := steps[..|steps| - 1];
      Unroll(cfg, START, steps);
      PaidAlways(cfg, init, x);
      var w, last := After(cfg, START, init), steps[|steps| - 1];
      StepKeeps(cfg, w, last);
      PaidStep(cfg, x, w, last, TornWrites(cfg, START, init, x));
    }
  }

  /** Over every run, with restarts at any moment and from any store, a command is written at
      most MaxRetries + 1 times per acceptance, and once more for each restart that comes
      between one of its writes and the registration of that write. */
  lemma WritesBoundedByRestarts(cfg: Config, steps: seq<Step>, x: Command)
    requires Possible(cfg, START, steps)
    ensures var log := After(cfg, START, steps).log;
            Sum(log, IsWrite(x)) <= (MaxRetries(cfg, x) + 1) * Sum(log, IsEnqueued(x)) + TornWrites(cfg, START, steps, x)
  {
    PaidAlways(cfg, steps, x);
    CreditNotNegative(cfg, x, After(cfg, START, steps));
    AllowanceOfLog(cfg, x, After(cfg, START, steps).log);
  }

  /** No restart comes between a write and its registration; so in particular when restarts
      come between flushes, whatever the store then holds. */
  predicate NoneTorn(cfg: Config, w: World, steps: seq<Step>) {
    forall i :: 0 <= i < |steps| && steps[i].Restart? ==> !After(cfg, w, steps[..i]).pc.Written?
  }

  lemma {:induction false} NoneTornMeans(cfg: Config, w: World, steps: seq<Step>, x: Command)
    requires NoneTorn(cfg, w, steps)
    ensures TornWrites(cfg, w, steps, x) == 0
    decreases |steps|
  {
    if steps != [] {
      var init := steps[..|steps| - 1];
      assert forall i :: 0 <= i < |init| ==> init[..i] == steps[..i];
      NoneTornMeans(cfg, w, init, x);
    }
  }

  /** Then a command is written at most once more than its retries per acceptance, however
      often it was put back, and across restarts from a stale store. */
  lemma WritesBounded(cfg: Config, steps: seq<Step>, x: Command)
    requires Possible(cfg, START, steps) && NoneTorn(cfg, START, steps)
    ensures var log := After(cfg, START, steps).log;
            Sum(log, IsWrite(x)) <= (MaxRetries(cfg, x) + 1) * Sum(log, IsEnqueued(x))
  {
    WritesBoundedByRestarts(cfg, steps, x);
    NoneTornMeans(cfg, START, steps, x);
  }

  /** In every reachable state a waiting command has retries left to count, and an entry in
      flight counts one attempt more than its command and at most one more than its retries. */
  lemma AttemptsBounded(cfg: Config, steps: seq<Step>)
    requires Possible(cfg, START, steps)
    ensures var s := After(cfg, START, steps).sess;
            && (forall i :: 0 <= i < Length(s.bands) ==>
                  0 <= Snapshot(s.bands)[i].attempts <= MaxRetries(cfg, Snapshot(s.bands)[i]))
            && (forall k :: k in s.inFlight ==>
                  1 <= s.inFlight[k].attempts == s.inFlight[k].cmd.attempts + 1 <= MaxRetries(cfg, s.inFlight[k].cmd) + 1)
  {
    StartSound(cfg);
    InvAlways(cfg, START, steps);
    var s := After(cfg, START, steps).sess;
    forall i | 0 <= i < Length(s.bands)
      ensures 0 <= Snapshot(s.bands)[i].attempts <= MaxRetries(cfg, Snapshot(s.bands)[i])
    {
      RemoveKeeps(Bounded(cfg), s.bands, i);
      FitMeans(cfg, Snapshot(s.bands)[i]);
    }
    forall k | k in s.inFlight
      ensures 1 <= s.inFlight[k].attempts == s.inFlight[k].cmd.attempts + 1 <= MaxRetries(cfg, s.inFlight[k].cmd) + 1
    {
      FitMeans(cfg, s.inFlight[k].cmd);
    }
  }

  lemma FitMeans(cfg: Config, c: Command)
    requires Fit(Bounded(cfg), c)
    ensures 0 <= c.attempts <= MaxRetries(cfg, c) && Normal(c)
  {
    BoundedMeans(cfg, Core(c), c.attempts);
    assert MaxRetries(cfg, Core(c)) == MaxRetries(cfg, c);
  }

  // ---- Progress ----

  /** Delivery steps a command can still cause: two per remaining attempt, plus the one that
      ends its flight. */
  function Effort(cfg: Config): Weights {
    Weights((c: Command, a: int) => 2 * (MaxRetries(cfg, c) + 1 - a),
            (c: Command, a: int) => 2 * (MaxRetries(cfg, c) + 1 - a) + 1)
  }

  /** Writes, retries, final reports and losses. */
  function IsDelivery(): Event -> int {
    (e: Event) => if e.Wrote? || e.Retrying? || e.EndedQueued? || e.EndedFlying? || e.Dropped? || e.Overwrote? then 1 else 0
  }

  function Endowment(cfg: Config): Event -> int {
    (e: Event) => if e.Enqueued? then 2 * (MaxRetries(cfg, Core(e.cmd)) + 1) else 0
  }

  lemma EffortMeans(cfg: Config, c: Command)
    requires Fit(Bounded(cfg), c)
    ensures 0 <= c.attempts <= MaxRetries(cfg, Core(c))
    ensures Waiting(Effort(cfg))(c) == 2 * (MaxRetries(cfg, Core(c)) + 1 - c.attempts)
    ensures forall a :: Effort(cfg).flying(Core(c), a) == 2 * (MaxRetries(cfg, Core(c)) + 1 - a) + 1
    ensures forall a :: Effort(cfg).waiting(Core(c), a) == 2 * (MaxRetries(cfg, Core(c)) + 1 - a)
  {
    BoundedMeans(cfg, Core(c), c.attempts);
  }

  /** Every delivery event uses up effort, and only an accepted command brings any. */
  lemma EffortOfEvent(cfg: Config, e: Event)
    requires EventFit(Bounded(cfg), e)
    ensures Net(Effort(cfg))(e) + IsDelivery()(e) <= Endowment(cfg)(e)
  {
    assert Net(Effort(cfg))(e) == NetOf(Effort(cfg), e);
    match e
    case Enqueued(c) => EffortMeans(cfg, c);
    case Dropped(c) => EffortMeans(cfg, c);
    case EndedQueued(_, c) => EffortMeans(cfg, c);
    case EndedFlying(_, entry) => EffortMeans(cfg, entry.cmd);
    case Wrote(c, _, _, _, _) => EffortMeans(cfg, c);
    case Overwrote(entry) => EffortMeans(cfg, entry.cmd);
    case Retrying(entry) => EffortMeans(cfg, entry.cmd);
    case _ =>
  }

  lemma {:induction false} EffortOfLog(cfg: Config, log: seq<Event>)
    requires LogFit(Bounded(cfg), log)
    ensures Sum(log, Net(Effort(cfg))) + Sum(log, IsDelivery()) <= Sum(log, Endowment(cfg))
    decreases |log|
  {
    if log != [] {
      EffortOfLog(cfg, log[..|log| - 1]);
      EffortOfEvent(cfg, log[|log| - 1]);
    }
  }

  lemma EffortStep(cfg: Config, w: World, step: Step)
    requires Sound(cfg, w) && Enabled(w, step)
    ensures var w' := Apply(cfg, w, step);
            Present(Effort(cfg), w') + Sum(w'.log, IsDelivery()) - Sum(w.log, IsDelivery())
              <= Present(Effort(cfg), w) + Sum(w'.log, Endowment(cfg)) - Sum(w.log, Endowment(cfg)) - RestartShift(Effort(cfg), w, step)
  {
    var w' := Apply(cfg, w, step);
    StepKeeps(cfg, w, step);
    StepBalance(Effort(cfg), cfg, w, step);
    var added := NewEvents(cfg, w, step);
    TailFit(Bounded(cfg), w.log, added);
    EffortOfLog(cfg, added);
    SumConcat(w.log, added, Net(Effort(cfg)));
    SumConcat(w.log, added, IsDelivery());
    SumConcat(w.log, added, Endowment(cfg));
  }

  lemma TailFit(ok: Rule, log: seq<Event>, added: seq<Event>)
    requires LogFit(ok, log + added)
    ensures LogFit(ok, added)
  {
    forall i | 0 <= i < |added| ensures EventFit(ok, added[i]) {
      assert added[i] == (log + added)[|log| + i];
    }
  }

  /** The measure: each step lowers the outstanding effort by at least the number of
      deliveries it makes, except for what it newly accepts and what a restart brings back.
      So a run that accepts and brings back nothing makes at most as many deliveries as there
      is effort outstanding at its start. */
  lemma {:induction false} EffortFalls(cfg: Config, w: World, steps: seq<Step>)
    requires Sound(cfg, w) && Possible(cfg, w, steps)
    ensures var w' := After(cfg, w, steps);
            Present(Effort(cfg), w') + Sum(w'.log, IsDelivery()) - Sum(w.log, IsDelivery())
              <= Present(Effort(cfg), w) + Sum(w'.log, Endowment(cfg)) - Sum(w.log, Endowment(cfg))
                 - Drift(Effort(cfg), cfg, w, steps)
    decreases |steps|
  {
    if steps != [] {
      var init := steps[..|steps| - 1];
      Unroll(cfg, w, steps);
      EffortFalls(cfg, w, init);
      InvAlways(cfg, w, init);
      EffortStep(cfg, After(cfg, w, init), steps[|steps| - 1]);
    }
  }

  lemma EffortNotNegative(cfg: Config, w: World)
    requires Inv(Bounded(cfg), w)
    ensures Present(Effort(cfg), w) >= 0
  {
    var W := Effort(cfg);
    SeqEffort(cfg, w.sess.bands.high);
    SeqEffort(cfg, w.sess.bands.fw);
    SeqEffort(cfg, w.sess.bands.sync);
    SeqEffort(cfg, w.sess.bands.query);
    forall k | k in w.sess.inFlight ensures Flying(W)(w.sess.inFlight[k]) >= 0 {
      EffortMeans(cfg, w.sess.inFlight[k].cmd);
    }
    TableAtLeast(w.sess.inFlight, 256, Flying(W));
    if w.pc != Idle { SeqEffort(cfg, w.pc.l.skipped); }
    if w.pc.Popped? || w.pc.Numbered? || w.pc.Written? { EffortMeans(cfg, w.pc.cmd); }
  }

  lemma SeqEffort(cfg: Config, s: seq<Command>)
    requires AllFit(Bounded(cfg), s)
    ensures Sum(s, Waiting(Effort(cfg))) >= 0
  {
    forall i | 0 <= i < |s| ensures Waiting(Effort(cfg))(s[i]) >= 0 {
      EffortMeans(cfg, s[i]);
    }
    SumAtLeast(s, Waiting(Effort(cfg)), 0);
  }

  /** Whatever the controller, the clock and the other callers do, a run makes at most
      2 (MaxRetries + 1) deliveries per accepted command, plus the effort that restarts
      brought back less what they lost. */
  lemma DeliveriesBounded(cfg: Config, steps: seq<Step>)
    requires Possible(cfg, START, steps)
    ensures var log := After(cfg, START, steps).log;
            Sum(log, IsDelivery()) <= Sum(log, Endowment(cfg)) - Drift(Effort(cfg), cfg, START, steps)
  {
    StartBalance(Effort(cfg), cfg, steps);
    EffortOfLog(cfg, After(cfg, START, steps).log);
    EffortNotNegative(cfg, After(cfg, START, steps));
  }

  // ---- Restart ----

  /** Every reachable session survives being saved and loaded: bands in order, in-flight
      table, counter and modes. After any sweep the store holds just
      what is in memory. */
  lemma ReachableSurvivesRestart(cfg: Config, steps: seq<Step>, order: seq<byte>, now: Time)
    requires Possible(cfg, START, steps)
    ensures var s := After(cfg, START, steps).sess; var s' := Load(Save(s));
            && s'.bands == s.bands && s'.inFlight == s.inFlight && s'.nextSeq == s.nextSeq
            && s'.fwMode == s.fwMode && s'.syncMode == s.syncMode
    ensures var w := After(cfg, START, steps); var w' := SweepStep(cfg, w, order, now);
            Reloaded(w').sess.bands == w'.sess.bands && Reloaded(w').sess.inFlight == w'.sess.inFlight
  {
    StartSound(cfg);
    InvAlways(cfg, START, steps);
    var w := After(cfg, START, steps);
    SaveAndLoad(w.sess);
    VisitsKeep(cfg, w, order, now);
    SaveAndLoad(Visits(cfg, w, order, now).sess);
  }
}
