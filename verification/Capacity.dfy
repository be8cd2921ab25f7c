/** How much a session can hold, although retries and put-backs bypass the queue limits. */
module Capacity {
  import opened Sums
  import opened Commands
  import opened PriorityBands
  import opened Policy
  import opened Sessions
  import opened Overflow
  import opened Engine
  import opened Events
  import opened Persistence
  import opened Ledger
  import opened Invariants
  import opened Delivery

  function Unit(): Weights {
    Weights((c: Command, a: int) => 1, (c: Command, a: int) => 1)
  }

  /** Commands queued, in flight, or in the hands of the running flush. */
  function Occupancy(w: World): int {
    Present(Unit(), w)
  }

  lemma {:induction false} UnitSum(s: seq<Command>)
    ensures Sum(s, Waiting(Unit())) == |s|
    decreases |s|
  {
    if s != [] { UnitSum(s[..|s| - 1]); }
  }

  lemma UnitBands(b: Bands)
    ensures SumBands(b, Waiting(Unit())) == Length(b)
  {
    UnitSum(b.high);
    UnitSum(b.fw);
    UnitSum(b.sync);
    UnitSum(b.query);
  }

  lemma {:induction false} UnitTable(m: Table, n: nat)
    requires n <= 256
    ensures 0 <= SumTable(m, n, Flying(Unit())) <= n
  {
    if n != 0 { UnitTable(m, n - 1); }
  }

  lemma {:induction false} UnitNet(log: seq<Event>)
    requires NoneEnqueued(log)
    ensures Sum(log, Net(Unit())) <= 0
    decreases |log|
  {
    if log != [] {
      var last := log[|log| - 1];
      UnitNet(log[..|log| - 1]);
      assert Net(Unit())(last) == NetOf(Unit(), last) <= 0;
    }
  }

  /** No step but an accepted enqueue and a restart makes a session hold more; a restart
      makes it hold what the store has. */
  lemma OccupancyStep(cfg: Config, w: World, step: Step)
    requires Sound(cfg, w) && Enabled(w, step)
    requires !step.Enqueue? || EnqueueStep(cfg, w, step.cmd, step.now).1 != Queued
    ensures Occupancy(Apply(cfg, w, step)) <= if step.Restart? then Occupancy(Reloaded(w)) else Occupancy(w)
  {
    StepBalance(Unit(), cfg, w, step);
    if step.Enqueue? {
      RejectedEvents(cfg, w, step.cmd, step.now);
    } else {
      var added := NewEvents(cfg, w, step);
      UnitNet(added);
      SumConcat(w.log, added, Net(Unit()));
    }
  }

  /** A step that saves leaves in the store what is in memory outside the flush. */
  lemma StoredOccupancy(cfg: Config, w: World, step: Step)
    requires Sound(cfg, w) && Enabled(w, step)
    ensures var w' := Apply(cfg, w, step);
            Occupancy(Reloaded(w')) <= if Saves(cfg, w, step) then Occupancy(w') else Occupancy(Reloaded(w))
  {
    var w' := Apply(cfg, w, step);
    SavesExactly(cfg, w, step);
    if Saves(cfg, w, step) {
      StepKeeps(cfg, w, step);
      SyncedReload(w');
      HeldUnits(w'.pc);
    } else {
      assert Reloaded(w').sess == Reloaded(w).sess;
    }
  }

  lemma HeldUnits(pc: Pc)
    ensures Held(Unit(), pc) >= 0
  {
    if pc != Idle { UnitSum(pc.l.skipped); }
  }

  lemma RejectedEvents(cfg: Config, w: World, cmd: Command, now: Time)
    requires EnqueueStep(cfg, w, cmd, now).1 != Queued
    ensures Sum(EnqueueStep(cfg, w, cmd, now).0.log, Net(Unit())) <= Sum(w.log, Net(Unit()))
  {
    if Normalize(cmd).Some? && !IsDuplicate(w.sess, Normalize(cmd).value, now) {
      var a := Admit(cfg, w.sess.bands, Normalize(cmd).value);
      UnitNet(DroppedEvents(a.dropped));
      SumConcat(w.log, DroppedEvents(a.dropped), Net(Unit()));
    }
  }

  /** An accepted enqueue leaves at most a full queue, a full table, and what the running
      flush holds at that moment. */
  lemma OccupancyAfterEnqueue(cfg: Config, w: World, cmd: Command, now: Time)
    requires cfg.maxQueueDepth > 0 && EnqueueStep(cfg, w, cmd, now).1 == Queued
    ensures var w' := EnqueueStep(cfg, w, cmd, now).0;
            && WithinLimits(cfg, w'.sess.bands)
            && Occupancy(w') <= cfg.maxQueueDepth + 256 + Held(Unit(), w.pc)
  {
    var w' := EnqueueStep(cfg, w, cmd, now).0;
    LimitsHoldAfterAdmission(cfg, w.sess.bands, Normalize(cmd).value);
    UnitBands(w'.sess.bands);
    UnitTable(w'.sess.inFlight, 256);
  }

  /** Commands are accepted only while no flush has one in its hands. */
  predicate EnqueuesBetween(cfg: Config, w: World, steps: seq<Step>) {
    forall i :: 0 <= i < |steps| && steps[i].Enqueue? ==> Held(Unit(), After(cfg, w, steps[..i]).pc) == 0
  }

  lemma BetweenBefore(cfg: Config, w: World, steps: seq<Step>)
    requires EnqueuesBetween(cfg, w, steps) && steps != []
    ensures EnqueuesBetween(cfg, w, steps[..|steps| - 1])
    ensures steps[|steps| - 1].Enqueue? ==> Held(Unit(), After(cfg, w, steps[..|steps| - 1]).pc) == 0
  {
    var init := steps[..|steps| - 1];
    forall i | 0 <= i < |init| && init[i].Enqueue? ensures Held(Unit(), After(cfg, w, init[..i]).pc) == 0 {
      assert init[..i] == steps[..i];
    }
  }

  /** With enqueues at such moments -- in particular with whole flushes as single steps --
      a session never holds more than a full queue and a full in-flight table, and neither
      does the store, so restarts at any moment are no exception. */
  lemma {:induction false} OccupancyBounded(cfg: Config, steps: seq<Step>)
    requires cfg.maxQueueDepth > 0
    requires Possible(cfg, START, steps) && EnqueuesBetween(cfg, START, steps)
    ensures var w := After(cfg, START, steps);
            Occupancy(w) <= cfg.maxQueueDepth + 256 && Occupancy(Reloaded(w)) <= cfg.maxQueueDepth + 256
    decreases |steps|
  {
    StartSound(cfg);
    if steps == [] {
      EmptyTable(256, Flying(Unit()));
      SyncedReload(START);
    } else {
      var init, last := steps[..|steps| - 1], steps[|steps| - 1];
      Unroll(cfg, START, steps);
      BetweenBefore(cfg, START, steps);
      OccupancyBounded(cfg, init);
      InvAlways(cfg, START, init);
      var w := After(cfg, START, init);
      if last.Enqueue? && EnqueueStep(cfg, w, last.cmd, last.now).1 == Queued {
        OccupancyAfterEnqueue(cfg, w, last.cmd, last.now);
      } else {
        OccupancyStep(cfg, w, last);
      }
      StoredOccupancy(cfg, w, last);
    }
  }
}
