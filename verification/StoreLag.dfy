/** internal/session/manager.go, persistLocked and Restore: what a restart would lose or bring
    back. The store is written at some steps only; in between, memory moves on. */
module StoreLag {
  import opened Bytes
  import opened Messages
  import opened Framing
  import opened Sums
  import opened Commands
  import opened PriorityBands
  import opened Policy
  import opened Sessions
  import opened Engine
  import opened Events
  import opened Persistence
  import opened Ledger
  import opened Invariants
  import opened Delivery
  import opened WholeFlush

  /** Queue and table, without what the running flush holds. */
  function InMemory(W: Weights, w: World): int {
    Present(W, w) - Held(W, w.pc)
  }

  /** Queue and table as a restart would rebuild them. */
  function InStore(W: Weights, w: World): int {
    Present(W, Reloaded(w))
  }

  /** What memory has and the store lacks, less what the store has and memory lacks. */
  function Lag(W: Weights, w: World): int {
    InMemory(W, w) - InStore(W, w)
  }

  lemma SyncedLag(W: Weights, w: World)
    requires Synced(w) && Sorted(w.sess.bands) && Keyed(w.sess.inFlight)
    ensures Lag(W, w) == 0
  {
    SyncedReload(w);
  }

  // ---- Over every run ----

  /** Steps after which memory and store agree. */
  predicate Syncs(cfg: Config, w: World, step: Step) {
    Saves(cfg, w, step) || step.Restart?
  }

  /** Outside such steps, the lag grows by what the flush gives back and by what the log says
      was put in, and falls by what the flush takes and by what the log says was taken out. */
  lemma StepLag(W: Weights, cfg: Config, w: World, step: Step)
    requires Sound(cfg, w) && Enabled(w, step)
    ensures var w' := Apply(cfg, w, step);
            Lag(W, w') == if Syncs(cfg, w, step) then 0
                          else Lag(W, w) + Held(W, w.pc) - Held(W, w'.pc) + Sum(w'.log, Net(W)) - Sum(w.log, Net(W))
  {
    var w' := Apply(cfg, w, step);
    SavesExactly(cfg, w, step);
    if Saves(cfg, w, step) {
      StepKeeps(cfg, w, step);
      SyncedLag(W, w');
    } else if !step.Restart? {
      StepBalance(W, cfg, w, step);
      assert Reloaded(w').sess == Reloaded(w).sess;
    }
  }

  /** How many of the steps it takes to the last one after which memory and store agree. */
  function LastSync(cfg: Config, w: World, steps: seq<Step>): (k: nat)
    ensures k <= |steps|
  {
    if steps == [] then 0
    else
      var init := steps[..|steps| - 1];
      if Syncs(cfg, After(cfg, w, init), steps[|steps| - 1]) then |steps| else LastSync(cfg, w, init)
  }

  /** In every reachable state, memory is ahead of the store by exactly this much: what the
      running flush held when they last agreed, less what it holds now, plus what the log has
      since put in, less what it has taken out. */
  lemma {:induction false} LagExactly(W: Weights, cfg: Config, w: World, steps: seq<Step>)
    requires Sound(cfg, w) && Lag(W, w) == 0 && Possible(cfg, w, steps)
    ensures var v, w' := After(cfg, w, steps[..LastSync(cfg, w, steps)]), After(cfg, w, steps);
            Lag(W, w') == Held(W, v.pc) - Held(W, w'.pc) + Sum(w'.log, Net(W)) - Sum(v.log, Net(W))
    decreases |steps|
  {
    if steps != [] {
      var init, last := steps[..|steps| - 1], steps[|steps| - 1];
      Unroll(cfg, w, steps);
      LagExactly(W, cfg, w, init);
      InvAlways(cfg, w, init);
      StepLag(W, cfg, After(cfg, w, init), last);
      SameSync(cfg, w, steps);
    }
  }

  lemma SameSync(cfg: Config, w: World, steps: seq<Step>)
    requires steps != []
    ensures var init := steps[..|steps| - 1];
            steps[..LastSync(cfg, w, steps)] ==
            if Syncs(cfg, After(cfg, w, init), steps[|steps| - 1]) then steps else init[..LastSync(cfg, w, init)]
  {
  }

  // ---- Over a whole flush ----

  function Copies(w: World, x: Command): int {
    InMemory(One(x), w)
  }

  function StoredCopies(w: World, x: Command): int {
    InStore(One(x), w)
  }

  /** Final reports of x between two states of a run. */
  function EndedBetween(v: World, w: World, x: Command): int {
    Sum(w.log, IsEnded(x)) - Sum(v.log, IsEnded(x))
  }

  predicate Mild(e: Event) {
    e.EndedQueued? || e.Wrote? || e.AcceptedBy?
  }

  lemma {:induction false} MildNet(log: seq<Event>, x: Command)
    requires forall i :: 0 <= i < |log| ==> Mild(log[i])
    ensures Sum(log, Net(One(x))) == -Sum(log, IsEnded(x))
    decreases |log|
  {
    if log != [] {
      MildNet(log[..|log| - 1], x);
      NetOfOneEvent(x, log[|log| - 1]);
    }
  }

  /** A tick that does not save takes out only what it finally reports. */
  lemma UnsavedTick(w: World, now: Time, writeOk: bool, x: Command)
    requires !TickSaves(w.pc, now)
    ensures var w' := Tick(w, now, writeOk);
            Sum(w'.log, Net(One(x))) - Sum(w.log, Net(One(x))) == -EndedBetween(w, w', x)
  {
    var w' := Tick(w, now, writeOk);
    var added := MildEvents(w, now, writeOk);
    MildNet(added, x);
    SumConcat(w.log, added, Net(One(x)));
    SumConcat(w.log, added, IsEnded(x));
  }

  lemma MildEvents(w: World, now: Time, writeOk: bool) returns (added: seq<Event>)
    requires !TickSaves(w.pc, now)
    ensures Tick(w, now, writeOk).log == w.log + added && forall i :: 0 <= i < |added| ==> Mild(added[i])
  {
    if w.pc.Popped? {
      added := TickPopped(w, w.pc.l, w.pc.left, w.pc.cmd, now, Examine(w.pc.cmd, w.pc.l, now)).log[|w.log|..];
    } else if w.pc.Numbered? {
      var Numbered(l, left, cmd, seqNo, checkedAt) := w.pc;
      var o := Dispatch(FrameFor(cmd, seqNo, l.frameMode), l, writeOk);
      added := TickNumbered(w, l, left, cmd, seqNo, checkedAt, o).log[|w.log|..];
    } else {
      added := Tick(w, now, writeOk).log[|w.log|..];
    }
  }

  /** Since the last tick that saved, the log has changed by final reports only. */
  lemma {:induction false} SinceLastSync(cfg: Config, w: World, steps: seq<Step>, x: Command)
    requires forall i :: 0 <= i < |steps| ==> steps[i].Run?
    ensures var v, w' := After(cfg, w, steps[..LastSync(cfg, w, steps)]), After(cfg, w, steps);
            Sum(w'.log, Net(One(x))) - Sum(v.log, Net(One(x))) == -EndedBetween(v, w', x)
    decreases |steps|
  {
    if steps != [] {
      var init, last := steps[..|steps| - 1], steps[|steps| - 1];
      SinceLastSync(cfg, w, init, x);
      SameSync(cfg, w, steps);
      var u := After(cfg, w, init);
      if !Syncs(cfg, u, last) { UnsavedTick(u, last.now, last.writeOk, x); }
    }
  }

  /** A whole flush of a session that agrees with its store. A restart right after it loses
      copies of x exactly when the flush held more of them, the last time it saved, than it
      has finally reported since; it brings copies back exactly when it held fewer. */
  lemma FlushLag(cfg: Config, w: World, env: Inputs, x: Command) returns (steps: seq<Step>, v: World)
    requires Sound(cfg, w) && w.pc == Idle && Synced(w)
    ensures TicksOf(steps, env, 0) && After(cfg, FlushStep(w), steps) == Finish(FlushStep(w), env, 0)
    ensures v == After(cfg, FlushStep(w), steps[..LastSync(cfg, FlushStep(w), steps)])
    ensures var w' := Finish(FlushStep(w), env, 0);
            && Copies(w', x) - StoredCopies(w', x) == HeldByFlush(v, x) - EndedBetween(v, w', x)
            && (StoredCopies(w', x) < Copies(w', x) <==> HeldByFlush(v, x) > EndedBetween(v, w', x))
            && (StoredCopies(w', x) > Copies(w', x) <==> HeldByFlush(v, x) < EndedBetween(v, w', x))
  {
    var w0 := FlushStep(w);
    StepKeeps(cfg, w, Flush);
    SyncedLag(One(x), w0);
    steps := FlushIsRun(cfg, w0, env, 0);
    v := After(cfg, w0, steps[..LastSync(cfg, w0, steps)]);
    TicksPossible(cfg, w0, steps, env, 0);
    LagExactly(One(x), cfg, w0, steps);
    SinceLastSync(cfg, w0, steps, x);
  }

  // ---- What the guards of a flush make of it ----

  /** What a flush holds right after it saved: what it has skipped, and the command that has
      just taken a number. */
  lemma HeldAtSave(w: World, now: Time, writeOk: bool, x: Command)
    requires TickSaves(w.pc, now) && Tidy(w.pc)
    ensures HeldByFlush(Tick(w, now, writeOk), x) ==
            Sum(w.pc.l.skipped, Waiting(One(x))) + (if w.pc.Popped? && Core(w.pc.cmd) == x then 1 else 0)
  {
    if w.pc.Popped? {
      assert Core(w.pc.cmd.(retrySeq := 0)) == Core(w.pc.cmd);
      assert Tick(w, now, writeOk) == TickPopped(w, w.pc.l, w.pc.left, w.pc.cmd, now, Unnumbered);
    }
  }

  /** Giving back what was skipped, to the end of the flush. */
  lemma {:induction false} GivingBack(cfg: Config, w: World, env: Inputs, t: nat, x: Command)
    requires Sound(cfg, w) && w.pc.PutBack? && !w.pc.again
    ensures Lag(One(x), Finish(w, env, t)) == Lag(One(x), w) + Sum(w.pc.l.skipped, Waiting(One(x)))
    decreases |w.pc.l.skipped|
  {
    var w1 := Tick(w, env(t).now, env(t).writeOk);
    OneTick(w, env, t, w1);
    UnsavedMove(One(x), cfg, w, env(t).now, env(t).writeOk);
    if w.pc.l.skipped != [] {
      SumPop(w.pc.l.skipped, Waiting(One(x)));
      GivingBack(cfg, w1, env, t + 1, x);
    }
  }

  /** Does the command pass all tests before its number. */
  predicate Passes(c: Command, l: Locals, now: Time) {
    Examine(c, l, now) == if c.retrySeq != 0 then Renumbered else Unnumbered
  }

  predicate TooBig(c: Command, l: Locals) {
    var f := FrameFor(c, 0, l.frameMode);
    Encodable(f) && |Wire(f)| > l.remaining
  }

  lemma DispatchTooBig(c: Command, seqNo: byte, l: Locals, writeOk: bool)
    requires TooBig(c, l)
    ensures Dispatch(FrameFor(c.(retrySeq := 0), seqNo, l.frameMode), l, writeOk) == OverBudget
  {
  }

  /** A command that does not fit what is left of the budget ends the flush and goes back to
      the queue. If it took a new number, it and all that was skipped are missing from the
      store; if it is a retry, nothing was saved, and the lag is only what it was before. */
  lemma PutBackLag(cfg: Config, w: World, env: Inputs, t: nat, x: Command)
    requires Sound(cfg, w) && w.pc.Popped? && Passes(w.pc.cmd, w.pc.l, env(t).now) && TooBig(w.pc.cmd, w.pc.l)
    ensures Lag(One(x), Finish(w, env, t)) ==
            (if w.pc.cmd.retrySeq == 0 then 0 else Lag(One(x), w))
            + (if Core(w.pc.cmd) == x then 1 else 0) + Sum(w.pc.l.skipped, Waiting(One(x)))
  {
    var Popped(l, left, c) := w.pc;
    var s1, s2 := Run(env(t).now, env(t).writeOk), Run(env(t + 1).now, env(t + 1).writeOk);
    var w1 := NumberTaken(cfg, w, env(t).now, env(t).writeOk, x);
    OneTick(w, env, t, w1);
    StepKeeps(cfg, w, s1);
    var w2 := PushedBack(cfg, w1, env(t + 1).now, env(t + 1).writeOk, x);
    OneTick(w1, env, t + 1, w2);
    StepKeeps(cfg, w1, s2);
    GivingBack(cfg, w2, env, t + 2, x);
  }

  lemma NumberTaken(cfg: Config, w: World, now: Time, writeOk: bool, x: Command) returns (w': World)
    requires Sound(cfg, w) && w.pc.Popped? && Passes(w.pc.cmd, w.pc.l, now)
    ensures w' == Tick(w, now, writeOk) && w'.pc.Numbered? && w'.pc.l == w.pc.l
    ensures w'.pc.cmd == w.pc.cmd.(retrySeq := 0)
    ensures Lag(One(x), w') == if w.pc.cmd.retrySeq == 0 then 0 else Lag(One(x), w)
  {
    var Popped(l, left, c) := w.pc;
    w' := Tick(w, now, writeOk);
    var f := if c.retrySeq != 0 then Renumbered else Unnumbered;
    assert w' == TickPopped(w, l, left, c, now, f);
    assert Core(c.(retrySeq := 0)) == Core(c);
    if c.retrySeq == 0 { SavingTick(One(x), cfg, w, now, writeOk); } else { UnsavedMove(One(x), cfg, w, now, writeOk); }
  }

  lemma TooBigTick(w: World, now: Time, writeOk: bool)
    requires w.pc.Numbered? && TooBig(w.pc.cmd, w.pc.l) && w.pc.cmd.retrySeq == 0
    ensures Tick(w, now, writeOk) == w.(sess := w.sess.(bands := Push(w.sess.bands, w.pc.cmd)), pc := PutBack(w.pc.l, false))
  {
    var Numbered(l, left, d, n, at) := w.pc;
    assert d.(retrySeq := 0) == d;
    DispatchTooBig(d, n, l, writeOk);
    assert Tick(w, now, writeOk) == TickNumbered(w, l, left, d, n, at, OverBudget);
  }

  lemma PushedBack(cfg: Config, w: World, now: Time, writeOk: bool, x: Command) returns (w': World)
    requires Sound(cfg, w) && w.pc.Numbered? && TooBig(w.pc.cmd, w.pc.l) && w.pc.cmd.retrySeq == 0
    ensures w' == Tick(w, now, writeOk) && w'.pc == PutBack(w.pc.l, false)
    ensures Lag(One(x), w') == Lag(One(x), w) + (if Core(w.pc.cmd) == x then 1 else 0)
  {
    TooBigTick(w, now, writeOk);
    w' := Tick(w, now, writeOk);
    UnsavedMove(One(x), cfg, w, now, writeOk);
  }

  /** A tick that neither saves nor reports moves commands between flush and queue. */
  lemma UnsavedMove(W: Weights, cfg: Config, w: World, now: Time, writeOk: bool)
    requires Sound(cfg, w) && !TickSaves(w.pc, now) && Tick(w, now, writeOk).log == w.log
    ensures var w' := Tick(w, now, writeOk);
            Sound(cfg, w') && Lag(W, w') == Lag(W, w) + Held(W, w.pc) - Held(W, w'.pc)
  {
    StepLag(W, cfg, w, Run(now, writeOk));
    StepKeeps(cfg, w, Run(now, writeOk));
  }

  lemma SavingTick(W: Weights, cfg: Config, w: World, now: Time, writeOk: bool)
    requires Sound(cfg, w) && TickSaves(w.pc, now)
    ensures Sound(cfg, Tick(w, now, writeOk)) && Lag(W, Tick(w, now, writeOk)) == 0
  {
    StepLag(W, cfg, w, Run(now, writeOk));
    StepKeeps(cfg, w, Run(now, writeOk));
  }

  /** Expired commands are reported, but stay in the store. */
  lemma DrainLag(cfg: Config, w: World, now: Time, writeOk: bool, x: Command)
    requires Sound(cfg, w) && w.pc.Outer? && w.pc.l.remaining > 0
    ensures Lag(One(x), Tick(w, now, writeOk)) == Lag(One(x), w) - Sum(Drained(w.sess.bands, now), Waiting(One(x)))
  {
    var gone := Drained(w.sess.bands, now);
    DrainNet(One(x), w.log, gone);
    UnsavedChange(One(x), cfg, w, now, writeOk);
  }

  /** An enqueue that is refused leaves in the store what it dropped to make room (manager.go
      returns before it saves). */
  lemma RefusedLag(cfg: Config, w: World, cmd: Command, now: Time, x: Command)
    requires Sound(cfg, w) && cmd == Core(cmd) && EnqueueStep(cfg, w, cmd, now).1 != Queued
    ensures var dropped := if Normalize(cmd).Some? && !IsDuplicate(w.sess, Normalize(cmd).value, now)
                           then Admit(cfg, w.sess.bands, Normalize(cmd).value).dropped else [];
            Lag(One(x), EnqueueStep(cfg, w, cmd, now).0) == Lag(One(x), w) - Sum(dropped, Waiting(One(x)))
  {
    StepLag(One(x), cfg, w, Enqueue(cmd, now));
    OthersLeavePc(cfg, w, Enqueue(cmd, now));
    if Normalize(cmd).Some? && !IsDuplicate(w.sess, Normalize(cmd).value, now) {
      DropNet(One(x), w.log, Admit(cfg, w.sess.bands, Normalize(cmd).value).dropped);
    }
  }

  lemma DropNet(W: Weights, log: seq<Event>, gone: seq<Command>)
    ensures Sum(log + DroppedEvents(gone), Net(W)) == Sum(log, Net(W)) - Sum(gone, Waiting(W))
  {
    DroppedNet(W, gone);
    SumConcat(log, DroppedEvents(gone), Net(W));
  }

  lemma DrainNet(W: Weights, log: seq<Event>, gone: seq<Command>)
    ensures Sum(log + EndedEvents(Expired, gone), Net(W)) == Sum(log, Net(W)) - Sum(gone, Waiting(W))
  {
    EndedNet(W, Expired, gone);
    SumConcat(log, EndedEvents(Expired, gone), Net(W));
  }

  lemma UnsavedChange(W: Weights, cfg: Config, w: World, now: Time, writeOk: bool)
    requires Sound(cfg, w) && !TickSaves(w.pc, now)
    ensures var w' := Tick(w, now, writeOk);
            Lag(W, w') == Lag(W, w) + Held(W, w.pc) - Held(W, w'.pc) + Sum(w'.log, Net(W)) - Sum(w.log, Net(W))
  {
    StepLag(W, cfg, w, Run(now, writeOk));
  }

  /** Giving back what was skipped after a send; the queue is then as if all had been pushed. */
  lemma {:induction false} GivingBackAfterSend(cfg: Config, w: World, env: Inputs, t: nat, x: Command)
    returns (w': World, t': nat)
    requires Sound(cfg, w) && w.pc.PutBack? && w.pc.again
    ensures Sound(cfg, w') && Finish(w, env, t) == Finish(w', env, t')
    ensures w'.pc == ClearSync(w.pc.l.(skipped := [])) && w'.sess.bands == PushAll(w.sess.bands, w.pc.l.skipped)
    ensures Lag(One(x), w') == Lag(One(x), w) + Sum(w.pc.l.skipped, Waiting(One(x)))
    decreases |w.pc.l.skipped|
  {
    var w1 := Tick(w, env(t).now, env(t).writeOk);
    OneTick(w, env, t, w1);
    UnsavedMove(One(x), cfg, w, env(t).now, env(t).writeOk);
    var skipped := w.pc.l.skipped;
    if skipped == [] {
      assert w.pc.l.(skipped := []) == w.pc.l;
      w', t' := w1, t + 1;
    } else {
      SumPop(skipped, Waiting(One(x)));
      w', t' := GivingBackAfterSend(cfg, w1, env, t + 1, x);
      PushFirst(w.sess.bands, skipped);
    }
  }

  lemma {:induction false} PushFirst(b: Bands, s: seq<Command>)
    requires s != []
    ensures PushAll(b, s) == PushAll(Push(b, s[0]), s[1..])
    decreases |s|
  {
    var n := |s| - 1;
    if n > 0 {
      PushFirst(b, s[..n]);
      assert s[..n][1..] == s[1..][..n - 1] && s[1..][n - 1] == s[n];
    } else {
      assert s[..0] == [] && s[1..] == [];
      assert PushAll(b, s[..0]) == b;
    }
  }

  /** A mode that is left because its band is empty. */
  predicate LeavesMode(b: Bands, l: Locals) {
    (l.sync && b.sync == []) || (l.fw && b.fw == [])
  }

  lemma LeavingModes(cfg: Config, w: World, env: Inputs, t: nat, x: Command) returns (w': World, t': nat)
    requires Sound(cfg, w) && w.pc.ClearSync?
    ensures Finish(w, env, t) == Finish(w', env, t') && w'.pc.Outer?
    ensures Lag(One(x), w') == if LeavesMode(w.sess.bands, w.pc.l) then 0 else Lag(One(x), w)
  {
    var l := w.pc.l;
    var v, s := LeavingSync(cfg, w, env, t, x);
    w', t' := LeavingFw(cfg, v, env, s, x);
  }

  lemma Looking(cfg: Config, w: World, env: Inputs, t: nat, x: Command) returns (w': World)
    requires Sound(cfg, w) && (w.pc.ClearSync? || w.pc.ClearFw?)
    ensures Sound(cfg, w') && Finish(w, env, t) == Finish(w', env, t + 1)
    ensures w' == w.(pc := w'.pc) && Lag(One(x), w') == Lag(One(x), w)
    ensures w.pc.ClearSync? ==>
              w'.pc == if w.pc.l.sync && w.sess.bands.sync == [] then SyncOff(w.pc.l) else ClearFw(w.pc.l)
    ensures w.pc.ClearFw? ==>
              w'.pc == if w.pc.l.fw && w.sess.bands.fw == [] then FwOff(w.pc.l) else Outer(w.pc.l)
  {
    w' := Tick(w, env(t).now, env(t).writeOk);
    OneTick(w, env, t, w');
    UnsavedMove(One(x), cfg, w, env(t).now, env(t).writeOk);
  }

  lemma SwitchingOff(cfg: Config, w: World, env: Inputs, t: nat, x: Command) returns (w': World)
    requires Sound(cfg, w) && (w.pc.SyncOff? || w.pc.FwOff?)
    ensures Sound(cfg, w') && Finish(w, env, t) == Finish(w', env, t + 1)
    ensures w'.sess.bands == w.sess.bands && Lag(One(x), w') == 0
    ensures w.pc.SyncOff? ==> w'.pc == ClearFw(w.pc.l.(sync := false))
    ensures w.pc.FwOff? ==> w'.pc == Outer(w.pc.l.(fw := false))
  {
    w' := Tick(w, env(t).now, env(t).writeOk);
    OneTick(w, env, t, w');
    SavingTick(One(x), cfg, w, env(t).now, env(t).writeOk);
  }

  lemma LeavingSync(cfg: Config, w: World, env: Inputs, t: nat, x: Command) returns (w': World, t': nat)
    requires Sound(cfg, w) && w.pc.ClearSync?
    ensures Sound(cfg, w') && Finish(w, env, t) == Finish(w', env, t') && w'.pc.ClearFw?
    ensures w'.pc.l.fw == w.pc.l.fw && w'.sess.bands == w.sess.bands
    ensures Lag(One(x), w') == if w.pc.l.sync && w.sess.bands.sync == [] then 0 else Lag(One(x), w)
  {
    w' := Looking(cfg, w, env, t, x);
    t' := t + 1;
    if w'.pc.SyncOff? {
      w' := SwitchingOff(cfg, w', env, t', x);
      t' := t' + 1;
    }
  }

  lemma LeavingFw(cfg: Config, w: World, env: Inputs, t: nat, x: Command) returns (w': World, t': nat)
    requires Sound(cfg, w) && w.pc.ClearFw?
    ensures Finish(w, env, t) == Finish(w', env, t') && w'.pc.Outer?
    ensures Lag(One(x), w') == if w.pc.l.fw && w.sess.bands.fw == [] then 0 else Lag(One(x), w)
  {
    w' := Looking(cfg, w, env, t, x);
    t' := t + 1;
    if w'.pc.FwOff? {
      w' := SwitchingOff(cfg, w', env, t', x);
      t' := t' + 1;
    }
  }

  /** After a send, what was skipped is given back unsaved, so the store lacks exactly that,
      unless a mode is left thereafter, which saves. */
  lemma SkippedLag(cfg: Config, w: World, env: Inputs, t: nat, x: Command) returns (w': World, t': nat)
    requires Sound(cfg, w) && w.pc.Marked?
    ensures Finish(w, env, t) == Finish(w', env, t') && w'.pc.Outer?
    ensures Lag(One(x), w') ==
            if LeavesMode(PushAll(w.sess.bands, w.pc.l.skipped), w.pc.l) then 0
            else Sum(w.pc.l.skipped, Waiting(One(x)))
  {
    var w1 := SavedAfterSend(cfg, w, env, t, x);
    var w2, t2 := GivingBackAfterSend(cfg, w1, env, t + 1, x);
    w', t' := LeavingModes(cfg, w2, env, t2, x);
  }

  lemma SavedAfterSend(cfg: Config, w: World, env: Inputs, t: nat, x: Command) returns (w': World)
    requires Sound(cfg, w) && w.pc.Marked?
    ensures Sound(cfg, w') && Finish(w, env, t) == Finish(w', env, t + 1) && Lag(One(x), w') == 0
    ensures w'.pc == PutBack(w.pc.l, true) && w'.sess == w.sess
  {
    w' := Tick(w, env(t).now, env(t).writeOk);
    OneTick(w, env, t, w');
    SavingTick(One(x), cfg, w, env(t).now, env(t).writeOk);
  }
}
