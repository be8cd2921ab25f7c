/** internal/session/manager.go, enqueueLocked: a deduplication key that was seen less than ten
    minutes ago. The keys seen are read off the steps of the run here, apart from the session. */
module Duplicates {
  import opened Bytes
  import opened Results
  import opened Commands
  import opened Policy
  import opened Sessions
  import opened Engine
  import opened Events

  predicate Within(t: Option<Time>, now: Time) {
    t.Some? && now - t.value < 600_000_000_000
  }

  /** The step brings a command of the protocol with a given key. */
  predicate Brings(step: Step, key: string) {
    step.Enqueue? && step.cmd.dedupKey == key && CanonicalPriority(step.cmd.commandId).Some?
  }

  /** When the key was last seen: at the last such command that did not itself come within ten
      minutes of the one before, since the last restart. */
  function LastSeen(steps: seq<Step>, key: string): Option<Time> {
    if steps == [] then None
    else
      var last, seen := steps[|steps| - 1], LastSeen(steps[..|steps| - 1], key);
      if last.Restart? then None
      else if Brings(last, key) && !Within(seen, last.now) then Some(last.now)
      else seen
  }

  /** What the session has of a key. */
  function Stored(w: World, key: string): Option<Time> {
    if key in w.sess.dedup then Some(w.sess.dedup[key]) else None
  }

  lemma EnqueueStores(cfg: Config, w: World, cmd: Command, now: Time, key: string)
    requires key != ""
    ensures Stored(EnqueueStep(cfg, w, cmd, now).0, key) ==
            if Brings(Enqueue(cmd, now), key) && !Within(Stored(w, key), now) then Some(now) else Stored(w, key)
  {
  }

  lemma {:induction false} VisitsKeepKeys(cfg: Config, w: World, order: seq<byte>, now: Time)
    ensures Visits(cfg, w, order, now).sess.dedup == w.sess.dedup
    decreases |order|
  {
    if order != [] { VisitsKeepKeys(cfg, w, order[..|order| - 1], now); }
  }

  lemma OthersKeepKeys(cfg: Config, w: World, step: Step)
    requires !step.Enqueue? && !step.Restart?
    ensures Apply(cfg, w, step).sess.dedup == w.sess.dedup
  {
    match step
    case Sweep(order, now) => VisitsKeepKeys(cfg, w, order, now);
    case Run(now, writeOk) => TickKeepsKeys(w, now, writeOk);
    case _ =>
  }

  lemma TickKeepsKeys(w: World, now: Time, writeOk: bool)
    ensures Tick(w, now, writeOk).sess.dedup == w.sess.dedup
  {
    match w.pc
    case Popped(l, left, cmd) =>
      assert Tick(w, now, writeOk) == TickPopped(w, l, left, cmd, now, Examine(cmd, l, now));
    case Numbered(l, left, cmd, seqNo, checkedAt) =>
      var o := Dispatch(FrameFor(cmd, seqNo, l.frameMode), l, writeOk);
      assert Tick(w, now, writeOk) == TickNumbered(w, l, left, cmd, seqNo, checkedAt, o);
    case _ =>
  }

  lemma {:induction false} SeenIsStored(cfg: Config, steps: seq<Step>, key: string)
    requires key != ""
    ensures Stored(After(cfg, START, steps), key) == LastSeen(steps, key)
    decreases |steps|
  {
    if steps != [] {
      var init, last := steps[..|steps| - 1], steps[|steps| - 1];
      SeenIsStored(cfg, init, key);
      if last.Enqueue? {
        EnqueueStores(cfg, After(cfg, START, init), last.cmd, last.now, key);
      } else if !last.Restart? {
        OthersKeepKeys(cfg, After(cfg, START, init), last);
      }
    }
  }

  /** After every run, a command of the protocol is refused as a duplicate exactly if it has a key
      that was last seen less than ten minutes before; then nothing happens at all. */
  lemma RefusedExactlyWithin(cfg: Config, steps: seq<Step>, cmd: Command, now: Time)
    requires CanonicalPriority(cmd.commandId).Some?
    ensures var w := After(cfg, START, steps);
            && (EnqueueStep(cfg, w, cmd, now).1 == Duplicate <==>
                  cmd.dedupKey != "" && Within(LastSeen(steps, cmd.dedupKey), now))
            && (EnqueueStep(cfg, w, cmd, now).1 == Duplicate ==> EnqueueStep(cfg, w, cmd, now).0 == w)
  {
    var w := After(cfg, START, steps);
    if cmd.dedupKey != "" { SeenIsStored(cfg, steps, cmd.dedupKey); }
    NotCalledDuplicate(cfg, w, cmd);
  }

  lemma NotCalledDuplicate(cfg: Config, w: World, cmd: Command)
    requires Normalize(cmd).Some?
    ensures Admit(cfg, w.sess.bands, Normalize(cmd).value).status != Duplicate
  {
  }
}
