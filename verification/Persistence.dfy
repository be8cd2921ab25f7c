/** internal/session/manager.go, persistLocked: which steps write the store. */
module Persistence {
  import opened Messages
  import opened Commands
  import opened Policy
  import opened Sessions
  import opened Engine

  /** Of the ticks of a flush, those that write the store. A retry under its old number takes
      none from the counter, and what is drained, popped, put back or reported is not saved. */
  predicate TickSaves(pc: Pc, now: Time) {
    match pc
    case Popped(l, _, cmd) => Examine(cmd, l, now) == Unnumbered
    case Written(_, _, _) => true
    case Registered(_, cmd, _) => 12 <= cmd.commandId <= 16 || cmd.commandId == 19
    case Marked(_) => true
    case SyncOff(_) => true
    case FwOff(_) => true
    case _ => false
  }

  predicate Saves(cfg: Config, w: World, step: Step) {
    match step
    case Enqueue(cmd, now) => EnqueueStep(cfg, w, cmd, now).1 == Queued
    case Ack(seqNo, code, _) => IsTerminal(AckStatusOf(code)) && seqNo in w.sess.inFlight
    case Sweep(_, _) => true
    case Flush => false
    case Run(now, _) => TickSaves(w.pc, now)
    case SetFwMode(_) => true
    case Connect(_) => !w.sess.online
    case Disconnect => true
    case Restart => false
  }

  lemma TickSavesExactly(w: World, now: Time, writeOk: bool)
    ensures TickSaves(w.pc, now) ==> Synced(Tick(w, now, writeOk))
    ensures !TickSaves(w.pc, now) ==> Tick(w, now, writeOk).saved == w.saved
  {
    match w.pc
    case Popped(l, left, cmd) => PoppedSaves(w, now, Examine(cmd, l, now));
    case Numbered(l, left, cmd, seqNo, checkedAt) =>
      var o := Dispatch(FrameFor(cmd, seqNo, l.frameMode), l, writeOk);
      assert TickNumbered(w, l, left, cmd, seqNo, checkedAt, o).saved == w.saved;
    case _ =>
  }

  lemma PoppedSaves(w: World, now: Time, finding: Finding)
    requires w.pc.Popped?
    ensures var w' := TickPopped(w, w.pc.l, w.pc.left, w.pc.cmd, now, finding);
            if finding == Unnumbered then Synced(w') else w'.saved == w.saved
  {
  }

  /** Every step either leaves the store alone or brings it up to date. */
  lemma SavesExactly(cfg: Config, w: World, step: Step)
    ensures Saves(cfg, w, step) ==> Synced(Apply(cfg, w, step))
    ensures !Saves(cfg, w, step) ==> Apply(cfg, w, step).saved == w.saved
  {
    match step
    case Run(now, writeOk) => TickSavesExactly(w, now, writeOk);
    case _ =>
  }
}
