/** What the steps of the engine report, and what they leave alone. */
module Events {
  import opened Bytes
  import opened Commands
  import opened Policy
  import opened Sessions
  import opened Engine

  predicate NoneEnqueued(log: seq<Event>) {
    forall i :: 0 <= i < |log| ==> !log[i].Enqueued?
  }

  /** A step only appends to the log, and only an enqueue appends an acceptance. */
  lemma NewEvents(cfg: Config, w: World, step: Step) returns (added: seq<Event>)
    ensures Apply(cfg, w, step).log == w.log + added
    ensures !step.Enqueue? ==> NoneEnqueued(added)
  {
    match step
    case Enqueue(cmd, now) => added := NewOfEnqueue(cfg, w, cmd, now);
    case Sweep(order, now) => added := NewOfVisits(cfg, w, order, now);
    case Run(now, writeOk) => added := NewOfTick(w, now, writeOk);
    case Ack(_, _, _) => added := Apply(cfg, w, step).log[|w.log|..];
    case _ => added := [];
  }

  /** An enqueue reports what it drops, then what it accepts. */
  lemma NewOfEnqueue(cfg: Config, w: World, cmd: Command, now: Time) returns (added: seq<Event>)
    ensures EnqueueStep(cfg, w, cmd, now).0.log == w.log + added
    ensures forall i :: 0 <= i < |added| ==> added[i].Dropped? || added[i].Enqueued?
  {
    added := [];
    if Normalize(cmd).Some? && !IsDuplicate(w.sess, Normalize(cmd).value, now) {
      var c := Normalize(cmd).value;
      var a := Admit(cfg, w.sess.bands, c);
      added := DroppedEvents(a.dropped) + (if a.status == Sessions.Queued then [Enqueued(c)] else []);
    }
  }

  /** An enqueue changes nothing but the queue and the duplicate filter. */
  lemma EnqueueShape(cfg: Config, w: World, cmd: Command, now: Time)
    ensures var w' := EnqueueStep(cfg, w, cmd, now).0;
            && w'.pc == w.pc && w'.sess.inFlight == w.sess.inFlight && w'.sess.nextSeq == w.sess.nextSeq
            && (|| w'.sess.bands == w.sess.bands
                || (Normalize(cmd).Some? && w'.sess.bands == Admit(cfg, w.sess.bands, Normalize(cmd).value).bands))
  {
  }

  /** Only the tick that follows the numbering writes; it alone leads to `Written`. */
  lemma QuietTick(w: World, now: Time, writeOk: bool) returns (added: seq<Event>)
    requires !w.pc.Numbered?
    ensures Tick(w, now, writeOk).log == w.log + added && NothingWritten(added) && !Tick(w, now, writeOk).pc.Written?
  {
    added := NewOfTick(w, now, writeOk);
    if w.pc.Popped? {
      assert Tick(w, now, writeOk) == TickPopped(w, w.pc.l, w.pc.left, w.pc.cmd, now, Examine(w.pc.cmd, w.pc.l, now));
    }
    assert added == Tick(w, now, writeOk).log[|w.log|..];
  }

  lemma NewOfTick(w: World, now: Time, writeOk: bool) returns (added: seq<Event>)
    ensures Tick(w, now, writeOk).log == w.log + added && NoneEnqueued(added)
  {
    match w.pc
    case Popped(l, left, cmd) => added := TickPopped(w, l, left, cmd, now, Examine(cmd, l, now)).log[|w.log|..];
    case Numbered(l, left, cmd, seqNo, checkedAt) =>
      var o := Dispatch(FrameFor(cmd, seqNo, l.frameMode), l, writeOk);
      added := TickNumbered(w, l, left, cmd, seqNo, checkedAt, o).log[|w.log|..];
    case _ => added := Tick(w, now, writeOk).log[|w.log|..];
  }

  /** A sweep reports what it gives up and what it puts back. */
  lemma {:induction false} NewOfVisits(cfg: Config, w: World, order: seq<byte>, now: Time) returns (added: seq<Event>)
    ensures Visits(cfg, w, order, now).log == w.log + added
    ensures forall i :: 0 <= i < |added| ==> added[i].EndedFlying? || added[i].Retrying?
    decreases |order|
  {
    added := [];
    if order != [] {
      var init := order[..|order| - 1];
      added := NewOfVisits(cfg, w, init, now);
      var w', key := Visits(cfg, w, init, now), order[|order| - 1];
      if key in w'.sess.inFlight {
        var verdict := Judge(cfg, w'.sess.inFlight[key], now);
        added := added + Settle(w', key, verdict).log[|w'.log|..];
      }
    }
  }

  predicate NothingWritten(log: seq<Event>) {
    forall i :: 0 <= i < |log| ==> !log[i].Wrote?
  }

  /** Only a flush writes. */
  lemma OnlyRunWrites(cfg: Config, w: World, step: Step) returns (added: seq<Event>)
    requires !step.Run?
    ensures Apply(cfg, w, step).log == w.log + added && NothingWritten(added)
  {
    if step.Sweep? {
      added := NewOfVisits(cfg, w, step.order, step.now);
    } else if step.Enqueue? {
      added := NewOfEnqueue(cfg, w, step.cmd, step.now);
    } else {
      added := Apply(cfg, w, step).log[|w.log|..];
    }
  }

  lemma OthersLeavePc(cfg: Config, w: World, step: Step)
    requires !step.Run? && !step.Flush? && !step.Restart?
    ensures Apply(cfg, w, step).pc == w.pc
  {
    if step.Sweep? { VisitsLeavePc(cfg, w, step.order, step.now); }
  }

  lemma {:induction false} VisitsLeavePc(cfg: Config, w: World, order: seq<byte>, now: Time)
    ensures Visits(cfg, w, order, now).pc == w.pc
    decreases |order|
  {
    if order != [] { VisitsLeavePc(cfg, w, order[..|order| - 1], now); }
  }

  /** Only numbering and registering change the counter and the table. */
  lemma TickTable(w: World, now: Time, writeOk: bool)
    requires !w.pc.Popped? && !w.pc.Numbered? && !w.pc.Written?
    ensures var w' := Tick(w, now, writeOk); SameTable(w, w') && !w'.pc.Written? && !w'.pc.Numbered?
  {
    match w.pc
    case Registered(l, cmd, seqNo) => RegisteredTable(w, l, cmd, seqNo, now, writeOk);
    case Inner(l, left) => InnerTable(w, l, left, now, writeOk);
    case _ =>
  }

  predicate SameTable(w: World, w': World) {
    w'.sess.inFlight == w.sess.inFlight && w'.sess.nextSeq == w.sess.nextSeq
  }

  lemma RegisteredTable(w: World, l: Locals, cmd: Command, seqNo: byte, now: Time, writeOk: bool)
    requires w.pc == Registered(l, cmd, seqNo)
    ensures var w' := Tick(w, now, writeOk); SameTable(w, w') && w'.pc.Marked?
  {
  }

  lemma InnerTable(w: World, l: Locals, left: nat, now: Time, writeOk: bool)
    requires w.pc == Inner(l, left)
    ensures var w' := Tick(w, now, writeOk); SameTable(w, w') && (w'.pc.PutBack? || w'.pc.Popped?)
  {
  }
}
