/** internal/server/server.go and internal/session/manager.go: delivery to one controller
    as a state machine.

    A flush is a program counter with its local variables; each `Tick` runs it up to and
    including its next operation on shared state. Every other step may happen between two
    ticks, which is what the locks of the source allow. The log holds what the adapter
    publishes and writes, and the two losses it does not report. */
module Engine {
  import opened Bytes
  import opened Results
  import opened Messages
  import opened Framing
  import opened Payloads
  import opened Commands
  import opened PriorityBands
  import opened Policy
  import opened Sessions

  datatype Event =
    | Enqueued(cmd: Command)                        // accepted into the queue
    | Dropped(cmd: Command)                         // overflow, drop_oldest
    | EndedQueued(status: AckStatus, cmd: Command)  // final report of a command not in flight
    | EndedFlying(status: AckStatus, entry: Entry)  // final report of a command in flight
    | Wrote(cmd: Command, frame: Frame, checkedAt: Time, fwMode: bool, syncMode: bool)
    | Overwrote(entry: Entry)                       // in-flight slot reused, no report
    | Retrying(entry: Entry)                        // timed out, back in the queue
    | AcceptedBy(cmd: Command, seqNo: byte)         // interim report after a write
    | Progress(seqNo: byte)                         // interim acknowledgement

  datatype Locals = Locals(remaining: nat, fw: bool, sync: bool, frameMode: FrameMode, skipped: seq<Command>)

  datatype Pc =
    | Idle
    | Outer(l: Locals)                                                          // server.go:540
    | AfterDrain(l: Locals)                                                     // server.go:551
    | Inner(l: Locals, left: nat)                                               // server.go:558
    | Popped(l: Locals, left: nat, cmd: Command)                                // server.go:563
    | Numbered(l: Locals, left: nat, cmd: Command, seqNo: byte, checkedAt: Time) // server.go:603
    | Written(l: Locals, cmd: Command, seqNo: byte)                             // server.go:625
    | Registered(l: Locals, cmd: Command, seqNo: byte)                          // server.go:632
    | Marked(l: Locals)                                                         // server.go:674
    | PutBack(l: Locals, again: bool)                                           // server.go:682
    | ClearSync(l: Locals)                                                      // server.go:689
    | SyncOff(l: Locals)                                                        // server.go:690
    | ClearFw(l: Locals)                                                        // server.go:695
    | FwOff(l: Locals)                                                          // server.go:698

  datatype World = World(sess: SessionState, pc: Pc, saved: SessionSnapshot, log: seq<Event>)

  const START := World(NEW_SESSION, Idle, Save(NEW_SESSION), [])

  /** What is in the store is what is in memory. */
  predicate Synced(w: World) {
    w.saved == Save(w.sess)
  }

  function Persist(w: World): World {
    w.(saved := Save(w.sess))
  }

  /** A restart: what was in memory is gone, what the store has comes back. */
  function Reloaded(w: World): World {
    w.(sess := Load(w.saved), pc := Idle)
  }

  function Report(w: World, e: Event): World {
    w.(log := w.log + [e])
  }

  // ---- Enqueue, acknowledge, sweep ----

  function DroppedEvents(cmds: seq<Command>): (s: seq<Event>)
    ensures |s| == |cmds|
  {
    seq(|cmds|, i requires 0 <= i < |cmds| => Dropped(cmds[i]))
  }

  function EndedEvents(status: AckStatus, cmds: seq<Command>): (s: seq<Event>)
    ensures |s| == |cmds|
  {
    seq(|cmds|, i requires 0 <= i < |cmds| => EndedQueued(status, cmds[i]))
  }

  /** EnqueueCommand and enqueueLocked. */
  function EnqueueStep(cfg: Config, w: World, cmd: Command, now: Time): (World, EnqueueStatus) {
    match Normalize(cmd)
    case None => (w, UnsupportedCommand)
    case Some(c) =>
      if IsDuplicate(w.sess, c, now) then (w, Duplicate)
      else
        var a := Admit(cfg, w.sess.bands, c);
        var sess := w.sess.(bands := a.bands,
                            dedup := if c.dedupKey != "" then w.sess.dedup[c.dedupKey := now] else w.sess.dedup);
        var w' := w.(sess := sess, log := w.log + DroppedEvents(a.dropped));
        (if a.status == Queued then Persist(Report(w', Enqueued(c))) else w', a.status)
  }

  /** The acknowledgement branch of handleConn, with AckInFlight. */
  function AckStep(w: World, seqNo: byte, code: byte, free: int): World {
    var w := w.(sess := w.sess.(bufferFree := free));
    var status := AckStatusOf(code);
    if !IsTerminal(status) then Report(w, Progress(seqNo))
    else if seqNo !in w.sess.inFlight then w
    else
      var e := w.sess.inFlight[seqNo];
      Report(Persist(w.(sess := w.sess.(inFlight := w.sess.inFlight - {seqNo}))), EndedFlying(status, e))
  }

  /** The effect of a verdict on the entry under `key`. */
  function Settle(w: World, key: byte, verdict: Verdict): World
    requires key in w.sess.inFlight
  {
    var e := w.sess.inFlight[key];
    var without := w.sess.(inFlight := w.sess.inFlight - {key});
    match verdict
    case Keep => w
    case Expire => Report(w.(sess := without), EndedFlying(Expired, e))
    case Fail => Report(w.(sess := without), EndedFlying(Failed, e))
    case Retry =>
      Report(w.(sess := without.(bands := Push(without.bands, Requeued(e, key)))), Retrying(e))
  }

  /** One iteration of ProcessInFlight. */
  function Visit(cfg: Config, w: World, key: byte, now: Time): World {
    if key in w.sess.inFlight then Settle(w, key, Judge(cfg, w.sess.inFlight[key], now)) else w
  }

  /** Iterations in a given order. */
  function Visits(cfg: Config, w: World, order: seq<byte>, now: Time): World {
    if order == [] then w
    else Visit(cfg, Visits(cfg, w, order[..|order| - 1], now), order[|order| - 1], now)
  }

  /** An order in which a range over the in-flight map may come: every key at least once.
      A key deleted and inserted again may come again. */
  predicate Covers(w: World, order: seq<byte>) {
    forall k :: k in w.sess.inFlight ==> k in order
  }

  function SweepStep(cfg: Config, w: World, order: seq<byte>, now: Time): World {
    Persist(Visits(cfg, w, order, now))
  }

  // ---- The flush ----

  function TtlToWire(ttl: Duration): byte {
    if ttl <= 0 then 255
    else if ttl < SECOND then 1
    else if ttl / SECOND > 250 then 255
    else ttl / SECOND
  }

  function FrameFor(cmd: Command, seqNo: byte, mode: FrameMode): Frame {
    Frame(TtlToWire(cmd.ttl), seqNo, [cmd.commandId] + cmd.payload, mode)
  }

  function Budget(s: SessionState): nat {
    if s.bufferFree <= 0 then 1500 else s.bufferFree
  }

  /** The checks before the loop of flushQueue. */
  function FlushStep(w: World): World {
    if !w.sess.online || |w.sess.inFlight| > 0 then w
    else w.(pc := Outer(Locals(Budget(w.sess), w.sess.fwMode, w.sess.syncMode, w.sess.frameMode, [])))
  }

  /** NextCommandSeq */
  function NextSeq(n: byte): byte {
    if n == 255 then 0 else n + 1
  }

  function Tick(w: World, now: Time, writeOk: bool): World {
    match w.pc
    case Idle => w
    case Outer(l) =>
      if l.remaining == 0 then w.(pc := Idle)
      else w.(sess := w.sess.(bands := Unexpired(w.sess.bands, now)), pc := AfterDrain(l),
              log := w.log + EndedEvents(Expired, Drained(w.sess.bands, now)))
    case AfterDrain(l) =>
      if Length(w.sess.bands) == 0 then w.(pc := Idle) else w.(pc := Inner(l, Length(w.sess.bands)))
    case Inner(l, left) =>
      if left == 0 then w.(pc := PutBack(l, false))
      else
        (match PopNext(w.sess.bands, l.fw, l.sync)
         case None => w.(pc := PutBack(l, false))
         case Some((cmd, rest)) => w.(sess := w.sess.(bands := rest), pc := Popped(l, left - 1, cmd)))
    case Popped(l, left, cmd) => TickPopped(w, l, left, cmd, now, Examine(cmd, l, now))
    case Numbered(l, left, cmd, seqNo, checkedAt) =>
      TickNumbered(w, l, left, cmd, seqNo, checkedAt, Dispatch(FrameFor(cmd, seqNo, l.frameMode), l, writeOk))
    case Written(l, cmd, seqNo) =>
      var table := w.sess.inFlight[seqNo := Entry(seqNo, cmd, now, cmd.attempts + 1)];
      var w' := if seqNo in w.sess.inFlight then Report(w, Overwrote(w.sess.inFlight[seqNo])) else w;
      Persist(w'.(sess := w.sess.(inFlight := table), pc := Registered(l, cmd, seqNo)))
    case Registered(l, cmd, seqNo) =>
      var w' :=
        if 12 <= cmd.commandId <= 16 then Persist(w.(sess := w.sess.(syncMode := true), pc := Marked(l.(sync := true))))
        else if cmd.commandId == 19 then Persist(w.(sess := w.sess.(fwMode := true), pc := Marked(l.(fw := true))))
        else w.(pc := Marked(l));
      Report(w', AcceptedBy(cmd, seqNo))
    case Marked(l) => Persist(w).(pc := PutBack(l, true))
    case PutBack(l, again) =>
      if l.skipped != [] then
        w.(sess := w.sess.(bands := Push(w.sess.bands, l.skipped[0])), pc := PutBack(l.(skipped := l.skipped[1..]), again))
      else w.(pc := if again then ClearSync(l) else Idle)
    case ClearSync(l) => w.(pc := if l.sync && w.sess.bands.sync == [] then SyncOff(l) else ClearFw(l))
    case SyncOff(l) => Persist(w.(sess := w.sess.(syncMode := false))).(pc := ClearFw(l.(sync := false)))
    case ClearFw(l) => w.(pc := if l.fw && w.sess.bands.fw == [] then FwOff(l) else Outer(l))
    case FwOff(l) => Persist(w.(sess := w.sess.(fwMode := false))).(pc := Outer(l.(fw := false)))
  }

  datatype Finding = Stale | Refused | Malformed | Renumbered | Unnumbered

  /** The tests on a popped command, in their order. */
  function Examine(cmd: Command, l: Locals, now: Time): Finding {
    if IsExpired(cmd, now) then Stale
    else if !Allowed(cmd.commandId, l.fw, l.sync) then Refused
    else if !Accepts(cmd.commandId, cmd.payload) then Malformed
    else if cmd.retrySeq != 0 then Renumbered
    else Unnumbered
  }

  /** From the popped command to its sequence number, server.go:563-602. */
  function TickPopped(w: World, l: Locals, left: nat, cmd: Command, now: Time, finding: Finding): World {
    match finding
    case Stale => Report(w, EndedQueued(Expired, cmd)).(pc := Inner(l, left))
    case Refused => w.(pc := Inner(l.(skipped := l.skipped + [cmd]), left))
    case Malformed => Report(w, EndedQueued(Failed, cmd)).(pc := Inner(l, left))
    case Renumbered => w.(pc := Numbered(l, left, cmd.(retrySeq := 0), cmd.retrySeq, now))
    case Unnumbered =>
      var seqNo := NextSeq(w.sess.nextSeq);
      Persist(w.(sess := w.sess.(nextSeq := seqNo))).(pc := Numbered(l, left, cmd.(retrySeq := 0), seqNo, now))
  }

  datatype Outcome = TooLarge | OverBudget | WriteFailed | Sent(size: nat)

  /** Encoding, budget and write, in their order. */
  function Dispatch(frame: Frame, l: Locals, writeOk: bool): (o: Outcome)
    ensures o.Sent? ==> o.size <= l.remaining
  {
    if !Encodable(frame) then TooLarge
    else if |Wire(frame)| > l.remaining then OverBudget
    else if !writeOk then WriteFailed
    else Sent(|Wire(frame)|)
  }

  /** From the sequence number to the write, server.go:603-624. */
  function TickNumbered(w: World, l: Locals, left: nat, cmd: Command, seqNo: byte, checkedAt: Time, o: Outcome): World
    requires o.Sent? ==> o.size <= l.remaining
  {
    match o
    case TooLarge => Report(w, EndedQueued(Failed, cmd)).(pc := Inner(l, left))
    case OverBudget => w.(sess := w.sess.(bands := Push(w.sess.bands, cmd)), pc := PutBack(l, false))
    case WriteFailed => Report(w, EndedQueued(Failed, cmd)).(pc := PutBack(l, false))
    case Sent(size) =>
      Report(w, Wrote(cmd, FrameFor(cmd, seqNo, l.frameMode), checkedAt, l.fw, l.sync))
        .(pc := Written(l.(remaining := l.remaining - size), cmd, seqNo))
  }

  /** Outside the scan of the queue nothing is waiting to be put back. */
  predicate Tidy(pc: Pc) {
    (pc.Outer? || pc.AfterDrain? || pc.ClearSync? || pc.SyncOff? || pc.ClearFw? || pc.FwOff?) ==> pc.l.skipped == []
  }

  // ---- Runs ----

  datatype Step =
    | Enqueue(cmd: Command, now: Time)
    | Ack(seqNo: byte, code: byte, free: int)
    | Sweep(order: seq<byte>, now: Time)
    | Flush
    | Run(now: Time, writeOk: bool)
    | SetFwMode(on: bool)
    | Connect(mode: FrameMode)
    | Disconnect
    | Restart

  /** When a step can happen. The only caller of EnqueueCommand builds a new command
      (observability.go:615), so no attempts are counted in it; a flush holds the
      controller's flush lock; a restart can come at any moment. */
  predicate Enabled(w: World, step: Step) {
    match step
    case Enqueue(cmd, _) => cmd == Core(cmd)
    case Sweep(order, _) => Covers(w, order)
    case Flush => w.pc == Idle
    case _ => true
  }

  function Apply(cfg: Config, w: World, step: Step): World {
    match step
    case Enqueue(cmd, now) => EnqueueStep(cfg, w, cmd, now).0
    case Ack(seqNo, code, free) => AckStep(w, seqNo, code, free)
    case Sweep(order, now) => SweepStep(cfg, w, order, now)
    case Flush => FlushStep(w)
    case Run(now, writeOk) => Tick(w, now, writeOk)
    case SetFwMode(on) => Persist(w.(sess := w.sess.(fwMode := on)))
    case Connect(mode) =>
      if w.sess.online then w
      else Persist(w.(sess := w.sess.(online := true, frameMode := mode, bufferFree := Budget(w.sess))))
    case Disconnect => Persist(w.(sess := w.sess.(online := false)))
    case Restart => Reloaded(w)
  }

  function After(cfg: Config, w: World, steps: seq<Step>): World {
    if steps == [] then w else Apply(cfg, After(cfg, w, steps[..|steps| - 1]), steps[|steps| - 1])
  }

  predicate Possible(cfg: Config, w: World, steps: seq<Step>) {
    forall i :: 0 <= i < |steps| ==> Enabled(After(cfg, w, steps[..i]), steps[i])
  }

  /** A run without its last step. */
  lemma Unroll(cfg: Config, w: World, steps: seq<Step>)
    requires Possible(cfg, w, steps) && steps != []
    ensures Possible(cfg, w, steps[..|steps| - 1])
    ensures Enabled(After(cfg, w, steps[..|steps| - 1]), steps[|steps| - 1])
  {
    var init := steps[..|steps| - 1];
    forall i | 0 <= i < |init| ensures Enabled(After(cfg, w, init[..i]), init[i]) {
      assert init[..i] == steps[..i] && init[i] == steps[i];
    }
  }
}
