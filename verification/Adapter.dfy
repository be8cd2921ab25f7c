/** internal/session/manager.go and internal/server/server.go: the session object and the
    operations on it, each proved against its step of the engine. */
module Adapter {
  import opened Bytes
  import opened Results
  import opened Messages
  import opened Framing
  import opened Payloads
  import opened Commands
  import opened PriorityBands
  import opened Queue
  import opened Policy
  import opened Sessions
  import opened Engine
  import opened WholeFlush

  class Session {
    const cfg: Config
    const queue: ControllerQueue
    var inFlight: Table
    var nextSeq: byte
    var fwMode: bool
    var syncMode: bool
    var bufferFree: int
    var online: bool
    var frameMode: FrameMode
    var dedup: map<string, Time>
    var store: SessionSnapshot  // this controller's entry in the session store
    var log: seq<Event>         // what was published and written

    ghost function State(): SessionState
      reads this, queue
    {
      SessionState(queue.View(), inFlight, nextSeq, fwMode, syncMode, bufferFree, online, frameMode, dedup)
    }

    /** The engine state this object stands for, at a given point of a flush. */
    ghost function View(pc: Pc): World
      reads this, queue
    {
      World(State(), pc, store, log)
    }

    constructor (cfg: Config)
      ensures View(Idle) == START && this.cfg == cfg && fresh(queue)
    {
      this.cfg := cfg;
      queue := new ControllerQueue();
      inFlight, nextSeq, fwMode, syncMode := map[], 0, false, false;
      bufferFree, online, frameMode, dedup := 1500, false, Sequenced, map[];
      store, log := Save(NEW_SESSION), [];
    }

    // ---- The store ----

    /** persistLocked */
    method Persist()
      modifies this`store
      ensures store == Save(State())
    {
      var entries := [];
      for k := 0 to 256
        invariant entries == EntriesBelow(inFlight, k)
      {
        if k in inFlight { entries := entries + [inFlight[k]]; }
      }
      var pending := queue.TakeSnapshot();
      store := SessionSnapshot(bufferFree, fwMode, syncMode, pending, entries, nextSeq);
    }

    /** Restore, after a restart. */
    method Restore()
      modifies this, queue
      ensures State() == Load(old(store)) && store == old(store) && log == old(log)
    {
      queue.Restore(store.pending);
      var table: Table := map[];
      for i := 0 to |store.inFlight|
        invariant table == TableOf(store.inFlight[..i])
      {
        assert store.inFlight[..i + 1][..i] == store.inFlight[..i];
        var v := store.inFlight[i];
        table := table[v.seqNo := Entry(v.seqNo, v.cmd, v.sentAt, v.attempts)];
      }
      assert store.inFlight[..|store.inFlight|] == store.inFlight;
      inFlight := table;
      nextSeq, fwMode, syncMode := store.nextSeq, store.fwMode, store.syncMode;
      bufferFree := if store.bufferFree <= 0 then 1500 else store.bufferFree;
      online, frameMode, dedup := false, Sequenced, map[];
    }

    // ---- Enqueue ----

    method DoesFit(c: Command) returns (fits: bool)
      ensures fits <==> Fits(cfg, queue.View(), c)
    {
      var n := queue.Len();
      if cfg.maxQueueDepth > 0 && n + 1 > cfg.maxQueueDepth { return false; }
      var bytes := queue.EstimatedBytes();
      return !(cfg.maxQueueBytes > 0 && bytes + EstimatedCommandBytes(c) > cfg.maxQueueBytes);
    }

    /** The drop_oldest loop. */
    method DropUntilFits(c: Command) returns (fits: bool)
      modifies queue, this`log
      ensures var (rest, dropped) := MakeRoom(cfg, old(queue.View()), c);
              && queue.View() == rest && log == old(log) + DroppedEvents(dropped)
              && fits == Fits(cfg, rest, c)
    {
      ghost var gone: seq<Command> := [];
      ghost var start := queue.View();
      NothingDropped(MakeRoom(cfg, start, c), log);
      fits := DoesFit(c);
      while !fits
        invariant fits == Fits(cfg, queue.View(), c)
        invariant MakeRoom(cfg, start, c) == Resumed(gone, MakeRoom(cfg, queue.View(), c))
        invariant log == old(log) + DroppedEvents(gone)
        decreases !fits, Length(queue.View())
      {
        ghost var b := queue.View();
        var victim := queue.DropOldest();
        if victim == None { return; }
        DropOne(cfg, b, c, gone, old(log));
        log := log + [Dropped(victim.value)];
        gone := gone + [victim.value];
        fits := DoesFit(c);
      }
    }

    /** A loop that has dropped `gone` and will go on to `r`. */
    static ghost function Resumed(gone: seq<Command>, r: (Bands, seq<Command>)): (Bands, seq<Command>) {
      (r.0, gone + r.1)
    }

    static lemma NothingDropped(r: (Bands, seq<Command>), past: seq<Event>)
      ensures Resumed([], r) == r && past + DroppedEvents([]) == past
    {
      assert [] + r.1 == r.1;
    }

    static lemma DropOne(cfg: Config, b: Bands, c: Command, gone: seq<Command>, past: seq<Event>)
      requires !Fits(cfg, b, c) && Length(b) > 0
      ensures var victim := Snapshot(b)[Oldest(Snapshot(b))];
              && Resumed(gone, MakeRoom(cfg, b, c)) ==
                   Resumed(gone + [victim], MakeRoom(cfg, PriorityBands.DropOldest(b), c))
              && past + DroppedEvents(gone + [victim]) == past + DroppedEvents(gone) + [Dropped(victim)]
    {
      var victim := Snapshot(b)[Oldest(Snapshot(b))];
      var more := MakeRoom(cfg, PriorityBands.DropOldest(b), c).1;
      assert gone + ([victim] + more) == gone + [victim] + more;
      assert DroppedEvents(gone + [victim]) == DroppedEvents(gone) + [Dropped(victim)];
    }

    /** The overflow part of enqueueLocked, and the push. */
    method Place(c: Command) returns (status: EnqueueStatus)
      modifies queue, this`log
      ensures var a := Admit(cfg, old(queue.View()), c);
              && queue.View() == a.bands && status == a.status
              && log == old(log) + DroppedEvents(a.dropped)
    {
      assert log + DroppedEvents([]) == log;
      var fits := DoesFit(c);
      if !fits {
        match cfg.overflow {
          case Reject =>
            var bytes := queue.EstimatedBytes();
            return if cfg.maxQueueBytes > 0 && bytes + EstimatedCommandBytes(c) > cfg.maxQueueBytes
                   then QueueBytesFull else QueueFull;
          case DropOldestFirst =>
            fits := DropUntilFits(c);
            if !fits {
              assert queue.View() == EMPTY_BANDS;
              return if cfg.maxQueueBytes > 0 && EstimatedCommandBytes(c) > cfg.maxQueueBytes
                     then QueueBytesFull else QueueFull;
            }
          case Unknown =>
            return QueueFull;
        }
      }
      queue.Push(c);
      status := Queued;
    }

    /** EnqueueCommand with enqueueLocked. */
    method Enqueue(cmd: Command, now: Time) returns (status: EnqueueStatus)
      modifies this, queue
      ensures (View(Idle), status) == EnqueueStep(cfg, old(View(Idle)), cmd, now)
    {
      var normalized := Normalize(cmd);
      if normalized == None { return UnsupportedCommand; }
      var c := normalized.value;
      if c.dedupKey != "" {
        if c.dedupKey in dedup && now - dedup[c.dedupKey] < DEDUP_WINDOW { return Duplicate; }
        dedup := dedup[c.dedupKey := now];
      }
      status := Place(c);
      if status == Queued {
        log := log + [Enqueued(c)];
        Persist();
      }
    }

    // ---- Acknowledgements and the sweep ----

    /** The terminal and interim branches of the acknowledgement, with AckInFlight. */
    method Acknowledge(seqNo: byte, code: byte, free: int)
      modifies this
      ensures View(Idle) == AckStep(old(View(Idle)), seqNo, code, free)
    {
      bufferFree := free;
      var status := AckStatusOf(code);
      if !IsTerminal(status) {
        log := log + [Progress(seqNo)];
      } else if seqNo in inFlight {
        var e := inFlight[seqNo];
        inFlight := inFlight - {seqNo};
        Persist();
        log := log + [EndedFlying(status, e)];
      }
    }

    /** ProcessInFlight: the range over the in-flight map, in the order it happens to come. */
    method ProcessInFlight(order: seq<byte>, now: Time)
      modifies this, queue
      ensures View(Idle) == SweepStep(cfg, old(View(Idle)), order, now)
    {
      for i := 0 to |order|
        invariant View(Idle) == Visits(cfg, old(View(Idle)), order[..i], now)
      {
        assert order[..i + 1][..i] == order[..i];
        VisitOne(order[i], now);
      }
      assert order[..|order|] == order;
      Persist();
    }

    method VisitOne(key: byte, now: Time)
      modifies this, queue
      ensures View(Idle) == Visit(cfg, old(View(Idle)), key, now)
    {
      if key !in inFlight { return; }
      var entry := inFlight[key];
      var wait := EntryWait(cfg, entry);
      if now < entry.sentAt + wait { return; }
      ghost var before := View(Idle);
      inFlight := inFlight - {key};
      if IsExpired(entry.cmd, now) {
        log := log + [EndedFlying(Expired, entry)];
        assert View(Idle) == Settle(before, key, Expire);
      } else if entry.attempts >= MaxRetries(cfg, entry.cmd) + 1 {
        if now < entry.sentAt + Wrap64(wait + LATE_ACK_GRACE) {
          inFlight := inFlight[key := entry];
          assert inFlight == before.sess.inFlight;
          return;
        }
        log := log + [EndedFlying(Failed, entry)];
        assert View(Idle) == Settle(before, key, Fail);
      } else {
        queue.Push(Requeued(entry, key));
        log := log + [Retrying(entry)];
        assert View(Idle) == Settle(before, key, Retry);
      }
    }

    // ---- The flush ----
    //
    // Each part says how far along the ticks of the flush it has come: the rest of the
    // flush, from where it leaves off, is the rest from where it began.

    method ReportExpired(expired: seq<Command>)
      modifies this`log
      ensures log == old(log) + EndedEvents(Expired, expired)
    {
      for i := 0 to |expired|
        invariant log == old(log) + EndedEvents(Expired, expired[..i])
      {
        assert EndedEvents(Expired, expired[..i + 1]) == EndedEvents(Expired, expired[..i]) + [EndedQueued(Expired, expired[i])];
        log := log + [EndedQueued(Expired, expired[i])];
      }
      assert expired[..|expired|] == expired;
    }

    /** Lines 541 to 550: drain, and report what was drained. */
    method Drain(l: Locals, env: Inputs, t: nat)
      requires l.remaining > 0
      modifies queue, this`log
      ensures Finish(View(AfterDrain(l)), env, t + 1) == old(Finish(View(Outer(l)), env, t))
    {
      ghost var before := View(Outer(l));
      var expired := queue.DrainExpired(env(t).now);
      ReportExpired(expired);
      OneTick(before, env, t, View(AfterDrain(l)));
    }

    /** RegisterInFlight */
    method RegisterInFlight(l: Locals, cmd: Command, seqNo: byte, env: Inputs, t: nat)
      modifies this
      ensures Finish(View(Registered(l, cmd, seqNo)), env, t + 1) == old(Finish(View(Written(l, cmd, seqNo)), env, t))
    {
      ghost var before := View(Written(l, cmd, seqNo));
      if seqNo in inFlight { log := log + [Overwrote(inFlight[seqNo])]; }
      inFlight := inFlight[seqNo := Entry(seqNo, cmd, env(t).now, cmd.attempts + 1)];
      Persist();
      OneTick(before, env, t, View(Registered(l, cmd, seqNo)));
    }

    /** Lines 632 to 673: the mode a command starts, and the interim report. */
    method StartModes(l: Locals, cmd: Command, seqNo: byte, env: Inputs, t: nat) returns (l': Locals)
      modifies this
      ensures l' == l.(fw := l'.fw, sync := l'.sync)
      ensures Finish(View(Marked(l')), env, t + 1) == old(Finish(View(Registered(l, cmd, seqNo)), env, t))
    {
      ghost var before := View(Registered(l, cmd, seqNo));
      l' := l;
      if 12 <= cmd.commandId <= 16 {
        syncMode := true;
        Persist();
        l' := l.(sync := true);
      }
      if cmd.commandId == 19 {
        fwMode := true;
        Persist();
        l' := l'.(fw := true);
      }
      log := log + [AcceptedBy(cmd, seqNo)];
      OneTick(before, env, t, View(Marked(l')));
    }

    /** Line 674: AckSent. */
    method AckSent(l: Locals, env: Inputs, t: nat)
      modifies this`store
      ensures Finish(View(PutBack(l, true)), env, t + 1) == old(Finish(View(Marked(l)), env, t))
    {
      ghost var before := View(Marked(l));
      Persist();
      OneTick(before, env, t, View(PutBack(l, true)));
    }

    /** Lines 603 to 624: encode, check the budget, write. */
    method Transmit(l: Locals, left: nat, cmd: Command, seqNo: byte, checkedAt: Time, env: Inputs, t: nat)
      returns (o: Outcome)
      modifies queue, this`log
      ensures o.Sent? ==> 0 < o.size <= l.remaining
      ensures Finish(View(AfterTransmit(o, l, left, cmd, seqNo)), env, t + 1)
              == old(Finish(View(Numbered(l, left, cmd, seqNo, checkedAt)), env, t))
    {
      ghost var before := View(Numbered(l, left, cmd, seqNo, checkedAt));
      var frame := FrameFor(cmd, seqNo, l.frameMode);
      var encoded := EncodeFrame(frame);
      if encoded.Failure? {
        o := TooLarge;
        log := log + [EndedQueued(Failed, cmd)];
      } else if |encoded.value| > l.remaining {
        o := OverBudget;
        queue.Push(cmd);
      } else if !env(t).writeOk {
        o := WriteFailed;
        log := log + [EndedQueued(Failed, cmd)];
      } else {
        o := Sent(|encoded.value|);
        log := log + [Wrote(cmd, frame, checkedAt, l.fw, l.sync)];
      }
      assert o == Dispatch(frame, l, env(t).writeOk);
      assert View(AfterTransmit(o, l, left, cmd, seqNo)) == TickNumbered(before, l, left, cmd, seqNo, checkedAt, o);
      OneTick(before, env, t, View(AfterTransmit(o, l, left, cmd, seqNo)));
    }

    static function AfterTransmit(o: Outcome, l: Locals, left: nat, cmd: Command, seqNo: byte): Pc
      requires o.Sent? ==> o.size <= l.remaining
    {
      match o
      case TooLarge => Inner(l, left)
      case OverBudget => PutBack(l, false)
      case WriteFailed => PutBack(l, false)
      case Sent(size) => Written(l.(remaining := l.remaining - size), cmd, seqNo)
    }

    /** Lines 563 to 602: the tests on a popped command, and its sequence number. */
    method Prepare(l: Locals, left: nat, cmd: Command, env: Inputs, t: nat) returns (f: Finding, seqNo: byte)
      modifies this
      ensures Finish(View(AfterPrepare(f, l, left, cmd, seqNo, env(t).now)), env, t + 1)
              == old(Finish(View(Popped(l, left, cmd)), env, t))
    {
      ghost var before := View(Popped(l, left, cmd));
      var now := env(t).now;
      seqNo := cmd.retrySeq;
      if IsExpired(cmd, now) {
        f := Stale;
        log := log + [EndedQueued(Expired, cmd)];
      } else if !Allowed(cmd.commandId, l.fw, l.sync) {
        f := Refused;
      } else if !Accepts(cmd.commandId, cmd.payload) {
        f := Malformed;
        log := log + [EndedQueued(Failed, cmd)];
      } else if seqNo != 0 {
        f := Renumbered;
      } else {
        f := Unnumbered;
        nextSeq := NextSeq(nextSeq);
        seqNo := nextSeq;
        Persist();
      }
      assert f == Examine(cmd, l, now);
      assert View(AfterPrepare(f, l, left, cmd, seqNo, now)) == TickPopped(before, l, left, cmd, now, f);
      OneTick(before, env, t, View(AfterPrepare(f, l, left, cmd, seqNo, now)));
    }

    static function AfterPrepare(f: Finding, l: Locals, left: nat, cmd: Command, seqNo: byte, now: Time): Pc {
      match f
      case Stale => Inner(l, left)
      case Refused => Inner(l.(skipped := l.skipped + [cmd]), left)
      case Malformed => Inner(l, left)
      case _ => Numbered(l, left, cmd.(retrySeq := 0), seqNo, now)
    }

    /** The head of the inner loop: the next command, if there is one. */
    method Pop(l: Locals, left: nat, env: Inputs, t: nat) returns (popped: Option<Command>)
      requires left > 0
      modifies queue
      ensures popped == None ==>
                Finish(View(PutBack(l, false)), env, t + 1) == old(Finish(View(Inner(l, left)), env, t))
      ensures popped != None ==>
                Finish(View(Popped(l, left - 1, popped.value)), env, t + 1) == old(Finish(View(Inner(l, left)), env, t))
    {
      ghost var before := View(Inner(l, left));
      popped := queue.PopNext(l.fw, l.sync);
      OneTick(before, env, t, View(if popped == None then PutBack(l, false) else Popped(l, left - 1, popped.value)));
    }

    /** What comes after a write: lines 625 to 678. */
    method Conclude(l: Locals, cmd: Command, seqNo: byte, env: Inputs, t: nat) returns (l': Locals)
      modifies this
      ensures l' == l.(fw := l'.fw, sync := l'.sync)
      ensures Finish(View(PutBack(l', true)), env, t + 3) == old(Finish(View(Written(l, cmd, seqNo)), env, t))
    {
      RegisterInFlight(l, cmd, seqNo, env, t);
      l' := StartModes(l, cmd, seqNo, env, t + 1);
      AckSent(l', env, t + 2);
    }

    /** Lines 603 to 678: a numbered command, up to the end of its iteration. */
    method Send(l: Locals, left: nat, cmd: Command, seqNo: byte, checkedAt: Time, env: Inputs, t: nat)
      returns (pc: Pc, t': nat)
      modifies this, queue
      ensures EndsTurn(pc, l, left)
      ensures Finish(View(pc), env, t') == old(Finish(View(Numbered(l, left, cmd, seqNo, checkedAt)), env, t))
    {
      ghost var goal := Finish(View(Numbered(l, left, cmd, seqNo, checkedAt)), env, t);
      var o := Transmit(l, left, cmd, seqNo, checkedAt, env, t);
      if !o.Sent? { return AfterTransmit(o, l, left, cmd, seqNo), t + 1; }
      var l' := l.(remaining := l.remaining - o.size);
      assert Finish(View(Written(l', cmd, seqNo)), env, t + 1) == goal;
      l' := Conclude(l', cmd, seqNo, env, t + 1);
      return PutBack(l', true), t + 4;
    }

    /** Where an iteration of the inner loop can end: at the next one, or leaving the loop
        with or without a command sent. */
    static predicate EndsTurn(pc: Pc, l: Locals, left: nat) {
      || (pc.Inner? && pc.left == left && pc.l.remaining == l.remaining)
      || (pc.PutBack? && (pc.again ==> pc.l.remaining < l.remaining))
    }

    /** Lines 563 to 678: a popped command, up to the end of its iteration. */
    method Process(l: Locals, left: nat, cmd: Command, env: Inputs, t: nat) returns (pc: Pc, t': nat)
      modifies this, queue
      ensures EndsTurn(pc, l, left)
      ensures Finish(View(pc), env, t') == old(Finish(View(Popped(l, left, cmd)), env, t))
    {
      var f, seqNo := Prepare(l, left, cmd, env, t);
      if f == Renumbered || f == Unnumbered {
        pc, t' := Send(l, left, cmd.(retrySeq := 0), seqNo, env(t).now, env, t + 1);
      } else {
        pc, t' := AfterPrepare(f, l, left, cmd, seqNo, env(t).now), t + 1;
      }
    }

    /** One iteration of the inner loop. */
    method Turn(l: Locals, left: nat, env: Inputs, t: nat) returns (pc: Pc, t': nat)
      requires left > 0
      modifies this, queue
      ensures EndsTurn(pc, l, left - 1)
      ensures Finish(View(pc), env, t') == old(Finish(View(Inner(l, left)), env, t))
    {
      ghost var goal := Finish(View(Inner(l, left)), env, t);
      var popped := Pop(l, left, env, t);
      if popped == None { return PutBack(l, false), t + 1; }
      ghost var mid := Finish(View(Popped(l, left - 1, popped.value)), env, t + 1);
      assert mid == goal;
      pc, t' := Process(l, left - 1, popped.value, env, t + 1);
    }

    /** Lines 682 to 684: push the skipped commands back. */
    method ReturnSkipped(l: Locals, again: bool, env: Inputs, t: nat) returns (t': nat)
      modifies queue
      ensures Finish(View(PutBack(l.(skipped := []), again)), env, t') == old(Finish(View(PutBack(l, again)), env, t))
    {
      ghost var goal := Finish(View(PutBack(l, again)), env, t);
      t' := t;
      var rest := l.skipped;
      assert l.(skipped := rest) == l;
      while rest != []
        invariant Finish(View(PutBack(l.(skipped := rest), again)), env, t') == goal
        decreases |rest|
      {
        ghost var before := View(PutBack(l.(skipped := rest), again));
        queue.Push(rest[0]);
        rest := rest[1..];
        OneTick(before, env, t', View(PutBack(l.(skipped := rest), again)));
        t' := t' + 1;
      }
    }

    /** Lines 689 to 702: leave a mode whose band has run empty. */
    method LeaveModes(l: Locals, env: Inputs, t: nat) returns (l': Locals, t': nat)
      modifies this
      ensures l' == l.(fw := l'.fw, sync := l'.sync)
      ensures Finish(View(Outer(l')), env, t') == old(Finish(View(ClearSync(l)), env, t))
    {
      l', t' := LeaveSync(l, env, t);
      l', t' := LeaveFw(l', env, t');
    }

    method LeaveSync(l: Locals, env: Inputs, t: nat) returns (l': Locals, t': nat)
      modifies this
      ensures l' == l.(sync := l'.sync)
      ensures Finish(View(ClearFw(l')), env, t') == old(Finish(View(ClearSync(l)), env, t))
    {
      var has := queue.HasSync();
      if l.sync && !has {
        OneTick(View(ClearSync(l)), env, t, View(SyncOff(l)));
        SwitchSyncOff(l, env, t + 1);
        return l.(sync := false), t + 2;
      }
      OneTick(View(ClearSync(l)), env, t, View(ClearFw(l)));
      return l, t + 1;
    }

    method SwitchSyncOff(l: Locals, env: Inputs, t: nat)
      modifies this
      ensures Finish(View(ClearFw(l.(sync := false))), env, t + 1) == old(Finish(View(SyncOff(l)), env, t))
    {
      ghost var before := View(SyncOff(l));
      syncMode := false;
      Persist();
      OneTick(before, env, t, View(ClearFw(l.(sync := false))));
    }

    method LeaveFw(l: Locals, env: Inputs, t: nat) returns (l': Locals, t': nat)
      modifies this
      ensures l' == l.(fw := l'.fw)
      ensures Finish(View(Outer(l')), env, t') == old(Finish(View(ClearFw(l)), env, t))
    {
      var has := queue.HasFw();
      if l.fw && !has {
        OneTick(View(ClearFw(l)), env, t, View(FwOff(l)));
        SwitchFwOff(l, env, t + 1);
        return l.(fw := false), t + 2;
      }
      OneTick(View(ClearFw(l)), env, t, View(Outer(l)));
      return l, t + 1;
    }

    method SwitchFwOff(l: Locals, env: Inputs, t: nat)
      modifies this
      ensures Finish(View(Outer(l.(fw := false))), env, t + 1) == old(Finish(View(FwOff(l)), env, t))
    {
      ghost var before := View(FwOff(l));
      fwMode := false;
      Persist();
      OneTick(before, env, t, View(Outer(l.(fw := false))));
    }

    /** The inner loop: at most `scan` commands, up to the first one sent. */
    method Scan(l: Locals, scan: nat, env: Inputs, t: nat) returns (l': Locals, sent: bool, t': nat)
      modifies this, queue
      ensures sent ==> l'.remaining < l.remaining
      ensures Finish(View(PutBack(l', sent)), env, t') == old(Finish(View(Inner(l, scan)), env, t))
    {
      ghost var goal := Finish(View(Inner(l, scan)), env, t);
      var pc := Inner(l, scan);
      t' := t;
      while pc.Inner? && pc.left > 0
        invariant pc.Inner? ==> pc.l.remaining == l.remaining
        invariant pc.Inner? || (pc.PutBack? && (pc.again ==> pc.l.remaining < l.remaining))
        invariant Finish(View(pc), env, t') == goal
        decreases if pc.Inner? then pc.left else 0
      {
        pc, t' := Turn(pc.l, pc.left, env, t');
      }
      if pc.Inner? {
        OneTick(View(pc), env, t', View(PutBack(pc.l, false)));
        return pc.l, false, t' + 1;
      }
      return pc.l, pc.again, t';
    }

    /** Lines 551 to 557: how many commands to look at. */
    method StartScan(l: Locals, env: Inputs, t: nat) returns (scan: nat)
      ensures Finish(View(if scan == 0 then Idle else Inner(l, scan)), env, t + 1) == Finish(View(AfterDrain(l)), env, t)
    {
      scan := queue.Len();
      OneTick(View(AfterDrain(l)), env, t, View(if scan == 0 then Idle else Inner(l, scan)));
    }

    /** Lines 682 to 687: put the skipped commands back; without a send the flush is over. */
    method EndScan(l: Locals, sent: bool, env: Inputs, t: nat) returns (t': nat)
      modifies queue
      ensures Finish(View(if sent then ClearSync(l.(skipped := [])) else Idle), env, t')
              == old(Finish(View(PutBack(l, sent)), env, t))
    {
      t' := ReturnSkipped(l, sent, env, t);
      var tidy := l.(skipped := []);
      OneTick(View(PutBack(tidy, sent)), env, t', View(if sent then ClearSync(tidy) else Idle));
      t' := t' + 1;
    }

    /** One iteration of the outer loop, and whether there is another. */
    method Round(l: Locals, env: Inputs, t: nat) returns (again: bool, l': Locals, t': nat)
      requires l.remaining > 0 && l.skipped == []
      modifies this, queue
      ensures again ==> l'.remaining < l.remaining && l'.skipped == []
      ensures Finish(View(if again then Outer(l') else Idle), env, t') == old(Finish(View(Outer(l)), env, t))
    {
      Drain(l, env, t);
      var scan := StartScan(l, env, t + 1);
      if scan == 0 { return false, l, t + 2; }
      l', again, t' := Scan(l, scan, env, t + 2);
      t' := EndScan(l', again, env, t');
      l' := l'.(skipped := []);
      if again { l', t' := LeaveModes(l', env, t'); }
    }

    /** flushQueue */
    method FlushQueue(env: Inputs)
      modifies this, queue
      ensures View(Idle) == Finish(FlushStep(old(View(Idle))), env, 0)
    {
      if !online { return; }
      if |inFlight| > 0 { return; }
      var maxBudget := bufferFree;
      if maxBudget <= 0 { maxBudget := 1500; }
      var l := Locals(maxBudget, fwMode, syncMode, frameMode, []);
      var t, again := 0, true;
      ghost var goal := Finish(View(Outer(l)), env, 0);
      while again && l.remaining > 0
        invariant l.skipped == []
        invariant Finish(View(if again then Outer(l) else Idle), env, t) == goal
        decreases if again then 1 else 0, l.remaining
      {
        var l';
        again, l', t := Round(l, env, t);
        if again { l := l'; }
      }
      if again { OneTick(View(Outer(l)), env, t, View(Idle)); }
    }
  }
}
