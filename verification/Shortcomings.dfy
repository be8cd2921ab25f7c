/** Where the engine does less than its comments say: runs from the empty session. */
module Shortcomings {
  import opened Bytes
  import opened Results
  import opened Messages
  import opened Framing
  import opened Sums
  import opened Commands
  import opened PriorityBands
  import opened Policy
  import opened Sessions
  import opened Engine
  import opened SlotSafety
  import opened Runs
  import opened Rounds
  import opened Histories
  import opened SlotReuse
  import opened StoreLag

  // ---- A slot reused ----

  /** A flush sends a new command and then a retry under the number the new one was just given.
      The entry of the new one is overwritten: it will not be acknowledged, retried or reported
      any more. */
  lemma FlushOverwrites(cfg: Config) returns (w: World, w': World, now: Time)
    requires Roomy(cfg)
    ensures Reaches(cfg, START, w) && Ready(w, 0, 1500, Sequenced, multiset{1}, 0)
    ensures Leads(cfg, FlushStep(w), w')
    ensures w'.sess.inFlight == map[1 := Entry(1, Request("", 1, 0), now, 2)]
    ensures w'.log != [] && w'.log[|w'.log| - 1] == Overwrote(Entry(1, Urgent("", 0, 0), now, 1))
  {
    w, now := OneRetryReady(cfg, 0, 1500, Sequenced, multiset{1}, 1);
    w' := OneAfterTheOther(cfg, FlushStep(w), Locals(1500, false, false, Sequenced, []), now);
  }

  lemma OneAfterTheOther(cfg: Config, w: World, l: Locals, now: Time) returns (w': World)
    requires AtRound(w, l) && l.frameMode == Sequenced && l.remaining >= 22 && RoomFor(cfg, 2)
    requires w.sess.bands == Bands([], [], [], [Request("", 1, 1)]) && w.sess.nextSeq == 0 && w.sess.inFlight == map[]
    ensures Leads(cfg, w, w')
    ensures w'.sess.inFlight == map[1 := Entry(1, Request("", 1, 0), now, 2)]
    ensures w'.log != [] && w'.log[|w'.log| - 1] == Overwrote(Entry(1, Urgent("", 0, 0), now, 1))
  {
    var c, u := Request("", 1, 1), Urgent("", 0, 0);
    RoomForSecond(cfg, c, u);
    UrgentFirst(Bands([], [], [], [c]));
    var v := OneMore(cfg, w, l, u, now);
    assert u.(retrySeq := 0) == u && [c][1..] == [];
    w' := HalfRound(cfg, v, v.pc.l, c, EMPTY_BANDS, now);
    LeadsTrans(cfg, w, v, w');
  }

  // ---- A command put back and not saved ----

  /** From the outer loop to the number of the only command waiting. */
  lemma TakesNumber(cfg: Config, w: World, l: Locals, c: Command, now: Time) returns (w': World)
    requires AtRound(w, l) && 0 < l.remaining && w.sess.bands == Bands([], [], [], [c]) && Small(c)
    ensures Leads(cfg, w, w') && w'.log == w.log
    ensures w'.pc == Numbered(l, 0, c.(retrySeq := 0), NumberFor(w.sess, c), now)
    ensures w'.sess == NumberedState(w.sess, c).(bands := EMPTY_BANDS)
    ensures w'.saved == if c.retrySeq != 0 then w.saved else Save(w'.sess)
  {
    var v := TakesCommand(cfg, w, l, c, now);
    SmallPasses(c, l, now);
    w' := Numbering(cfg, v, l, 0, c, now);
    LeadsTrans(cfg, w, v, w');
    QueueApart(w.sess, c, EMPTY_BANDS);
  }

  lemma TakesCommand(cfg: Config, w: World, l: Locals, c: Command, now: Time) returns (w': World)
    requires AtRound(w, l) && 0 < l.remaining && w.sess.bands == Bands([], [], [], [c]) && Small(c)
    ensures Leads(cfg, w, w') && w' == w.(sess := w.sess.(bands := EMPTY_BANDS), pc := Popped(l, 0, c))
  {
    NothingDrained(w.sess.bands, now);
    OnlyOne(c);
    w' := Popping(cfg, w, l, c, EMPTY_BANDS, now);
  }

  lemma QueueApart(s: SessionState, c: Command, b: Bands)
    ensures NumberedState(s.(bands := b), c) == NumberedState(s, c).(bands := b)
    ensures NumberFor(s.(bands := b), c) == NumberFor(s, c)
  {
  }

  /** From the popped command that does not fit to the end of the flush. */
  lemma OverBudgetEnds(cfg: Config, w: World, l: Locals, c: Command, now: Time) returns (w': World)
    requires AtRound(w, l) && 0 < l.remaining < 10 && w.sess.bands == Bands([], [], [], [c]) && Small(c)
    ensures Leads(cfg, w, w') && w'.pc == Idle && w'.log == w.log
    ensures w'.sess == NumberedState(w.sess, c).(bands := Push(EMPTY_BANDS, c.(retrySeq := 0)))
    ensures w'.saved == if c.retrySeq != 0 then w.saved else Save(NumberedState(w.sess, c).(bands := EMPTY_BANDS))
  {
    var v := TakesNumber(cfg, w, l, c, now);
    w' := NumberedEnds(cfg, v, l, now);
    LeadsTrans(cfg, w, v, w');
  }

  lemma NumberedEnds(cfg: Config, w: World, l: Locals, now: Time) returns (w': World)
    requires w.pc.Numbered? && w.pc.l == l && l.remaining < 10 && l.skipped == []
    requires w.pc.cmd.payload == [] && w.pc.cmd.retrySeq == 0
    ensures Leads(cfg, w, w')
    ensures w' == w.(sess := w.sess.(bands := Push(w.sess.bands, w.pc.cmd)), pc := Idle)
  {
    SmallFrame(w.pc.cmd, 0, l.frameMode);
    TooBigTick(w, now, true);
    LeadsStep(cfg, w, Run(now, true));
    var v := w.(sess := w.sess.(bands := Push(w.sess.bands, w.pc.cmd)), pc := PutBack(l, false));
    NothingToGiveBack(v, l, now);
    LeadsOn(cfg, w, v, now);
    w' := v.(pc := Idle);
  }

  lemma NothingToGiveBack(w: World, l: Locals, now: Time)
    requires w.pc == PutBack(l, false) && l.skipped == []
    ensures Tick(w, now, true) == w.(pc := Idle)
  {
  }

  /** A command that does not fit the budget goes back to the queue, but the store was last
      written while the flush had it in its hands: after a restart it is nowhere. */
  lemma PutBackIsNotSaved(cfg: Config, mode: FrameMode) returns (w: World)
    requires RoomFor(cfg, 1)
    ensures Reaches(cfg, START, w) && w.pc == Idle && w.log == [Enqueued(Request("a", 0, 0))]
    ensures w.sess.bands == Bands([], [], [], [Request("a", 0, 0)])
    ensures Reloaded(w).sess.bands == EMPTY_BANDS && Reloaded(w).sess.inFlight == map[]
  {
    var a := Request("a", 0, 0);
    var w0 := Beginning(cfg, mode);
    RoomInEmpty(cfg, a);
    var w1 := Queueing(cfg, w0, a, 0);
    LeadsReaches(cfg, w0, w1);
    ReachesTrans(cfg, START, w0, w1);
    assert [] + [a] == [a] && a.(retrySeq := 0) == a;
    var w2 := Opening(cfg, w1, Bands([], [], [], [a]), 0, 5, mode);
    ReachesTrans(cfg, START, w1, w2);
    w := OverBudgetEnds(cfg, w2, Locals(5, false, false, mode, []), a, 0);
    LeadsReaches(cfg, w2, w);
    ReachesTrans(cfg, START, w2, w);
    SavedEmpty(w.saved, NumberedState(w2.sess, a).(bands := EMPTY_BANDS));
  }

  lemma SavedEmpty(saved: SessionSnapshot, s: SessionState)
    requires saved == Save(s) && s.bands == EMPTY_BANDS && s.inFlight == map[]
    ensures Load(saved).bands == EMPTY_BANDS && Load(saved).inFlight == map[]
  {
    SaveAndLoad(s);
  }

  /** A retry that does not fit goes back without its number. Nothing was saved meanwhile, so the
      store still has it, with the number. */
  lemma PutBackLosesNumber(cfg: Config, mode: FrameMode, r: byte) returns (w: World)
    requires Roomy(cfg) && r != 0
    ensures Reaches(cfg, START, w) && w.pc == Idle
    ensures w.sess.bands == Bands([], [], [], [Request("", 1, 0)])
    ensures Reloaded(w).sess.bands == Bands([], [], [], [Request("", 1, r)])
  {
    var c := Request("", 1, r);
    var v, now := RetryOpened(cfg, mode, r);
    w := OverBudgetEnds(cfg, v, Locals(5, false, false, mode, []), c, now);
    LeadsReaches(cfg, v, w);
    ReachesTrans(cfg, START, v, w);
    assert [] + [Request("", 1, 0)] == [Request("", 1, 0)];
  }

  lemma RetryOpened(cfg: Config, mode: FrameMode, r: byte) returns (w: World, now: Time)
    requires Roomy(cfg)
    ensures Reaches(cfg, START, w) && AtRound(w, Locals(5, false, false, mode, []))
    ensures w.sess.bands == Load(w.saved).bands == Bands([], [], [], [Request("", 1, r)])
  {
    var v;
    v, now := FirstRetry(cfg, mode, r, 0);
    w := OpeningKeepsStore(cfg, v, Bands([], [], [], [Request("", 1, r)]), 0, 5, mode);
    ReachesTrans(cfg, START, v, w);
    SaveAndLoad(v.sess);
  }

  lemma OpeningKeepsStore(cfg: Config, w: World, b: Bands, n: byte, free: nat, mode: FrameMode) returns (w': World)
    requires Quiet(w, b, n, mode) && AllSmall(b) && free > 0
    ensures Reaches(cfg, w, w') && AtRound(w', Locals(free, false, false, mode, []))
    ensures w'.sess == w.sess.(bufferFree := free) && w'.log == w.log && w'.saved == w.saved
  {
    var v := TellingFree(cfg, w, free);
    ReachesOn(cfg, w, v, Flush);
    w' := FlushStep(v);
  }

  // ---- An expired command reported twice ----

  /** A request that expires a nanosecond after it was made. */
  const SHORT_LIVED := Command("a", "", 9, 1, 0, [], Query, 0, 0)

  lemma DrainsAll(b: Bands, c: Command, now: Time)
    requires b == Bands([], [], [], [c]) && IsExpired(c, now)
    ensures Unexpired(b, now) == EMPTY_BANDS && Drained(b, now) == [c]
  {
    FilterPush([], c, Live(now));
    FilterPush([], c, Not(Live(now)));
    assert [] + [c] == [c];
  }

  /** A flush over an expired command reports it and ends; the store still has it. */
  lemma ExpiredFlush(cfg: Config, w: World, c: Command, now: Time) returns (w': World)
    requires w.pc == Idle && w.sess.online && w.sess.inFlight == map[]
    requires w.sess.bands == Bands([], [], [], [c]) && IsExpired(c, now)
    ensures Reaches(cfg, w, w') && w' == w.(sess := w.sess.(bands := EMPTY_BANDS), log := w.log + [EndedQueued(Expired, c)])
  {
    ReachesStep(cfg, w, Flush);
    var w1 := FlushStep(w);
    DrainsAll(w.sess.bands, c, now);
    ReachesOn(cfg, w, w1, Run(now, true));
    var w2 := Tick(w1, now, true);
    assert EndedEvents(Expired, [c]) == [EndedQueued(Expired, c)];
    ReachesOn(cfg, w, w2, Run(now, true));
    w' := Tick(w2, now, true);
  }

  lemma QueueingShortLived(cfg: Config, w: World) returns (w': World)
    requires Quiet(w, EMPTY_BANDS, 0, Sequenced) && w.log == [] && RoomFor(cfg, 1)
    ensures Reaches(cfg, w, w') && Synced(w') && w'.log == [Enqueued(SHORT_LIVED)]
    ensures Quiet(w', Bands([], [], [], [SHORT_LIVED]), 0, Sequenced)
  {
    var c := SHORT_LIVED;
    SizeOfOne(Request("", 0, 0));
    ReachesStep(cfg, w, Enqueue(c, 0));
    w' := EnqueueStep(cfg, w, c, 0).0;
    assert Normalize(c) == Some(c) && DroppedEvents([]) == [] && [] + [c] == [c];
  }

  /** Drained commands are reported without a word to the store. After a restart the command is
      back, and is reported once more. */
  lemma ReportedTwice(cfg: Config) returns (w: World)
    requires RoomFor(cfg, 1)
    ensures Reaches(cfg, START, w)
    ensures w.log == [Enqueued(SHORT_LIVED)] + [EndedQueued(Expired, SHORT_LIVED)] + [EndedQueued(Expired, SHORT_LIVED)]
  {
    var c := SHORT_LIVED;
    var w0 := Beginning(cfg, Sequenced);
    var w1 := QueueingShortLived(cfg, w0);
    ReachesTrans(cfg, START, w0, w1);
    var w2 := ExpiredFlush(cfg, w1, c, 5);
    ReachesTrans(cfg, START, w1, w2);
    var w3 := Returning(cfg, w2, w1.sess, Bands([], [], [], [c]), Sequenced);
    ReachesTrans(cfg, START, w2, w3);
    w := ExpiredFlush(cfg, w3, c, 5);
    ReachesTrans(cfg, START, w3, w);
  }

  /** A restart brings back what the store has, and the controller connects again. */
  lemma Returning(cfg: Config, w: World, s: SessionState, b: Bands, mode: FrameMode) returns (w': World)
    requires w.saved == Save(s) && s.bands == b && Sorted(b) && s.inFlight == map[] && !s.fwMode && !s.syncMode
    ensures Reaches(cfg, w, w') && Quiet(w', b, s.nextSeq, mode) && w'.log == w.log && Synced(w')
  {
    SaveAndLoad(s);
    ReachesStep(cfg, w, Restart);
    var v := Reloaded(w);
    ReachesOn(cfg, w, v, Connect(mode));
    w' := Apply(cfg, v, Connect(mode));
  }
}
