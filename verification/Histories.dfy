/** Sessions that some run of the engine brings about: any sequence counter, any budget, and
    retries queued under any number. */
module Histories {
  import opened Bytes
  import opened Framing
  import opened Commands
  import opened PriorityBands
  import opened Policy
  import opened Sessions
  import opened Engine
  import opened SequenceNumbers
  import opened Runs
  import opened Rounds

  /** The queue has room for k commands without payload. */
  predicate RoomFor(cfg: Config, k: nat) {
    (cfg.maxQueueDepth > 0 ==> k <= cfg.maxQueueDepth) && (cfg.maxQueueBytes > 0 ==> 11 * k <= cfg.maxQueueBytes)
  }

  /** Connected, between flushes, nothing in flight, no mode set. */
  predicate Quiet(w: World, b: Bands, n: byte, mode: FrameMode) {
    && w.pc == Idle && w.sess.bands == b && w.sess.inFlight == map[] && w.sess.nextSeq == n
    && w.sess.online && w.sess.frameMode == mode && !w.sess.fwMode && !w.sess.syncMode
  }

  lemma Beginning(cfg: Config, mode: FrameMode) returns (w: World)
    ensures Reaches(cfg, START, w) && Quiet(w, EMPTY_BANDS, 0, mode) && w.log == [] && Synced(w)
  {
    ReachesStep(cfg, START, Connect(mode));
    w := Apply(cfg, START, Connect(mode));
  }

  /** An acknowledgement of a number not in flight only tells the free buffer. */
  lemma TellingFree(cfg: Config, w: World, free: int) returns (w': World)
    requires w.sess.inFlight == map[]
    ensures Reaches(cfg, w, w') && w' == w.(sess := w.sess.(bufferFree := free))
  {
    ReachesStep(cfg, w, Ack(0, 0, free));
    w' := AckStep(w, 0, 0, free);
  }

  /** A flush starts with the budget it was told. */
  lemma Opening(cfg: Config, w: World, b: Bands, n: byte, free: nat, mode: FrameMode) returns (w': World)
    requires Quiet(w, b, n, mode) && AllSmall(b) && free > 0
    ensures Reaches(cfg, w, w') && AtRound(w', Locals(free, false, false, mode, []))
    ensures w'.sess == w.sess.(bufferFree := free) && w'.log == w.log
  {
    var v := TellingFree(cfg, w, free);
    ReachesOn(cfg, w, v, Flush);
    w' := FlushStep(v);
  }

  /** A flush that has used up its budget ends. */
  lemma Ending(cfg: Config, w: World, l: Locals, now: Time) returns (w': World)
    requires w.pc == Outer(l) && l.remaining == 0
    ensures Reaches(cfg, w, w') && w' == w.(pc := Idle)
  {
    ReachesStep(cfg, w, Run(now, true));
    w' := Tick(w, now, true);
  }

  lemma Acknowledging(cfg: Config, w: World, r: byte) returns (w': World)
    requires r in w.sess.inFlight
    ensures Reaches(cfg, w, w') && w'.pc == w.pc
    ensures w'.sess == w.sess.(inFlight := w.sess.inFlight - {r}, bufferFree := 1)
  {
    ReachesStep(cfg, w, Ack(r, 0, 1));
    w' := AckStep(w, r, 0, 1);
  }

  /** The numbers after r are acknowledged, r itself is not. */
  lemma {:induction false} AcknowledgingAll(cfg: Config, w: World, r: byte, k: nat) returns (w': World)
    requires k <= 255 && w.sess.inFlight.Keys == {r} + Numbers(r, k)
    ensures Reaches(cfg, w, w') && w'.pc == w.pc
    ensures w'.sess == w.sess.(inFlight := map[r := w.sess.inFlight[r]], bufferFree := w'.sess.bufferFree)
    decreases k
  {
    if k == 0 {
      w' := TellingSame(cfg, w);
      assert w.sess.inFlight == map[r := w.sess.inFlight[r]];
    } else {
      var v := LastAcknowledged(cfg, w, r, k);
      w' := AcknowledgingAll(cfg, v, r, k - 1);
      ReachesTrans(cfg, w, v, w');
    }
  }

  lemma LastAcknowledged(cfg: Config, w: World, r: byte, k: nat) returns (w': World)
    requires 1 <= k <= 255 && w.sess.inFlight.Keys == {r} + Numbers(r, k)
    ensures Reaches(cfg, w, w') && w'.pc == w.pc
    ensures w'.sess == w.sess.(inFlight := w'.sess.inFlight, bufferFree := w'.sess.bufferFree)
    ensures w'.sess.inFlight.Keys == {r} + Numbers(r, k - 1) && w'.sess.inFlight[r] == w.sess.inFlight[r]
  {
    LastRemoved(w.sess.inFlight, r, k);
    w' := Acknowledging(cfg, w, Later(r, k));
  }

  lemma LastRemoved(m: Table, r: byte, k: nat)
    requires 1 <= k <= 255 && m.Keys == {r} + Numbers(r, k)
    ensures Later(r, k) in m && Later(r, k) != r
    ensures (m - {Later(r, k)}).Keys == {r} + Numbers(r, k - 1)
  {
    NotYet(r, k, k - 1);
    NotAgain(r, k);
    assert Numbers(r, k) == Numbers(r, k - 1) + {Later(r, k)};
  }

  lemma TellingSame(cfg: Config, w: World) returns (w': World)
    ensures Reaches(cfg, w, w') && w' == w
  {
    assert Possible(cfg, w, []) && After(cfg, w, []) == w;
    w' := w;
  }

  /** The counter moves on by one: a new command is sent and acknowledged. */
  lemma Advancing(cfg: Config, w: World, b: Bands, n: byte, mode: FrameMode, now: Time) returns (w': World)
    requires Quiet(w, b, n, mode) && AllSmall(b) && b.high == [] && Fits(cfg, b, Urgent("", 0, 0))
    ensures Reaches(cfg, w, w') && Quiet(w', b, NextSeq(n), mode)
  {
    var m := MinFrame(mode);
    var w1 := Opening(cfg, w, b, n, m, mode);
    UrgentFirst(b);
    var w2 := OneMore(cfg, w1, Locals(m, false, false, mode, []), Urgent("", 0, 0), now);
    LeadsReaches(cfg, w1, w2);
    ReachesTrans(cfg, w, w1, w2);
    var w3 := Ending(cfg, w2, Locals(0, false, false, mode, []), now);
    ReachesTrans(cfg, w, w2, w3);
    w' := Acknowledging(cfg, w3, NextSeq(n));
    ReachesTrans(cfg, w, w3, w');
    assert w'.sess.inFlight == map[];
  }

  lemma {:induction false} AdvancingBy(cfg: Config, w: World, b: Bands, n: byte, mode: FrameMode, k: nat, now: Time)
    returns (w': World)
    requires Quiet(w, b, n, mode) && AllSmall(b) && b.high == [] && Fits(cfg, b, Urgent("", 0, 0))
    ensures Reaches(cfg, w, w') && Quiet(w', b, Later(n, k), mode)
    decreases k
  {
    if k == 0 {
      w' := TellingSame(cfg, w);
    } else {
      var v := AdvancingBy(cfg, w, b, n, mode, k - 1, now);
      w' := Advancing(cfg, v, b, Later(n, k - 1), mode, now);
      ReachesTrans(cfg, w, v, w');
    }
  }

  /** The counter can be brought to any number. */
  lemma AdvancingTo(cfg: Config, w: World, b: Bands, n: byte, mode: FrameMode, goal: byte, now: Time) returns (w': World)
    requires Quiet(w, b, n, mode) && AllSmall(b) && b.high == [] && Fits(cfg, b, Urgent("", 0, 0))
    ensures Reaches(cfg, w, w') && Quiet(w', b, goal, mode)
  {
    w' := AdvancingBy(cfg, w, b, n, mode, Distance(n, goal), now);
    LaterReaches(n, goal);
  }

  // ---- A command that times out ----

  /** One command stays in flight under the next number, k more are sent and acknowledged. */
  lemma Outstanding(cfg: Config, w: World, b: Bands, n: byte, mode: FrameMode, c: Command, k: nat, now: Time)
    returns (w': World)
    requires Quiet(w, b, n, mode) && AllSmall(b) && b.high == [] && Fits(cfg, b, Urgent("", 0, 0)) && k <= 255
    requires Small(c) && c == Core(c) && Fits(cfg, b, c) && GoesFirst(b, c)
    ensures Reaches(cfg, w, w')
    ensures Quiet(w'.(sess := w'.sess.(inFlight := map[])), b, Later(NextSeq(n), k), mode)
    ensures w'.sess.inFlight == map[NextSeq(n) := Entry(NextSeq(n), c, now, 1)]
  {
    var r := NextSeq(n);
    var w2 := FirstRound(cfg, w, b, n, mode, c, k, now);
    var w3 := FurtherRounds(cfg, w2, Locals(Cost(k, mode), false, false, mode, []), r, k, now);
    ReachesTrans(cfg, w, w2, w3);
    w' := AcknowledgingAll(cfg, w3, r, k);
    ReachesTrans(cfg, w, w3, w');
  }

  /** A flush with room for k + 1 frames sends its first one. */
  lemma FirstRound(cfg: Config, w: World, b: Bands, n: byte, mode: FrameMode, c: Command, k: nat, now: Time)
    returns (w': World)
    requires Quiet(w, b, n, mode) && AllSmall(b)
    requires Small(c) && c == Core(c) && Fits(cfg, b, c) && GoesFirst(b, c)
    ensures Reaches(cfg, w, w') && AtRound(w', Locals(Cost(k, mode), false, false, mode, []))
    ensures w'.sess == w.sess.(bufferFree := w'.sess.bufferFree, nextSeq := NextSeq(n),
                               inFlight := map[NextSeq(n) := Entry(NextSeq(n), c, now, 1)])
  {
    var l := Locals(Cost(k + 1, mode), false, false, mode, []);
    var v := Opening(cfg, w, b, n, l.remaining, mode);
    w' := OneMore(cfg, v, l, c, now);
    assert c.(retrySeq := 0) == c;
    LeadsReaches(cfg, v, w');
    ReachesTrans(cfg, w, v, w');
  }

  lemma FurtherRounds(cfg: Config, w: World, l: Locals, r: byte, k: nat, now: Time) returns (w': World)
    requires AtRound(w, l) && l.remaining == Cost(k, l.frameMode) && k <= 255
    requires w.sess.bands.high == [] && Fits(cfg, w.sess.bands, Urgent("", 0, 0))
    requires w.sess.nextSeq == r && w.sess.inFlight.Keys == {r}
    ensures Reaches(cfg, w, w') && w'.pc == Idle
    ensures w'.sess == w.sess.(nextSeq := Later(r, k), inFlight := w'.sess.inFlight)
    ensures w'.sess.inFlight.Keys == {r} + Numbers(r, k) && w'.sess.inFlight[r] == w.sess.inFlight[r]
  {
    var v := ManyRounds(cfg, w, l, k, now);
    LeadsReaches(cfg, w, v);
    NotAgain(r, k);
    w' := Ending(cfg, v, v.pc.l, now);
    ReachesTrans(cfg, w, v, w');
  }

  lemma TimesOut(cfg: Config, e: Entry, now: Time)
    requires Small(e.cmd) && e.attempts <= MaxRetries(cfg, e.cmd) && now >= e.sentAt + EntryWait(cfg, e)
    ensures Judge(cfg, e, now) == Retry
  {
  }

  /** The sweep at the end of the wait puts it back under its number. */
  lemma PuttingBack(cfg: Config, w: World, r: byte, c: Command, sent: Time) returns (w': World, now: Time)
    requires w.sess.inFlight == map[r := Entry(r, c, sent, 1)] && Small(c) && c == Core(c) && MaxRetries(cfg, c) >= 1
    ensures Reaches(cfg, w, w') && w'.pc == w.pc && now >= sent && Synced(w')
    ensures w'.log == w.log + [Retrying(Entry(r, c, sent, 1))]
    ensures w'.sess == w.sess.(inFlight := map[], bands := Push(w.sess.bands, c.(attempts := 1, retrySeq := r)))
  {
    var e := Entry(r, c, sent, 1);
    EntryWaits(cfg, e);
    now := sent + EntryWait(cfg, e);
    TimesOut(cfg, e, now);
    ReachesStep(cfg, w, Sweep([r], now));
    w' := SweepStep(cfg, w, [r], now);
    assert [r][..0] == [];
    assert Visits(cfg, w, [r], now) == Visit(cfg, Visits(cfg, w, [r][..0], now), r, now);
    assert w.sess.inFlight - {r} == map[];
  }

  function Before(r: byte): (n: byte)
    ensures NextSeq(n) == r
  {
    if r == 0 then 255 else r - 1
  }

  /** A retry is queued under r, and the counter is at n. */
  lemma QueueingRetry(cfg: Config, w: World, b: Bands, n0: byte, mode: FrameMode, c: Command, r: byte, n: byte, now: Time)
    returns (w': World, now': Time)
    requires Quiet(w, b, n0, mode) && AllSmall(b) && b.high == [] && Fits(cfg, b, Urgent("", 0, 0))
    requires Small(c) && c == Core(c) && Fits(cfg, b, c) && GoesFirst(b, c) && MaxRetries(cfg, c) >= 1
    ensures Reaches(cfg, w, w') && Quiet(w', Push(b, c.(attempts := 1, retrySeq := r)), n, mode) && now' >= now
    ensures Synced(w')
  {
    var before := Before(r);
    var w1 := AdvancingTo(cfg, w, b, n0, mode, before, now);
    var k := Distance(r, n);
    LaterReaches(r, n);
    var w2 := Outstanding(cfg, w1, b, before, mode, c, k, now);
    ReachesTrans(cfg, w, w1, w2);
    w', now' := PuttingBack(cfg, w2, r, c, now);
    ReachesTrans(cfg, w, w2, w');
  }
}
