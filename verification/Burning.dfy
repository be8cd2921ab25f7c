/** Rounds of a flush that meet oversized commands: each uses up a number and no budget. */
module Burning {
  import opened Bytes
  import opened Results
  import opened Framing
  import opened Payloads
  import opened Sums
  import opened Commands
  import opened PriorityBands
  import opened Policy
  import opened Sessions
  import opened Engine
  import opened OversizedCommands
  import opened SequenceNumbers
  import opened Runs
  import opened Rounds

  /** A valid custom command without time limit that is one byte too long to be encoded. */
  predicate Overlong(c: Command, mode: FrameMode) {
    && c.commandId == 27 && |c.payload| == LongestPayload(mode) + 1 && Accepts(27, c.payload)
    && c.priority == Query && c == Core(c) && c.ttl == 0 && c.createdAt == 0 && c.dedupKey == ""
  }

  /** There is one: its argument is as long as its length field says. */
  lemma OverlongExists(mode: FrameMode) returns (c: Command)
    ensures Overlong(c, mode)
  {
    var n := LongestPayload(mode) - 2;
    var p: seq<byte> := [0, n % 256, n / 256] + seq(n, i => 0);
    c := Command("", "", 27, 0, 0, p, Query, 0, 0);
  }

  function Times(c: Command, k: nat): (s: seq<Command>)
    ensures |s| == k
  {
    if k == 0 then [] else [c] + Times(c, k - 1)
  }

  lemma {:induction false} TimesMore(c: Command, k: nat)
    ensures Times(c, k) + [c] == Times(c, k + 1)
    decreases k
  {
    if k > 0 { TimesMore(c, k - 1); }
  }

  lemma {:induction false} TimesOnly(c: Command, k: nat)
    ensures forall i :: 0 <= i < k ==> Times(c, k)[i] == c
    decreases k
  {
    if k > 0 { TimesOnly(c, k - 1); }
  }

  lemma OverlongPasses(c: Command, l: Locals, now: Time)
    requires Overlong(c, l.frameMode) && !l.fw && !l.sync
    ensures Examine(c, l, now) == Unnumbered
  {
  }

  // ---- One oversized command ----

  /** It is taken from the queue, gets a number, and cannot be encoded. */
  lemma BurnOne(cfg: Config, w: World, c: Command, rest: Bands, now: Time) returns (w': World)
    requires w.pc.Inner? && w.pc.left > 0 && !w.pc.l.fw && !w.pc.l.sync
    requires Overlong(c, w.pc.l.frameMode) && PopNext(w.sess.bands, false, false) == Some((c, rest))
    ensures Continues(cfg, w, w')
    ensures At(w', w.sess.(bands := rest, nextSeq := NextSeq(w.sess.nextSeq)), Inner(w.pc.l, w.pc.left - 1))
  {
    var l, left := w.pc.l, w.pc.left;
    ContinuesStep(cfg, w, Run(now, true));
    var w1 := Tick(w, now, true);
    OverlongPasses(c, l, now);
    var w2 := Numbering(cfg, w1, l, left - 1, c, now);
    LeadsContinues(cfg, w1, w2);
    ContinuesTrans(cfg, w, w1, w2);
    w' := FailOne(cfg, w2, l, left - 1, c, NextSeq(w.sess.nextSeq), now);
    ContinuesTrans(cfg, w, w2, w');
  }

  lemma FailOne(cfg: Config, w: World, l: Locals, left: nat, c: Command, n: byte, now: Time) returns (w': World)
    requires w.pc == Numbered(l, left, c.(retrySeq := 0), n, now) && Overlong(c, l.frameMode)
    ensures Continues(cfg, w, w') && At(w', w.sess, Inner(l, left))
  {
    assert c.(retrySeq := 0) == c;
    OversizedMeans(c, n, l.frameMode);
    ContinuesStep(cfg, w, Run(now, true));
    w' := Tick(w, now, true);
    assert w' == TickNumbered(w, l, left, c, n, now, TooLarge);
  }

  /** w' is w after k oversized commands, with q left behind them. */
  predicate AfterBurn(w: World, w': World, q: seq<Command>, k: nat) {
    && w.pc.Inner? && w.pc.left >= k && w'.pc == Inner(w.pc.l, w.pc.left - k)
    && w'.sess == w.sess.(bands := Bands([], [], [], q), nextSeq := Later(w.sess.nextSeq, k))
  }

  lemma BurnFurther(w: World, v: World, w': World, rest: seq<Command>, q: seq<Command>, k: nat)
    requires k > 0 && AfterBurn(w, v, rest, 1) && AfterBurn(v, w', q, k - 1)
    ensures AfterBurn(w, w', q, k)
  {
    LaterFromNext(w.sess.nextSeq, k);
    assert Later(w.sess.nextSeq, 1) == NextSeq(Later(w.sess.nextSeq, 0));
  }

  /** k of them in a row. */
  lemma {:induction false} BurnMany(cfg: Config, w: World, c: Command, k: nat, q: seq<Command>, now: Time)
    returns (w': World)
    requires w.pc.Inner? && w.pc.left >= k && !w.pc.l.fw && !w.pc.l.sync
    requires Overlong(c, w.pc.l.frameMode) && w.sess.bands == Bands([], [], [], Times(c, k) + q)
    ensures Continues(cfg, w, w') && AfterBurn(w, w', q, k)
    decreases k
  {
    if k == 0 {
      assert [] + q == q;
      w' := Staying(cfg, w, q);
    } else {
      var rest := Times(c, k - 1) + q;
      var v := BurnFirst(cfg, w, c, k, q, now);
      w' := BurnMany(cfg, v, c, k - 1, q, now);
      ContinuesTrans(cfg, w, v, w');
      BurnFurther(w, v, w', rest, q, k);
    }
  }

  lemma BurnFirst(cfg: Config, w: World, c: Command, k: nat, q: seq<Command>, now: Time) returns (w': World)
    requires w.pc.Inner? && w.pc.left > 0 && !w.pc.l.fw && !w.pc.l.sync && k > 0
    requires Overlong(c, w.pc.l.frameMode) && w.sess.bands == Bands([], [], [], Times(c, k) + q)
    ensures Continues(cfg, w, w') && AfterBurn(w, w', Times(c, k - 1) + q, 1)
  {
    var rest := Times(c, k - 1) + q;
    assert (Times(c, k) + q)[0] == c && (Times(c, k) + q)[1..] == rest;
    w' := BurnOne(cfg, w, c, Bands([], [], [], rest), now);
    assert Later(w.sess.nextSeq, 1) == NextSeq(Later(w.sess.nextSeq, 0));
  }

  lemma Staying(cfg: Config, w: World, q: seq<Command>) returns (w': World)
    requires w.pc.Inner? && w.sess.bands == Bands([], [], [], q)
    ensures Continues(cfg, w, w') && AfterBurn(w, w', q, 0)
  {
    ContinuesNowhere(cfg, w);
    w' := w;
  }

  lemma {:induction false} LaterFromNext(n: byte, k: nat)
    requires k > 0
    ensures Later(NextSeq(n), k - 1) == Later(n, k)
    decreases k
  {
    if k > 1 { LaterFromNext(n, k - 1); }
  }

  lemma {:induction false} CountOfTimes(c: Command, k: nat, mode: FrameMode)
    ensures Sum(Times(c, k), IsOversized(mode)) == if Oversized(c, mode) then k else 0
    decreases k
  {
    if k > 0 {
      CountOfTimes(c, k - 1, mode);
      assert Times(c, k)[1..] == Times(c, k - 1);
      SumPop(Times(c, k), IsOversized(mode));
    }
  }

  // ---- Taking one and putting the like in its place ----

  /** One oversized command can be taken from queue b, leaving b0, and the like put in its place. */
  predicate Refillable(cfg: Config, c: Command, b0: Bands, b: Bands) {
    PopNext(b, false, false) == Some((c, b0)) && Push(b0, c) == b && Fits(cfg, b0, c)
  }

  /** w' is w after that happened k times. */
  predicate AfterRefills(w: World, w': World, k: nat) {
    && w.pc.Inner? && w.pc.left >= k && w'.pc == Inner(w.pc.l, w.pc.left - k)
    && w'.sess == w.sess.(nextSeq := Later(w.sess.nextSeq, k))
  }

  lemma RefillFurther(w: World, v: World, w': World, k: nat)
    requires k > 0 && AfterRefills(w, v, k - 1) && w.pc.left >= k && v.pc.left >= 1
    requires At(w', v.sess.(nextSeq := NextSeq(v.sess.nextSeq)), Inner(v.pc.l, v.pc.left - 1))
    ensures AfterRefills(w, w', k)
  {
  }

  lemma NoRefill(cfg: Config, w: World) returns (w': World)
    requires w.pc.Inner?
    ensures Continues(cfg, w, w') && AfterRefills(w, w', 0)
  {
    ContinuesNowhere(cfg, w);
    w' := w;
  }

  lemma BurnAndRefill(cfg: Config, w: World, c: Command, b0: Bands, now: Time) returns (w': World)
    requires w.pc.Inner? && w.pc.left > 0 && !w.pc.l.fw && !w.pc.l.sync
    requires Overlong(c, w.pc.l.frameMode) && Refillable(cfg, c, b0, w.sess.bands)
    ensures Continues(cfg, w, w')
    ensures At(w', w.sess.(nextSeq := NextSeq(w.sess.nextSeq)), Inner(w.pc.l, w.pc.left - 1))
  {
    var v := BurnOne(cfg, w, c, b0, now);
    w' := TakingIn(cfg, v, c, now);
    ContinuesTrans(cfg, w, v, w');
  }

  lemma BurnOneMore(cfg: Config, w: World, v: World, c: Command, b0: Bands, k: nat, now: Time) returns (w': World)
    requires w.pc.Inner? && w.pc.left >= k > 0 && !w.pc.l.fw && !w.pc.l.sync
    requires Overlong(c, w.pc.l.frameMode) && Refillable(cfg, c, b0, w.sess.bands)
    requires Continues(cfg, w, v) && AfterRefills(w, v, k - 1)
    ensures Continues(cfg, w, w') && AfterRefills(w, w', k)
  {
    w' := BurnAndRefill(cfg, v, c, b0, now);
    ContinuesTrans(cfg, w, v, w');
    RefillFurther(w, v, w', k);
  }

  lemma {:induction false} BurnOn(cfg: Config, w: World, c: Command, b0: Bands, k: nat, now: Time) returns (w': World)
    requires w.pc.Inner? && w.pc.left >= k && !w.pc.l.fw && !w.pc.l.sync
    requires Overlong(c, w.pc.l.frameMode) && Refillable(cfg, c, b0, w.sess.bands)
    ensures Continues(cfg, w, w') && AfterRefills(w, w', k)
    decreases k
  {
    if k == 0 {
      w' := NoRefill(cfg, w);
    } else {
      var v := BurnOn(cfg, w, c, b0, k - 1, now);
      w' := BurnOneMore(cfg, w, v, c, b0, k, now);
    }
  }

  // ---- Taking commands in ----

  lemma {:induction false} SizeOfTimes(c: Command, k: nat)
    ensures Sum(Times(c, k), Size()) == k * (11 + |c.payload|)
    decreases k
  {
    if k > 0 {
      SizeOfTimes(c, k - 1);
      assert Times(c, k)[1..] == Times(c, k - 1);
      SumPop(Times(c, k), Size());
      assert k * (11 + |c.payload|) == (k - 1) * (11 + |c.payload|) + (11 + |c.payload|);
    }
  }

  lemma RoomForMore(cfg: Config, mode: FrameMode, c: Command, k: nat, m: nat)
    requires RoomBeside(cfg, mode, m) && k <= m && Overlong(c, mode)
    ensures Fits(cfg, Bands([], [], [], Times(c, k)), Request("", 0, 0))
    ensures k < m ==> Fits(cfg, Bands([], [], [], Times(c, k)), c)
  {
    SizeOfTimes(c, k);
    MoreCosts(k, m, 12 + LongestPayload(mode));
  }

  lemma MoreCosts(k: nat, m: nat, size: nat)
    requires k <= m
    ensures k * size <= m * size && (k < m ==> k * size + size <= m * size)
  {
    if k < m { assert (k + 1) * size <= m * size; }
  }

  lemma {:induction false} TakingOverlongs(cfg: Config, w: World, mode: FrameMode, c: Command, k: nat, m: nat, now: Time)
    returns (w': World)
    requires w.sess.bands == EMPTY_BANDS && RoomBeside(cfg, mode, m) && k <= m && Overlong(c, mode)
    ensures Continues(cfg, w, w') && At(w', w.sess.(bands := Bands([], [], [], Times(c, k))), w.pc)
    decreases k
  {
    if k == 0 {
      ContinuesNowhere(cfg, w);
      w' := w;
    } else {
      var v := TakingOverlongs(cfg, w, mode, c, k - 1, m, now);
      RoomForMore(cfg, mode, c, k - 1, m);
      w' := TakingOneMore(cfg, v, mode, c, k - 1, now);
      ContinuesTrans(cfg, w, v, w');
    }
  }

  lemma TakingOneMore(cfg: Config, w: World, mode: FrameMode, c: Command, k: nat, now: Time) returns (w': World)
    requires w.sess.bands == Bands([], [], [], Times(c, k)) && Overlong(c, mode) && Fits(cfg, w.sess.bands, c)
    ensures Continues(cfg, w, w') && At(w', w.sess.(bands := Bands([], [], [], Times(c, k + 1))), w.pc)
  {
    w' := TakingIn(cfg, w, c, now);
    TimesMore(c, k);
  }

  // ---- A round with k oversized commands ----

  /** k oversized commands and a request come in. */
  lemma Loading(cfg: Config, w: World, mode: FrameMode, c: Command, k: nat, m: nat, now: Time) returns (w': World)
    requires w.sess.bands == EMPTY_BANDS && RoomBeside(cfg, mode, m) && k <= m && Overlong(c, mode)
    ensures Continues(cfg, w, w')
    ensures At(w', w.sess.(bands := Bands([], [], [], Times(c, k) + [Request("", 0, 0)])), w.pc)
  {
    var v := TakingOverlongs(cfg, w, mode, c, k, m, now);
    RoomForMore(cfg, mode, c, k, m);
    w' := TakingIn(cfg, v, Request("", 0, 0), now);
    ContinuesTrans(cfg, w, v, w');
  }

  lemma TimelessQueue(c: Command, k: nat, now: Time)
    requires c.ttl == 0
    ensures var b := Bands([], [], [], Times(c, k) + [Request("", 0, 0)]);
            Unexpired(b, now) == b && Drained(b, now) == []
  {
    TimesOnly(c, k);
    NothingDrained(Bands([], [], [], Times(c, k) + [Request("", 0, 0)]), now);
  }

  lemma StartScan(cfg: Config, w: World, l: Locals, now: Time) returns (w': World)
    requires w.pc == Outer(l) && l.remaining > 0 && Length(w.sess.bands) > 0
    requires Unexpired(w.sess.bands, now) == w.sess.bands && Drained(w.sess.bands, now) == []
    ensures Continues(cfg, w, w') && At(w', w.sess, Inner(l, Length(w.sess.bands)))
  {
    Draining(w, l, now);
    ContinuesStep(cfg, w, Run(now, true));
    var v := Tick(w, now, true);
    ContinuesOn(cfg, w, v, now);
    w' := Tick(v, now, true);
  }

  /** From the outer loop to the request that stands behind k oversized commands. */
  lemma BurnToRequest(cfg: Config, w: World, l: Locals, k: nat, m: nat, now: Time) returns (w': World)
    requires w.pc == Outer(l) && !l.fw && !l.sync && l.remaining > 0
    requires w.sess.bands == EMPTY_BANDS && RoomBeside(cfg, l.frameMode, m) && k <= m
    ensures Continues(cfg, w, w')
    ensures At(w', w.sess.(nextSeq := Later(w.sess.nextSeq, k)), Popped(l, 0, Request("", 0, 0)))
  {
    var r := Request("", 0, 0);
    var c := OverlongExists(l.frameMode);
    var w1 := Loading(cfg, w, l.frameMode, c, k, m, now);
    TimelessQueue(c, k, now);
    var w2 := StartScan(cfg, w1, l, now);
    ContinuesTrans(cfg, w, w1, w2);
    var w3 := BurnMany(cfg, w2, c, k, [r], now);
    ContinuesTrans(cfg, w, w2, w3);
    w' := TakeLast(cfg, w3, l, r, now);
    ContinuesTrans(cfg, w, w3, w');
  }

  lemma TakeLast(cfg: Config, w: World, l: Locals, c: Command, now: Time) returns (w': World)
    requires w.pc == Inner(l, 1) && !l.fw && !l.sync && w.sess.bands == Bands([], [], [], [c])
    ensures Continues(cfg, w, w') && At(w', w.sess.(bands := EMPTY_BANDS), Popped(l, 0, c))
  {
    assert [c][1..] == [];
    ContinuesStep(cfg, w, Run(now, true));
    w' := Tick(w, now, true);
  }

  /** A round that hands out k + 1 numbers and sends one frame, under the last of them. */
  lemma BurnRound(cfg: Config, w: World, l: Locals, k: nat, m: nat, now: Time) returns (w': World)
    requires AtRound(w, l) && l.remaining >= MinFrame(l.frameMode)
    requires w.sess.bands == EMPTY_BANDS && RoomBeside(cfg, l.frameMode, m) && k <= m
    ensures Continues(cfg, w, w') && AtRound(w', l.(remaining := l.remaining - MinFrame(l.frameMode)))
    ensures var n := Later(w.sess.nextSeq, k + 1);
            w'.sess == w.sess.(nextSeq := n, inFlight := w.sess.inFlight[n := Entry(n, Request("", 0, 0), now, 1)])
  {
    var c := Request("", 0, 0);
    var w1 := BurnToRequest(cfg, w, l, k, m, now);
    SmallPasses(c, l, now);
    var w2 := Sending(cfg, w1, l, 0, c, now);
    assert c.(retrySeq := 0) == c;
    w' := Closing(cfg, w2, l.(remaining := l.remaining - MinFrame(l.frameMode)), c, NextSeq(w1.sess.nextSeq), now);
    LeadsTrans(cfg, w1, w2, w');
    LeadsContinues(cfg, w1, w');
    ContinuesTrans(cfg, w, w1, w');
  }

  /** The same up to the moment at which its number turns out to be taken. */
  lemma BurnThenCollide(cfg: Config, w: World, l: Locals, k: nat, m: nat, now: Time) returns (w': World)
    requires AtRound(w, l) && l.remaining >= MinFrame(l.frameMode)
    requires w.sess.bands == EMPTY_BANDS && RoomBeside(cfg, l.frameMode, m) && k <= m
    requires Later(w.sess.nextSeq, k + 1) in w.sess.inFlight
    ensures Continues(cfg, w, w') && |w'.log| > |w.log| && w'.log[|w'.log| - 1].Overwrote?
  {
    var c := Request("", 0, 0);
    var w1 := BurnToRequest(cfg, w, l, k, m, now);
    SmallPasses(c, l, now);
    w' := Sending(cfg, w1, l, 0, c, now);
    LeadsContinues(cfg, w1, w');
    ContinuesTrans(cfg, w, w1, w');
    ContinuesGrow(cfg, w, w1);
  }
}
