/** The 8-bit sequence numbers of a flush: when no in-flight slot is ever reused.

    A number is taken by the entry in flight under it and by the command about to be sent
    under it. It is awaited by a queued command that is to be retried under it. And the
    counter hands out a run of fresh numbers while the byte budget lasts: one for every frame,
    and one for every oversized command met on the way to it. Throughout, m is the number of
    oversized commands the queue can hold. */
module SequenceNumbers {
  import opened Bytes
  import opened Results
  import opened Framing
  import opened Payloads
  import opened Commands
  import opened PriorityBands
  import opened Policy
  import opened Sessions
  import opened Engine
  import opened Events
  import opened Ledger
  import opened Invariants
  import opened FlushSafety
  import opened Claims
  import opened OversizedCommands

  /** The bytes of the shortest frame. */
  function MinFrame(mode: FrameMode): (m: nat)
    ensures 10 <= m <= 11
  {
    if mode == Compact then 10 else 11
  }

  /** A waiting command awaits the number it is to be retried under; zero means none. */
  function RetryClaim(r: byte): Command -> int {
    (c: Command) => if r != 0 && c.retrySeq == r then 1 else 0
  }

  /** r is one of the `count` numbers after n, counted modulo 256. */
  predicate InRun(r: byte, n: byte, count: int) {
    (r - n - 1) % 256 < count
  }

  /** The command in hand will be sent if there is room for it. */
  predicate Sendable(pc: Pc) {
    pc.Numbered? && !Oversized(pc.cmd, pc.l.frameMode) && pc.l.remaining >= MinFrame(pc.l.frameMode)
  }

  /** Frames this flush may still send, not counting the command in hand. */
  function FramesLeft(pc: Pc): int {
    if pc == Idle || (pc.PutBack? && !pc.again) then 0
    else pc.l.remaining / MinFrame(pc.l.frameMode) - (if Sendable(pc) then 1 else 0)
  }

  /** Numbers the counter hands out on the way to `frames` more frames, at most. */
  function Share(frames: int, m: nat): (k: nat)
    ensures k >= frames
    decreases frames
  {
    if frames <= 0 then 0 else Share(frames - 1, m) + m + 1
  }

  lemma {:induction false} ShareGrows(a: int, b: int, m: nat)
    requires a <= b
    ensures Share(a, m) <= Share(b, m)
    decreases b
  {
    if a < b && b > 0 { ShareGrows(a, b - 1, m); }
  }

  lemma {:induction false} ShareIsProduct(frames: nat, m: nat)
    ensures Share(frames, m) == frames * (m + 1)
    decreases frames
  {
    if frames > 0 {
      ShareIsProduct(frames - 1, m);
      assert frames * (m + 1) == (frames - 1) * (m + 1) + (m + 1);
    }
  }

  /** A scan of the queue is under way: the next frame is still to be found. */
  predicate MidScan(pc: Pc) {
    pc.Inner? || pc.Popped? || (pc.Numbered? && Oversized(pc.cmd, pc.l.frameMode))
  }

  /** Oversized commands this scan can still meet that have no number yet. */
  function Ahead(w: World): int
    requires w.pc.Inner? || w.pc.Popped? || w.pc.Numbered?
  {
    var l := w.pc.l;
    (if l.fw || l.sync then 0 else InReach(w.sess.bands, w.pc.left, l.frameMode))
    + (if w.pc.Popped? && w.pc.cmd.retrySeq == 0 then IsOversized(l.frameMode)(w.pc.cmd) else 0)
  }

  /** Numbers the counter may still hand out up to the last frame. */
  function NumbersLeft(w: World, m: nat): int {
    var frames := FramesLeft(w.pc);
    if !MidScan(w.pc) then Share(frames, m)
    else if frames <= 0 then 0
    else Ahead(w) + 1 + Share(frames - 1, m)
  }

  /** 1 if the flush is about to send under r. */
  function InHand(pc: Pc, r: byte): int {
    if (Sendable(pc) || pc.Written?) && pc.seqNo == r then 1 else 0
  }

  function Taken(w: World, r: byte): int {
    (if r in w.sess.inFlight then 1 else 0) + InHand(w.pc, r)
  }

  function Awaited(w: World, r: byte): int {
    Claimed(w, RetryClaim(r))
  }

  /** Number r cannot come into use twice: with n the last number handed out, not within the
      next `left` frames and the next `numbers` numbers. */
  predicate Apart(taken: int, awaited: int, left: int, numbers: int, r: byte, n: byte) {
    && taken <= 1
    && (taken == 1 ==> (awaited <= 0 || left <= 0) && !InRun(r, n, numbers))
    && (awaited >= 1 ==> left <= 1 || !InRun(r, n, numbers - 1))
    && (awaited >= 2 ==> left <= 1)
  }

  predicate ApartAt(w: World, m: nat, r: byte) {
    Apart(Taken(w, r), Awaited(w, r), FramesLeft(w.pc), NumbersLeft(w, m), r, w.sess.nextSeq)
  }

  /** What has been sent could be encoded, and what has a number has passed the checks. */
  predicate Encoded(w: World, mode: FrameMode) {
    && (forall k :: k in w.sess.inFlight ==> !Oversized(w.sess.inFlight[k].cmd, mode))
    && (w.pc.Written? ==> !Oversized(w.pc.cmd, mode))
    && (w.pc.Numbered? ==> Accepts(w.pc.cmd.commandId, w.pc.cmd.payload))
  }

  /** Oversized commands are neither set aside nor taken in a mode that would refuse them. */
  predicate NoneAside(pc: Pc, mode: FrameMode) {
    && (pc != Idle ==> forall c :: c in pc.l.skipped ==> !Oversized(c, mode))
    && (pc.Popped? && (pc.l.fw || pc.l.sync) ==> !Oversized(pc.cmd, mode))
  }

  /** The scan does not reach beyond the queue. It does once commands are dropped under it,
      but that is of no account if none can be oversized. */
  predicate WithinQueue(w: World, m: nat) {
    m > 0 && (w.pc.Inner? || w.pc.Popped? || w.pc.Numbered?) ==> w.pc.left <= Length(w.sess.bands)
  }

  /** What a flush keeps besides the invariant of every step. */
  predicate Frugal(w: World, mode: FrameMode, m: nat) {
    && (w.pc != Idle ==> w.pc.l.frameMode == mode)
    && Encoded(w, mode) && NoneAside(w.pc, mode) && WithinQueue(w, m)
    && OversizedIn(w.sess.bands, mode) <= m
    && Share(FramesLeft(w.pc) - 1, m) < 256
  }

  /** No number can come into use twice. */
  ghost predicate Exclusive(cfg: Config, w: World, mode: FrameMode, m: nat) {
    Inv(Bounded(cfg), w) && Frugal(w, mode, m) && forall r: byte :: ApartAt(w, m, r)
  }

  lemma RetryIsClaim(r: byte)
    ensures IsClaim(RetryClaim(r))
  {
  }

  // ---- Arithmetic ----

  /** Less of everything keeps numbers apart. */
  lemma Fewer(w: World, w': World, m: nat, r: byte)
    requires ApartAt(w, m, r)
    requires Taken(w', r) <= Taken(w, r) && Awaited(w', r) <= Awaited(w, r)
    requires FramesLeft(w'.pc) <= FramesLeft(w.pc) && NumbersLeft(w', m) <= NumbersLeft(w, m)
    requires w'.sess.nextSeq == w.sess.nextSeq
    ensures ApartAt(w', m, r)
  {
  }

  /** A retry takes the number it awaited. */
  lemma RetryTakes(taken: int, awaited: int, left: int, numbers: int, numbers': int, r: byte, n: byte)
    requires Apart(taken, awaited, left, numbers, r, n)
    requires awaited >= 1 && left >= 1 && 0 <= taken && numbers' < numbers && (left == 1 ==> numbers' <= 0)
    ensures Apart(taken + 1, awaited - 1, left - 1, numbers', r, n)
  {
  }

  lemma NextIsFirst(r: byte, n: byte)
    ensures InRun(r, n, 1) <==> r == NextSeq(n)
    ensures (r - NextSeq(n) - 1) % 256 == if r == NextSeq(n) then 255 else (r - n - 1) % 256 - 1
  {
    var d := (r - n - 1) % 256;
    if n < 255 {
      assert NextSeq(n) == n + 1;
    } else {
      assert (r - 0 - 1) % 256 == (r - 256 - 1 + 256) % 256;
    }
  }

  /** The counter takes the next number for a frame. */
  lemma CounterTakes(taken: int, awaited: int, left: int, numbers: int, numbers': int, r: byte, n: byte)
    requires Apart(taken, awaited, left, numbers, r, n) && 0 <= taken
    requires 1 <= left <= numbers && numbers' < 256 && numbers' < numbers
    ensures Apart(taken + (if r == NextSeq(n) then 1 else 0), awaited, left - 1, numbers', r, NextSeq(n))
  {
    NextIsFirst(r, n);
  }

  /** The counter takes the next number for nothing. */
  lemma CounterWastes(taken: int, awaited: int, left: int, numbers: int, r: byte, n: byte)
    requires Apart(taken, awaited, left, numbers, r, n) && 0 <= taken && 2 <= numbers
    ensures Apart(taken, awaited, left, numbers - 1, r, NextSeq(n))
  {
    NextIsFirst(r, n);
  }

  lemma NothingLeft(taken: int, awaited: int, r: byte, n: byte, n': byte)
    requires Apart(taken, awaited, 0, 0, r, n)
    ensures Apart(taken, awaited, 0, 0, r, n')
  {
    assert (r - n' - 1) % 256 >= 0;
  }

  // ---- Popped commands ----

  lemma AheadNotNegative(w: World)
    requires w.pc.Inner? || w.pc.Popped? || w.pc.Numbered?
    ensures Ahead(w) >= 0
  {
    ReachBounds(w.sess.bands, w.pc.left, w.pc.l.frameMode);
  }

  /** A retry that will be sent uses up a frame, and the number the counter had kept for it. */
  lemma RenumberedLess(w: World, w': World, m: nat)
    requires w.pc.Popped? && w.pc.cmd.retrySeq != 0 && w'.sess.bands == w.sess.bands
    requires w'.pc.Numbered? && w'.pc.l == w.pc.l && w'.pc.left == w.pc.left && w'.pc.cmd == w.pc.cmd.(retrySeq := 0)
    ensures FramesLeft(w'.pc) == FramesLeft(w.pc) - (if Sendable(w'.pc) then 1 else 0)
    ensures NumbersLeft(w', m) <= NumbersLeft(w, m) - (if Sendable(w'.pc) then 1 else 0)
  {
    AheadNotNegative(w);
    assert Ahead(w') == Ahead(w);
  }

  lemma RenumberedApart(w: World, now: Time, m: nat, r: byte)
    requires w.pc.Popped? && w.pc.cmd.retrySeq != 0 && ApartAt(w, m, r)
    ensures ApartAt(TickPopped(w, w.pc.l, w.pc.left, w.pc.cmd, now, Renumbered), m, r)
  {
    var w' := TickPopped(w, w.pc.l, w.pc.left, w.pc.cmd, now, Renumbered);
    RetryIsClaim(r);
    NumberingGivesUp(w, now, Renumbered, RetryClaim(r));
    RenumberedLess(w, w', m);
    if r == w.pc.cmd.retrySeq && Sendable(w'.pc) {
      PoppedIsClaimed(w, RetryClaim(r));
      RetryTakes(Taken(w, r), Awaited(w, r), FramesLeft(w.pc), NumbersLeft(w, m), NumbersLeft(w', m), r, w.sess.nextSeq);
    } else {
      Fewer(w, w', m, r);
    }
  }

  lemma UnnumberedApart(w: World, now: Time, m: nat, r: byte)
    requires w.pc.Popped? && w.pc.cmd.retrySeq == 0 && ApartAt(w, m, r) && Share(FramesLeft(w.pc) - 1, m) < 256
    ensures ApartAt(TickPopped(w, w.pc.l, w.pc.left, w.pc.cmd, now, Unnumbered), m, r)
  {
    var w' := TickPopped(w, w.pc.l, w.pc.left, w.pc.cmd, now, Unnumbered);
    RetryIsClaim(r);
    NumberingGivesUp(w, now, Unnumbered, RetryClaim(r));
    AheadNotNegative(w);
    if Sendable(w'.pc) {
      CounterTakes(Taken(w, r), Awaited(w, r), FramesLeft(w.pc), NumbersLeft(w, m), NumbersLeft(w', m), r, w.sess.nextSeq);
    } else if FramesLeft(w.pc) >= 1 {
      assert Ahead(w') == Ahead(w) - 1;
      AheadNotNegative(w');
      CounterWastes(Taken(w, r), Awaited(w, r), FramesLeft(w.pc), NumbersLeft(w, m), r, w.sess.nextSeq);
    } else {
      NothingLeft(Taken(w, r), Awaited(w, r), r, w.sess.nextSeq, w'.sess.nextSeq);
    }
  }

  lemma SetAsideApart(w: World, now: Time, finding: Finding, m: nat, r: byte)
    requires w.pc.Popped? && ApartAt(w, m, r) && finding != Renumbered && finding != Unnumbered
    ensures ApartAt(TickPopped(w, w.pc.l, w.pc.left, w.pc.cmd, now, finding), m, r)
  {
    var w' := TickPopped(w, w.pc.l, w.pc.left, w.pc.cmd, now, finding);
    RetryIsClaim(r);
    PoppedClaims(w, now, finding, RetryClaim(r));
    assert Ahead(w') <= Ahead(w);
    Fewer(w, w', m, r);
  }

  lemma PoppedApart(w: World, now: Time, finding: Finding, m: nat, r: byte)
    requires w.pc.Popped? && ApartAt(w, m, r) && Share(FramesLeft(w.pc) - 1, m) < 256
    requires finding == Renumbered ==> w.pc.cmd.retrySeq != 0
    requires finding == Unnumbered ==> w.pc.cmd.retrySeq == 0
    ensures ApartAt(TickPopped(w, w.pc.l, w.pc.left, w.pc.cmd, now, finding), m, r)
  {
    match finding
    case Renumbered => RenumberedApart(w, now, m, r);
    case Unnumbered => UnnumberedApart(w, now, m, r);
    case _ => SetAsideApart(w, now, finding, m, r);
  }

  // ---- Numbered commands ----

  /** A frame uses up at least one of the frames left. */
  lemma BudgetFalls(remaining: nat, size: nat, mode: FrameMode)
    requires MinFrame(mode) <= size <= remaining
    ensures (remaining - size) / MinFrame(mode) <= remaining / MinFrame(mode) - 1
  {
    if mode == Compact {
      assert (remaining - size) / 10 <= remaining / 10 - 1;
    } else {
      assert (remaining - size) / 11 <= remaining / 11 - 1;
    }
  }

  /** The write of a frame, or the discovery that it cannot be encoded, fits the command. */
  predicate OutcomeFits(pc: Pc, o: Outcome)
    requires pc.Numbered?
  {
    && (o == TooLarge <==> Oversized(pc.cmd, pc.l.frameMode))
    && (o.Sent? ==> MinFrame(pc.l.frameMode) <= o.size <= pc.l.remaining)
  }

  lemma NumberedLess(w: World, o: Outcome, m: nat)
    requires w.pc.Numbered? && OutcomeFits(w.pc, o)
    ensures var w' := TickNumbered(w, w.pc.l, w.pc.left, w.pc.cmd, w.pc.seqNo, w.pc.checkedAt, o);
            FramesLeft(w'.pc) <= FramesLeft(w.pc) && NumbersLeft(w', m) <= NumbersLeft(w, m)
  {
    var w' := TickNumbered(w, w.pc.l, w.pc.left, w.pc.cmd, w.pc.seqNo, w.pc.checkedAt, o);
    if o.Sent? {
      BudgetFalls(w.pc.l.remaining, o.size, w.pc.l.frameMode);
      ShareGrows(FramesLeft(w'.pc), FramesLeft(w.pc), m);
    } else if o == TooLarge {
      assert Ahead(w') == Ahead(w);
    }
  }

  lemma NumberedApart(w: World, o: Outcome, m: nat, r: byte)
    requires w.pc.Numbered? && ApartAt(w, m, r) && w.pc.cmd.retrySeq == 0 && OutcomeFits(w.pc, o)
    ensures ApartAt(TickNumbered(w, w.pc.l, w.pc.left, w.pc.cmd, w.pc.seqNo, w.pc.checkedAt, o), m, r)
  {
    var w' := TickNumbered(w, w.pc.l, w.pc.left, w.pc.cmd, w.pc.seqNo, w.pc.checkedAt, o);
    RetryIsClaim(r);
    NumberedClaims(w, o, RetryClaim(r));
    NumberedLess(w, o, m);
    assert Taken(w', r) <= Taken(w, r);
    Fewer(w, w', m, r);
  }

  // ---- The other ticks ----

  /** Taking a command from the queue leaves no more oversized ones ahead. */
  lemma PopAhead(cfg: Config, w: World, w': World, cmd: Command, rest: Bands)
    requires w.pc.Inner? && w.pc.left > 0 && Waits(Bounded(cfg), w)
    requires PopNext(w.sess.bands, w.pc.l.fw, w.pc.l.sync) == Some((cmd, rest))
    requires w'.sess.bands == rest && w'.pc == Popped(w.pc.l, w.pc.left - 1, cmd)
    ensures Ahead(w') <= Ahead(w)
  {
    var b, l := w.sess.bands, w.pc.l;
    AllAreNormal(cfg, b);
    if l.fw || l.sync {
      PopInModes(b, l.fw, l.sync, l.frameMode);
    } else {
      PopReach(b, w.pc.left, l.frameMode);
    }
  }

  lemma InnerLess(cfg: Config, w: World, now: Time, writeOk: bool, m: nat)
    requires w.pc.Inner? && Waits(Bounded(cfg), w)
    ensures NumbersLeft(Tick(w, now, writeOk), m) <= NumbersLeft(w, m)
  {
    var popped := PopNext(w.sess.bands, w.pc.l.fw, w.pc.l.sync);
    if w.pc.left > 0 && popped.Some? {
      PopAhead(cfg, w, Tick(w, now, writeOk), popped.value.0, popped.value.1);
    } else {
      AheadNotNegative(w);
    }
  }

  lemma ScanLess(w: World, now: Time, writeOk: bool, m: nat)
    requires w.pc.AfterDrain? && OversizedIn(w.sess.bands, w.pc.l.frameMode) <= m
    ensures NumbersLeft(Tick(w, now, writeOk), m) <= NumbersLeft(w, m)
  {
    var w' := Tick(w, now, writeOk);
    if w'.pc.Inner? { ReachBounds(w.sess.bands, w'.pc.left, w.pc.l.frameMode); }
  }

  lemma RestLess(w: World, now: Time, writeOk: bool, m: nat)
    requires !w.pc.Inner? && !w.pc.AfterDrain? && !w.pc.Popped? && !w.pc.Numbered?
    ensures NumbersLeft(Tick(w, now, writeOk), m) <= NumbersLeft(w, m)
  {
    RestFrames(w, now, writeOk);
    ShareGrows(FramesLeft(Tick(w, now, writeOk).pc), FramesLeft(w.pc), m);
  }

  lemma RestFrames(w: World, now: Time, writeOk: bool)
    requires !w.pc.Popped? && !w.pc.Numbered?
    ensures var w' := Tick(w, now, writeOk);
            && FramesLeft(w'.pc) <= FramesLeft(w.pc)
            && (w'.pc != Idle ==> w.pc != Idle && w'.pc.l.frameMode == w.pc.l.frameMode)
            && (!w.pc.Inner? && !w.pc.AfterDrain? ==> !MidScan(w'.pc))
  {
  }

  lemma WrittenTaken(w: World, now: Time, writeOk: bool, r: byte)
    requires w.pc.Written?
    ensures var w' := Tick(w, now, writeOk); Taken(w', r) <= Taken(w, r) && w'.sess.nextSeq == w.sess.nextSeq
  {
  }

  lemma RestTaken(w: World, now: Time, writeOk: bool, r: byte)
    requires !w.pc.Popped? && !w.pc.Numbered? && !w.pc.Written?
    ensures var w' := Tick(w, now, writeOk); Taken(w', r) <= Taken(w, r) && w'.sess.nextSeq == w.sess.nextSeq
  {
    TickTable(w, now, writeOk);
  }

  lemma RestApart(cfg: Config, w: World, now: Time, writeOk: bool, m: nat, r: byte)
    requires !w.pc.Popped? && !w.pc.Numbered? && Waits(Bounded(cfg), w) && ApartAt(w, m, r)
    requires w.pc.AfterDrain? ==> OversizedIn(w.sess.bands, w.pc.l.frameMode) <= m
    ensures ApartAt(Tick(w, now, writeOk), m, r)
  {
    RetryIsClaim(r);
    TickClaims(Bounded(cfg), w, now, writeOk, RetryClaim(r));
    if w.pc.Written? { WrittenTaken(w, now, writeOk, r); } else { RestTaken(w, now, writeOk, r); }
    RestFrames(w, now, writeOk);
    if w.pc.Inner? {
      InnerLess(cfg, w, now, writeOk, m);
    } else if w.pc.AfterDrain? {
      ScanLess(w, now, writeOk, m);
    } else {
      RestLess(w, now, writeOk, m);
    }
    Fewer(w, Tick(w, now, writeOk), m, r);
  }

  lemma DispatchFits(cfg: Config, w: World, writeOk: bool)
    requires w.pc.Numbered? && PcFit(Bounded(cfg), w.pc) && Accepts(w.pc.cmd.commandId, w.pc.cmd.payload)
    ensures OutcomeFits(w.pc, Dispatch(FrameFor(w.pc.cmd, w.pc.seqNo, w.pc.l.frameMode), w.pc.l, writeOk))
  {
    BoundedMeans(cfg, Core(w.pc.cmd), w.pc.cmd.attempts);
    OversizedMeans(w.pc.cmd, w.pc.seqNo, w.pc.l.frameMode);
  }

  lemma TickApart(cfg: Config, w: World, now: Time, writeOk: bool, mode: FrameMode, m: nat, r: byte)
    requires Exclusive(cfg, w, mode, m)
    ensures ApartAt(Tick(w, now, writeOk), m, r)
  {
    assert ApartAt(w, m, r);
    match w.pc
    case Popped(l, _, cmd) => PoppedApart(w, now, Examine(cmd, l, now), m, r);
    case Numbered(l, _, cmd, seqNo, _) =>
      DispatchFits(cfg, w, writeOk);
      NumberedApart(w, Dispatch(FrameFor(cmd, seqNo, l.frameMode), l, writeOk), m, r);
    case _ => RestApart(cfg, w, now, writeOk, m, r);
  }

  // ---- What a tick keeps ----

  lemma PoppedKeeps(w: World, now: Time, finding: Finding, mode: FrameMode, m: nat)
    requires w.pc.Popped? && Frugal(w, mode, m)
    requires finding == Examine(w.pc.cmd, w.pc.l, now)
    ensures Frugal(TickPopped(w, w.pc.l, w.pc.left, w.pc.cmd, now, finding), mode, m)
  {
    var w' := TickPopped(w, w.pc.l, w.pc.left, w.pc.cmd, now, finding);
    ShareGrows(FramesLeft(w'.pc) - 1, FramesLeft(w.pc) - 1, m);
  }

  lemma NumberedKeeps(w: World, o: Outcome, mode: FrameMode, m: nat)
    requires w.pc.Numbered? && Frugal(w, mode, m) && OutcomeFits(w.pc, o)
    ensures Frugal(TickNumbered(w, w.pc.l, w.pc.left, w.pc.cmd, w.pc.seqNo, w.pc.checkedAt, o), mode, m)
  {
    var w' := TickNumbered(w, w.pc.l, w.pc.left, w.pc.cmd, w.pc.seqNo, w.pc.checkedAt, o);
    if o == OverBudget { SumOfPush(w.sess.bands, w.pc.cmd, IsOversized(mode)); }
    NumberedLess(w, o, m);
    ShareGrows(FramesLeft(w'.pc) - 1, FramesLeft(w.pc) - 1, m);
  }

  lemma PopKeepsFrugal(cfg: Config, w: World, w': World, cmd: Command, rest: Bands, mode: FrameMode, m: nat)
    requires w.pc.Inner? && w.pc.left > 0 && Frugal(w, mode, m) && Waits(Bounded(cfg), w)
    requires PopNext(w.sess.bands, w.pc.l.fw, w.pc.l.sync) == Some((cmd, rest))
    requires w'.sess == w.sess.(bands := rest) && w'.pc == Popped(w.pc.l, w.pc.left - 1, cmd)
    ensures Frugal(w', mode, m)
  {
    var b, l := w.sess.bands, w.pc.l;
    PopShortens(b, l.fw, l.sync);
    SumOfPop(b, l.fw, l.sync, IsOversized(mode));
    if l.fw || l.sync {
      AllAreNormal(cfg, b);
      PopInModes(b, l.fw, l.sync, mode);
    }
  }

  lemma InnerKeeps(cfg: Config, w: World, now: Time, writeOk: bool, mode: FrameMode, m: nat)
    requires w.pc.Inner? && Frugal(w, mode, m) && Waits(Bounded(cfg), w)
    ensures Frugal(Tick(w, now, writeOk), mode, m)
  {
    var popped := PopNext(w.sess.bands, w.pc.l.fw, w.pc.l.sync);
    if w.pc.left > 0 && popped.Some? {
      PopKeepsFrugal(cfg, w, Tick(w, now, writeOk), popped.value.0, popped.value.1, mode, m);
    }
  }

  lemma OuterKeeps(w: World, now: Time, writeOk: bool, mode: FrameMode, m: nat)
    requires w.pc.Outer? && Frugal(w, mode, m)
    ensures Frugal(Tick(w, now, writeOk), mode, m)
  {
    SumOfDrain(w.sess.bands, now, IsOversized(mode));
    CountNotNegative(Drained(w.sess.bands, now), mode);
  }

  lemma PutBackKeeps(w: World, now: Time, writeOk: bool, mode: FrameMode, m: nat)
    requires w.pc.PutBack? && Frugal(w, mode, m)
    ensures Frugal(Tick(w, now, writeOk), mode, m)
  {
    if w.pc.l.skipped != [] { SumOfPush(w.sess.bands, w.pc.l.skipped[0], IsOversized(mode)); }
  }

  lemma WrittenKeeps(w: World, now: Time, writeOk: bool, mode: FrameMode, m: nat)
    requires w.pc.Written? && Frugal(w, mode, m)
    ensures Frugal(Tick(w, now, writeOk), mode, m)
  {
  }

  lemma RestKeeps(w: World, now: Time, writeOk: bool, mode: FrameMode, m: nat)
    requires Frugal(w, mode, m)
    requires !w.pc.Popped? && !w.pc.Numbered? && !w.pc.Written?
    requires !w.pc.Inner? && !w.pc.Outer? && !w.pc.PutBack?
    ensures Frugal(Tick(w, now, writeOk), mode, m)
  {
    var w' := Tick(w, now, writeOk);
    RestFrames(w, now, writeOk);
    ShareGrows(FramesLeft(w'.pc) - 1, FramesLeft(w.pc) - 1, m);
    assert w'.sess.bands == w.sess.bands && w'.sess.inFlight == w.sess.inFlight;
  }

  lemma TickFrugal(cfg: Config, w: World, now: Time, writeOk: bool, mode: FrameMode, m: nat)
    requires Inv(Bounded(cfg), w) && Frugal(w, mode, m)
    ensures Frugal(Tick(w, now, writeOk), mode, m)
  {
    match w.pc
    case Popped(l, _, cmd) => PoppedKeeps(w, now, Examine(cmd, l, now), mode, m);
    case Numbered(l, _, cmd, seqNo, _) =>
      DispatchFits(cfg, w, writeOk);
      NumberedKeeps(w, Dispatch(FrameFor(cmd, seqNo, l.frameMode), l, writeOk), mode, m);
    case Inner(_, _) => InnerKeeps(cfg, w, now, writeOk, mode, m);
    case Outer(_) => OuterKeeps(w, now, writeOk, mode, m);
    case PutBack(_, _) => PutBackKeeps(w, now, writeOk, mode, m);
    case Written(_, _, _) => WrittenKeeps(w, now, writeOk, mode, m);
    case _ => RestKeeps(w, now, writeOk, mode, m);
  }

  lemma TickExclusive(cfg: Config, w: World, now: Time, writeOk: bool, mode: FrameMode, m: nat)
    requires Exclusive(cfg, w, mode, m)
    ensures Exclusive(cfg, Tick(w, now, writeOk), mode, m)
  {
    forall r: byte ensures ApartAt(Tick(w, now, writeOk), m, r) {
      TickApart(cfg, w, now, writeOk, mode, m, r);
    }
    TickFrugal(cfg, w, now, writeOk, mode, m);
    TickKeeps(Bounded(cfg), w, now, writeOk);
  }
}
