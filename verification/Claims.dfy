/** Claims on sequence numbers: what commands waiting for their retry ask for.

    A weight is a claim if a command that carries no number has none of it. Ticks of a flush
    and new commands never add to what is claimed; only a sweep does. */
module Claims {
  import opened Results
  import opened Sums
  import opened Commands
  import opened PriorityBands
  import opened Policy
  import opened Sessions
  import opened Engine
  import opened Ledger
  import opened Invariants

  ghost predicate IsClaim(f: Command -> int) {
    forall c :: f(c) >= 0 && (c.retrySeq == 0 ==> f(c) == 0)
  }

  function HeldClaims(pc: Pc, f: Command -> int): int {
    if pc == Idle then 0 else Sum(pc.l.skipped, f) + (if pc.Popped? then f(pc.cmd) else 0)
  }

  /** What the queue and the hands of a flush claim. */
  function Claimed(w: World, f: Command -> int): int {
    SumBands(w.sess.bands, f) + HeldClaims(w.pc, f)
  }

  lemma ClaimsNotNegative(s: seq<Command>, f: Command -> int)
    requires IsClaim(f)
    ensures Sum(s, f) >= 0
  {
    SumAtLeast(s, f, 0);
  }

  lemma QueueNotNegative(b: Bands, f: Command -> int)
    requires IsClaim(f)
    ensures SumBands(b, f) >= 0
  {
    ClaimsNotNegative(b.high, f);
    ClaimsNotNegative(b.fw, f);
    ClaimsNotNegative(b.sync, f);
    ClaimsNotNegative(b.query, f);
  }

  /** A command in hand is part of what is claimed. */
  lemma PoppedIsClaimed(w: World, f: Command -> int)
    requires IsClaim(f) && w.pc.Popped?
    ensures Claimed(w, f) >= f(w.pc.cmd)
  {
    QueueNotNegative(w.sess.bands, f);
    ClaimsNotNegative(w.pc.l.skipped, f);
  }

  // ---- Ticks ----

  /** A command that gets its number gives up its claim. */
  lemma NumberingGivesUp(w: World, now: Time, finding: Finding, f: Command -> int)
    requires w.pc.Popped? && (finding == Renumbered || finding == Unnumbered)
    ensures Claimed(TickPopped(w, w.pc.l, w.pc.left, w.pc.cmd, now, finding), f) == Claimed(w, f) - f(w.pc.cmd)
  {
  }

  lemma PoppedClaims(w: World, now: Time, finding: Finding, f: Command -> int)
    requires IsClaim(f) && w.pc.Popped?
    ensures Claimed(TickPopped(w, w.pc.l, w.pc.left, w.pc.cmd, now, finding), f) <= Claimed(w, f)
  {
    if finding == Refused { SumPush(w.pc.l.skipped, w.pc.cmd, f); }
  }

  lemma NumberedClaims(w: World, o: Outcome, f: Command -> int)
    requires IsClaim(f) && w.pc.Numbered? && w.pc.cmd.retrySeq == 0 && (o.Sent? ==> o.size <= w.pc.l.remaining)
    ensures var w' := TickNumbered(w, w.pc.l, w.pc.left, w.pc.cmd, w.pc.seqNo, w.pc.checkedAt, o);
            Claimed(w', f) <= Claimed(w, f)
  {
    if o == OverBudget { SumOfPush(w.sess.bands, w.pc.cmd, f); }
  }

  lemma OuterClaims(w: World, now: Time, writeOk: bool, f: Command -> int)
    requires IsClaim(f) && w.pc.Outer? && Tidy(w.pc)
    ensures Claimed(Tick(w, now, writeOk), f) <= Claimed(w, f)
  {
    SumOfDrain(w.sess.bands, now, f);
    ClaimsNotNegative(Drained(w.sess.bands, now), f);
  }

  lemma InnerClaims(w: World, now: Time, writeOk: bool, f: Command -> int)
    requires w.pc.Inner?
    ensures Claimed(Tick(w, now, writeOk), f) == Claimed(w, f)
  {
    var l := w.pc.l;
    if PopNext(w.sess.bands, l.fw, l.sync).Some? { SumOfPop(w.sess.bands, l.fw, l.sync, f); }
  }

  lemma PutBackClaims(w: World, now: Time, writeOk: bool, f: Command -> int)
    requires w.pc.PutBack?
    ensures Claimed(Tick(w, now, writeOk), f) == Claimed(w, f)
  {
    var l := w.pc.l;
    if l.skipped != [] {
      SumPop(l.skipped, f);
      SumOfPush(w.sess.bands, l.skipped[0], f);
    }
  }

  lemma SameClaims(w: World, w': World, f: Command -> int)
    requires w'.sess.bands == w.sess.bands && HeldClaims(w'.pc, f) <= HeldClaims(w.pc, f)
    ensures Claimed(w', f) <= Claimed(w, f)
  {
  }

  lemma RegisteredClaims(w: World, now: Time, writeOk: bool, f: Command -> int)
    requires w.pc.Registered?
    ensures Claimed(Tick(w, now, writeOk), f) <= Claimed(w, f)
  {
    SameClaims(w, Tick(w, now, writeOk), f);
  }

  lemma RestClaims(w: World, now: Time, writeOk: bool, f: Command -> int)
    requires Tidy(w.pc) && !w.pc.Registered?
    requires !w.pc.Outer? && !w.pc.Inner? && !w.pc.PutBack? && !w.pc.Popped? && !w.pc.Numbered?
    ensures Claimed(Tick(w, now, writeOk), f) <= Claimed(w, f)
  {
    SameClaims(w, Tick(w, now, writeOk), f);
  }

  lemma TickClaims(ok: Rule, w: World, now: Time, writeOk: bool, f: Command -> int)
    requires IsClaim(f) && PcFit(ok, w.pc)
    ensures Claimed(Tick(w, now, writeOk), f) <= Claimed(w, f)
  {
    match w.pc
    case Popped(l, _, cmd) => PoppedClaims(w, now, Examine(cmd, l, now), f);
    case Numbered(l, _, cmd, seqNo, _) =>
      NumberedClaims(w, Dispatch(FrameFor(cmd, seqNo, l.frameMode), l, writeOk), f);
    case Outer(_) => OuterClaims(w, now, writeOk, f);
    case Inner(_, _) => InnerClaims(w, now, writeOk, f);
    case PutBack(_, _) => PutBackClaims(w, now, writeOk, f);
    case Registered(_, _, _) => RegisteredClaims(w, now, writeOk, f);
    case _ => RestClaims(w, now, writeOk, f);
  }

  // ---- Enqueueing ----

  lemma AdmitClaims(cfg: Config, b: Bands, c: Command, f: Command -> int)
    requires IsClaim(f) && c.retrySeq == 0
    ensures SumBands(Admit(cfg, b, c).bands, f) <= SumBands(b, f)
  {
    AdmitBalance(cfg, b, c, f);
    ClaimsNotNegative(Admit(cfg, b, c).dropped, f);
  }

  lemma EnqueueClaims(cfg: Config, w: World, cmd: Command, now: Time, f: Command -> int)
    requires IsClaim(f) && cmd == Core(cmd)
    ensures Claimed(EnqueueStep(cfg, w, cmd, now).0, f) <= Claimed(w, f)
  {
    if Normalize(cmd).Some? {
      assert cmd.retrySeq == Core(cmd).retrySeq;
      AdmitClaims(cfg, w.sess.bands, Normalize(cmd).value, f);
    }
  }
}
