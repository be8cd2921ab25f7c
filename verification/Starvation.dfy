/** internal/server/server.go, flushQueue, lines 558 to 703: when a flush sends nothing. Only a
    flush that sends leaves a mode, so a mode can stay set and hold up the bands behind it. */
module Starvation {
  import opened Results
  import opened Messages
  import opened Framing
  import opened Sums
  import opened Commands
  import opened PriorityBands
  import opened Policy
  import opened Engine
  import opened Runs
  import opened WholeFlush
  import opened StoreLag

  /** What a mode lets through, in the order in which the queue hands it out. */
  function LetThrough(b: Bands, fw: bool, sync: bool): seq<Command> {
    b.high + (if fw then b.fw else if sync then b.sync else b.fw + b.sync + b.query)
  }

  lemma HandedOut(b: Bands, fw: bool, sync: bool)
    ensures PopNext(b, fw, sync).None? <==> LetThrough(b, fw, sync) == []
    ensures PopNext(b, fw, sync).Some? ==>
              var (c, rest) := PopNext(b, fw, sync).value;
              LetThrough(b, fw, sync) == [c] + LetThrough(rest, fw, sync)
    ensures |LetThrough(b, fw, sync)| <= Length(b)
  {
    if PopNext(b, fw, sync).Some? {
      var (c, rest) := PopNext(b, fw, sync).value;
      if b.high != [] {
        assert b.high == [c] + rest.high;
      } else if b.fw != [] && (fw || !sync) {
        assert b.fw == [c] + rest.fw;
      } else if b.sync != [] && !fw {
        assert b.sync == [c] + rest.sync;
      } else {
        assert b.query == [c] + rest.query;
      }
    }
  }

  /** A command that gets as far as the budget check. */
  predicate Candidate(c: Command, l: Locals, now: Time) {
    Passes(c, l, now) && Encodable(FrameFor(c, 0, l.frameMode))
  }

  function FirstCandidate(s: seq<Command>, l: Locals, now: Time): Option<Command> {
    if s == [] then None
    else if Candidate(s[0], l, now) then Some(s[0])
    else FirstCandidate(s[1..], l, now)
  }

  /** The first command that gets as far as the budget check fits the budget. */
  predicate CanSend(b: Bands, l: Locals, now: Time) {
    var first := FirstCandidate(LetThrough(b, l.fw, l.sync), l, now);
    first.Some? && !TooBig(first.value, l)
  }

  /** The clock stands at now, and the line is up. */
  ghost predicate Steady(env: Inputs, now: Time) {
    forall t: nat :: env(t) == Input(now, true)
  }

  lemma SkippedNoMatter(s: seq<Command>, l: Locals, l': Locals, now: Time)
    requires l' == l.(skipped := l'.skipped)
    ensures FirstCandidate(s, l, now) == FirstCandidate(s, l', now)
  {
    if s != [] {
      SameExamination(s[0], l, l', now);
      SkippedNoMatter(s[1..], l, l', now);
    }
  }

  lemma SameExamination(c: Command, l: Locals, l': Locals, now: Time)
    requires l' == l.(skipped := l'.skipped)
    ensures Examine(c, l, now) == Examine(c, l', now) && Candidate(c, l, now) == Candidate(c, l', now)
    ensures TooBig(c, l) == TooBig(c, l')
  {
  }

  /** Neither written nor changed in mode. */
  predicate Idles(w: World, w': World) {
    Writes(w'.log) == Writes(w.log) && w'.sess.fwMode == w.sess.fwMode && w'.sess.syncMode == w.sess.syncMode
  }

  // ---- The end of a flush that sends nothing ----

  lemma {:induction false} GivesUp(w: World, env: Inputs, t: nat)
    requires w.pc.PutBack? && !w.pc.again
    ensures Idles(w, Finish(w, env, t))
    decreases |w.pc.l.skipped|
  {
    var w1 := Tick(w, env(t).now, env(t).writeOk);
    OneTick(w, env, t, w1);
    if w.pc.l.skipped != [] { GivesUp(w1, env, t + 1); }
  }

  // ---- One popped command ----

  lemma ReportNoWrite(log: seq<Event>, e: Event)
    requires !e.Wrote?
    ensures Writes(log + [e]) == Writes(log)
  {
    SumPush(log, e, IsWritten());
  }

  /** What is no candidate is reported or set aside, in one tick or two. */
  lemma PassedOver(w: World, env: Inputs, t: nat, now: Time) returns (w': World, t': nat)
    requires w.pc.Popped? && Steady(env, now) && !Candidate(w.pc.cmd, w.pc.l, now)
    ensures Finish(w, env, t) == Finish(w', env, t') && Idles(w, w') && w'.sess.bands == w.sess.bands
    ensures w'.pc.Inner? && w'.pc == Inner(w.pc.l.(skipped := w'.pc.l.skipped), w.pc.left)
  {
    var Popped(l, left, c) := w.pc;
    assert env(t) == Input(now, true);
    w', t' := Tick(w, now, true), t + 1;
    OneTick(w, env, t, w');
    var f := Examine(c, l, now);
    assert w' == TickPopped(w, l, left, c, now, f);
    if Passes(c, l, now) {
      w', t' := TooLong(w', env, t', now);
    } else if f != Refused {
      ReportNoWrite(w.log, w'.log[|w.log|]);
    }
  }

  /** A frame that cannot be encoded. */
  lemma TooLong(w: World, env: Inputs, t: nat, now: Time) returns (w': World, t': nat)
    requires w.pc.Numbered? && Steady(env, now) && !Encodable(FrameFor(w.pc.cmd, 0, w.pc.l.frameMode))
    ensures Finish(w, env, t) == Finish(w', env, t') && Idles(w, w') && w'.sess.bands == w.sess.bands
    ensures w'.pc == Inner(w.pc.l, w.pc.left)
  {
    var Numbered(l, left, d, n, at) := w.pc;
    assert env(t) == Input(now, true);
    w', t' := Tick(w, now, true), t + 1;
    OneTick(w, env, t, w');
    assert w' == TickNumbered(w, l, left, d, n, at, TooLarge);
    ReportNoWrite(w.log, EndedQueued(Failed, d));
  }

  lemma CandidateNumbered(w: World, env: Inputs, t: nat, now: Time) returns (w': World)
    requires w.pc.Popped? && Steady(env, now) && Candidate(w.pc.cmd, w.pc.l, now)
    ensures Finish(w, env, t) == Finish(w', env, t + 1) && Idles(w, w')
    ensures w'.pc.Numbered? && w'.pc.l == w.pc.l && w'.pc.cmd == w.pc.cmd.(retrySeq := 0)
  {
    var Popped(l, left, c) := w.pc;
    assert env(t) == Input(now, true);
    w' := Tick(w, now, true);
    OneTick(w, env, t, w');
    assert w' == TickPopped(w, l, left, c, now, if c.retrySeq != 0 then Renumbered else Unnumbered);
  }

  lemma CandidateTooBig(w: World, env: Inputs, t: nat, now: Time)
    requires w.pc.Popped? && Steady(env, now) && Candidate(w.pc.cmd, w.pc.l, now) && TooBig(w.pc.cmd, w.pc.l)
    ensures Idles(w, Finish(w, env, t))
  {
    var w1 := CandidateNumbered(w, env, t, now);
    assert env(t + 1) == Input(now, true);
    TooBigTick(w1, now, true);
    var w2 := Tick(w1, now, true);
    OneTick(w1, env, t + 1, w2);
    GivesUp(w2, env, t + 2);
  }

  lemma CandidateFits(cfg: Config, w: World, env: Inputs, t: nat, now: Time)
    requires w.pc.Popped? && Steady(env, now) && Candidate(w.pc.cmd, w.pc.l, now) && !TooBig(w.pc.cmd, w.pc.l)
    ensures Writes(Finish(w, env, t).log) > Writes(w.log)
  {
    var w1 := CandidateNumbered(w, env, t, now);
    assert env(t + 1) == Input(now, true);
    var w2 := GoesOut(w1, now);
    OneTick(w1, env, t + 1, w2);
    FinishGrows(cfg, w2, env, t + 2);
  }

  lemma GoesOut(w: World, now: Time) returns (w': World)
    requires w.pc.Numbered? && Encodable(FrameFor(w.pc.cmd, 0, w.pc.l.frameMode)) && !TooBig(w.pc.cmd, w.pc.l)
    ensures w' == Tick(w, now, true) && Writes(w'.log) == Writes(w.log) + 1
  {
    var Numbered(l, left, d, n, at) := w.pc;
    var f := FrameFor(d, n, l.frameMode);
    w' := Tick(w, now, true);
    assert w' == TickNumbered(w, l, left, d, n, at, Sent(|Wire(f)|));
    SumPush(w.log, Wrote(d, f, at, l.fw, l.sync), IsWritten());
  }

  /** The rest of a flush only adds to the log. */
  lemma FinishGrows(cfg: Config, w: World, env: Inputs, t: nat)
    ensures Writes(Finish(w, env, t).log) >= Writes(w.log)
  {
    var steps := FlushIsRun(cfg, w, env, t);
    LogOnlyGrows(cfg, w, steps);
    var w' := Finish(w, env, t);
    var added := w'.log[|w.log|..];
    assert w'.log == w.log + added;
    SumConcat(w.log, added, IsWritten());
    SumAtLeast(added, IsWritten(), 0);
  }

  // ---- The scan ----

  /** The inner loop over a steady session sends exactly if the first candidate fits. */
  lemma {:induction false} ScanSends(cfg: Config, w: World, env: Inputs, t: nat, now: Time)
    requires w.pc.Inner? && Steady(env, now) && w.pc.left >= |LetThrough(w.sess.bands, w.pc.l.fw, w.pc.l.sync)|
    ensures var w' := Finish(w, env, t);
            if CanSend(w.sess.bands, w.pc.l, now) then Writes(w'.log) > Writes(w.log) else Idles(w, w')
    decreases w.pc.left, 0
  {
    var l, b := w.pc.l, w.sess.bands;
    assert env(t) == Input(now, true);
    HandedOut(b, l.fw, l.sync);
    var w1 := Tick(w, now, true);
    OneTick(w, env, t, w1);
    if PopNext(b, l.fw, l.sync).None? || w.pc.left == 0 {
      GivesUp(w1, env, t + 1);
    } else {
      PopSends(cfg, w1, env, t + 1, now);
    }
  }

  /** The same from the popped command on. */
  lemma {:induction false} PopSends(cfg: Config, w: World, env: Inputs, t: nat, now: Time)
    requires w.pc.Popped? && Steady(env, now) && w.pc.left >= |LetThrough(w.sess.bands, w.pc.l.fw, w.pc.l.sync)|
    ensures var w' := Finish(w, env, t);
            var first := FirstCandidate([w.pc.cmd] + LetThrough(w.sess.bands, w.pc.l.fw, w.pc.l.sync), w.pc.l, now);
            if first.Some? && !TooBig(first.value, w.pc.l) then Writes(w'.log) > Writes(w.log) else Idles(w, w')
    decreases w.pc.left, 1
  {
    var l, s := w.pc.l, LetThrough(w.sess.bands, w.pc.l.fw, w.pc.l.sync);
    assert ([w.pc.cmd] + s)[1..] == s;
    if !Candidate(w.pc.cmd, l, now) {
      var v, t' := PassedOver(w, env, t, now);
      SkippedNoMatter(s, l, v.pc.l, now);
      ScanSends(cfg, v, env, t', now);
    } else if TooBig(w.pc.cmd, l) {
      CandidateTooBig(w, env, t, now);
    } else {
      CandidateFits(cfg, w, env, t, now);
    }
  }

  /** A flush of a connected session with nothing in flight and nothing expired, on a line that
      is up: it sends something exactly if the first command its mode lets through and its tests
      do not stop fits the budget. If not, its modes stay as they are. */
  lemma SendsExactlyWhen(cfg: Config, w: World, env: Inputs, now: Time)
    requires w.pc == Idle && w.sess.online && w.sess.inFlight == map[] && Steady(env, now)
    requires Unexpired(w.sess.bands, now) == w.sess.bands && Drained(w.sess.bands, now) == []
    ensures var w' := Finish(FlushStep(w), env, 0); var l := FlushStep(w).pc.l;
            if CanSend(w.sess.bands, l, now) then Writes(w'.log) > Writes(w.log) else Idles(w, w')
  {
    var w0 := FlushStep(w);
    var l := w0.pc.l;
    assert env(0) == Input(now, true) && env(1) == Input(now, true);
    assert w.log + EndedEvents(Expired, []) == w.log;
    var w1 := w0.(pc := AfterDrain(l));
    OneTick(w0, env, 0, w1);
    HandedOut(w.sess.bands, l.fw, l.sync);
    if Length(w.sess.bands) == 0 {
      OneTick(w1, env, 1, w1.(pc := Idle));
    } else {
      var w2 := w1.(pc := Inner(l, Length(w.sess.bands)));
      OneTick(w1, env, 1, w2);
      ScanSends(cfg, w2, env, 2, now);
    }
  }

  /** In particular, with a sync on, an empty sync band and nothing urgent, queued requests are
      not sent, and the sync stays on. */
  lemma SyncHoldsUpRequests(cfg: Config, w: World, env: Inputs, now: Time)
    requires w.pc == Idle && w.sess.online && w.sess.inFlight == map[] && Steady(env, now)
    requires Unexpired(w.sess.bands, now) == w.sess.bands && Drained(w.sess.bands, now) == []
    requires w.sess.syncMode && !w.sess.fwMode && w.sess.bands.high == [] && w.sess.bands.sync == []
    ensures var w' := Finish(FlushStep(w), env, 0); Writes(w'.log) == Writes(w.log) && w'.sess.syncMode
  {
    SendsExactlyWhen(cfg, w, env, now);
  }
}
