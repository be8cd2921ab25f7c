/** Restarts between a write and its registration are the one way past the retry bound. Runs
    that count them, up to the bound itself. */
module TornRuns {
  import opened Bytes
  import opened Framing
  import opened Sums
  import opened Commands
  import opened PriorityBands
  import opened Policy
  import opened Sessions
  import opened Engine
  import opened Delivery
  import opened Runs
  import opened Rounds
  import opened Histories
  import opened SlotReuse
  import opened Shortcomings

  /** The request that is sent, retried and written over again. */
  const ASKED := Request("", 0, 0)

  // ---- Runs that count torn writes ----

  /** Some run with k restarts between a write of the request and its registration. */
  ghost predicate Tears(cfg: Config, w: World, w': World, k: int) {
    exists steps :: Possible(cfg, w, steps) && After(cfg, w, steps) == w' && TornWrites(cfg, w, steps, ASKED) == k
  }

  lemma {:induction false} TornConcat(cfg: Config, w: World, s: seq<Step>, t: seq<Step>)
    ensures TornWrites(cfg, w, s + t, ASKED)
            == TornWrites(cfg, w, s, ASKED) + TornWrites(cfg, After(cfg, w, s), t, ASKED)
    decreases |t|
  {
    if t == [] {
      assert s + t == s;
    } else {
      var n := |t| - 1;
      assert (s + t)[..|s + t| - 1] == s + t[..n];
      TornConcat(cfg, w, s, t[..n]);
      AfterConcat(cfg, w, s, t[..n]);
    }
  }

  lemma TearsTrans(cfg: Config, w: World, v: World, w': World, j: int, k: int)
    requires Tears(cfg, w, v, j) && Tears(cfg, v, w', k)
    ensures Tears(cfg, w, w', j + k)
  {
    var s :| Possible(cfg, w, s) && After(cfg, w, s) == v && TornWrites(cfg, w, s, ASKED) == j;
    var t :| Possible(cfg, v, t) && After(cfg, v, t) == w' && TornWrites(cfg, v, t, ASKED) == k;
    AfterConcat(cfg, w, s, t);
    PossibleConcat(cfg, w, s, t);
    TornConcat(cfg, w, s, t);
  }

  lemma TearsStep(cfg: Config, w: World, step: Step)
    requires Enabled(w, step)
    ensures Tears(cfg, w, Apply(cfg, w, step), if step.Restart? then Unregistered(w.pc, ASKED) else 0)
  {
    var steps := [step];
    assert steps[..0] == [];
    assert After(cfg, w, steps) == Apply(cfg, After(cfg, w, steps[..0]), step);
    assert TornWrites(cfg, w, steps, ASKED) == TornWrites(cfg, w, steps[..0], ASKED)
             + (if step.Restart? then Unregistered(After(cfg, w, steps[..0]).pc, ASKED) else 0);
    assert Possible(cfg, w, steps);
  }

  /** One step further, not a restart. */
  lemma TearsOn(cfg: Config, w: World, v: World, k: int, step: Step)
    requires Tears(cfg, w, v, k) && Enabled(v, step) && !step.Restart?
    ensures Tears(cfg, w, Apply(cfg, v, step), k)
  {
    TearsStep(cfg, v, step);
    TearsTrans(cfg, w, v, Apply(cfg, v, step), k, 0);
  }

  lemma LeadsTears(cfg: Config, w: World, v: World, w': World, k: int)
    requires Tears(cfg, w, v, k) && Leads(cfg, v, w')
    ensures Tears(cfg, w, w', k)
  {
    var steps :| AllGentle(steps) && After(cfg, v, steps) == w';
    GentleIsHarmless(cfg, v, steps, Sequenced);
    NoneTornMeans(cfg, v, steps, ASKED);
    TearsTrans(cfg, w, v, w', k, 0);
  }

  // ---- The request and its retries ----

  /** Accepted once and written so many times. */
  predicate Counts(log: seq<Event>, writes: int) {
    Sum(log, IsEnqueued(ASKED)) == 1 && Sum(log, IsWrite(ASKED)) == writes
  }

  /** In flight under number 1, for the a-th time. */
  predicate Flies(w: World, a: int, sent: Time) {
    && Quiet(w.(sess := w.sess.(inFlight := map[])), EMPTY_BANDS, 1, Sequenced)
    && w.sess.inFlight == map[1 := Entry(1, Request("", a - 1, 0), sent, a)]
  }

  /** Waiting for its next attempt, after a of them. */
  predicate AwaitsRetry(w: World, a: int) {
    Quiet(w, Bands([], [], [], [Request("", a, 1)]), 1, Sequenced) && Synced(w)
  }

  lemma OneRoundCounts(log: seq<Event>, s: SessionState, l: Locals, c: Command, now: Time)
    requires Core(c) == ASKED && NumberFor(s, c) !in s.inFlight
    ensures Sum(log + RoundReports(s, l, c, now), IsWrite(ASKED)) == Sum(log, IsWrite(ASKED)) + 1
    ensures Sum(log + RoundReports(s, l, c, now), IsEnqueued(ASKED)) == Sum(log, IsEnqueued(ASKED))
  {
    var n, d := NumberFor(s, c), c.(retrySeq := 0);
    assert Core(d) == ASKED;
    var wrote, accepted := Wrote(d, FrameFor(d, n, l.frameMode), now, l.fw, l.sync), AcceptedBy(d, n);
    assert log + RoundReports(s, l, c, now) == (log + [wrote]) + [accepted];
    SumPush(log, wrote, IsWrite(ASKED));
    SumPush(log, wrote, IsEnqueued(ASKED));
    SumPush(log + [wrote], accepted, IsWrite(ASKED));
    SumPush(log + [wrote], accepted, IsEnqueued(ASKED));
  }

  lemma AcceptedCounts()
    ensures Sum([] + [Enqueued(ASKED)], IsWrite(ASKED)) == 0 && Sum([] + [Enqueued(ASKED)], IsEnqueued(ASKED)) == 1
  {
    SumPush([], Enqueued(ASKED), IsWrite(ASKED));
    SumPush([], Enqueued(ASKED), IsEnqueued(ASKED));
  }

  /** A flush with room for one frame starts. */
  lemma Opens(cfg: Config, w0: World, k: int, w: World, b: Bands, n: byte) returns (w': World)
    requires Tears(cfg, w0, w, k) && Quiet(w, b, n, Sequenced) && AllSmall(b)
    ensures Tears(cfg, w0, w', k) && AtRound(w', Locals(11, false, false, Sequenced, []))
    ensures w'.sess == w.sess.(bufferFree := 11) && w'.log == w.log && w'.saved == w.saved
  {
    TearsOn(cfg, w0, w, k, Ack(0, 0, 11));
    var v := AckStep(w, 0, 0, 11);
    assert v == w.(sess := w.sess.(bufferFree := 11));
    TearsOn(cfg, w0, v, k, Flush);
    w' := FlushStep(v);
  }

  /** The flush has used up its budget. */
  lemma Ends(cfg: Config, w0: World, k: int, w: World, l: Locals) returns (w': World)
    requires Tears(cfg, w0, w, k) && w.pc == Outer(l) && l.remaining == 0
    ensures Tears(cfg, w0, w', k) && w' == w.(pc := Idle)
  {
    TearsOn(cfg, w0, w, k, Run(0, true));
    w' := Tick(w, 0, true);
  }

  lemma Connects(cfg: Config) returns (w: World)
    ensures Tears(cfg, START, w, 0) && Quiet(w, EMPTY_BANDS, 0, Sequenced) && w.log == []
  {
    TearsStep(cfg, START, Connect(Sequenced));
    w := Apply(cfg, START, Connect(Sequenced));
  }

  /** The request is sent for the first time. */
  lemma FirstSend(cfg: Config) returns (w: World)
    requires RoomFor(cfg, 1)
    ensures Tears(cfg, START, w, 0) && Flies(w, 1, 0) && Counts(w.log, 1)
  {
    RoomInEmpty(cfg, ASKED);
    RequestFirst(ASKED);
    var w0 := Connects(cfg);
    var w1 := Opens(cfg, START, 0, w0, EMPTY_BANDS, 0);
    var l := w1.pc.l;
    var w2 := OneMore(cfg, w1, l, ASKED, 0);
    LeadsTears(cfg, START, w1, w2, 0);
    assert ASKED.(retrySeq := 0) == ASKED;
    w := Ends(cfg, START, 0, w2, w2.pc.l);
    AcceptedCounts();
    OneRoundCounts([] + [Enqueued(ASKED)], w1.sess, l, ASKED, 0);
  }

  /** It times out and waits for the next attempt. */
  lemma Expires(cfg: Config, k: int, w: World, a: int, writes: int, sent: Time) returns (w': World)
    requires Tears(cfg, START, w, k) && Flies(w, a, sent) && Counts(w.log, writes) && a <= MaxRetries(cfg, ASKED)
    ensures Tears(cfg, START, w', k) && AwaitsRetry(w', a) && Counts(w'.log, writes)
  {
    var now := SweepPutsBack(cfg, w, a, writes, sent);
    TearsOn(cfg, START, w, k, Sweep([1], now));
    w' := SweepStep(cfg, w, [1], now);
  }

  lemma SweepPutsBack(cfg: Config, w: World, a: int, writes: int, sent: Time) returns (now: Time)
    requires Flies(w, a, sent) && Counts(w.log, writes) && a <= MaxRetries(cfg, ASKED)
    ensures Covers(w, [1])
    ensures var w' := SweepStep(cfg, w, [1], now); AwaitsRetry(w', a) && Counts(w'.log, writes)
  {
    var e := w.sess.inFlight[1];
    EntryWaits(cfg, e);
    now := sent + EntryWait(cfg, e);
    TimesOut(cfg, e, now);
    SweepsOne(cfg, w, e, now);
    SumPush(w.log, Retrying(e), IsEnqueued(ASKED));
    SumPush(w.log, Retrying(e), IsWrite(ASKED));
  }

  lemma SweepsOne(cfg: Config, w: World, e: Entry, now: Time)
    requires w.sess.inFlight == map[1 := e] && Judge(cfg, e, now) == Retry
    ensures var w' := SweepStep(cfg, w, [1], now);
            && w'.pc == w.pc && w'.log == w.log + [Retrying(e)] && Synced(w')
            && w'.sess == w.sess.(inFlight := map[], bands := Push(w.sess.bands, Requeued(e, 1)))
  {
    assert [1][..0] == [];
    assert Visits(cfg, w, [1], now) == Visit(cfg, Visits(cfg, w, [1][..0], now), 1, now);
    assert w.sess.inFlight - {1} == map[];
  }

  /** Its retry goes out under its old number. */
  lemma GoesOutAgain(cfg: Config, w: World, l: Locals, a: int, writes: int) returns (w': World)
    requires AtRound(w, l) && l == Locals(11, false, false, Sequenced, []) && Counts(w.log, writes)
    requires AwaitsRetry(w.(pc := Idle, saved := Save(w.sess)), a)
    ensures Leads(cfg, w, w') && w'.pc == Outer(l.(remaining := 0))
    ensures Flies(w'.(pc := Idle), a + 1, 0) && Counts(w'.log, writes + 1)
  {
    var c := Request("", a, 1);
    OnlyOne(c);
    w' := Round(cfg, w, l, c, EMPTY_BANDS, 0);
    SentAgain(w.sess, w'.sess, a);
    OneRoundCounts(w.log, w.sess, l, c, 0);
  }

  lemma SentAgain(s: SessionState, s': SessionState, a: int)
    requires s.inFlight == map[] && s' == SentState(s.(bands := EMPTY_BANDS), Request("", a, 1), 0)
    ensures s' == s.(bands := EMPTY_BANDS, inFlight := map[1 := Entry(1, Request("", a, 0), 0, a + 1)])
  {
  }

  lemma SendsAgain(cfg: Config, k: int, w: World, a: int, writes: int) returns (w': World)
    requires Tears(cfg, START, w, k) && AwaitsRetry(w, a) && Counts(w.log, writes)
    ensures Tears(cfg, START, w', k) && Flies(w', a + 1, 0) && Counts(w'.log, writes + 1)
  {
    var w1 := Opens(cfg, START, k, w, Bands([], [], [], [Request("", a, 1)]), 1);
    var w2 := GoesOutAgain(cfg, w1, w1.pc.l, a, writes);
    LeadsTears(cfg, START, w1, w2, k);
    w' := Ends(cfg, START, k, w2, w2.pc.l);
  }

  /** Its retry is written, and the process dies before that is registered. */
  lemma Tear(cfg: Config, k: int, w: World, writes: int) returns (w': World)
    requires Tears(cfg, START, w, k) && AwaitsRetry(w, 1) && Counts(w.log, writes)
    ensures Tears(cfg, START, w', k + 1) && AwaitsRetry(w', 1) && Counts(w'.log, writes + 1)
  {
    var v := UpToTear(cfg, k, w, writes);
    w' := DiesAndReturns(cfg, k, v, w.sess, w.sess.bands);
  }

  lemma UpToTear(cfg: Config, k: int, w: World, writes: int) returns (w': World)
    requires Tears(cfg, START, w, k) && AwaitsRetry(w, 1) && Counts(w.log, writes)
    ensures Tears(cfg, START, w', k) && w'.saved == w.saved
    ensures w'.pc.Written? && w'.pc.cmd == Request("", 1, 0) && Counts(w'.log, writes + 1)
  {
    var v := Opens(cfg, START, k, w, Bands([], [], [], [Request("", 1, 1)]), 1);
    w' := WrittenAgain(cfg, v, writes);
    LeadsTears(cfg, START, v, w', k);
  }

  lemma WrittenAgain(cfg: Config, w: World, writes: int) returns (w': World)
    requires AtRound(w, Locals(11, false, false, Sequenced, [])) && Counts(w.log, writes)
    requires w.sess.bands == Bands([], [], [], [Request("", 1, 1)])
    ensures Leads(cfg, w, w') && w'.saved == w.saved
    ensures w'.pc.Written? && w'.pc.cmd == Request("", 1, 0) && Counts(w'.log, writes + 1)
  {
    w' := WrittenOnly(cfg, w, w.pc.l, Request("", 1, 1), 0);
    var e := w'.log[|w.log|];
    assert Core(Request("", 1, 0)) == ASKED;
    SumPush(w.log, e, IsWrite(ASKED));
    SumPush(w.log, e, IsEnqueued(ASKED));
  }

  lemma DiesAndReturns(cfg: Config, k: int, w: World, s: SessionState, b: Bands) returns (w': World)
    requires Tears(cfg, START, w, k) && w.pc.Written? && w.pc.cmd == Request("", 1, 0)
    requires w.saved == Save(s) && s.bands == b && Sorted(b) && s.inFlight == map[] && !s.fwMode && !s.syncMode
    ensures Tears(cfg, START, w', k + 1) && Quiet(w', b, s.nextSeq, Sequenced) && w'.log == w.log && Synced(w')
  {
    SaveAndLoad(s);
    TearsStep(cfg, w, Restart);
    var v := Reloaded(w);
    TearsTrans(cfg, START, w, v, k, 1);
    TearsOn(cfg, START, v, k + 1, Connect(Sequenced));
    w' := Apply(cfg, v, Connect(Sequenced));
  }

  lemma WrittenOnly(cfg: Config, w: World, l: Locals, c: Command, now: Time) returns (w': World)
    requires AtRound(w, l) && l == Locals(11, false, false, Sequenced, [])
    requires w.sess.bands == Bands([], [], [], [c]) && Small(c) && c.retrySeq != 0
    ensures Leads(cfg, w, w') && w'.saved == w.saved
    ensures w'.pc.Written? && w'.pc.cmd == c.(retrySeq := 0)
    ensures |w'.log| == |w.log| + 1 && w'.log == w.log + [w'.log[|w.log|]]
    ensures w'.log[|w.log|].Wrote? && w'.log[|w.log|].cmd == c.(retrySeq := 0)
  {
    var v := TakesNumber(cfg, w, l, c, now);
    SmallFrame(c.(retrySeq := 0), c.retrySeq, Sequenced);
    w' := Writing(cfg, v, l, 0, c.(retrySeq := 0), c.retrySeq, now, now);
    LeadsTrans(cfg, w, v, w');
  }

  /** So k times over. */
  lemma {:induction false} TearMany(cfg: Config, k: nat) returns (w: World)
    requires RoomFor(cfg, 1) && MaxRetries(cfg, ASKED) >= 1
    ensures Tears(cfg, START, w, k) && AwaitsRetry(w, 1) && Counts(w.log, k + 1)
    decreases k
  {
    if k == 0 {
      var v := FirstSend(cfg);
      w := Expires(cfg, 0, v, 1, 1, 0);
    } else {
      var v := TearMany(cfg, k - 1);
      w := Tear(cfg, k - 1, v, k);
    }
  }

  /** With k torn writes behind it, the request is in flight for the a-th time. */
  ghost predicate Attempted(cfg: Config, k: nat, a: nat) {
    exists w :: Tears(cfg, START, w, k) && Flies(w, a, 0) && Counts(w.log, k + a)
  }

  lemma SecondAttempt(cfg: Config, k: nat)
    requires RoomFor(cfg, 1) && MaxRetries(cfg, ASKED) >= 1
    ensures Attempted(cfg, k, 2)
  {
    var v := TearMany(cfg, k);
    var w := SendsAgain(cfg, k, v, 1, k + 1);
  }

  lemma NextAttempt(cfg: Config, k: nat, a: nat)
    requires Attempted(cfg, k, a) && a <= MaxRetries(cfg, ASKED)
    ensures Attempted(cfg, k, a + 1)
  {
    var w :| Tears(cfg, START, w, k) && Flies(w, a, 0) && Counts(w.log, k + a);
    var v := Expires(cfg, k, w, a, k + a, 0);
    var w' := SendsAgain(cfg, k, v, a, k + a);
  }

  /** After the torn writes come all its regular attempts. */
  lemma {:induction false} AllAttempts(cfg: Config, k: nat, a: nat)
    requires RoomFor(cfg, 1) && 2 <= a <= MaxRetries(cfg, ASKED) + 1
    ensures Attempted(cfg, k, a)
    decreases a, 1
  {
    if a == 2 {
      SecondAttempt(cfg, k);
    } else {
      LaterAttempt(cfg, k, a);
    }
  }

  lemma {:induction false} LaterAttempt(cfg: Config, k: nat, a: nat)
    requires RoomFor(cfg, 1) && 3 <= a <= MaxRetries(cfg, ASKED) + 1
    ensures Attempted(cfg, k, a)
    decreases a, 0
  {
    var b := a - 1;
    AllAttempts(cfg, k, b);
    NextAttempt(cfg, k, b);
  }

  /** The bound on writes is tight: for every k some run from the start with exactly k torn
      writes writes a command that was accepted once k times more than its policy allows. */
  lemma TornWritesRepeat(cfg: Config, k: nat) returns (steps: seq<Step>)
    requires RoomFor(cfg, 1) && MaxRetries(cfg, ASKED) >= 1
    ensures Possible(cfg, START, steps) && TornWrites(cfg, START, steps, ASKED) == k
    ensures var log := After(cfg, START, steps).log;
            && Sum(log, IsEnqueued(ASKED)) == 1
            && Sum(log, IsWrite(ASKED)) == MaxRetries(cfg, ASKED) + 1 + k
  {
    var a := MaxRetries(cfg, ASKED) + 1;
    AllAttempts(cfg, k, a);
    var w :| Tears(cfg, START, w, k) && Flies(w, a, 0) && Counts(w.log, k + a);
    steps :| Possible(cfg, START, steps) && After(cfg, START, steps) == w && TornWrites(cfg, START, steps, ASKED) == k;
  }
}
