/** The rounds of a flush over commands without payload, each sending one of them. */
module Rounds {
  import opened Bytes
  import opened Results
  import opened Messages
  import opened Framing
  import opened Sums
  import opened Commands
  import opened PriorityBands
  import opened Policy
  import opened Sessions
  import opened Engine
  import opened SequenceNumbers
  import opened Runs

  /** A request for events: command 9, no payload, no time limit. */
  function Request(id: string, attempts: int, retrySeq: byte): Command {
    Command(id, "", 9, 0, 0, [], Query, attempts, retrySeq)
  }

  /** Command 17, which goes ahead of requests. */
  function Urgent(id: string, attempts: int, retrySeq: byte): Command {
    Command(id, "", 17, 0, 0, [], High, attempts, retrySeq)
  }

  predicate Small(c: Command) {
    || c == Request(c.messageId, c.attempts, c.retrySeq)
    || c == Urgent(c.messageId, c.attempts, c.retrySeq)
  }

  predicate AllSmall(b: Bands) {
    && b.fw == [] && b.sync == []
    && (forall i :: 0 <= i < |b.high| ==> Small(b.high[i]))
    && (forall i :: 0 <= i < |b.query| ==> Small(b.query[i]))
  }

  // ---- From the outer loop to the popped command ----

  lemma {:induction false} NoneExpire(s: seq<Command>, now: Time)
    requires forall i :: 0 <= i < |s| ==> s[i].ttl <= 0
    ensures Filter(s, Live(now)) == s && Filter(s, Not(Live(now))) == []
    decreases |s|
  {
    if s != [] {
      NoneExpire(s[..|s| - 1], now);
      assert s == s[..|s| - 1] + [s[|s| - 1]];
    }
  }

  /** Commands without a time limit. */
  predicate Timeless(b: Bands) {
    && (forall i :: 0 <= i < |b.high| ==> b.high[i].ttl <= 0)
    && (forall i :: 0 <= i < |b.fw| ==> b.fw[i].ttl <= 0)
    && (forall i :: 0 <= i < |b.sync| ==> b.sync[i].ttl <= 0)
    && (forall i :: 0 <= i < |b.query| ==> b.query[i].ttl <= 0)
  }

  lemma NothingDrained(b: Bands, now: Time)
    requires Timeless(b)
    ensures Unexpired(b, now) == b && Drained(b, now) == []
  {
    NoneExpire(b.high, now);
    NoneExpire(b.fw, now);
    NoneExpire(b.sync, now);
    NoneExpire(b.query, now);
  }

  lemma Draining(w: World, l: Locals, now: Time)
    requires w.pc == Outer(l) && l.remaining > 0
    requires Unexpired(w.sess.bands, now) == w.sess.bands && Drained(w.sess.bands, now) == []
    ensures Tick(w, now, true) == w.(pc := AfterDrain(l))
  {
    assert w.log + EndedEvents(Expired, []) == w.log;
  }

  lemma Scanning(w: World, l: Locals, c: Command, rest: Bands, now: Time)
    requires w.pc == AfterDrain(l) && PopNext(w.sess.bands, l.fw, l.sync) == Some((c, rest))
    ensures var n := Length(w.sess.bands);
            && n > 0
            && Tick(w, now, true) == w.(pc := Inner(l, n))
            && Tick(w.(pc := Inner(l, n)), now, true) == w.(sess := w.sess.(bands := rest), pc := Popped(l, n - 1, c))
  {
  }

  lemma Popping(cfg: Config, w: World, l: Locals, c: Command, rest: Bands, now: Time) returns (w': World)
    requires w.pc == Outer(l) && l.remaining > 0
    requires Unexpired(w.sess.bands, now) == w.sess.bands && Drained(w.sess.bands, now) == []
    requires PopNext(w.sess.bands, l.fw, l.sync) == Some((c, rest))
    ensures Leads(cfg, w, w') && Length(w.sess.bands) > 0
    ensures w' == w.(sess := w.sess.(bands := rest), pc := Popped(l, Length(w.sess.bands) - 1, c))
  {
    Draining(w, l, now);
    var w1 := w.(pc := AfterDrain(l));
    Scanning(w1, l, c, rest, now);
    LeadsNowhere(cfg, w);
    LeadsOn(cfg, w, w, now);
    LeadsOn(cfg, w, w1, now);
    LeadsOn(cfg, w, w1.(pc := Inner(l, Length(w.sess.bands))), now);
    w' := Tick(w1.(pc := Inner(l, Length(w.sess.bands))), now, true);
  }

  // ---- From the popped command to its entry in flight ----

  lemma SmallPasses(c: Command, l: Locals, now: Time)
    requires Small(c) && !l.fw && !l.sync
    ensures Examine(c, l, now) == if c.retrySeq != 0 then Renumbered else Unnumbered
  {
  }

  function NumberFor(s: SessionState, c: Command): byte {
    if c.retrySeq != 0 then c.retrySeq else NextSeq(s.nextSeq)
  }

  /** A session after command c took its number. */
  function NumberedState(s: SessionState, c: Command): SessionState {
    s.(nextSeq := if c.retrySeq != 0 then s.nextSeq else NextSeq(s.nextSeq))
  }

  function Launched(s: SessionState, d: Command, n: byte, now: Time): SessionState {
    s.(inFlight := s.inFlight[n := Entry(n, d, now, d.attempts + 1)])
  }

  /** A session after command c went out. */
  function SentState(s: SessionState, c: Command, now: Time): SessionState {
    Launched(NumberedState(s, c), c.(retrySeq := 0), NumberFor(s, c), now)
  }

  /** What sending c adds to the log: the write and, if its number is taken, a lost entry. */
  function SendReports(s: SessionState, l: Locals, c: Command, now: Time): seq<Event> {
    var n, d := NumberFor(s, c), c.(retrySeq := 0);
    [Wrote(d, FrameFor(d, n, l.frameMode), now, l.fw, l.sync)]
    + (if n in s.inFlight then [Overwrote(s.inFlight[n])] else [])
  }

  /** What a whole round with c adds to the log. */
  function RoundReports(s: SessionState, l: Locals, c: Command, now: Time): seq<Event> {
    SendReports(s, l, c, now) + [AcceptedBy(c.(retrySeq := 0), NumberFor(s, c))]
  }

  lemma Numbering(cfg: Config, w: World, l: Locals, left: nat, c: Command, now: Time) returns (w': World)
    requires w.pc == Popped(l, left, c)
    requires Examine(c, l, now) == if c.retrySeq != 0 then Renumbered else Unnumbered
    ensures Leads(cfg, w, w')
    ensures w'.pc == Numbered(l, left, c.(retrySeq := 0), NumberFor(w.sess, c), now)
    ensures w'.sess == NumberedState(w.sess, c) && w'.log == w.log
    ensures w'.saved == if c.retrySeq != 0 then w.saved else Save(w'.sess)
  {
    LeadsStep(cfg, w, Run(now, true));
    w' := Tick(w, now, true);
    assert w' == TickPopped(w, l, left, c, now, if c.retrySeq != 0 then Renumbered else Unnumbered);
  }

  lemma Writing(cfg: Config, w: World, l: Locals, left: nat, d: Command, n: byte, at: Time, now: Time) returns (w': World)
    requires w.pc == Numbered(l, left, d, n, at)
    requires Encodable(FrameFor(d, n, l.frameMode)) && |Wire(FrameFor(d, n, l.frameMode))| <= l.remaining
    ensures Leads(cfg, w, w')
    ensures w'.pc == Written(l.(remaining := l.remaining - |Wire(FrameFor(d, n, l.frameMode))|), d, n)
    ensures w'.sess == w.sess && w'.saved == w.saved
    ensures w'.log == w.log + [Wrote(d, FrameFor(d, n, l.frameMode), at, l.fw, l.sync)]
  {
    var size := |Wire(FrameFor(d, n, l.frameMode))|;
    LeadsStep(cfg, w, Run(now, true));
    w' := Tick(w, now, true);
    assert w' == TickNumbered(w, l, left, d, n, at, Sent(size));
  }

  lemma Entering(cfg: Config, w: World, l: Locals, d: Command, n: byte, now: Time) returns (w': World)
    requires w.pc == Written(l, d, n)
    ensures Leads(cfg, w, w')
    ensures w'.sess == Launched(w.sess, d, n, now) && w'.pc == Registered(l, d, n) && Synced(w')
    ensures if n in w.sess.inFlight then w'.log == w.log + [Overwrote(w.sess.inFlight[n])] else w'.log == w.log
  {
    LeadsStep(cfg, w, Run(now, true));
    w' := Tick(w, now, true);
    EnteringTick(w, l, d, n, now);
  }

  lemma EnteringTick(w: World, l: Locals, d: Command, n: byte, now: Time)
    requires w.pc == Written(l, d, n)
    ensures var w' := Tick(w, now, true);
            && w'.sess == Launched(w.sess, d, n, now) && w'.pc == Registered(l, d, n) && Synced(w')
            && if n in w.sess.inFlight then w'.log == w.log + [Overwrote(w.sess.inFlight[n])] else w'.log == w.log
  {
  }

  lemma SmallFrame(d: Command, n: byte, mode: FrameMode)
    requires d.payload == []
    ensures Encodable(FrameFor(d, n, mode)) && |Wire(FrameFor(d, n, mode))| == MinFrame(mode)
  {
  }

  /** From the popped command to its entry in flight. The entry already stored under its
      number, if there is one, is overwritten. */
  lemma Sending(cfg: Config, w: World, l: Locals, left: nat, c: Command, now: Time) returns (w': World)
    requires w.pc == Popped(l, left, c) && l.remaining >= MinFrame(l.frameMode) && c.payload == []
    requires Examine(c, l, now) == if c.retrySeq != 0 then Renumbered else Unnumbered
    ensures Leads(cfg, w, w')
    ensures w'.sess == SentState(w.sess, c, now)
    ensures w'.pc == Registered(l.(remaining := l.remaining - MinFrame(l.frameMode)), c.(retrySeq := 0), NumberFor(w.sess, c))
    ensures w'.log == w.log + SendReports(w.sess, l, c, now)
  {
    var n, d := NumberFor(w.sess, c), c.(retrySeq := 0);
    var v := UpToWrite(cfg, w, l, left, c, now);
    w' := Entering(cfg, v, l.(remaining := l.remaining - MinFrame(l.frameMode)), d, n, now);
    LeadsTrans(cfg, w, v, w');
  }

  lemma UpToWrite(cfg: Config, w: World, l: Locals, left: nat, c: Command, now: Time) returns (w': World)
    requires w.pc == Popped(l, left, c) && l.remaining >= MinFrame(l.frameMode) && c.payload == []
    requires Examine(c, l, now) == if c.retrySeq != 0 then Renumbered else Unnumbered
    ensures Leads(cfg, w, w') && w'.sess == NumberedState(w.sess, c)
    ensures var n, d := NumberFor(w.sess, c), c.(retrySeq := 0);
            && w'.pc == Written(l.(remaining := l.remaining - MinFrame(l.frameMode)), d, n)
            && w'.log == w.log + [Wrote(d, FrameFor(d, n, l.frameMode), now, l.fw, l.sync)]
  {
    var n, d := NumberFor(w.sess, c), c.(retrySeq := 0);
    var v := Numbering(cfg, w, l, left, c, now);
    SmallFrame(d, n, l.frameMode);
    w' := Writing(cfg, v, l, left, d, n, now, now);
    LeadsTrans(cfg, w, v, w');
  }

  // ---- From the entry in flight back to the outer loop ----

  lemma Accepting(w: World, l: Locals, c: Command, n: byte, now: Time)
    requires w.pc == Registered(l, c, n) && (c.commandId == 9 || c.commandId == 17)
    ensures var w' := Tick(w, now, true); w'.sess == w.sess && w'.pc == Marked(l) && w'.log == w.log + [AcceptedBy(c, n)]
  {
  }

  lemma Finishing(w: World, l: Locals, now: Time)
    requires w.pc == Marked(l) && l.skipped == []
    ensures var v := Tick(w, now, true); var w' := Tick(v, now, true); w'.sess == w.sess && w'.pc == ClearSync(l) && w'.log == w.log
  {
  }

  lemma KeepingModes(w: World, l: Locals, now: Time)
    requires w.pc == ClearSync(l) && !l.fw && !l.sync
    ensures var v := Tick(w, now, true); var w' := Tick(v, now, true); w'.sess == w.sess && w'.pc == Outer(l) && w'.log == w.log
  {
  }

  lemma Closing(cfg: Config, w: World, l: Locals, c: Command, n: byte, now: Time) returns (w': World)
    requires w.pc == Registered(l, c, n) && (c.commandId == 9 || c.commandId == 17)
    requires l.skipped == [] && !l.fw && !l.sync
    ensures Leads(cfg, w, w') && w'.sess == w.sess && w'.pc == Outer(l) && w'.log == w.log + [AcceptedBy(c, n)]
  {
    Accepting(w, l, c, n, now);
    LeadsStep(cfg, w, Run(now, true));
    var w1 := Tick(w, now, true);
    Finishing(w1, l, now);
    LeadsOn(cfg, w, w1, now);
    var w2 := Tick(w1, now, true);
    LeadsOn(cfg, w, w2, now);
    var w3 := Tick(w2, now, true);
    KeepingModes(w3, l, now);
    LeadsOn(cfg, w, w3, now);
    var w4 := Tick(w3, now, true);
    LeadsOn(cfg, w, w4, now);
    w' := Tick(w4, now, true);
  }

  // ---- Whole rounds ----

  predicate AtRound(w: World, l: Locals) {
    w.pc == Outer(l) && !l.fw && !l.sync && l.skipped == [] && AllSmall(w.sess.bands)
  }

  lemma PoppedSmall(b: Bands, c: Command, rest: Bands)
    requires AllSmall(b) && PopNext(b, false, false) == Some((c, rest))
    ensures Small(c) && AllSmall(rest)
  {
  }

  /** The first command waiting is written and registered. */
  lemma HalfRound(cfg: Config, w: World, l: Locals, c: Command, rest: Bands, now: Time) returns (w': World)
    requires AtRound(w, l) && l.remaining >= MinFrame(l.frameMode)
    requires PopNext(w.sess.bands, false, false) == Some((c, rest))
    ensures Leads(cfg, w, w') && Small(c)
    ensures w'.sess == SentState(w.sess.(bands := rest), c, now)
    ensures w'.pc == Registered(l.(remaining := l.remaining - MinFrame(l.frameMode)), c.(retrySeq := 0), NumberFor(w.sess, c))
    ensures w'.log == w.log + SendReports(w.sess, l, c, now)
  {
    NothingDrained(w.sess.bands, now);
    var w1 := Popping(cfg, w, l, c, rest, now);
    PoppedSmall(w.sess.bands, c, rest);
    SmallPasses(c, l, now);
    w' := Sending(cfg, w1, l, Length(w.sess.bands) - 1, c, now);
    LeadsTrans(cfg, w, w1, w');
  }

  lemma OneWrite(log: seq<Event>, added: seq<Event>)
    requires added != [] && added[0].Wrote?
    ensures Writes(log + added) > Writes(log)
  {
    SumConcat(log, added, IsWritten());
    SumPop(added, IsWritten());
    SumAtLeast(added[1..], IsWritten(), 0);
  }

  /** The same, and the flush goes on with what is left of its budget. */
  lemma Round(cfg: Config, w: World, l: Locals, c: Command, rest: Bands, now: Time) returns (w': World)
    requires AtRound(w, l) && l.remaining >= MinFrame(l.frameMode)
    requires PopNext(w.sess.bands, false, false) == Some((c, rest))
    ensures Leads(cfg, w, w') && Small(c)
    ensures w'.sess == SentState(w.sess.(bands := rest), c, now)
    ensures AtRound(w', l.(remaining := l.remaining - MinFrame(l.frameMode)))
    ensures w'.log == w.log + RoundReports(w.sess, l, c, now) && Writes(w'.log) > Writes(w.log)
  {
    var w1 := HalfRound(cfg, w, l, c, rest, now);
    OneWrite(w.log, SendReports(w.sess, l, c, now));
    PoppedSmall(w.sess.bands, c, rest);
    var l' := l.(remaining := l.remaining - MinFrame(l.frameMode));
    w' := Closing(cfg, w1, l', c.(retrySeq := 0), NumberFor(w.sess, c), now);
    LeadsGrow(cfg, w1, w');
    LeadsTrans(cfg, w, w1, w');
    var accepted := AcceptedBy(c.(retrySeq := 0), NumberFor(w.sess, c));
    assert w.log + SendReports(w.sess, l, c, now) + [accepted] == w.log + (SendReports(w.sess, l, c, now) + [accepted]);
  }

  /** A command that goes to the front of what is waiting. */
  predicate GoesFirst(b: Bands, c: Command) {
    PopNext(Push(b, c), false, false) == Some((c, b))
  }

  lemma UrgentFirst(b: Bands)
    requires b.high == []
    ensures GoesFirst(b, Urgent("", 0, 0))
  {
    assert (b.high + [Urgent("", 0, 0)])[1..] == b.high;
  }

  lemma Queueing(cfg: Config, w: World, c: Command, now: Time) returns (w': World)
    requires Small(c) && c == Core(c) && Fits(cfg, w.sess.bands, c)
    ensures Leads(cfg, w, w') && w'.pc == w.pc && w'.sess == w.sess.(bands := Push(w.sess.bands, c))
    ensures w'.log == w.log + [Enqueued(c)] && Synced(w')
    ensures w' == EnqueueStep(cfg, w, c, now).0
  {
    LeadsStep(cfg, w, Enqueue(c, now));
    w' := EnqueueStep(cfg, w, c, now).0;
    assert Normalize(c) == Some(c);
    assert DroppedEvents([]) == [];
    assert w.log + [] == w.log;
  }

  /** Only the log and the store tell w' from a world with this session and program counter. */
  predicate At(w': World, sess: SessionState, pc: Pc) {
    w'.sess == sess && w'.pc == pc
  }

  /** A command that fits is taken in. */
  lemma TakingIn(cfg: Config, w: World, c: Command, now: Time) returns (w': World)
    requires c == Core(c) && Normalize(c) == Some(c) && c.dedupKey == "" && Fits(cfg, w.sess.bands, c)
    ensures Continues(cfg, w, w') && At(w', w.sess.(bands := Push(w.sess.bands, c)), w.pc)
    ensures Synced(w') && w'.log == w.log + [Enqueued(c)]
  {
    ContinuesStep(cfg, w, Enqueue(c, now));
    w' := EnqueueStep(cfg, w, c, now).0;
    assert DroppedEvents([]) == [];
    assert w.log + [] == w.log;
  }

  /** A new command comes in between two rounds and is sent in the next. */
  lemma OneMore(cfg: Config, w: World, l: Locals, c: Command, now: Time) returns (w': World)
    requires AtRound(w, l) && l.remaining >= MinFrame(l.frameMode)
    requires Small(c) && c == Core(c) && Fits(cfg, w.sess.bands, c) && GoesFirst(w.sess.bands, c)
    ensures Leads(cfg, w, w') && w'.sess == SentState(w.sess, c, now)
    ensures AtRound(w', l.(remaining := l.remaining - MinFrame(l.frameMode)))
    ensures w'.log == w.log + [Enqueued(c)] + RoundReports(w.sess, l, c, now) && Writes(w'.log) > Writes(w.log)
  {
    var b := w.sess.bands;
    var v := Queueing(cfg, w, c, now);
    LeadsGrow(cfg, w, v);
    w' := Round(cfg, v, l, c, b, now);
    LeadsTrans(cfg, w, v, w');
    assert v.sess.(bands := b) == w.sess;
  }

  // ---- Many rounds ----

  /** The number k places after n. */
  function Later(n: byte, k: nat): byte {
    if k == 0 then n else NextSeq(Later(n, k - 1))
  }

  lemma {:induction false} LaterIs(n: byte, k: nat)
    ensures Later(n, k) == (n + k) % 256
    decreases k
  {
    if k > 0 { LaterIs(n, k - 1); }
  }

  /** How far r is after n. */
  function Distance(n: byte, r: byte): (d: nat)
    ensures d <= 255
  {
    (r - n) % 256
  }

  lemma LaterReaches(n: byte, r: byte)
    ensures Later(n, Distance(n, r)) == r
  {
    LaterIs(n, Distance(n, r));
  }

  /** The k numbers after n. */
  function Numbers(n: byte, k: nat): set<byte> {
    if k == 0 then {} else Numbers(n, k - 1) + {Later(n, k)}
  }

  lemma {:induction false} InNumbers(n: byte, k: nat, i: nat)
    requires 1 <= i <= k
    ensures Later(n, i) in Numbers(n, k)
    decreases k
  {
    if i < k { InNumbers(n, k - 1, i); }
  }

  /** Up to 256 numbers in a row are all different. */
  lemma {:induction false} NotYet(n: byte, k: nat, i: nat)
    requires i < k <= 256
    ensures Later(n, k) !in Numbers(n, i)
    decreases i
  {
    if i > 0 {
      NotYet(n, k, i - 1);
      LaterIs(n, k);
      LaterIs(n, i);
    }
  }

  lemma {:induction false} NotAgain(n: byte, k: nat)
    requires k <= 255
    ensures n !in Numbers(n, k)
    decreases k
  {
    if k > 0 {
      NotAgain(n, k - 1);
      LaterIs(n, k);
    }
  }

  /** The bytes of k minimal frames. */
  function Cost(k: nat, mode: FrameMode): nat {
    if k == 0 then 0 else Cost(k - 1, mode) + MinFrame(mode)
  }

  lemma {:induction false} FramesFit(k: nat, budget: nat, mode: FrameMode)
    ensures Cost(k, mode) <= budget <==> k <= budget / MinFrame(mode)
    decreases k
  {
    if k > 0 && budget >= MinFrame(mode) {
      FramesFit(k - 1, budget - MinFrame(mode), mode);
      OneFrameLess(budget, mode);
    }
  }

  lemma OneFrameLess(budget: nat, mode: FrameMode)
    requires budget >= MinFrame(mode)
    ensures (budget - MinFrame(mode)) / MinFrame(mode) == budget / MinFrame(mode) - 1
  {
    if mode == Compact {
      assert (budget - 10) / 10 == budget / 10 - 1;
    } else {
      assert (budget - 11) / 11 == budget / 11 - 1;
    }
  }

  /** The session after k new commands went out, apart from the entries themselves. */
  predicate AfterRounds(s: SessionState, s': SessionState, k: nat) {
    && s' == s.(nextSeq := Later(s.nextSeq, k), inFlight := s'.inFlight)
    && s'.inFlight.Keys == s.inFlight.Keys + Numbers(s.nextSeq, k)
    && forall r :: r in s.inFlight && r !in Numbers(s.nextSeq, k) ==> s'.inFlight[r] == s.inFlight[r]
  }

  lemma AfterOneMore(s: SessionState, s1: SessionState, s2: SessionState, k: nat, now: Time)
    requires AfterRounds(s, s1, k) && s2 == SentState(s1, Urgent("", 0, 0), now)
    ensures AfterRounds(s, s2, k + 1)
  {
  }

  lemma OneFrameOff(l: Locals, k: nat)
    requires k > 0 && l.remaining >= Cost(k, l.frameMode)
    ensures var l' := l.(remaining := l.remaining - Cost(k - 1, l.frameMode));
            l'.(remaining := l'.remaining - MinFrame(l'.frameMode)) == l.(remaining := l.remaining - Cost(k, l.frameMode))
  {
  }

  lemma AnotherRound(cfg: Config, s: SessionState, w: World, l: Locals, k: nat, now: Time) returns (w': World)
    requires k > 0 && l.remaining >= Cost(k, l.frameMode)
    requires AtRound(w, l.(remaining := l.remaining - Cost(k - 1, l.frameMode))) && AfterRounds(s, w.sess, k - 1)
    requires w.sess.bands.high == [] && Fits(cfg, w.sess.bands, Urgent("", 0, 0))
    ensures Leads(cfg, w, w') && AtRound(w', l.(remaining := l.remaining - Cost(k, l.frameMode)))
    ensures AfterRounds(s, w'.sess, k)
  {
    UrgentFirst(w.sess.bands);
    OneFrameOff(l, k);
    w' := OneMore(cfg, w, l.(remaining := l.remaining - Cost(k - 1, l.frameMode)), Urgent("", 0, 0), now);
    AfterOneMore(s, w.sess, w'.sess, k - 1, now);
  }

  /** k rounds, each with a new urgent command, leave the rest of the queue alone. */
  lemma {:induction false} ManyRounds(cfg: Config, w: World, l: Locals, k: nat, now: Time) returns (w': World)
    requires AtRound(w, l) && l.remaining >= Cost(k, l.frameMode)
    requires w.sess.bands.high == [] && Fits(cfg, w.sess.bands, Urgent("", 0, 0))
    ensures Leads(cfg, w, w') && AtRound(w', l.(remaining := l.remaining - Cost(k, l.frameMode)))
    ensures AfterRounds(w.sess, w'.sess, k)
    decreases k
  {
    if k == 0 {
      w' := w;
      LeadsNowhere(cfg, w);
    } else {
      var v := ManyRounds(cfg, w, l, k - 1, now);
      w' := AnotherRound(cfg, w.sess, v, l, k, now);
      LeadsTrans(cfg, w, v, w');
    }
  }
}
