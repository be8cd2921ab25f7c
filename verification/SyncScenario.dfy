/** A run from the empty session in which a command set aside during a sync is lost to a
    restart. */
module SyncScenario {
  import opened Bytes
  import opened Results
  import opened Framing
  import opened Sums
  import opened Commands
  import opened PriorityBands
  import opened Policy
  import opened Sessions
  import opened Engine
  import opened SequenceNumbers
  import opened StoreLag
  import opened Runs
  import opened Rounds
  import opened Histories

  /** Command 16 with one holiday. */
  const HOLIDAYS := Command("s", "", 16, 0, 0, [0, 0, 0, 0, 1, 0, 0, 0, 0], Sync, 0, 0)

  const URGENT := Urgent("h", 0, 0)

  lemma HolidaysPass(l: Locals, now: Time)
    requires !l.fw
    ensures Examine(HOLIDAYS, l, now) == Unnumbered
  {
    var p := HOLIDAYS.payload;
    assert |p| == 9 && p[4] == 1;
  }

  /** The bytes of its frame. */
  function SyncFrame(mode: FrameMode): nat {
    MinFrame(mode) + 9
  }

  lemma HolidaysFrame(n: byte, mode: FrameMode)
    ensures var f := FrameFor(HOLIDAYS, n, mode); Encodable(f) && |Wire(f)| == SyncFrame(mode)
  {
  }

  // ---- One sync command goes out ----

  lemma Launching(cfg: Config, w: World, l: Locals, left: nat, now: Time) returns (w': World)
    requires w.pc == Popped(l, left, HOLIDAYS) && !l.fw && l.remaining == SyncFrame(l.frameMode)
    ensures Leads(cfg, w, w') && w'.sess == SentState(w.sess, HOLIDAYS, now)
    ensures w'.pc == Registered(l.(remaining := 0), HOLIDAYS, NextSeq(w.sess.nextSeq))
  {
    var n := NextSeq(w.sess.nextSeq);
    HolidaysPass(l, now);
    HolidaysFrame(n, l.frameMode);
    assert HOLIDAYS.(retrySeq := 0) == HOLIDAYS;
    var w1 := Numbering(cfg, w, l, left, HOLIDAYS, now);
    var w2 := Writing(cfg, w1, l, left, HOLIDAYS, n, now, now);
    LeadsTrans(cfg, w, w1, w2);
    w' := Entering(cfg, w2, l.(remaining := 0), HOLIDAYS, n, now);
    LeadsTrans(cfg, w, w2, w');
  }

  lemma StartingSync(cfg: Config, w: World, l: Locals, n: byte, now: Time) returns (w': World)
    requires w.pc == Registered(l, HOLIDAYS, n)
    ensures Leads(cfg, w, w') && w'.pc == PutBack(l.(sync := true), true)
    ensures w'.sess == w.sess.(syncMode := true) && Synced(w')
  {
    LeadsStep(cfg, w, Run(now, true));
    var v := Tick(w, now, true);
    LeadsOn(cfg, w, v, now);
    w' := Tick(v, now, true);
  }

  /** What was set aside goes back, in order. */
  lemma {:induction false} GivingBackAll(cfg: Config, w: World, l: Locals, again: bool, now: Time) returns (w': World)
    requires w.pc == PutBack(l, again)
    ensures Leads(cfg, w, w') && w'.pc == PutBack(l.(skipped := []), again) && w'.saved == w.saved
    ensures w'.sess == w.sess.(bands := PushAll(w.sess.bands, l.skipped))
    decreases |l.skipped|
  {
    if l.skipped == [] {
      assert l.(skipped := []) == l;
      LeadsNowhere(cfg, w);
      w' := w;
    } else {
      LeadsStep(cfg, w, Run(now, true));
      var v := Tick(w, now, true);
      w' := GivingBackAll(cfg, v, l.(skipped := l.skipped[1..]), again, now);
      LeadsTrans(cfg, w, v, w');
      PushFirst(w.sess.bands, l.skipped);
    }
  }

  lemma DoneGivingBack(cfg: Config, w: World, l: Locals, now: Time) returns (w': World)
    requires w.pc == PutBack(l, true)
    ensures Leads(cfg, w, w') && w'.pc == ClearSync(l.(skipped := [])) && w'.saved == w.saved
    ensures w'.sess == w.sess.(bands := PushAll(w.sess.bands, l.skipped))
  {
    var v := GivingBackAll(cfg, w, l, true, now);
    LeadsOn(cfg, w, v, now);
    w' := Tick(v, now, true);
  }

  lemma StayingInSync(cfg: Config, w: World, l: Locals, now: Time) returns (w': World)
    requires w.pc == ClearSync(l) && l.sync && !l.fw && w.sess.bands.sync != []
    ensures Leads(cfg, w, w') && w' == w.(pc := Outer(l))
  {
    LeadsStep(cfg, w, Run(now, true));
    var v := Tick(w, now, true);
    LeadsOn(cfg, w, v, now);
    w' := Tick(v, now, true);
  }

  /** From the popped sync command to where the flush looks whether to leave the sync mode. What
      was set aside is pushed back after the last save. */
  lemma SyncGoesOut(cfg: Config, w: World, l: Locals, left: nat, now: Time) returns (w': World)
    requires w.pc == Popped(l, left, HOLIDAYS) && !l.fw && l.remaining == SyncFrame(l.frameMode)
    ensures Leads(cfg, w, w') && w'.pc == ClearSync(l.(remaining := 0, sync := true, skipped := []))
    ensures var s := SentState(w.sess, HOLIDAYS, now).(syncMode := true);
            w'.sess == s.(bands := PushAll(w.sess.bands, l.skipped)) && w'.saved == Save(s)
  {
    var w1 := Launching(cfg, w, l, left, now);
    var w2 := StartingSync(cfg, w1, l.(remaining := 0), NextSeq(w.sess.nextSeq), now);
    LeadsTrans(cfg, w, w1, w2);
    w' := DoneGivingBack(cfg, w2, l.(remaining := 0, sync := true), now);
    LeadsTrans(cfg, w, w2, w');
  }

  /** The sync mode stays on if there is more to sync. */
  lemma SyncSend(cfg: Config, w: World, l: Locals, left: nat, now: Time) returns (w': World)
    requires w.pc == Popped(l, left, HOLIDAYS) && !l.fw && l.remaining == SyncFrame(l.frameMode)
    requires PushAll(w.sess.bands, l.skipped).sync != []
    ensures Leads(cfg, w, w') && w'.pc == Outer(l.(remaining := 0, sync := true, skipped := []))
    ensures var s := SentState(w.sess, HOLIDAYS, now).(syncMode := true);
            w'.sess == s.(bands := PushAll(w.sess.bands, l.skipped)) && w'.saved == Save(s)
  {
    var v := SyncGoesOut(cfg, w, l, left, now);
    w' := StayingInSync(cfg, v, l.(remaining := 0, sync := true, skipped := []), now);
    LeadsTrans(cfg, w, v, w');
  }

  // ---- The first flush ----

  lemma FirstFlush(cfg: Config, w: World) returns (w': World)
    requires w.pc == Outer(Locals(20, false, false, Sequenced, []))
    requires w.sess.bands == Bands([], [], [HOLIDAYS, HOLIDAYS, HOLIDAYS], []) && w.sess.nextSeq == 0 && w.sess.inFlight == map[]
    ensures Leads(cfg, w, w') && w'.pc == Outer(Locals(0, false, true, Sequenced, []))
    ensures w'.sess == w.sess.(bands := Bands([], [], [HOLIDAYS, HOLIDAYS], []), nextSeq := 1, syncMode := true,
                               inFlight := map[1 := Entry(1, HOLIDAYS, 0, 1)])
  {
    var l := Locals(20, false, false, Sequenced, []);
    var rest := Bands([], [], [HOLIDAYS, HOLIDAYS], []);
    NothingDrained(w.sess.bands, 0);
    assert [HOLIDAYS, HOLIDAYS, HOLIDAYS][1..] == [HOLIDAYS, HOLIDAYS];
    var w1 := Popping(cfg, w, l, HOLIDAYS, rest, 0);
    assert PushAll(rest, []) == rest;
    w' := SyncSend(cfg, w1, l, 2, 0);
    LeadsTrans(cfg, w, w1, w');
    assert HOLIDAYS.(retrySeq := 0) == HOLIDAYS;
  }

  // ---- The second flush ----

  lemma SettingAside(cfg: Config, w: World, l: Locals, left: nat, now: Time) returns (w': World)
    requires w.pc == Popped(l, left, URGENT) && !l.fw && l.sync && l.skipped == []
    ensures Leads(cfg, w, w') && w' == w.(pc := Inner(l.(skipped := [URGENT]), left))
  {
    assert Examine(URGENT, l, now) == Refused;
    LeadsStep(cfg, w, Run(now, true));
    w' := Tick(w, now, true);
    assert w' == TickPopped(w, l, left, URGENT, now, Refused);
    assert l.skipped + [URGENT] == [URGENT];
  }

  lemma NextOfSync(cfg: Config, w: World, l: Locals, left: nat, now: Time) returns (w': World)
    requires w.pc == Inner(l, left) && left > 0 && l.sync && !l.fw
    requires w.sess.bands == Bands([], [], [HOLIDAYS, HOLIDAYS], [])
    ensures Leads(cfg, w, w')
    ensures w' == w.(sess := w.sess.(bands := Bands([], [], [HOLIDAYS], [])), pc := Popped(l, left - 1, HOLIDAYS))
  {
    assert [HOLIDAYS, HOLIDAYS][1..] == [HOLIDAYS];
    LeadsStep(cfg, w, Run(now, true));
    w' := Tick(w, now, true);
  }

  /** Up to the next sync command, with the urgent one set aside. */
  lemma UpToSync(cfg: Config, w: World, l: Locals) returns (w': World)
    requires w.pc == Outer(l) && l == Locals(20, false, true, Sequenced, [])
    requires w.sess.bands == Bands([URGENT], [], [HOLIDAYS, HOLIDAYS], [])
    ensures Leads(cfg, w, w')
    ensures w' == w.(sess := w.sess.(bands := Bands([], [], [HOLIDAYS], [])), pc := Popped(l.(skipped := [URGENT]), 1, HOLIDAYS))
  {
    NothingDrained(w.sess.bands, 0);
    assert [URGENT][1..] == [];
    var w1 := Popping(cfg, w, l, URGENT, Bands([], [], [HOLIDAYS, HOLIDAYS], []), 0);
    var w2 := SettingAside(cfg, w1, l, 2, 0);
    LeadsTrans(cfg, w, w1, w2);
    w' := NextOfSync(cfg, w2, l.(skipped := [URGENT]), 2, 0);
    LeadsTrans(cfg, w, w2, w');
  }

  lemma SecondFlush(cfg: Config, w: World) returns (w': World)
    requires w.pc == Outer(Locals(20, false, true, Sequenced, []))
    requires w.sess.bands == Bands([URGENT], [], [HOLIDAYS, HOLIDAYS], []) && w.sess.nextSeq == 1 && w.sess.inFlight == map[]
    ensures Leads(cfg, w, w') && w'.pc == Outer(Locals(0, false, true, Sequenced, []))
    ensures w'.sess.bands == Bands([URGENT], [], [HOLIDAYS], []) && w'.sess.inFlight == map[2 := Entry(2, HOLIDAYS, 0, 1)]
    ensures w'.saved == Save(w'.sess.(bands := Bands([], [], [HOLIDAYS], [])))
  {
    var l := Locals(20, false, true, Sequenced, []);
    var v := UpToSync(cfg, w, l);
    PushedOne(Bands([], [], [HOLIDAYS], []));
    w' := SyncSend(cfg, v, l.(skipped := [URGENT]), 1, 0);
    LeadsTrans(cfg, w, v, w');
    assert HOLIDAYS.(retrySeq := 0) == HOLIDAYS;
  }

  lemma PushedOne(b: Bands)
    requires b.high == []
    ensures PushAll(b, [URGENT]) == b.(high := [URGENT])
  {
    assert [URGENT][..0] == [];
    assert PushAll(b, [URGENT]) == Push(PushAll(b, [URGENT][..0]), URGENT);
    assert b.high + [URGENT] == [URGENT];
  }

  // ---- The whole run ----

  /** Room for three commands of this kind. */
  predicate RoomForThree(cfg: Config) {
    (cfg.maxQueueDepth > 0 ==> 3 <= cfg.maxQueueDepth) && (cfg.maxQueueBytes > 0 ==> 60 <= cfg.maxQueueBytes)
  }

  lemma TakingOne(cfg: Config, w: World, c: Command) returns (w': World)
    requires c == Core(c) && Normalize(c) == Some(c) && c.dedupKey == "" && Fits(cfg, w.sess.bands, c)
    ensures Reaches(cfg, w, w') && At(w', w.sess.(bands := Push(w.sess.bands, c)), w.pc)
  {
    w' := TakingIn(cfg, w, c, 0);
    ContinuesReaches(cfg, w, w');
  }

  lemma SizesOf(s: seq<Command>, h: seq<Command>)
    requires |h| <= 1 && (forall i :: 0 <= i < |s| ==> s[i] == HOLIDAYS) && (forall i :: 0 <= i < |h| ==> h[i] == URGENT)
    ensures TotalEstimatedBytes(Bands(h, [], s, [])) == 20 * |s| + 11 * |h|
  {
    SizeOfHolidays(s);
  }

  lemma {:induction false} SizeOfHolidays(s: seq<Command>)
    requires forall i :: 0 <= i < |s| ==> s[i] == HOLIDAYS
    ensures Sum(s, Size()) == 20 * |s|
    decreases |s|
  {
    if s != [] { SizeOfHolidays(s[..|s| - 1]); }
  }

  lemma OneMoreQueued(cfg: Config, w: World, s: seq<Command>) returns (w': World)
    requires RoomForThree(cfg) && |s| <= 2 && (forall i :: 0 <= i < |s| ==> s[i] == HOLIDAYS)
    requires Reaches(cfg, START, w) && Quiet(w, Bands([], [], s, []), 0, Sequenced)
    ensures Reaches(cfg, START, w') && Quiet(w', Bands([], [], s + [HOLIDAYS], []), 0, Sequenced)
  {
    FitsThree(cfg, s);
    w' := TakingOne(cfg, w, HOLIDAYS);
    ReachesTrans(cfg, START, w, w');
  }

  lemma FitsThree(cfg: Config, s: seq<Command>)
    requires RoomForThree(cfg) && |s| <= 2 && (forall i :: 0 <= i < |s| ==> s[i] == HOLIDAYS)
    ensures Fits(cfg, Bands([], [], s, []), HOLIDAYS)
  {
    SizesOf(s, []);
  }

  lemma ThreeQueued(cfg: Config) returns (w: World)
    requires RoomForThree(cfg)
    ensures Reaches(cfg, START, w) && Quiet(w, Bands([], [], [HOLIDAYS, HOLIDAYS, HOLIDAYS], []), 0, Sequenced)
  {
    var c := HOLIDAYS;
    w := Beginning(cfg, Sequenced);
    w := OneMoreQueued(cfg, w, []);
    assert [] + [c] == [c];
    w := OneMoreQueued(cfg, w, [c]);
    assert [c] + [c] == [c, c];
    w := OneMoreQueued(cfg, w, [c, c]);
    assert [c, c] + [c] == [c, c, c];
  }

  lemma AfterFirstFlush(cfg: Config) returns (w: World)
    requires RoomForThree(cfg)
    ensures Reaches(cfg, START, w) && w.pc == Idle && w.sess.bands == Bands([], [], [HOLIDAYS, HOLIDAYS], [])
    ensures w.sess.nextSeq == 1 && w.sess.inFlight == map[] && w.sess.online && w.sess.frameMode == Sequenced
    ensures !w.sess.fwMode && w.sess.syncMode
  {
    var w0 := ThreeQueued(cfg);
    var w1 := TellingFree(cfg, w0, 20);
    ReachesTrans(cfg, START, w0, w1);
    ReachesOn(cfg, START, w1, Flush);
    var w2 := FlushStep(w1);
    var w3 := FirstFlush(cfg, w2);
    LeadsReaches(cfg, w2, w3);
    ReachesTrans(cfg, START, w2, w3);
    var w4 := Ending(cfg, w3, Locals(0, false, true, Sequenced, []), 0);
    ReachesTrans(cfg, START, w3, w4);
    w := Acknowledging(cfg, w4, 1);
    ReachesTrans(cfg, START, w4, w);
    assert w.sess.inFlight == map[];
  }

  lemma BeforeSecondFlush(cfg: Config) returns (w: World)
    requires RoomForThree(cfg)
    ensures Reaches(cfg, START, w) && w.pc == Outer(Locals(20, false, true, Sequenced, []))
    ensures w.sess.bands == Bands([URGENT], [], [HOLIDAYS, HOLIDAYS], []) && w.sess.nextSeq == 1 && w.sess.inFlight == map[]
  {
    var w0 := AfterFirstFlush(cfg);
    SizesOf([HOLIDAYS, HOLIDAYS], []);
    var w1 := TakingOne(cfg, w0, URGENT);
    ReachesTrans(cfg, START, w0, w1);
    assert [] + [URGENT] == [URGENT];
    var w2 := TellingFree(cfg, w1, 20);
    ReachesTrans(cfg, START, w1, w2);
    ReachesOn(cfg, START, w2, Flush);
    w := FlushStep(w2);
  }

  /** Between flushes, the urgent command waits in memory, but the store does not have it, for it
      was in the hands of the flush when that last saved. */
  lemma SkippedIsNotSaved(cfg: Config) returns (w: World)
    requires RoomForThree(cfg)
    ensures Reaches(cfg, START, w) && w.pc == Idle
    ensures w.sess.bands == Bands([URGENT], [], [HOLIDAYS], [])
    ensures Reloaded(w).sess.bands == Bands([], [], [HOLIDAYS], [])
    ensures Reloaded(w).sess.inFlight == map[2 := Entry(2, HOLIDAYS, 0, 1)]
  {
    var w1 := BeforeSecondFlush(cfg);
    var w2 := SecondFlush(cfg, w1);
    LeadsReaches(cfg, w1, w2);
    ReachesTrans(cfg, START, w1, w2);
    w := Ending(cfg, w2, Locals(0, false, true, Sequenced, []), 0);
    ReachesTrans(cfg, START, w2, w);
    StoredPart(w2.saved, w2.sess.(bands := Bands([], [], [HOLIDAYS], [])));
  }

  lemma StoredPart(saved: SessionSnapshot, s: SessionState)
    requires saved == Save(s) && s.bands == Bands([], [], [HOLIDAYS], []) && s.inFlight == map[2 := Entry(2, HOLIDAYS, 0, 1)]
    ensures Load(saved).bands == s.bands && Load(saved).inFlight == s.inFlight
  {
    SaveAndLoad(s);
  }
}
