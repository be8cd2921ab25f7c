/** internal/session/manager.go, ProcessInFlight: a range over a Go map comes in any order,
    and an entry deleted and stored again may come again. The result does not depend on it. */
module SweepOrder {
  import opened Bytes
  import opened Messages
  import opened Sums
  import opened Commands
  import opened PriorityBands
  import opened Policy
  import opened Sessions
  import opened Engine

  type Judgement = Entry -> Verdict

  function Verdicts(cfg: Config, now: Time): Judgement {
    (e: Entry) => Judge(cfg, e, now)
  }

  function VisitsBy(judge: Judgement, w: World, order: seq<byte>): World {
    if order == [] then w
    else
      var w', key := VisitsBy(judge, w, order[..|order| - 1]), order[|order| - 1];
      if key in w'.sess.inFlight then Settle(w', key, judge(w'.sess.inFlight[key])) else w'
  }

  lemma {:induction false} VisitsAreBy(cfg: Config, w: World, order: seq<byte>, now: Time)
    ensures Visits(cfg, w, order, now) == VisitsBy(Verdicts(cfg, now), w, order)
    decreases |order|
  {
    if order != [] { VisitsAreBy(cfg, w, order[..|order| - 1], now); }
  }

  /** The entries left when the keys in `seen` have been visited. */
  function Left(judge: Judgement, m: Table, seen: set<byte>): Table {
    map k | k in m && (k in seen ==> judge(m[k]) == Keep) :: m[k]
  }

  /** A sum over the entries under the keys in `seen`, each counted once. */
  function Yield(m: Table, seen: set<byte>, v: (byte, Entry) -> int, n: nat): int
    requires n <= 256
  {
    if n == 0 then 0
    else
      var k: byte := n - 1;
      Yield(m, seen, v, n - 1) + (if k in m && k in seen then v(k, m[k]) else 0)
  }

  lemma {:induction false} YieldGrows(m: Table, seen: set<byte>, v: (byte, Entry) -> int, key: byte, n: nat)
    requires n <= 256 && key in m && key !in seen
    ensures Yield(m, seen + {key}, v, n) == Yield(m, seen, v, n) + (if key < n then v(key, m[key]) else 0)
  {
    if n != 0 { YieldGrows(m, seen, v, key, n - 1); }
  }

  lemma {:induction false} YieldAgrees(m: Table, seen: set<byte>, seen': set<byte>, v: (byte, Entry) -> int, n: nat)
    requires n <= 256 && forall k :: k in m ==> (k in seen <==> k in seen')
    ensures Yield(m, seen, v, n) == Yield(m, seen', v, n)
  {
    if n != 0 { YieldAgrees(m, seen, seen', v, n - 1); }
  }

  lemma {:induction false} YieldOfNone(m: Table, v: (byte, Entry) -> int, n: nat)
    requires n <= 256
    ensures Yield(m, {}, v, n) == 0
  {
    if n != 0 { YieldOfNone(m, v, n - 1); }
  }

  function OutcomeWeight(verdict: Verdict, e: Entry, f: Event -> int): int {
    match verdict
    case Keep => 0
    case Expire => f(EndedFlying(Expired, e))
    case Fail => f(EndedFlying(Failed, e))
    case Retry => f(Retrying(e))
  }

  /** What one visit adds to a weighted sum over the log. */
  function LogYield(judge: Judgement, f: Event -> int): (byte, Entry) -> int {
    (k: byte, e: Entry) => OutcomeWeight(judge(e), e, f)
  }

  /** What one visit adds to a weighted sum over the queue. */
  function QueueYield(judge: Judgement, g: Command -> int): (byte, Entry) -> int {
    (k: byte, e: Entry) => if judge(e) == Retry then g(Requeued(e, k)) else 0
  }

  function Seen(order: seq<byte>): set<byte> {
    set k | k in order
  }

  lemma SeenPush(order: seq<byte>)
    requires order != []
    ensures Seen(order) == Seen(order[..|order| - 1]) + {order[|order| - 1]}
  {
    assert order == order[..|order| - 1] + [order[|order| - 1]];
  }

  /** Everything but queue and log, after visiting some keys in some order. */
  lemma {:induction false} TableForm(judge: Judgement, w: World, order: seq<byte>)
    ensures var r := VisitsBy(judge, w, order);
            && r.sess == w.sess.(inFlight := Left(judge, w.sess.inFlight, Seen(order)), bands := r.sess.bands)
            && r.pc == w.pc
    decreases |order|
  {
    var m := w.sess.inFlight;
    if order == [] {
      assert Left(judge, m, {}) == m;
    } else {
      var init, key := order[..|order| - 1], order[|order| - 1];
      TableForm(judge, w, init);
      SeenPush(order);
      if key in m && judge(m[key]) != Keep {
        assert Left(judge, m, Seen(order)) == Left(judge, m, Seen(init)) - {key};
      } else {
        assert Left(judge, m, Seen(order)) == Left(judge, m, Seen(init));
      }
    }
  }

  lemma SettleSums(w: World, key: byte, judge: Judgement, f: Event -> int, g: Command -> int)
    requires key in w.sess.inFlight
    ensures var e := w.sess.inFlight[key]; var r := Settle(w, key, judge(e));
            && Sum(r.log, f) == Sum(w.log, f) + LogYield(judge, f)(key, e)
            && SumBands(r.sess.bands, g) == SumBands(w.sess.bands, g) + QueueYield(judge, g)(key, e)
  {
    var e := w.sess.inFlight[key];
    match judge(e)
    case Keep =>
    case Expire => SumPush(w.log, EndedFlying(Expired, e), f);
    case Fail => SumPush(w.log, EndedFlying(Failed, e), f);
    case Retry =>
      SumPush(w.log, Retrying(e), f);
      SumOfPush(w.sess.bands, Requeued(e, key), g);
  }

  /** Every weighted sum over log and queue, after visiting some keys in some order. */
  lemma {:induction false} SumForm(judge: Judgement, w: World, order: seq<byte>, f: Event -> int, g: Command -> int)
    ensures var r := VisitsBy(judge, w, order); var m := w.sess.inFlight;
            && Sum(r.log, f) == Sum(w.log, f) + Yield(m, Seen(order), LogYield(judge, f), 256)
            && SumBands(r.sess.bands, g) == SumBands(w.sess.bands, g) + Yield(m, Seen(order), QueueYield(judge, g), 256)
    decreases |order|
  {
    var m := w.sess.inFlight;
    var lv, qv := LogYield(judge, f), QueueYield(judge, g);
    if order == [] {
      assert Seen(order) == {};
      YieldOfNone(m, lv, 256);
      YieldOfNone(m, qv, 256);
    } else {
      var init, key := order[..|order| - 1], order[|order| - 1];
      SumForm(judge, w, init, f, g);
      TableForm(judge, w, init);
      SeenPush(order);
      var r := VisitsBy(judge, w, init);
      if key in r.sess.inFlight { SettleSums(r, key, judge, f, g); }
      if key in m && key !in Seen(init) {
        YieldGrows(m, Seen(init), lv, key, 256);
        YieldGrows(m, Seen(init), qv, key, 256);
      } else {
        YieldAgrees(m, Seen(order), Seen(init), lv, 256);
        YieldAgrees(m, Seen(order), Seen(init), qv, 256);
      }
    }
  }

  /** Two covering orders agree on every weighted sum over log and queue. */
  lemma SumsAgree(cfg: Config, w: World, order: seq<byte>, order': seq<byte>, now: Time, f: Event -> int, g: Command -> int)
    requires Covers(w, order) && Covers(w, order')
    ensures var r, r' := Visits(cfg, w, order, now), Visits(cfg, w, order', now);
            Sum(r.log, f) == Sum(r'.log, f) && SumBands(r.sess.bands, g) == SumBands(r'.sess.bands, g)
  {
    var judge := Verdicts(cfg, now);
    VisitsAreBy(cfg, w, order, now);
    VisitsAreBy(cfg, w, order', now);
    SumForm(judge, w, order, f, g);
    SumForm(judge, w, order', f, g);
    YieldAgrees(w.sess.inFlight, Seen(order), Seen(order'), LogYield(judge, f), 256);
    YieldAgrees(w.sess.inFlight, Seen(order), Seen(order'), QueueYield(judge, g), 256);
  }

  function Equals<T(==)>(x: T): T -> int {
    (y: T) => if y == x then 1 else 0
  }

  lemma {:induction false} CountIsSum<T>(s: seq<T>, x: T)
    ensures multiset(s)[x] == Sum(s, Equals(x))
    decreases |s|
  {
    if s != [] {
      CountIsSum(s[..|s| - 1], x);
      assert s == s[..|s| - 1] + [s[|s| - 1]];
    }
  }

  /** Whatever the order: the same entries stay in flight, the same outcomes are published,
      the same commands go back to the queue, and nothing else changes. */
  lemma SweepOrderIrrelevant(cfg: Config, w: World, order: seq<byte>, order': seq<byte>, now: Time)
    requires Covers(w, order) && Covers(w, order')
    ensures var r, r' := Visits(cfg, w, order, now), Visits(cfg, w, order', now);
            && r'.sess == r.sess.(bands := r'.sess.bands)
            && r'.pc == r.pc
            && multiset(Snapshot(r'.sess.bands)) == multiset(Snapshot(r.sess.bands))
            && multiset(r'.log) == multiset(r.log)
  {
    var r, r' := Visits(cfg, w, order, now), Visits(cfg, w, order', now);
    var judge := Verdicts(cfg, now);
    assert r'.sess == r.sess.(bands := r'.sess.bands) && r'.pc == r.pc by {
      VisitsAreBy(cfg, w, order, now);
      VisitsAreBy(cfg, w, order', now);
      TableForm(judge, w, order);
      TableForm(judge, w, order');
      assert Left(judge, w.sess.inFlight, Seen(order)) == Left(judge, w.sess.inFlight, Seen(order'));
    }
    forall e: Event ensures multiset(r'.log)[e] == multiset(r.log)[e] {
      SumsAgree(cfg, w, order, order', now, Equals(e), Size());
      CountIsSum(r.log, e);
      CountIsSum(r'.log, e);
    }
    forall c: Command ensures multiset(Snapshot(r'.sess.bands))[c] == multiset(Snapshot(r.sess.bands))[c] {
      SumsAgree(cfg, w, order, order', now, (e: Event) => 0, Equals(c));
      SumOfSnapshot(r.sess.bands, Equals(c));
      SumOfSnapshot(r'.sess.bands, Equals(c));
      CountIsSum(Snapshot(r.sess.bands), c);
      CountIsSum(Snapshot(r'.sess.bands), c);
    }
  }

  /** What a sweep leaves in flight: exactly the entries it judges to keep. */
  lemma SweepKeepsExactly(cfg: Config, w: World, order: seq<byte>, now: Time)
    requires Covers(w, order)
    ensures var m, m' := w.sess.inFlight, Visits(cfg, w, order, now).sess.inFlight;
            forall k :: k in m' <==> k in m && Judge(cfg, m[k], now) == Keep
    ensures var m, m' := w.sess.inFlight, Visits(cfg, w, order, now).sess.inFlight;
            forall k :: k in m' ==> k in m && m'[k] == m[k]
  {
    var judge := Verdicts(cfg, now);
    VisitsAreBy(cfg, w, order, now);
    TableForm(judge, w, order);
    var m, m' := w.sess.inFlight, Visits(cfg, w, order, now).sess.inFlight;
    forall k: byte ensures k in m' <==> k in m && Judge(cfg, m[k], now) == Keep {
      if k in m { assert judge(m[k]) == Judge(cfg, m[k], now); }
    }
  }

  /** When an entry is still waiting for its acknowledgement, or for a late one. */
  predicate StillWaiting(cfg: Config, e: Entry, now: Time) {
    || now < e.sentAt + EntryWait(cfg, e)
    || (!IsExpired(e.cmd, now) && e.attempts > MaxRetries(cfg, e.cmd)
        && now < e.sentAt + Wrap64(EntryWait(cfg, e) + 2_000_000_000))
  }

  /** The table after a sweep, in any order and for every policy: exactly the entries whose wait
      lasts, and those unexpired, out of retries and within the grace period, all unchanged. */
  lemma SweepLeaves(cfg: Config, w: World, order: seq<byte>, now: Time)
    requires Covers(w, order)
    ensures var m, m' := w.sess.inFlight, SweepStep(cfg, w, order, now).sess.inFlight;
            && (forall k :: k in m' <==> k in m && StillWaiting(cfg, m[k], now))
            && (forall k :: k in m' ==> m'[k] == m[k])
  {
    SweepKeepsExactly(cfg, w, order, now);
    forall k | k in w.sess.inFlight
      ensures Judge(cfg, w.sess.inFlight[k], now) == Keep <==> StillWaiting(cfg, w.sess.inFlight[k], now)
    {
      KeepMeans(cfg, w.sess.inFlight[k], now);
    }
  }

  lemma KeepMeans(cfg: Config, e: Entry, now: Time)
    ensures Judge(cfg, e, now) == Keep <==> StillWaiting(cfg, e, now)
  {
  }
}
