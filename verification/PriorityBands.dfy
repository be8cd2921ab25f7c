/** internal/queue/queue.go: the four priority bands of one controller, as a value. */
module PriorityBands {
  import opened Results
  import opened Sums
  import opened Commands

  datatype Bands = Bands(high: seq<Command>, fw: seq<Command>, sync: seq<Command>, query: seq<Command>)

  const EMPTY_BANDS := Bands([], [], [], [])

  function Push(b: Bands, c: Command): Bands {
    match c.priority
    case High => b.(high := b.high + [c])
    case Fw => b.(fw := b.fw + [c])
    case Sync => b.(sync := b.sync + [c])
    case _ => b.(query := b.query + [c])
  }

  function Length(b: Bands): nat {
    |b.high| + |b.fw| + |b.sync| + |b.query|
  }

  function Snapshot(b: Bands): (s: seq<Command>)
    ensures |s| == Length(b)
  {
    b.high + b.fw + b.sync + b.query
  }

  function PushAll(b: Bands, cmds: seq<Command>): Bands {
    if cmds == [] then b else Push(PushAll(b, cmds[..|cmds| - 1]), cmds[|cmds| - 1])
  }

  function PopNext(b: Bands, fwMode: bool, syncMode: bool): Option<(Command, Bands)> {
    if b.high != [] then Some((b.high[0], b.(high := b.high[1..])))
    else if fwMode then
      if b.fw != [] then Some((b.fw[0], b.(fw := b.fw[1..]))) else None
    else if syncMode then
      if b.sync != [] then Some((b.sync[0], b.(sync := b.sync[1..]))) else None
    else if b.fw != [] then Some((b.fw[0], b.(fw := b.fw[1..])))
    else if b.sync != [] then Some((b.sync[0], b.(sync := b.sync[1..])))
    else if b.query != [] then Some((b.query[0], b.(query := b.query[1..])))
    else None
  }

  function Unexpired(b: Bands, now: Time): Bands {
    Bands(Filter(b.high, Live(now)), Filter(b.fw, Live(now)), Filter(b.sync, Live(now)), Filter(b.query, Live(now)))
  }

  function Drained(b: Bands, now: Time): seq<Command> {
    Filter(b.high, Not(Live(now))) + Filter(b.fw, Not(Live(now)))
    + Filter(b.sync, Not(Live(now))) + Filter(b.query, Not(Live(now)))
  }

  function TotalEstimatedBytes(b: Bands): int {
    SumBands(b, Size())
  }

  /** Position, in snapshot order, of the command DropOldest picks: created first, and
      among equals the first in band order. */
  function Oldest(s: seq<Command>): (r: nat)
    requires s != []
    ensures r < |s|
    ensures forall i :: 0 <= i < |s| ==> s[r].createdAt <= s[i].createdAt
    ensures forall i :: 0 <= i < r ==> s[r].createdAt < s[i].createdAt
  {
    if |s| == 1 then 0
    else
      var r := Oldest(s[..|s| - 1]);
      if s[|s| - 1].createdAt < s[r].createdAt then |s| - 1 else r
  }

  function RemoveAt<T>(s: seq<T>, i: nat): (r: seq<T>)
    requires i < |s|
    ensures |r| == |s| - 1
  {
    s[..i] + s[i + 1..]
  }

  /** The queue without the command at a given snapshot position. */
  function RemoveFrom(b: Bands, i: nat): (r: Bands)
    requires i < Length(b)
    ensures Length(r) == Length(b) - 1
    ensures Snapshot(r) == RemoveAt(Snapshot(b), i)
  {
    var j := i - |b.high|;
    var k := j - |b.fw|;
    var l := k - |b.sync|;
    if j < 0 then b.(high := RemoveAt(b.high, i))
    else if k < 0 then b.(fw := RemoveAt(b.fw, j))
    else if l < 0 then b.(sync := RemoveAt(b.sync, k))
    else b.(query := RemoveAt(b.query, l))
  }

  function DropOldest(b: Bands): Bands
    requires Length(b) > 0
  {
    RemoveFrom(b, Oldest(Snapshot(b)))
  }

  // ---- Weights ----

  /** The sum of a weight over all queued commands. */
  function SumBands(b: Bands, w: Command -> int): int {
    Sum(b.high, w) + Sum(b.fw, w) + Sum(b.sync, w) + Sum(b.query, w)
  }

  lemma SumOfPush(b: Bands, c: Command, w: Command -> int)
    ensures SumBands(Push(b, c), w) == SumBands(b, w) + w(c)
  {
    match c.priority
    case High => SumPush(b.high, c, w);
    case Fw => SumPush(b.fw, c, w);
    case Sync => SumPush(b.sync, c, w);
    case _ => SumPush(b.query, c, w);
  }

  lemma SumOfPop(b: Bands, fwMode: bool, syncMode: bool, w: Command -> int)
    requires PopNext(b, fwMode, syncMode).Some?
    ensures var (c, rest) := PopNext(b, fwMode, syncMode).value;
            SumBands(b, w) == w(c) + SumBands(rest, w)
  {
    if b.high != [] { SumPop(b.high, w); }
    if b.fw != [] { SumPop(b.fw, w); }
    if b.sync != [] { SumPop(b.sync, w); }
    if b.query != [] { SumPop(b.query, w); }
  }

  lemma SumOfSnapshot(b: Bands, w: Command -> int)
    ensures Sum(Snapshot(b), w) == SumBands(b, w)
  {
    SumConcat(b.high, b.fw, w);
    SumConcat(b.high + b.fw, b.sync, w);
    SumConcat(b.high + b.fw + b.sync, b.query, w);
  }

  lemma SumOfDrain(b: Bands, now: Time, w: Command -> int)
    ensures SumBands(b, w) == SumBands(Unexpired(b, now), w) + Sum(Drained(b, now), w)
  {
    var gone := Not(Live(now));
    SumFilter(b.high, Live(now), w);
    SumFilter(b.fw, Live(now), w);
    SumFilter(b.sync, Live(now), w);
    SumFilter(b.query, Live(now), w);
    SumConcat(Filter(b.high, gone), Filter(b.fw, gone), w);
    SumConcat(Filter(b.high, gone) + Filter(b.fw, gone), Filter(b.sync, gone), w);
    SumConcat(Filter(b.high, gone) + Filter(b.fw, gone) + Filter(b.sync, gone), Filter(b.query, gone), w);
  }

  lemma SumOfRemove(b: Bands, i: nat, w: Command -> int)
    requires i < Length(b)
    ensures SumBands(b, w) == w(Snapshot(b)[i]) + SumBands(RemoveFrom(b, i), w)
  {
    SumOfSnapshot(b, w);
    SumOfSnapshot(RemoveFrom(b, i), w);
    SumRemove(Snapshot(b), i, w);
  }

  // ---- Bands and priorities ----

  /** Every command stands in the band its priority names. */
  predicate Sorted(b: Bands) {
    && (forall c :: c in b.high ==> BandOf(c.priority) == 0)
    && (forall c :: c in b.fw ==> BandOf(c.priority) == 1)
    && (forall c :: c in b.sync ==> BandOf(c.priority) == 2)
    && (forall c :: c in b.query ==> BandOf(c.priority) == 3)
  }

  /** The band a priority names, counted in snapshot order. */
  function BandOf(p: Priority): nat {
    match p
    case High => 0
    case Fw => 1
    case Sync => 2
    case _ => 3
  }

  lemma {:induction false} PushAllConcat(b: Bands, s: seq<Command>, t: seq<Command>)
    ensures PushAll(b, s + t) == PushAll(PushAll(b, s), t)
    decreases |t|
  {
    if t == [] {
      assert s + t == s;
    } else {
      assert (s + t)[..|s + t| - 1] == s + t[..|t| - 1];
      PushAllConcat(b, s, t[..|t| - 1]);
    }
  }

  /** Pushing commands of one band appends them to that band, in order. */
  lemma {:induction false} PushAllOneBand(b: Bands, s: seq<Command>, band: nat)
    requires forall c :: c in s ==> BandOf(c.priority) == band
    ensures PushAll(b, s) == Bands(
              b.high + (if band == 0 then s else []),
              b.fw + (if band == 1 then s else []),
              b.sync + (if band == 2 then s else []),
              b.query + (if band == 3 then s else []))
    decreases |s|
  {
    if s != [] {
      var init, last := s[..|s| - 1], s[|s| - 1];
      PushAllOneBand(b, init, band);
      assert s == init + [last];
      assert BandOf(last.priority) == band;
      var r := PushAll(b, init);
      assert band == 0 ==> r.high + [last] == b.high + s;
      assert band == 1 ==> r.fw + [last] == b.fw + s;
      assert band == 2 ==> r.sync + [last] == b.sync + s;
      assert band == 3 ==> r.query + [last] == b.query + s;
    }
  }

  /** Restoring a snapshot rebuilds all four bands, in order. */
  lemma RestoreSnapshot(b: Bands)
    requires Sorted(b)
    ensures PushAll(EMPTY_BANDS, Snapshot(b)) == b
  {
    var b1, b2, b3 := Bands(b.high, [], [], []), Bands(b.high, b.fw, [], []), Bands(b.high, b.fw, b.sync, []);
    assert PushAll(EMPTY_BANDS, b.high) == b1 by { PushAllOneBand(EMPTY_BANDS, b.high, 0); }
    assert PushAll(b1, b.fw) == b2 by { PushAllOneBand(b1, b.fw, 1); }
    assert PushAll(b2, b.sync) == b3 by { PushAllOneBand(b2, b.sync, 2); }
    assert PushAll(b3, b.query) == b by { PushAllOneBand(b3, b.query, 3); }
    PushAllConcat(EMPTY_BANDS, b.high, b.fw);
    PushAllConcat(EMPTY_BANDS, b.high + b.fw, b.sync);
    PushAllConcat(EMPTY_BANDS, b.high + b.fw + b.sync, b.query);
  }
}
