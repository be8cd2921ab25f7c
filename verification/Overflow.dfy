/** internal/session/manager.go, the drop_oldest loop of enqueueLocked: which commands a
    full queue gives up, and how many. */
module Overflow {
  import opened Sums
  import opened Commands
  import opened PriorityBands
  import opened Policy
  import opened Sessions

  /** Created earlier, or at the same time and standing earlier in the snapshot. */
  predicate Older(s: seq<Command>, i: nat, j: nat)
    requires i < |s| && j < |s|
  {
    s[i].createdAt < s[j].createdAt || (s[i].createdAt == s[j].createdAt && i < j)
  }

  /** The limits, on a queue of a given length and size. */
  predicate FitsIn(cfg: Config, length: int, bytes: int, c: Command) {
    && (cfg.maxQueueDepth > 0 ==> length + 1 <= cfg.maxQueueDepth)
    && (cfg.maxQueueBytes > 0 ==> bytes + EstimatedCommandBytes(c) <= cfg.maxQueueBytes)
  }

  predicate Indices(idx: seq<nat>, n: nat) {
    forall i :: 0 <= i < |idx| ==> idx[i] < n
  }

  function Select(s: seq<Command>, idx: seq<nat>): (r: seq<Command>)
    requires Indices(idx, |s|)
    ensures |r| == |idx|
  {
    seq(|idx|, i requires 0 <= i < |idx| => s[idx[i]])
  }

  predicate Increasing(idx: seq<nat>) {
    forall i, j :: 0 <= i < j < |idx| ==> idx[i] < idx[j]
  }

  predicate AgeOrdered(s: seq<Command>, idx: seq<nat>)
    requires Indices(idx, |s|)
  {
    forall i, j :: 0 <= i < j < |idx| ==> Older(s, idx[i], idx[j])
  }

  predicate AllOlder(s: seq<Command>, gone: seq<nat>, kept: seq<nat>)
    requires Indices(gone, |s|) && Indices(kept, |s|)
  {
    forall i, j :: 0 <= i < |gone| && 0 <= j < |kept| ==> Older(s, gone[i], kept[j])
  }

  /** `kept` and `gone` split the positions of s: survivors in their original order, the
      dropped in age order, and everything dropped older than everything kept. */
  predicate OldestFirstSplit(s: seq<Command>, kept: seq<nat>, gone: seq<nat>) {
    && Indices(kept, |s|) && Indices(gone, |s|)
    && |kept| + |gone| == |s|
    && Increasing(kept) && AgeOrdered(s, gone) && AllOlder(s, gone, kept)
  }

  function Up(i: nat, k: nat): nat {
    if k < i then k else k + 1
  }

  function UpAll(i: nat, idx: seq<nat>): (r: seq<nat>)
    ensures |r| == |idx|
  {
    seq(|idx|, j requires 0 <= j < |idx| => Up(i, idx[j]))
  }

  /** t is s without position i. */
  predicate Shorter(s: seq<Command>, t: seq<Command>, i: nat) {
    i < |s| && |t| == |s| - 1 && forall k :: 0 <= k < |t| ==> t[k] == s[Up(i, k)]
  }

  /** Position i is older than all others. */
  predicate Eldest(s: seq<Command>, i: nat) {
    i < |s| && forall k :: 0 <= k < |s| - 1 ==> Older(s, i, Up(i, k))
  }

  lemma UpKeepsAge(s: seq<Command>, t: seq<Command>, i: nat, a: nat, b: nat)
    requires Shorter(s, t, i) && a < |t| && b < |t| && Older(t, a, b)
    ensures Older(s, Up(i, a), Up(i, b))
  {
  }

  lemma AgeOrderedGrows(s: seq<Command>, t: seq<Command>, i: nat, gone: seq<nat>)
    requires Shorter(s, t, i) && Eldest(s, i) && Indices(gone, |t|) && AgeOrdered(t, gone)
    ensures Indices([i] + UpAll(i, gone), |s|) && AgeOrdered(s, [i] + UpAll(i, gone))
  {
    var gone' := [i] + UpAll(i, gone);
    forall a, b | 0 <= a < b < |gone'| ensures Older(s, gone'[a], gone'[b]) {
      assert gone'[b] == Up(i, gone[b - 1]);
      if a > 0 {
        assert Older(t, gone[a - 1], gone[b - 1]);
        UpKeepsAge(s, t, i, gone[a - 1], gone[b - 1]);
      }
    }
  }

  lemma AllOlderGrows(s: seq<Command>, t: seq<Command>, i: nat, gone: seq<nat>, kept: seq<nat>)
    requires Shorter(s, t, i) && Eldest(s, i) && Indices(gone, |t|) && Indices(kept, |t|) && AllOlder(t, gone, kept)
    ensures Indices([i] + UpAll(i, gone), |s|) && Indices(UpAll(i, kept), |s|)
    ensures AllOlder(s, [i] + UpAll(i, gone), UpAll(i, kept))
  {
    var kept', gone' := UpAll(i, kept), [i] + UpAll(i, gone);
    forall a, b | 0 <= a < |gone'| && 0 <= b < |kept'| ensures Older(s, gone'[a], kept'[b]) {
      assert kept'[b] == Up(i, kept[b]);
      if a > 0 {
        assert Older(t, gone[a - 1], kept[b]);
        UpKeepsAge(s, t, i, gone[a - 1], kept[b]);
      }
    }
  }

  lemma SplitGrows(s: seq<Command>, kept: seq<nat>, gone: seq<nat>)
    requires s != [] && OldestFirstSplit(RemoveAt(s, Oldest(s)), kept, gone)
    ensures OldestFirstSplit(s, UpAll(Oldest(s), kept), [Oldest(s)] + UpAll(Oldest(s), gone))
  {
    var i := Oldest(s);
    var t := RemoveAt(s, i);
    AgeOrderedGrows(s, t, i, gone);
    AllOlderGrows(s, t, i, gone, kept);
  }

  lemma SelectUp(s: seq<Command>, i: nat, idx: seq<nat>)
    requires i < |s| && Indices(idx, |s| - 1)
    ensures Indices(UpAll(i, idx), |s|)
    ensures Select(s, UpAll(i, idx)) == Select(RemoveAt(s, i), idx)
  {
  }

  lemma SelectFirst(s: seq<Command>, i: nat, idx: seq<nat>)
    requires i < |s| && Indices(idx, |s| - 1)
    ensures Indices([i] + UpAll(i, idx), |s|)
    ensures Select(s, [i] + UpAll(i, idx)) == [s[i]] + Select(RemoveAt(s, i), idx)
  {
    SelectUp(s, i, idx);
    assert Select(s, [i] + UpAll(i, idx)) == [s[i]] + Select(s, UpAll(i, idx));
  }

  /** The loop drops a prefix of the queue in age order, no longer than it has to be:
      before each drop some limit was exceeded. */
  lemma {:induction false} DropsShortestOldestPrefix(cfg: Config, b: Bands, c: Command)
    returns (kept: seq<nat>, gone: seq<nat>)
    ensures var s := Snapshot(b); var (rest, dropped) := MakeRoom(cfg, b, c);
            && OldestFirstSplit(s, kept, gone)
            && Snapshot(rest) == Select(s, kept)
            && dropped == Select(s, gone)
            && Forced(cfg, s, dropped, c)
    decreases Length(b)
  {
    var s := Snapshot(b);
    if Fits(cfg, b, c) || Length(b) == 0 {
      kept, gone := seq(|s|, i => i), [];
      assert Select(s, kept) == s;
    } else {
      var i := Oldest(s);
      var b' := DropOldest(b);
      var (_, dropped') := MakeRoom(cfg, b', c);
      var kept', gone' := DropsShortestOldestPrefix(cfg, b', c);
      kept, gone := UpAll(i, kept'), [i] + UpAll(i, gone');
      SplitGrows(s, kept', gone');
      SelectUp(s, i, kept');
      SelectFirst(s, i, gone');
      SumOfSnapshot(b, Size());
      ForcedGrows(cfg, s, i, dropped', c);
    }
  }

  /** The bytes freed by the first j drops. */
  function Freed(dropped: seq<Command>, j: nat): int
    requires j <= |dropped|
  {
    Sum(dropped[..j], Size())
  }

  /** Before each of the drops, with the earlier ones gone, the new command did not fit. */
  ghost predicate Forced(cfg: Config, s: seq<Command>, dropped: seq<Command>, c: Command) {
    forall j :: 0 <= j < |dropped| ==> !FitsIn(cfg, |s| - j, Sum(s, Size()) - Freed(dropped, j), c)
  }

  lemma ForcedGrows(cfg: Config, s: seq<Command>, i: nat, dropped: seq<Command>, c: Command)
    requires i < |s| && !FitsIn(cfg, |s|, Sum(s, Size()), c)
    requires Forced(cfg, RemoveAt(s, i), dropped, c)
    ensures Forced(cfg, s, [s[i]] + dropped, c)
  {
    SumRemove(s, i, Size());
    var all := [s[i]] + dropped;
    forall j | 0 <= j < |all| ensures !FitsIn(cfg, |s| - j, Sum(s, Size()) - Freed(all, j), c) {
      FreedFirst(s[i], dropped, j);
    }
  }

  lemma FreedFirst(first: Command, dropped: seq<Command>, j: nat)
    requires j <= |dropped| + 1
    ensures Freed([first] + dropped, j) == if j == 0 then 0 else Size()(first) + Freed(dropped, j - 1)
  {
    var front := ([first] + dropped)[..j];
    if j > 0 {
      SumPop(front, Size());
      assert front[1..] == dropped[..j - 1];
    }
  }

  lemma TotalNotNegative(b: Bands)
    ensures TotalEstimatedBytes(b) >= 0
  {
    SumAtLeast(b.high, Size(), 0);
    SumAtLeast(b.fw, Size(), 0);
    SumAtLeast(b.sync, Size(), 0);
    SumAtLeast(b.query, Size(), 0);
  }

  /** Under drop_oldest a command is accepted exactly when it would fit into an empty
      queue; one that would not empties the queue and is then refused. */
  lemma AcceptedIffFitsAlone(cfg: Config, b: Bands, c: Command)
    requires cfg.overflow == DropOldestFirst
    ensures Admit(cfg, b, c).status == Queued <==> FitsIn(cfg, 0, 0, c)
    ensures !FitsIn(cfg, 0, 0, c) ==> Admit(cfg, b, c).status == QueueBytesFull && Admit(cfg, b, c).bands == EMPTY_BANDS
  {
    var (rest, _) := MakeRoom(cfg, b, c);
    TotalNotNegative(b);
    TotalNotNegative(rest);
    if Length(rest) == 0 { assert rest == EMPTY_BANDS; }
  }

  predicate WithinLimits(cfg: Config, b: Bands) {
    && (cfg.maxQueueDepth > 0 ==> Length(b) <= cfg.maxQueueDepth)
    && (cfg.maxQueueBytes > 0 ==> TotalEstimatedBytes(b) <= cfg.maxQueueBytes)
  }

  lemma PushWithinLimits(cfg: Config, b: Bands, c: Command)
    requires Fits(cfg, b, c)
    ensures WithinLimits(cfg, Push(b, c))
  {
    SumOfPush(b, c, Size());
  }

  /** Both limits hold right after every accepted command. */
  lemma LimitsHoldAfterAdmission(cfg: Config, b: Bands, c: Command)
    requires Admit(cfg, b, c).status == Queued
    ensures WithinLimits(cfg, Admit(cfg, b, c).bands)
  {
    if Fits(cfg, b, c) {
      PushWithinLimits(cfg, b, c);
    } else {
      PushWithinLimits(cfg, MakeRoom(cfg, b, c).0, c);
    }
  }
}
