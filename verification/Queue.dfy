/** internal/queue/queue.go: the queue object, each method proved against its function
    on `Bands`. */
module Queue {
  import opened Results
  import opened Sums
  import opened Commands
  import opened PriorityBands

  class ControllerQueue {
    var high: seq<Command>
    var fw: seq<Command>
    var sync: seq<Command>
    var query: seq<Command>

    ghost function View(): Bands
      reads this
    {
      Bands(high, fw, sync, query)
    }

    constructor ()
      ensures View() == EMPTY_BANDS
    {
      high, fw, sync, query := [], [], [], [];
    }

    method Push(c: Command)
      modifies this
      ensures View() == PriorityBands.Push(old(View()), c)
    {
      match c.priority {
        case High => high := high + [c];
        case Fw => fw := fw + [c];
        case Sync => sync := sync + [c];
        case _ => query := query + [c];
      }
    }

    method PopNext(fwMode: bool, syncMode: bool) returns (r: Option<Command>)
      modifies this
      ensures match PriorityBands.PopNext(old(View()), fwMode, syncMode)
              case Some((c, b)) => r == Some(c) && View() == b
              case None => r == None && View() == old(View())
    {
      if |high| > 0 {
        r := Some(high[0]);
        high := high[1..];
        return;
      }
      if fwMode {
        if |fw| > 0 {
          r := Some(fw[0]);
          fw := fw[1..];
          return;
        }
        return None;
      }
      if syncMode {
        if |sync| > 0 {
          r := Some(sync[0]);
          sync := sync[1..];
          return;
        }
        return None;
      }
      if |fw| > 0 {
        r := Some(fw[0]);
        fw := fw[1..];
      } else if |sync| > 0 {
        r := Some(sync[0]);
        sync := sync[1..];
      } else if |query| > 0 {
        r := Some(query[0]);
        query := query[1..];
      } else {
        r := None;
      }
    }

    /** One band's slice, filtered over its own backing array. */
    static method Drain(band: seq<Command>, now: Time) returns (keep: seq<Command>, expired: seq<Command>)
      ensures keep == Filter(band, Live(now))
      ensures expired == Filter(band, Not(Live(now)))
    {
      var buf := new Command[|band|](i requires 0 <= i < |band| => band[i]);
      assert buf[..] == band;
      var n;
      n, expired := KeepInPlace(buf, Live(now));
      keep := buf[..n];
    }

    method DrainExpired(now: Time) returns (expired: seq<Command>)
      modifies this
      ensures View() == Unexpired(old(View()), now)
      ensures expired == Drained(old(View()), now)
    {
      var drained;
      high, expired := Drain(high, now);
      fw, drained := Drain(fw, now);
      expired := expired + drained;
      sync, drained := Drain(sync, now);
      expired := expired + drained;
      query, drained := Drain(query, now);
      expired := expired + drained;
    }

    method Len() returns (n: nat)
      ensures n == Length(View())
    {
      n := |high| + |fw| + |sync| + |query|;
    }

    method HasFw() returns (r: bool)
      ensures r <==> View().fw != []
    {
      r := |fw| > 0;
    }

    method HasSync() returns (r: bool)
      ensures r <==> View().sync != []
    {
      r := |sync| > 0;
    }

    method TakeSnapshot() returns (out: seq<Command>)
      ensures out == Snapshot(View())
    {
      out := high + fw + sync + query;
    }

    method Restore(cmds: seq<Command>)
      modifies this
      ensures View() == PushAll(EMPTY_BANDS, cmds)
    {
      high, fw, sync, query := [], [], [], [];
      for i := 0 to |cmds|
        invariant View() == PushAll(EMPTY_BANDS, cmds[..i])
      {
        assert cmds[..i + 1][..i] == cmds[..i];
        Push(cmds[i]);
      }
      assert cmds[..|cmds|] == cmds;
    }

    method EstimatedBytes() returns (total: int)
      ensures total == TotalEstimatedBytes(View())
    {
      var h := BandBytes(high);
      var f := BandBytes(fw);
      var s := BandBytes(sync);
      var q := BandBytes(query);
      total := h + f + s + q;
    }

    static method BandBytes(band: seq<Command>) returns (total: int)
      ensures total == Sum(band, Size())
    {
      total := 0;
      for i := 0 to |band|
        invariant total == Sum(band[..i], Size())
      {
        assert band[..i + 1][..i] == band[..i];
        total := total + EstimatedCommandBytes(band[i]);
      }
      assert band[..|band|] == band;
    }

    /** The scan of one band; `pick` is a position in the bands scanned so far. */
    static method Consider(ghost seen: seq<Command>, arr: seq<Command>, pick: Option<(nat, Command)>, base: nat)
      returns (r: Option<(nat, Command)>)
      requires base == |seen|
      requires pick == Best(seen)
      ensures r == Best(seen + arr)
    {
      r := pick;
      assert seen + arr[..0] == seen;
      for i := 0 to |arr|
        invariant r == Best(seen + arr[..i])
      {
        assert seen + arr[..i + 1] == seen + arr[..i] + [arr[i]];
        BestPush(seen + arr[..i], arr[i]);
        if r == None || arr[i].createdAt < r.value.1.createdAt {
          r := Some((base + i, arr[i]));
        }
      }
      assert arr[..|arr|] == arr;
    }

    static function Best(s: seq<Command>): Option<(nat, Command)> {
      if s == [] then None else Some((Oldest(s), s[Oldest(s)]))
    }

    static lemma BestPush(s: seq<Command>, c: Command)
      ensures var best := Best(s);
              Best(s + [c]) == if best == None || c.createdAt < best.value.1.createdAt then Some((|s|, c)) else best
    {
      assert (s + [c])[..|s|] == s;
    }

    /** One band's slice, with one element copied over. */
    static method Cut(band: seq<Command>, idx: nat) returns (r: seq<Command>)
      requires idx < |band|
      ensures r == RemoveAt(band, idx)
    {
      var buf := new Command[|band|](i requires 0 <= i < |band| => band[i]);
      assert buf[..] == band;
      RemoveInPlace(buf, idx);
      r := buf[..buf.Length - 1];
    }

    /** The switch on the band that holds the pick. */
    method CutFrom(at: nat)
      requires at < Length(View())
      modifies this
      ensures View() == RemoveFrom(old(View()), at)
    {
      if at < |high| {
        high := Cut(high, at);
      } else if at < |high| + |fw| {
        fw := Cut(fw, at - |high|);
      } else if at < |high| + |fw| + |sync| {
        sync := Cut(sync, at - |high| - |fw|);
      } else {
        query := Cut(query, at - |high| - |fw| - |sync|);
      }
    }

    method DropOldest() returns (r: Option<Command>)
      modifies this
      ensures Length(old(View())) == 0 ==> r == None && View() == old(View())
      ensures Length(old(View())) > 0 ==>
                && r == Some(Snapshot(old(View()))[Oldest(Snapshot(old(View())))])
                && View() == PriorityBands.DropOldest(old(View()))
    {
      var pick := Consider([], high, None, 0);
      assert [] + high == high;
      pick := Consider(high, fw, pick, |high|);
      pick := Consider(high + fw, sync, pick, |high| + |fw|);
      pick := Consider(high + fw + sync, query, pick, |high| + |fw| + |sync|);
      assert pick == Best(Snapshot(View()));
      if pick == None { return None; }
      CutFrom(pick.value.0);
      r := Some(pick.value.1);
    }
  }
}
