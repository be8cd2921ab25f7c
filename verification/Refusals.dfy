/** internal/session/manager.go, lines 293 to 319: under drop_oldest, a command larger than the
    byte limit empties the queue before it is refused. */
module Refusals {
  import opened Bytes
  import opened Results
  import opened Payloads
  import opened Framing
  import opened Commands
  import opened PriorityBands
  import opened Policy
  import opened Sessions
  import opened Overflow
  import opened Engine
  import opened Runs
  import opened Rounds
  import opened Histories
  import opened SlotReuse

  /** A custom command with the longest argument there is. */
  lemma LargestExists() returns (c: Command)
    ensures EstimatedCommandBytes(c) == 65549 && Accepts(c.commandId, c.payload)
    ensures c == Core(c) && Normalize(c) == Some(c) && c.dedupKey == ""
  {
    var p: seq<byte> := [0, 255, 255] + seq(65535, i => 0);
    c := Command("", "", 27, 0, 0, p, Query, 0, 0);
  }

  lemma RefusedStep(cfg: Config, w: World, c: Command)
    requires cfg.overflow == DropOldestFirst && !FitsIn(cfg, 0, 0, c)
    requires Normalize(c) == Some(c) && c.dedupKey == ""
    ensures var (w', status) := EnqueueStep(cfg, w, c, 0);
            && status == QueueBytesFull && w'.sess == w.sess.(bands := EMPTY_BANDS)
            && w'.pc == w.pc && w'.saved == w.saved
  {
    AcceptedIffFitsAlone(cfg, w.sess.bands, c);
  }

  lemma OneQueued(cfg: Config, mode: FrameMode) returns (w: World)
    requires RoomFor(cfg, 1)
    ensures Reaches(cfg, START, w) && Quiet(w, Bands([], [], [], [Request("", 0, 0)]), 0, mode) && Synced(w)
  {
    var r := Request("", 0, 0);
    var v := Beginning(cfg, mode);
    RoomInEmpty(cfg, r);
    w := TakingIn(cfg, v, r, 0);
    ContinuesReaches(cfg, v, w);
    ReachesTrans(cfg, START, v, w);
    assert [] + [r] == [r];
  }

  /** A run from the start, for every byte limit that a valid command can exceed: a waiting
      request is dropped for a command that is then refused, and a restart brings it back. */
  lemma RefusalEmptiesQueue(cfg: Config, mode: FrameMode) returns (w: World, c: Command)
    requires cfg.overflow == DropOldestFirst && RoomFor(cfg, 1) && 0 < cfg.maxQueueBytes < 65549
    ensures Reaches(cfg, START, w) && w.sess.bands == Bands([], [], [], [Request("", 0, 0)])
    ensures Accepts(c.commandId, c.payload) && Enabled(w, Enqueue(c, 0))
    ensures var (w', status) := EnqueueStep(cfg, w, c, 0);
            && status == QueueBytesFull && w'.sess.bands == EMPTY_BANDS
            && Reloaded(w').sess.bands == Bands([], [], [], [Request("", 0, 0)])
  {
    w := OneQueued(cfg, mode);
    c := LargestExists();
    RefusedStep(cfg, w, c);
    SaveAndLoad(w.sess);
  }
}
