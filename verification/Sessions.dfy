/** internal/session/manager.go: the state of one controller's session, as a value. */
module Sessions {
  import opened Bytes
  import opened Framing
  import opened Commands
  import opened PriorityBands
  import opened Policy
  import opened Backoff

  datatype Entry = Entry(seqNo: byte, cmd: Command, sentAt: Time, attempts: int)

  type Table = map<byte, Entry>

  datatype SessionState = SessionState(
    bands: Bands,
    inFlight: Table,
    nextSeq: byte,
    fwMode: bool,
    syncMode: bool,
    bufferFree: int,
    online: bool,
    frameMode: FrameMode,
    dedup: map<string, Time>)

  const NEW_SESSION := SessionState(EMPTY_BANDS, map[], 0, false, false, 1500, false, Sequenced, map[])

  // ---- Saving and restoring ----

  datatype SessionSnapshot = SessionSnapshot(
    bufferFree: int,
    fwMode: bool,
    syncMode: bool,
    pending: seq<Command>,
    inFlight: seq<Entry>,
    nextSeq: byte)

  /** Entries under keys below n, by key. The source saves them in map order; `LoadAnyOrder`
      shows that the order makes no difference. */
  function EntriesBelow(m: Table, n: nat): (s: seq<Entry>)
    requires n <= 256
    ensures forall e :: e in s <==> exists k: byte :: k < n && k in m && m[k] == e
  {
    if n == 0 then []
    else
      var k: byte := n - 1;
      EntriesBelow(m, n - 1) + (if k in m then [m[k]] else [])
  }

  /** persistLocked */
  function Save(s: SessionState): SessionSnapshot {
    SessionSnapshot(s.bufferFree, s.fwMode, s.syncMode, Snapshot(s.bands), EntriesBelow(s.inFlight, 256), s.nextSeq)
  }

  function TableOf(entries: seq<Entry>): Table {
    if entries == [] then map[]
    else TableOf(entries[..|entries| - 1])[entries[|entries| - 1].seqNo := entries[|entries| - 1]]
  }

  /** Restore, for one session. */
  function Load(snap: SessionSnapshot): SessionState {
    SessionState(
      PushAll(EMPTY_BANDS, snap.pending), TableOf(snap.inFlight), snap.nextSeq, snap.fwMode, snap.syncMode,
      if snap.bufferFree <= 0 then 1500 else snap.bufferFree, false, Sequenced, map[])
  }

  /** Every entry is stored under its own sequence number. */
  predicate Keyed(m: Table) {
    forall k :: k in m ==> m[k].seqNo == k
  }

  lemma {:induction false} TableOfKeys(entries: seq<Entry>)
    ensures forall k :: k in TableOf(entries) <==> exists i :: 0 <= i < |entries| && entries[i].seqNo == k
    ensures forall k :: k in TableOf(entries) ==> TableOf(entries)[k] in entries && TableOf(entries)[k].seqNo == k
    decreases |entries|
  {
    if entries != [] {
      var n := |entries| - 1;
      TableOfKeys(entries[..n]);
      assert forall i :: 0 <= i < n ==> entries[..n][i] == entries[i];
    }
  }

  /** Any listing of a keyed table, in any order, restores that table. */
  lemma LoadAnyOrder(m: Table, entries: seq<Entry>)
    requires Keyed(m)
    requires forall e :: e in entries <==> exists k :: k in m && m[k] == e
    ensures TableOf(entries) == m
  {
    TableOfKeys(entries);
    var t := TableOf(entries);
    forall k | k in t ensures k in m && m[k] == t[k] {
      var k' :| k' in m && m[k'] == t[k];
    }
    forall k | k in m ensures k in t {
      assert m[k] in entries;
    }
  }

  /** Saving and restoring a session rebuilds bands, in-flight table, sequence counter and
      modes. The connection, its frame mode and the duplicate filter start afresh. */
  lemma SaveAndLoad(s: SessionState)
    requires Sorted(s.bands) && Keyed(s.inFlight)
    ensures Load(Save(s)) ==
            s.(bufferFree := if s.bufferFree <= 0 then 1500 else s.bufferFree,
               online := false, frameMode := Sequenced, dedup := map[])
  {
    RestoreSnapshot(s.bands);
    LoadAnyOrder(s.inFlight, EntriesBelow(s.inFlight, 256));
  }

  // ---- Enqueueing ----

  datatype EnqueueStatus = Queued | Duplicate | QueueFull | QueueBytesFull | UnsupportedCommand

  predicate BytesExceeded(cfg: Config, b: Bands, c: Command) {
    cfg.maxQueueBytes > 0 && TotalEstimatedBytes(b) + EstimatedCommandBytes(c) > cfg.maxQueueBytes
  }

  predicate Fits(cfg: Config, b: Bands, c: Command) {
    && !(cfg.maxQueueDepth > 0 && Length(b) + 1 > cfg.maxQueueDepth)
    && !BytesExceeded(cfg, b, c)
  }

  /** The drop_oldest loop: what is left, and what was dropped, oldest first. */
  function MakeRoom(cfg: Config, b: Bands, c: Command): (r: (Bands, seq<Command>))
    ensures Fits(cfg, r.0, c) || Length(r.0) == 0
    decreases Length(b)
  {
    if Fits(cfg, b, c) || Length(b) == 0 then (b, [])
    else
      var (rest, dropped) := MakeRoom(cfg, DropOldest(b), c);
      (rest, [Snapshot(b)[Oldest(Snapshot(b))]] + dropped)
  }

  datatype Admission = Admission(status: EnqueueStatus, bands: Bands, dropped: seq<Command>)

  /** The overflow part of enqueueLocked. */
  function Admit(cfg: Config, b: Bands, c: Command): Admission {
    if Fits(cfg, b, c) then Admission(Queued, Push(b, c), [])
    else
      match cfg.overflow
      case Reject => Admission(if BytesExceeded(cfg, b, c) then QueueBytesFull else QueueFull, b, [])
      case DropOldestFirst =>
        var (rest, dropped) := MakeRoom(cfg, b, c);
        if Fits(cfg, rest, c) then Admission(Queued, Push(rest, c), dropped)
        else Admission(if BytesExceeded(cfg, rest, c) then QueueBytesFull else QueueFull, rest, dropped)
      case Unknown => Admission(QueueFull, b, [])
  }

  const DEDUP_WINDOW := 600 * SECOND

  predicate IsDuplicate(s: SessionState, c: Command, now: Time) {
    c.dedupKey != "" && c.dedupKey in s.dedup && now - s.dedup[c.dedupKey] < DEDUP_WINDOW
  }

  // ---- The sweep ----

  datatype Verdict = Keep | Expire | Fail | Retry

  const LATE_ACK_GRACE := 2 * SECOND

  function EntryWait(cfg: Config, e: Entry): Duration {
    var p := Effective(cfg, e.cmd);
    Wait(p.ackTimeout, e.attempts, p.retryBackoff, JitterSeed(e.seqNo, e.attempts, e.cmd.commandId))
  }

  /** What ProcessInFlight decides about one entry. */
  function Judge(cfg: Config, e: Entry, now: Time): Verdict {
    JudgeAfter(EntryWait(cfg, e), MaxRetries(cfg, e.cmd), e, now)
  }

  function JudgeAfter(wait: Duration, maxRetries: nat, e: Entry, now: Time): Verdict {
    if now < e.sentAt + wait then Keep
    else if IsExpired(e.cmd, now) then Expire
    else if e.attempts >= maxRetries + 1 then
      if now < e.sentAt + Wrap64(wait + LATE_ACK_GRACE) then Keep else Fail
    else Retry
  }

  /** The command of a timed-out entry as it goes back to the queue. */
  function Requeued(e: Entry, key: byte): Command {
    e.cmd.(attempts := e.attempts, retrySeq := key)
  }

  lemma EntryWaits(cfg: Config, e: Entry)
    ensures EntryWait(cfg, e) >= Effective(cfg, e.cmd).ackTimeout > 0
  {
    var p := Effective(cfg, e.cmd);
    WaitAtLeastTimeout(p.ackTimeout, e.attempts, p.retryBackoff, JitterSeed(e.seqNo, e.attempts, e.cmd.commandId));
  }

  lemma JudgeTiming(wait: Duration, maxRetries: nat, e: Entry, now: Time)
    requires 0 <= wait && wait + LATE_ACK_GRACE < 0x8000_0000_0000_0000
    ensures JudgeAfter(wait, maxRetries, e, now) == Keep <==>
            || now < e.sentAt + wait
            || (!IsExpired(e.cmd, now) && e.attempts > maxRetries && now < e.sentAt + wait + LATE_ACK_GRACE)
  {
    WrapSmall(wait + LATE_ACK_GRACE);
  }

  /** An entry survives a sweep exactly while its wait lasts, or through the grace period
      when it is unexpired and out of retries. */
  lemma SweepTiming(cfg: Config, e: Entry, now: Time)
    requires EntryWait(cfg, e) + LATE_ACK_GRACE < 0x8000_0000_0000_0000
    ensures Judge(cfg, e, now) == Keep <==>
            || now < e.sentAt + EntryWait(cfg, e)
            || (!IsExpired(e.cmd, now) && e.attempts > MaxRetries(cfg, e.cmd)
                && now < e.sentAt + EntryWait(cfg, e) + 2_000_000_000)
  {
    EntryWaits(cfg, e);
    JudgeTiming(EntryWait(cfg, e), MaxRetries(cfg, e.cmd), e, now);
  }

  /** Nothing is resolved before its ack timeout, whatever overflows. */
  lemma NotBeforeTimeout(cfg: Config, e: Entry, now: Time)
    requires now < e.sentAt + Effective(cfg, e.cmd).ackTimeout
    ensures Judge(cfg, e, now) == Keep
  {
    EntryWaits(cfg, e);
  }

  /** A policy for which no sum or product overflows. */
  predicate Moderate(p: DeliveryPolicy) {
    p.retryBackoff <= SAFE_BASE && p.ackTimeout <= SAFE_TIMEOUT
  }

  /** The wait of an entry whose policy does not overflow: its timeout and a delay within a fifth
      of the nominal exponential one. */
  lemma EntryWaitBound(cfg: Config, e: Entry)
    requires Moderate(Effective(cfg, e.cmd))
    ensures var p := Effective(cfg, e.cmd); var n := Nominal(e.attempts, p.retryBackoff);
            p.ackTimeout + n - n / 5 <= EntryWait(cfg, e) <= p.ackTimeout + n + n / 5 && 0 <= n <= 64 * SAFE_BASE
  {
    var p := Effective(cfg, e.cmd);
    NominalIs(e.attempts, p.retryBackoff);
    EntryWaits(cfg, e);
    WaitWithinFifth(p.ackTimeout, e.attempts, p.retryBackoff, JitterSeed(e.seqNo, e.attempts, e.cmd.commandId));
  }

  /** Nothing is resolved before its timeout and the shortest backoff of its attempt. */
  lemma NotBeforeBackoff(cfg: Config, e: Entry, now: Time)
    requires Moderate(Effective(cfg, e.cmd))
    requires var n := Nominal(e.attempts, Effective(cfg, e.cmd).retryBackoff);
             now < e.sentAt + Effective(cfg, e.cmd).ackTimeout + n - n / 5
    ensures Judge(cfg, e, now) == Keep
  {
    EntryWaitBound(cfg, e);
  }

  /** Up to the eighth attempt a command waits strictly longer each time, under whatever number. */
  lemma EachAttemptWaitsLonger(cfg: Config, e: Entry, e': Entry)
    requires Moderate(Effective(cfg, e.cmd)) && Effective(cfg, e.cmd).retryBackoff > 0
    requires Core(e'.cmd) == Core(e.cmd) && e'.attempts == e.attempts + 1 && 1 <= e.attempts < 8
    ensures EntryWait(cfg, e) < EntryWait(cfg, e')
  {
    var p := Effective(cfg, e.cmd);
    assert Effective(cfg, e'.cmd) == p by { assert Effective(cfg, Core(e.cmd)) == p; }
    EntryWaits(cfg, e);
    WaitStrictlyIncreases(p.ackTimeout, e.attempts, p.retryBackoff, JitterSeed(e.seqNo, e.attempts, e.cmd.commandId),
                          JitterSeed(e'.seqNo, e'.attempts, e'.cmd.commandId));
  }

  /** Nothing outlives its deadline: timeout, backoff with its jitter, and grace. */
  lemma NotAfterDeadline(cfg: Config, e: Entry, now: Time)
    requires Moderate(Effective(cfg, e.cmd))
    requires var n := Nominal(e.attempts, Effective(cfg, e.cmd).retryBackoff);
             now >= e.sentAt + Effective(cfg, e.cmd).ackTimeout + n + n / 5 + 2_000_000_000
    ensures Judge(cfg, e, now) != Keep
  {
    EntryWaitBound(cfg, e);
    SweepTiming(cfg, e, now);
  }

  /** Whatever the policy and whatever overflows, no sweep keeps an entry longer than the
      longest duration there is. */
  lemma ResolvedEventually(cfg: Config, e: Entry, now: Time)
    requires now >= e.sentAt + 0x7FFF_FFFF_FFFF_FFFF
    ensures Judge(cfg, e, now) != Keep
  {
  }
}
