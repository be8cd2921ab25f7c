/** internal/server/command_policy.go: which band a command belongs to, when it may be
    sent, and how long its acknowledgement is awaited. */
module Policy {
  import opened Bytes
  import opened Results
  import opened Commands
  import opened PriorityBands

  const SECOND: int := 1_000_000_000

  function CanonicalPriority(commandId: byte): Option<Priority> {
    if commandId in {1, 2, 3, 5, 8, 17, 18, 19, 23, 24} then Some(High)
    else if commandId in {6, 7, 9, 10, 11, 21, 22, 25, 27} then Some(Query)
    else if 12 <= commandId <= 16 then Some(Sync)
    else if commandId == 20 then Some(Fw)
    else None
  }

  /** normalizeCommandPriority */
  function Normalize(c: Command): Option<Command> {
    match CanonicalPriority(c.commandId)
    case Some(p) => Some(c.(priority := p))
    case None => None
  }

  predicate Normal(c: Command) {
    CanonicalPriority(c.commandId) == Some(c.priority)
  }

  /** commandAllowedInModes */
  predicate Allowed(commandId: byte, fwMode: bool, syncMode: bool) {
    if fwMode then commandId == 20 || CanonicalPriority(commandId) == Some(High)
    else if syncMode then
      if 12 <= commandId <= 16 then true
      else if commandId in {2, 3, 17, 18, 19, 20, 23} then false
      else CanonicalPriority(commandId) == Some(High)
    else true
  }

  predicate AllNormal(b: Bands) {
    && (forall c :: c in b.high ==> Normal(c))
    && (forall c :: c in b.fw ==> Normal(c))
    && (forall c :: c in b.sync ==> Normal(c))
    && (forall c :: c in b.query ==> Normal(c))
  }

  /** Of what the queue hands out, only six high-priority commands can be refused, and
      only during a sync. */
  lemma RefusedWhenPopped(b: Bands, fwMode: bool, syncMode: bool)
    requires Sorted(b) && AllNormal(b) && PopNext(b, fwMode, syncMode).Some?
    ensures var (c, _) := PopNext(b, fwMode, syncMode).value;
            !Allowed(c.commandId, fwMode, syncMode) <==>
              !fwMode && syncMode && c.commandId in {2, 3, 17, 18, 19, 23}
  {
    var (c, _) := PopNext(b, fwMode, syncMode).value;
    assert Normal(c);
    assert c in b.high || c in b.fw || c in b.sync || c in b.query;
  }

  datatype DeliveryPolicy = DeliveryPolicy(ackTimeout: Duration, retryBackoff: Duration, maxRetries: int)

  datatype Overflow = Reject | DropOldestFirst | Unknown

  datatype Config = Config(
    general: DeliveryPolicy,
    query: DeliveryPolicy,
    sync: DeliveryPolicy,
    fw: DeliveryPolicy,
    maxQueueDepth: int,
    maxQueueBytes: int,
    overflow: Overflow)

  /** The base policy with the fields a specific profile sets; an all-zero profile is unset. */
  function Merge(base: DeliveryPolicy, specific: DeliveryPolicy): DeliveryPolicy {
    if specific == DeliveryPolicy(0, 0, 0) then base
    else DeliveryPolicy(
           if specific.ackTimeout > 0 then specific.ackTimeout else base.ackTimeout,
           if specific.retryBackoff >= 0 then specific.retryBackoff else base.retryBackoff,
           if specific.maxRetries >= 0 then specific.maxRetries else base.maxRetries)
  }

  /** deliveryPolicyForCommand */
  function PolicyFor(cfg: Config, c: Command): DeliveryPolicy {
    var base := Clamp(cfg.general);
    if c.priority == Query then Merge(base, cfg.query)
    else if c.priority == Sync then Merge(base, cfg.sync)
    else if c.commandId == 19 || c.commandId == 20 || c.priority == Fw then Merge(base, cfg.fw)
    else base
  }

  /** The defaults both deliveryPolicyForCommand and ProcessInFlight fall back to. */
  function Clamp(p: DeliveryPolicy): (r: DeliveryPolicy)
    ensures r.ackTimeout > 0 && r.maxRetries >= 0
  {
    DeliveryPolicy(
      if p.ackTimeout <= 0 then 10 * SECOND else p.ackTimeout,
      p.retryBackoff,
      if p.maxRetries < 0 then 0 else p.maxRetries)
  }

  /** The policy ProcessInFlight ends up with. */
  function Effective(cfg: Config, c: Command): (r: DeliveryPolicy)
    ensures r.ackTimeout > 0 && r.maxRetries >= 0
  {
    Clamp(PolicyFor(cfg, c))
  }

  function MaxRetries(cfg: Config, c: Command): nat {
    Effective(cfg, c).maxRetries
  }

  /** The profile of a command, by id: requests, sync commands and the two firmware commands have
      one of their own. */
  function ProfileOf(cfg: Config, id: byte): DeliveryPolicy {
    if id in {6, 7, 9, 10, 11, 21, 22, 25, 27} then cfg.query
    else if id in {12, 13, 14, 15, 16} then cfg.sync
    else if id in {19, 20} then cfg.fw
    else cfg.general
  }

  predicate Unset(p: DeliveryPolicy) {
    p.ackTimeout == 0 && p.retryBackoff == 0 && p.maxRetries == 0
  }

  /** What a command is delivered by. A timeout comes from its profile, from the general one if
      that has none, and is ten seconds if neither has. Backoff and retries come from its profile
      unless that is unset or has them negative; retries below zero are none. */
  lemma DeliveredBy(cfg: Config, c: Command)
    requires Normal(c)
    ensures var p, g, e := ProfileOf(cfg, c.commandId), cfg.general, Effective(cfg, c);
            && e.ackTimeout == (if p.ackTimeout > 0 then p.ackTimeout else if g.ackTimeout > 0 then g.ackTimeout
                                else 10_000_000_000)
            && e.retryBackoff == (if Unset(p) || p.retryBackoff < 0 then g.retryBackoff else p.retryBackoff)
            && e.maxRetries == (if !Unset(p) && p.maxRetries >= 0 then p.maxRetries
                                else if g.maxRetries >= 0 then g.maxRetries else 0)
  {
  }
}
