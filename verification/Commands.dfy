/** internal/queue/queue.go: a command on its way to a controller. */
module Commands {
  import opened Bytes

  /** Instants and durations count nanoseconds. */
  type Time = int
  type Duration = int64

  /** A priority is a string in the source; any other string queues like `Query`. */
  datatype Priority = High | Fw | Sync | Query | Other(name: string)

  datatype Command = Command(
    messageId: string,
    dedupKey: string,
    commandId: byte,
    ttl: Duration,
    createdAt: Time,
    payload: seq<byte>,
    priority: Priority,
    attempts: int,
    retrySeq: byte)

  predicate IsExpired(c: Command, now: Time) {
    c.ttl > 0 && now > c.createdAt + c.ttl
  }

  function Live(now: Time): Command -> bool {
    c => !IsExpired(c, now)
  }

  /** What never changes between acceptance and the final report. */
  function Core(c: Command): Command {
    c.(attempts := 0, retrySeq := 0)
  }

  function EstimatedCommandBytes(c: Command): nat {
    11 + |c.payload|
  }

  function Size(): Command -> int {
    c => EstimatedCommandBytes(c)
  }
}
