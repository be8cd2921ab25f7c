# Command delivery of a TCP adapter: a verified model

The adapter keeps one persistent TCP link per controller. It queues commands for the
controller, numbers them with an 8-bit counter, frames and writes them, waits for
acknowledgements, retries with backoff, expires, and reports exactly what became of each
command. This project models that delivery engine, the wire format below it and the
per-address connection guard beside it, and proves properties of all their runs.

The modules, bottom up:

| files | what they hold |
|---|---|
| `Bytes`, `Results`, `Sums`, `Commands` | machine integers, option and result types, weighted sums, commands |
| `Crc16`, `Polynomials`, `Messages`, `Framing` | checksum, what it is as a polynomial remainder, registration parsing, the frame codec and its reader |
| `Payloads`, `Records` | the payload validator, record layouts and builders of commands 13, 14 and 15 |
| `PriorityBands`, `Queue` | the four-band queue, as a value and as the object that updates itself |
| `Policy`, `Backoff`, `Sessions`, `Overflow` | modes and delivery policies, retry delays, session state and snapshots, overflow |
| `Engine`, `Events`, `Persistence` | delivery to one controller as a state machine, what its steps report and save |
| `Ledger`, `Invariants`, `Delivery`, `Capacity`, `SweepOrder`, `FlushSafety`, `Reports`, `ModeRules`, `Duplicates` | what holds in every run: conservation, bounds, what is sent, why each event happens, modes, repeated commands |
| `Claims`, `OversizedCommands`, `SequenceNumbers`, `SlotSafety` | numbers that queued retries claim, numbers that go unused, and when a flush never reuses an in-flight slot |
| `WholeFlush`, `Adapter` | the session object, method by method, proved to be that machine |
| `StoreLag`, `RetryNumbers`, `Starvation` | what a restart loses or repeats, under which number a retry goes out, when a flush sends nothing |
| `Runs`, `Rounds`, `Histories` | runs put together from shorter ones, and the sessions they bring about |
| `OneAtATime`, `SlotReuse`, `Burning`, `OversizedReuse`, `DroppingReuse` | one command in flight, and in-flight slots: exactly when the promise holds, and runs from the empty session in which it fails |
| `Shortcomings`, `TornRuns`, `SyncScenario`, `StuckSync`, `QueueGrowth`, `Refusals` | other promises of comments and limits that fail, with such runs |
| `Violations` | the sliding window of connection violations |

## How the engine is modelled

`Engine.World` holds one session, what the store has of it, a log, and the program counter
of the flush that may be running. A flush (`flushQueue`) is cut at its operations on shared
state: a tick runs it up to and including the next one. Between two ticks anything else may
happen that the locks of the source allow: new commands, acknowledgements, sweeps, mode
changes, disconnects, and a restart, which replaces memory by what the store has at that
moment. A run is any sequence of such steps from the empty session. The log records what the
adapter publishes and writes, and also the two losses it does not report (commands dropped by
overflow, entries whose in-flight slot is reused).

The clock, the success of a write, acknowledgements, and the order in which Go ranges over
the in-flight map are inputs, so every theorem holds for all of them.

`Adapter.Session` is the same behaviour as an object with fields that its methods update,
loop for loop as in the source. `FlushQueue` is proved to end in the state in which the
ticks end, `Enqueue`, `Acknowledge` and `ProcessInFlight` in the state of the engine step of
the same name. So the theorems about runs are theorems about that object.

Most theorems about runs come from one bookkeeping argument (`Ledger`). Give every command a
weight that may depend on its identity and its attempts, one while it waits and one while it
flies. Then what is present in a session, minus what the log says was put in, plus what it
says was taken out, never changes, except by what a restart loses or brings back. Different
weights give conservation, the bound on writes, the measure on deliveries, the size bound, and
what the store lacks.

## Where code and documentation differ

The model follows the code. Each point has an exact condition and a run from the empty session,
except the last one, which is not about runs of a session.

- `DOD.md` line 31 and the comment at `internal/server/server.go` lines 528 to 532 promise at
  most one command in flight per controller. A flush starts only with nothing in flight, but
  it then sends as many commands as its byte budget allows. The promise holds exactly for
  budgets without room for two frames (`OneAtATime.OneOutstandingExactlyWhen`), and with such
  budgets it holds throughout every run, restarts included (`OneAtATime.OneInFlightAlways`).
- Within one flush an in-flight slot can be reused, and its entry is then forgotten. As long as
  every command can be encoded, it cannot happen exactly when the budget is for at most 256
  frames and the retry numbers in the queue keep apart from each other and from the counter
  (`SlotReuse.SlotsNeverReused`).
- A valid custom command (27) may be too long for the 16-bit length field. It takes a sequence
  number (`internal/server/server.go` line 594), then fails to encode (line 603), and the flush
  goes on with its budget untouched. If the queue has room for m such commands, each frame can
  come with m + 1 numbers, and the condition is the same with `(frames - 1) * (m + 1) < 256` for
  the counter and `frames * (m + 1) - 1` numbers for its reach
  (`OversizedReuse.ReusedExactlyWhen`; with a limit of one megabyte and the policy to reject,
  budgets below 187 bytes, `OversizedReuse.DefaultLimits`).
- Under `drop_oldest`, which is the default, even room for two frames is too much: commands
  dropped under a running scan leave it to go on to any number of oversized ones
  (`DroppingReuse.DroppingExactlyWhen`).
- The store is not written when commands are drained, popped, reported or put back. A restart
  loses what the flush held when it last saved and has not reported since, and repeats what it
  has reported since and did not hold (`StoreLag.FlushLag`). `Shortcomings.PutBackIsNotSaved`,
  `SyncScenario.SkippedIsNotSaved` and `Shortcomings.ReportedTwice` are such runs. Nor is it
  written when an enqueue drops commands and is then refused (`StoreLag.RefusedLag`).
- A restart between a write and its registration makes the retry be written once more than its
  policy allows, and no more than that (`Delivery.WritesBoundedByRestarts`); the bound is reached
  (`TornRuns.TornWritesRepeat`).
- A retry goes out under its old number exactly when that is not zero, or zero comes next, and
  its frame fits what is left of the budget. If it does not fit, it goes back without its number
  (`RetryNumbers.RetryKeepsItsNumber`, `Shortcomings.PutBackLosesNumber`).
- Under `drop_oldest`, a command that exceeds the byte limit by itself empties the queue before
  it is refused (`Overflow.AcceptedIffFitsAlone`). Valid commands can do so for every limit below 65549
  bytes (`Refusals.RefusalEmptiesQueue`).
- Only a flush that sends leaves a mode, so a sync with nothing left to sync holds up requests
  (`Starvation.SendsExactlyWhen`, `StuckSync.RequestIsHeldUp`), and does so for good unless
  something urgent, another sync command or a firmware update comes (`StuckSync.StuckForGood`).
- The queue limits are checked when a command is enqueued, not when a flush puts back what it had
  set aside. If no command is accepted while a flush holds one, a session stays within its limits
  and the size of the in-flight table (`Capacity.OccupancyBounded`); otherwise its queue outgrows
  every bound (`QueueGrowth.OutgrowsEveryLimit`).
- `internal/server/server.go` reads the time of a violation before it takes the lock, so two
  connections can register in the opposite order of their times. The pruned list then counts
  fewer than happened, exactly when an entry still inside the window was pruned by one with a
  later time (`Violations.WindowExactly`).

## Model

| member | source | states |
|---|---|---|
| `Crc16.CRC16Modbus` | internal/protocol/crc16.go:4-17 | the two nested loops compute the checksum as a fold of byte steps over arithmetic exclusive or |
| `Polynomials.CrcIsRemainder` | internal/protocol/crc16.go:4-17 | the checksum, bits reversed, is a remainder of the bit-reversed message times x^16, plus sixteen ones at its front, on division by the polynomial 0x18005 over bits, with carry-less multiplication defined on its own |
| `Polynomials.RemainderUnique` | internal/protocol/crc16.go:4-17 | there is only one quotient and one remainder below 2^16, so the above determines the checksum of all data |
| `Polynomials.RoundDivides` | internal/protocol/crc16.go:8-14 | one round of the inner loop is one step of long division, for every state |
| `Crc16.ByteStepInjective` | internal/protocol/crc16.go:6-14 | equal results of a byte step mean equal states exactly when the bytes are equal |
| `Crc16.CrcFromInjective` | internal/protocol/crc16.go:6-14 | over any data, different checksum states stay different |
| `Crc16.TwoBytesInjective` | internal/protocol/crc16.go:6-14 | from any state, two byte steps tell apart any two pairs of bytes |
| `Crc16.CrcParity` | internal/protocol/crc16.go:4-17 | the checksum has as many one bits as the data, modulo two |
| `Messages.ParseRegistrationPayload` | internal/protocol/messages.go:34-61 | the parser with its trimming loop agrees with the declarative parse on every input, error cases included |
| `Messages.RegistrationExactly` | internal/protocol/messages.go:34-61 | a payload parses as a registration with this identity and these versions if and only if its bytes, given by position, say so |
| `Messages.RegistrationSecondByte` | internal/protocol/messages.go:34-61 | a registration starts with its command id and a digit, the fact auto-detection rests on |
| `Framing.EncodeFrame` | internal/protocol/frame.go:41-72 | succeeds exactly on encodable frames, yields their wire form, and names the error otherwise |
| `Framing.Reader.ReadFull` | internal/protocol/frame.go:78-97 | takes exactly n bytes, or fails with a clean or an unexpected end |
| `Framing.ReadFrameWithMode` | internal/protocol/frame.go:78-128 | the stateful reader returns the frame or error of the reading function, and consumes the header, the frame or everything, success or failure, exactly as stated |
| `Framing.ReadAutoFrame` | internal/protocol/frame.go:130-173 | the branches of auto-detection agree with its specification on every data block |
| `Framing.ReadAfterEncode` | internal/protocol/frame.go:41-128 | a written frame followed by anything reads back to that frame and leaves the rest |
| `Framing.EncodeAfterRead` | internal/protocol/frame.go:78-173 | whatever is accepted in any mode, auto included, encodes to the bytes consumed, so the reported hex is the wire data |
| `Framing.StreamRoundTrip` | internal/protocol/frame.go:41-128 | the concatenation of any list of written frames reads back to that list, then a clean end |
| `Framing.StreamIsItsEncoding` | internal/protocol/frame.go:78-173 | any byte stream is the encoding of the frames read from it, followed by bytes on which the reader fails |
| `Framing.RegistrationReadingsDisjoint` | internal/protocol/frame.go:130-173 | no data block is a registration both with and without a sequence number |
| `Framing.AutoDetectsRegistration` | internal/protocol/frame.go:130-173 | an encoded registration is auto-detected with its own layout, for every ttl and sequence number |
| `Framing.AutoReadsSequenced` | internal/protocol/frame.go:130-173 | auto-detection reads a sequenced frame as what was sent, if and only if its number and payload do not make a registration, and its payload is one or only the payload starts with a known id |
| `Framing.AutoReadsCompact` | internal/protocol/frame.go:130-173 | auto-detection reads a compact frame as what was sent, if and only if its payload is a registration, or one byte, or does not hide a registration and does not show a known id in second place only |
| `Framing.OnTheWire` | internal/protocol/frame.go:41-72 | every byte of a frame: marker, length low byte first, ttl, number, payload, checksum of all but the marker low byte first |
| `Framing.ReadChecksCrc` | internal/protocol/frame.go:98-102 | a block with a frame's marker and length and a checksum that is not its own is refused as a checksum error |
| `Framing.ShortCorruptionDetected` | internal/protocol/frame.go:98-102 | changing one byte or two adjacent bytes after the length field, across the checksum border too, gives a checksum error in every mode |
| `Framing.OddCorruptionDetected` | internal/protocol/frame.go:98-102 | flipping any odd number of bits after the length field gives a checksum error |
| `Payloads.ValidatePaddedAscii` | internal/protocol/cmd13.go:34-50 | the one-pass check accepts exactly ASCII text followed by nothing but zeros |
| `Payloads.ValidateRecord` | internal/protocol/server_payload_validation.go:144-244 | the bodies of the three record loops accept exactly the records with fields in range |
| `Payloads.ValidateRecords` | internal/protocol/server_payload_validation.go:137-244 | the loops accept exactly payloads with a consistent header whose records are all acceptable |
| `Payloads.ValidationDecomposes` | internal/protocol/server_payload_validation.go:137-244 | a payload is accepted if and only if its header is consistent and each record would be accepted in a payload of its own |
| `Payloads.BlocksOfAssembled` | internal/protocol/server_payload_builders.go:369-389 | taking an assembled payload apart gives its blocks back |
| `Payloads.AssembleBlocks` | internal/protocol/server_payload_builders.go:369-389 | assembling what was taken apart rebuilds the payload, for every payload with a consistent header |
| `Payloads.AcceptedSize` | internal/protocol/server_payload_validation.go:10-350 | what passes validation fits a frame, except for the custom command, whose bound is given |
| `Payloads.AcceptedFixedSize` | internal/protocol/server_payload_validation.go:10-350 | the payload length of every command that fixes one |
| `Payloads.BlocksCoverFile` | internal/protocol/server_payload_builders.go:624-634 | the announced blocks are those the file fills if and only if 65535 of them hold it; beyond that 65535, and none for the last 1023 sizes, where the sum wraps |
| `Records.FixedAscii` | internal/protocol/server_payload_builders.go:756-768 | refuses text that is too long or not ASCII, pads the rest |
| `Records.BuildRecord` | internal/protocol/server_payload_builders.go:338-362 | a record builds exactly when its fields are in order, into its layout |
| `Bytes.LowByteFirst` | internal/protocol/server_payload_builders.go:338-367 | the four bytes of a 32-bit field, each with its worth, low byte first |
| `Records.LayoutAccepted` | internal/protocol/server_payload_builders.go:338-362 | the validator accepts a laid-out record if and only if its fields are in order and its id has no inner zero |
| `Records.DecodeLayout` | internal/protocol/server_payload_builders.go:338-362 | decoding a layout gives the record back exactly when its id has no trailing zeros, and trims it otherwise |
| `Records.LayoutDecode` | internal/protocol/server_payload_builders.go:338-362 | laying out a decoded record rebuilds the bytes, always |
| `Records.PayloadAccepted` | internal/protocol/server_payload_builders.go:369-389 | the closing validation accepts exactly the payloads of records acceptable one by one |
| `Records.FillAll` | internal/protocol/server_payload_builders.go:376-384 | the filling loop leaves header and records in the buffer, or names the first record out of order |
| `Records.BuildStructured` | internal/protocol/server_payload_builders.go:369-389 | succeeds exactly on a permitted number of acceptable records, with a payload the validator accepts, and says when the closing validation fails |
| `Records.BuildOfDecoded` | internal/protocol/server_payload_builders.go:369-389 | every payload with a consistent header is the payload built from its decoded records |
| `Records.DecodedOfBuild` | internal/protocol/server_payload_builders.go:369-389 | decoding a built payload gives the records back if and only if no id ends in zeros |
| `Sums.KeepInPlace` | internal/queue/queue.go:119-133 | filtering over the slice's own backing array leaves the kept elements in order at the front and returns the others in order |
| `Sums.RemoveInPlace` | internal/queue/queue.go:241-247 | shifting down over a position removes that element and keeps the order of the rest |
| `PriorityBands.Oldest` | internal/queue/queue.go:200-239 | the position picked is created no later than any other, and strictly earlier than all before it |
| `PriorityBands.RemoveFrom` | internal/queue/queue.go:224-247 | removing from a band removes exactly that position of the snapshot |
| `PriorityBands.SumOfDrain` | internal/queue/queue.go:115-146 | draining splits the queue: every weighted sum is that of what stays plus that of what is returned |
| `PriorityBands.RestoreSnapshot` | internal/queue/queue.go:154-186 | restoring a snapshot rebuilds all four bands in order, when bands match priorities |
| `Queue.ControllerQueue.Push` | internal/queue/queue.go:56-70 | appends to the band of the command's priority |
| `Queue.ControllerQueue.PopNext` | internal/queue/queue.go:72-113 | takes the head of the first band the mode allows, or nothing |
| `Queue.ControllerQueue.DrainExpired` | internal/queue/queue.go:115-146 | keeps the unexpired commands of every band in order and returns the others, band by band |
| `Queue.ControllerQueue.TakeSnapshot` | internal/queue/queue.go:154-164 | lists the bands one after the other |
| `Queue.ControllerQueue.Restore` | internal/queue/queue.go:166-186 | clears the queue and pushes the listed commands |
| `Queue.ControllerQueue.EstimatedBytes` | internal/queue/queue.go:249-266 | the loop computes the sum of the estimates of all queued commands |
| `Queue.ControllerQueue.DropOldest` | internal/queue/queue.go:200-239 | the scan over the bands removes and returns the oldest command, ties by band and position |
| `Policy.RefusedWhenPopped` | internal/server/command_policy.go:54-81 | of what the queue hands out, exactly six ids are refused, and only during a sync outside a firmware update |
| `Policy.DeliveredBy` | internal/server/command_policy.go:83-142 | timeout, backoff and retries of every command, by id, from the general settings and those of its kind, unset and negative settings included |
| `Backoff.DelayWithinFifth` | internal/session/manager.go:803-839 | for every base up to (2^63-1)/1280 the delay is within a fifth of the nominal exponential delay, for every seed |
| `Backoff.DelayStrictlyIncreases` | internal/session/manager.go:803-839 | up to the eighth attempt, every delay exceeds every delay of the attempt before, whatever the seeds |
| `Backoff.DelayNotNegative` | internal/session/manager.go:803-839 | for all 64-bit inputs, despite overflow, a delay is not negative |
| `Backoff.JitterIs` | internal/session/manager.go:822-838 | for delays from 5 ns up, the jittered delay is four fifths of it plus the generated number modulo two fifths and one |
| `Backoff.SeedInjective` | internal/session/manager.go:841-844 | different numbers, attempts or ids have different seeds |
| `Backoff.WaitWithinFifth` | internal/session/manager.go:745-748 | the wait is the ack timeout plus the nominal delay, within a fifth of the latter, from both sides |
| `Backoff.WaitStrictlyIncreases` | internal/session/manager.go:745-748 | up to the eighth attempt each wait exceeds that of the attempt before, whatever the seeds |
| `Backoff.WaitAtLeastTimeout` | internal/session/manager.go:745-748 | for all 64-bit inputs, despite overflow, an entry waits at least its ack timeout |
| `Sessions.LoadAnyOrder` | internal/session/manager.go:423-499 | any listing of a keyed in-flight table, in any map order, restores that table |
| `Sessions.SaveAndLoad` | internal/session/manager.go:423-499 | saving and restoring rebuilds bands in order, in-flight table, counter and modes, and says what starts afresh |
| `Sessions.SweepTiming` | internal/session/manager.go:742-792 | barring overflow, the verdict on an entry is to keep it if and only if its wait lasts, or it is unexpired, out of retries and within the grace period |
| `Sessions.NotBeforeTimeout` | internal/session/manager.go:742-792 | nothing is resolved before its ack timeout, whatever overflows |
| `Sessions.EntryWaitBound` | internal/session/manager.go:725-748 | how long an entry waits, from both sides, under the policy of its command |
| `Sessions.NotBeforeBackoff` | internal/session/manager.go:742-792 | nothing is resolved before timeout and nominal backoff, less a fifth of the latter |
| `Sessions.EachAttemptWaitsLonger` | internal/session/manager.go:725-748 | the next attempt of the same command waits longer, up to the eighth |
| `Sessions.NotAfterDeadline` | internal/session/manager.go:742-792 | nothing outlives timeout, nominal backoff with its jitter, and grace |
| `Sessions.ResolvedEventually` | internal/session/manager.go:742-792 | whatever the policy and whatever overflows, no entry is kept longer than the longest duration |
| `Sessions.MakeRoom` | internal/session/manager.go:293-328 | the overflow loop ends with room for the new command or with an empty queue |
| `Overflow.DropsShortestOldestPrefix` | internal/session/manager.go:257-334 | what is dropped is a prefix in the order of age, band and position, what stays keeps its order, and before each drop some limit was exceeded |
| `Overflow.AcceptedIffFitsAlone` | internal/session/manager.go:257-334 | under drop_oldest a command is accepted if and only if it fits an empty queue; otherwise the queue ends up empty and the command is refused |
| `Overflow.LimitsHoldAfterAdmission` | internal/session/manager.go:257-335 | depth and byte limits both hold right after every accepted command |
| `Persistence.SavesExactly` | internal/session/manager.go:479-499 | every step either brings the store up to date or leaves it alone, and which it is is known before the step |
| `Ledger.StepBalance` | internal/server/server.go:540-705 | for every choice of weights, every step of every kind keeps what is present in balance with the log, up to what a restart loses or brings back |
| `Invariants.StepKeeps` | internal/session/manager.go:666-795 | every step, restarts from a stale store included, keeps for memory and store: bands match priorities, keys match sequence numbers, attempts stay within the policy |
| `Invariants.InvAlways` | internal/session/manager.go:666-795 | that invariant holds in every reachable state, with restarts at any moment |
| `Delivery.BalanceAlways` | internal/server/server.go:540-705 | the books balance in every reachable state, for all weights, up to the sum of what restarts lost or brought back |
| `Delivery.NoDrift` | internal/session/manager.go:423-467 | restarts between flushes with the store up to date lose and bring back nothing |
| `Delivery.Conservation` | internal/server/server.go:540-705 | in every reachable state, the acceptances of a command equal its copies queued, in flight, held by the flush, finally reported, dropped, lost to a reused slot, or lost by restarts less what those brought back |
| `Delivery.ExactlyOnePlace` | internal/server/server.go:540-705 | with restarts between flushes and an up-to-date store, a command accepted once is in exactly one of these places and finally reported at most once |
| `Delivery.WritesBounded` | internal/session/manager.go:666-681 | over any run, put-backs and restarts from a stale store included, a command is written at most MaxRetries + 1 times per acceptance, if no restart comes between a write and its registration |
| `Delivery.WritesBoundedByRestarts` | internal/session/manager.go:666-681 | with restarts at every moment, at most one more write for each restart that does come there |
| `Delivery.AttemptsBounded` | internal/session/manager.go:766-784 | in every reachable state waiting attempts are at most MaxRetries, and an entry counts one more than its command |
| `Delivery.EffortFalls` | internal/session/manager.go:753-792 | the measure: every step lowers the outstanding effort by at least the deliveries it makes, except for what it newly accepts and what a restart brings back |
| `Delivery.DeliveriesBounded` | internal/session/manager.go:753-792 | any run makes at most 2 (MaxRetries + 1) deliveries per accepted command, plus the effort restarts brought back less what they lost |
| `Delivery.ReachableSurvivesRestart` | internal/session/manager.go:423-499 | every reachable session survives save and load, and after a sweep the store holds just what is in memory |
| `Capacity.OccupancyStep` | internal/session/manager.go:784 | no step but an accepted enqueue makes a session hold more, although retries and put-backs bypass the limits; a restart makes it hold what the store has |
| `Capacity.OccupancyAfterEnqueue` | internal/session/manager.go:257-335 | after an accepted enqueue a session holds at most a full queue, a full table, and what the flush holds |
| `Capacity.OccupancyBounded` | internal/session/manager.go:257-335 | in every run that accepts commands only while no flush holds one, with restarts at any moment, memory and store hold at most maxQueueDepth + 256 commands |
| `SweepOrder.SweepOrderIrrelevant` | internal/session/manager.go:725-792 | for any two visiting orders, revisits included: same in-flight table, same multiset of outcomes, same multiset of queued commands |
| `SweepOrder.SweepKeepsExactly` | internal/session/manager.go:725-792 | a sweep leaves in flight exactly the entries it judges to keep, unchanged |
| `SweepOrder.SweepLeaves` | internal/session/manager.go:725-792 | the table after a sweep, in any order and for every policy, holds exactly the entries still waiting or in grace, unchanged |
| `FlushSafety.SafeAlways` | internal/server/server.go:563-624 | in every run, everything written was at its check unexpired, allowed in its mode and valid, and went out as its own frame |
| `FlushSafety.WhatIsSent` | internal/server/server.go:579-624 | in every run, the bytes of every write read back as one frame: the command id, then the payload of the command that was written, its number, and its time to live in whole seconds, at least one, 255 for none or for 251 seconds and more |
| `FlushSafety.WhatIsWrittenIsRead` | internal/server/server.go:603-624 | over any run, the bytes sent in one frame mode parse back to the frames of the log, then end |
| `FlushSafety.FlushWithinBudget` | internal/server/server.go:533-624 | whatever happens in between, a flush writes at most the controller's free buffer, 1500 bytes if that is not positive |
| `Events.OnlyRunWrites` | internal/server/server.go:520-705 | no step but a tick of a flush writes |
| `FlushSafety.TickDescends` | internal/server/server.go:540-705 | every tick lowers a well-founded measure of the program counter, so every flush ends |
| `FlushSafety.EstimateIsExact` | internal/queue/queue.go:30-35 | the estimate is the size of the sequenced frame and one more than the compact one |
| `FlushSafety.EncodingFailsOnlyForCustom` | internal/server/server.go:603-607 | of valid commands only the custom one can fail to encode, exactly when it is too long for the length field |
| `Reports.AckReports` | internal/server/server.go:374-431 | the whole effect of an acknowledgement: code 5 only says the command is under way, any other code ends the entry of that number, and no other, with one report of what the code stands for |
| `Reports.EveryEventHasItsCause` | internal/server/server.go:374-780 | for every event of every run, the step that added it and its reason: each final report goes back to an acknowledgement with a code of that meaning, an expired time to live, a payload refused or too long, a failed write, or retries used up and the grace period over |
| `Reports.ReportedWasWritten` | internal/server/server.go:374-431 | in every run, what is reported of a command in flight was written before, under that number, restarts included |
| `Reports.PermittedIs` | internal/server/command_policy.go:54-81 | which ids may be sent in which mode, written out |
| `ModeRules.SupportedIds` | internal/server/command_policy.go:12-43 | the ids that have a priority |
| `ModeRules.BandsById` | internal/server/command_policy.go:12-52 | in every run, each band holds only the ids that belong in it |
| `ModeRules.ModesObeyed` | internal/server/server.go:574-577 | in every run, everything written is among the ids permitted in the modes it was written in |
| `ModeRules.ModeChanges` | internal/server/server.go:632-702 | the modes after every step: a registered 12 to 16 starts a sync, a registered 19 a firmware update, and only an empty band after a frame ends them |
| `ModeRules.FlushModes` | internal/server/server.go:632-702 | the copy of the modes a flush works with changes by the same rules, and is cleared exactly when its band is empty |
| `ModeRules.FlushStarts` | internal/server/server.go:520-538 | a flush starts if and only if the controller is online with nothing in flight, and takes over the modes of the session and its free buffer, 1500 bytes if that is not positive |
| `Duplicates.RefusedExactlyWithin` | internal/session/manager.go:248-255 | in every run, a supported command is refused as a duplicate if and only if its key was last stored less than ten minutes ago and since the last restart, and nothing changes then |
| `Claims.TickClaims` | internal/server/server.go:591-615 | no tick of a flush adds to the numbers that waiting commands claim |
| `OversizedCommands.OversizedMeans` | internal/server/server.go:603-607 | of normal commands that pass the checks, exactly the oversized ones cannot be encoded |
| `OversizedCommands.AdmitBound` | internal/session/manager.go:257-335 | however a command is admitted, no more oversized commands are queued than the limits have room for |
| `SequenceNumbers.TickExclusive` | internal/server/server.go:540-703 | every tick of a flush keeps numbers in flight, in hand, claimed by retries and still to be handed out from coming into use twice, oversized commands included |
| `SlotSafety.SlotIsFree` | internal/session/manager.go:666-681 | a write whose number is kept apart finds its slot empty and grows the table by one |
| `SlotSafety.SettleExclusive` | internal/session/manager.go:742-792 | so does every verdict of a sweep, the put-back of a retry included |
| `SlotSafety.FlushNeverOverwrites` | internal/server/server.go:530-703 | with at most m oversized commands in the queue, no flush whose numbers are apart reuses an in-flight slot, whatever comes in between: commands, acknowledgements, sweeps, mode changes, disconnects, a restart; if m is not zero, the queue must not drop commands |
| `SlotReuse.ApartIsNeeded` | internal/session/manager.go:501-512 | whenever that condition fails for m = 0, some run from the empty session with encodable commands only leads to a flush that reuses a slot; two small commands must fit the queue and have a retry |
| `SlotReuse.SlotsNeverReused` | internal/server/server.go:530-703 | while no oversized command is queued or comes in: no flush of any reachable session with this counter, budget, frame mode and retry numbers reuses a slot if and only if the condition holds |
| `SlotReuse.WithoutRetries` | internal/server/server.go:530-703 | likewise without queued retries: if and only if the budget is for fewer than 257 frames |
| `Burning.BurnRound` | internal/server/server.go:591-607 | k oversized commands and a request: the flush hands out k + 1 numbers and sends one frame, under the last of them |
| `OversizedReuse.OversizedReuseSlots` | internal/server/server.go:591-607 | if k oversized commands fit the queue beside a small one, and the frames after the first can come with 256 numbers, some run from the empty session reuses a slot, for every counter and budget |
| `OversizedReuse.RetryIsReachedWith` | internal/server/server.go:591-607 | the same for a retry: oversized commands before and after it bring the counter to its number |
| `OversizedReuse.ReusedExactlyWhen` | internal/server/server.go:530-703 | with oversized commands coming in freely, in a queue that drops nothing and has room for m of them: no flush of any reachable session reuses a slot if and only if the numbers are apart for m |
| `OversizedReuse.DefaultLimits` | internal/config/config.go:55-57 | with the default limits and the policy to reject, without queued retries: if and only if the budget is below 187 bytes |
| `DroppingReuse.OneLongScan` | internal/session/manager.go:292-328 | under drop_oldest one scan hands out 255 numbers to oversized commands that replaced what it counted, and the next to an urgent command |
| `DroppingReuse.DroppingExactlyWhen` | internal/session/manager.go:292-328 | under drop_oldest with room for one oversized command, for every counter, frame mode and retry numbers: slots are never reused if and only if the budget has no room for two frames |
| `OneAtATime.OneFrameOverwritesNothing` | internal/server/server.go:530-703 | with room for one frame a flush overwrites no slot, whatever comes in between and whatever the policy |
| `OneAtATime.FramesWithinBudget` | internal/server/server.go:533-624 | a flush writes at most as many frames as its budget has room for, whatever happens in between |
| `OneAtATime.TwoInFlight` | internal/server/server.go:528-532 | a run from the empty session: with room for two frames a flush sends two commands, and both are in flight |
| `OneAtATime.OneOutstandingExactlyWhen` | internal/server/server.go:528-532 | every flush of every reachable session with this budget and frame mode writes at most one command if and only if the budget has no room for two frames |
| `OneAtATime.OneInFlightAlways` | internal/server/server.go:528-532 | if no flush starts with room for two frames, at most one command is in flight at every point of every run, in memory and after a restart |
| `Shortcomings.FlushOverwrites` | internal/server/server.go:591-631 | a run from the empty session: a flush sends a new command and then a retry under the same number, and the entry of the first is lost |
| `Shortcomings.PutBackIsNotSaved` | internal/server/server.go:608-615 | a run from the empty session: a command goes back to the queue for lack of budget, and the store does not have it |
| `Shortcomings.PutBackLosesNumber` | internal/server/server.go:602-615 | a run from the empty session: a retry goes back without its number, while the store keeps it with the number |
| `SyncScenario.SkippedIsNotSaved` | internal/server/server.go:574-684 | a run from the empty session: a command set aside during a sync is pushed back after the last save, so the store lacks it |
| `Shortcomings.ReportedTwice` | internal/server/server.go:541-550 | a run from the empty session: an expired command is reported, comes back with a restart, and is reported again |
| `TornRuns.TornWritesRepeat` | internal/server/server.go:618-631 | for every k a run from the empty session with exactly k restarts between a write and its registration, in which a command accepted once is written MaxRetries + 1 + k times: the bound is tight |
| `Refusals.RefusalEmptiesQueue` | internal/session/manager.go:292-319 | a run from the empty session, for every byte limit below 65549: a waiting request is dropped for a valid command that is then refused, and a restart brings it back |
| `StuckSync.RequestIsHeldUp` | internal/server/server.go:547-694 | a run from the empty session: sync mode with nothing to sync, and a waiting request that no flush sends |
| `StuckSync.StuckForGood` | internal/server/server.go:520-705 | from then on no run without an urgent command, a sync command or firmware mode writes a frame or leaves the sync mode, through timeouts, reconnects and restarts |
| `QueueGrowth.OutgrowsEveryLimit` | internal/server/server.go:682-684 | for every k, whatever the limits, a run from the empty session that leaves k commands in the queue |
| `QueueGrowth.ManyUrgent` | internal/server/server.go:682-694 | the same with no mode set and the counter at any number |
| `StoreLag.LagExactly` | internal/session/manager.go:479-499 | in every run, memory is ahead of the store by exactly what the flush held when they last agreed, less what it holds now, plus what the log has put in and less what it has taken out since |
| `StoreLag.FlushLag` | internal/server/server.go:540-705 | a whole flush of a saved session is a run of ticks; after it a restart loses copies of a command if and only if the flush held more of them at the last tick that saved than it has reported since, and repeats copies if and only if fewer |
| `StoreLag.HeldAtSave` | internal/server/server.go:591-674 | what a flush holds when it saves: what it has set aside, and the command that has just taken a number |
| `StoreLag.PutBackLag` | internal/server/server.go:591-615 | a command over budget ends the flush; if it took a new number, the store lacks it and all that was set aside, and if it is a retry, nothing was saved meanwhile |
| `StoreLag.SkippedLag` | internal/server/server.go:674-703 | after a send the store lacks exactly what was set aside, unless a mode is left, which saves |
| `StoreLag.DrainLag` | internal/server/server.go:541-550 | what is drained stays in the store |
| `StoreLag.RefusedLag` | internal/session/manager.go:293-319 | what is dropped by an enqueue that is then refused stays in the store |
| `RetryNumbers.NextWriteIsFresh` | internal/server/server.go:591-602 | once no copy of a command carries a number, its next write in any run without restarts is under the number the counter has just handed out |
| `RetryNumbers.RetryKeepsItsNumber` | internal/server/server.go:591-615 | the next write of a retry: if its frame fits, at once and under the old number if and only if that is not zero or zero comes next; if not, later and under the number the counter then hands out |
| `Starvation.SendsExactlyWhen` | internal/server/server.go:558-703 | with nothing expired and the line up, a flush sends something if and only if the first command its mode lets through and its tests do not stop fits the budget; otherwise the modes stay as they are |
| `Starvation.SyncHoldsUpRequests` | internal/server/server.go:685-694 | with a sync on, its band empty and nothing urgent, requests are not sent and the sync stays on |
| `WholeFlush.FlushIsRun` | internal/server/server.go:520-705 | a whole flush is a run of ticks and ends idle |
| `Adapter.Session.Persist` | internal/session/manager.go:479-499 | the store afterwards holds exactly the session |
| `Adapter.Session.Restore` | internal/session/manager.go:423-467 | the session afterwards is the one loaded from the store |
| `Adapter.Session.DropUntilFits` | internal/session/manager.go:293-328 | the loop leaves and logs exactly what the overflow function says |
| `Adapter.Session.Place` | internal/session/manager.go:257-335 | limits, overflow policy and push: new queue, log and status are those of admission |
| `Adapter.Session.Enqueue` | internal/server/server.go:707-720 | new state and status are those of the engine's enqueue step, for every command, duplicate and unsupported ones included |
| `Adapter.Session.Acknowledge` | internal/server/server.go:374-431 | the new state is that of the engine's acknowledgement step, for every code and sequence number |
| `Adapter.Session.VisitOne` | internal/session/manager.go:742-792 | one iteration of the sweep has the effect of the engine's visit |
| `Adapter.Session.ProcessInFlight` | internal/session/manager.go:716-795 | the loop, in any order, has the effect of the engine's sweep |
| `Adapter.Session.Prepare` | internal/server/server.go:563-602 | the tests on a popped command and its numbering are one tick |
| `Adapter.Session.Transmit` | internal/server/server.go:603-624 | encoding, budget check and write are one tick |
| `Adapter.Session.RegisterInFlight` | internal/session/manager.go:666-681 | registering is one tick |
| `Adapter.Session.StartModes` | internal/server/server.go:632-673 | starting sync or firmware mode, with the interim report, is one tick |
| `Adapter.Session.Scan` | internal/server/server.go:558-680 | the inner loop is the run of its ticks, and uses budget exactly when it sent something |
| `Adapter.Session.ReturnSkipped` | internal/server/server.go:682-684 | the put-back loop is the run of its ticks |
| `Adapter.Session.LeaveModes` | internal/server/server.go:689-703 | leaving sync and firmware mode is the run of its ticks |
| `Adapter.Session.FlushQueue` | internal/server/server.go:520-705 | the whole method ends in the state in which the ticks of the engine end, for every clock and every pattern of write failures |
| `Violations.Guard.RegisterIPViolation` | internal/server/server.go:874-901 | prunes, appends and blocks for the address concerned, leaves the others alone, and keeps the state of every address that of its history |
| `Violations.Guard.IsIPBlocked` | internal/server/server.go:853-872 | turns away exactly the addresses whose history has a block that still lasts, unless something was pruned early, and resets the address once its block is over |
| `Violations.WindowRefinesHistory` | internal/server/server.go:853-901 | for times in order, the pruned list equals the full history seen through the window, and blocks start and end as the history says |
| `Violations.BlockedInOrder` | internal/server/server.go:853-901 | for times in order, an address is blocked if and only if the violation that began its last block, counted over the full history, lies less than the block time back |
| `Violations.BlockedExactly` | internal/server/server.go:853-901 | for times in any order, if nothing is pruned early, an address is blocked if and only if some violation began a block in the full history, no check or later block replaced it, and it still lasts |
| `Violations.ClockMustNotGoBack` | internal/server/server.go:884-890 | times out of order: a concrete sequence in which the pruned list misses a block |
| `Violations.PrunedCount` | internal/server/server.go:884-895 | the pruned list never counts more than the full list, and as many if and only if no entry still inside the window was pruned by a later one |
| `Violations.WindowExactly` | internal/server/server.go:853-901 | for times in any order, the counts at every violation agree with the full history since the last reset if and only if nothing is pruned early, and then so do the blocks |

## Left out

- One controller: the map from controllers to sessions, its connection limit, and the creation and deletion of sessions. Every theorem is about one session.
- Sockets, deadlines, connection handling before registration, shutdown, and the dispatch of status messages other than acknowledgements.
- Goroutine scheduling below the locked operations: each tick and each other step is atomic, as the manager's lock makes it.
- The file and Postgres stores, their JSON, and failing stores: the modelled store always succeeds.
- HTTP handlers, pages, metrics, debug rings, tracing ids, configuration parsing, the controller simulator.
- Free-text reasons of reports and overflow metric events: the log keeps status and command only.
- The builders of commands other than 13, 14 and 15; the validator is modelled for all of them.
- Time is a number of nanoseconds without a zone; sums of a time and a duration are not bounded, sums of durations wrap at 64 bits as in the source.
- Delivery.ExactlyOnePlace: for runs whose restarts come between flushes with the store up to date, since other restarts lose and repeat commands; `Conservation` counts those.
- Delivery.WritesBounded: for runs without a restart between a write and its registration, since such a restart repeats the write; `WritesBoundedByRestarts` counts those.
- Sessions.NotAfterDeadline: requires a base up to (2^63-1)/1280 and a timeout up to 2^60 nanoseconds (36 years), because beyond that the source's sums overflow; `ResolvedEventually` needs no bound.
- Backoff.WaitWithinFifth: the same bounds on base and timeout; `WaitAtLeastTimeout` needs none. They hold for `WaitStrictlyIncreases`, `Sessions.EntryWaitBound`, `Sessions.NotBeforeBackoff` and `Sessions.EachAttemptWaitsLonger` too.
- Backoff.JitterIs: for delays whose twentyfold does not overflow; below 5 ns the source adds no jitter.
- Violations.BlockedExactly: if nothing is pruned early; otherwise the counts differ from the history, as `WindowExactly` says.
- Violations.Guard.IsIPBlocked: its tie to the history needs nothing pruned early, and a positive window, which the configuration check demands whenever there is a limit.
- Sessions.SweepTiming: requires that wait plus grace does not overflow; `SweepLeaves` states the table after a sweep without that.
- Capacity.OccupancyBounded: for runs that accept commands only while no flush holds one, which covers flushes taken as one step; `QueueGrowth.OutgrowsEveryLimit` shows that other runs have no bound, and `OccupancyAfterEnqueue` gives theirs at each enqueue.
- Violations.WindowRefinesHistory: for times in order; `WindowExactly` covers all others.
- SlotSafety.FlushNeverOverwrites: about one flush and the steps until the next one starts; if oversized commands fit the queue, not under drop_oldest, for which `DroppingExactlyWhen` is the condition.
- SlotReuse.SlotsNeverReused: while no oversized command is queued or comes in, and for configurations in which two commands without payload fit the queue and have at least one retry each; `WithoutRetries` needs room for one, `OversizedReuse.ReusedExactlyWhen` lets oversized commands in.
- OversizedReuse.ReusedExactlyWhen: requires that the m oversized commands that fit the queue also fit beside a small one. In a queue that m of them fill to within 10 bytes or to its depth, `ApartIsEnoughWith` holds with m and `OversizedReuseSlots` with m - 1.
- Starvation.SendsExactlyWhen: for one flush with a standing clock and a line that stays up; `StuckSync.StuckForGood` is about all runs.
- RetryNumbers.RetryKeepsItsNumber: the popped copy is the only one of its command that carries a number, none is in flight, and the line is up.
- Payloads.AcceptedSize: leaves out id 4, which is known but which the server never sends and the validator passes unread.
