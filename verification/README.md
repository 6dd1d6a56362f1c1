# The shard-lease and checkpoint protocol of ruststream-kinesis, modelled and proved

`ruststream-kinesis` reads Kinesis streams. Several instances share one lease row per shard. On each
instance a coordinator lists the shards, holds children back behind their parents, takes leases and
starts one reader per shard. A reader opens at a cursor computed from the row, registers each record on
a watermark, hands it out and stops when another owner has fenced it off. Acknowledgements settle
deliveries at any later time and write checkpoints on condition that their owner still holds the lease.
Seeks bump a generation gate and replace the watermark. The crate promises at-least-once delivery,
children after parents, and that a takeover skips no record that was read. That promise rests on small
pieces fitting together under every interleaving, and this project is about that.

`dafny verify dfyconfig.toml` checks everything.

## How it is put together

Code that works in place is modelled in place: `Tracking.Watermark`, `Lease.MemoryLeaseStore`,
`Dynamo.DynamoLeaseStore`, `Settling.Settlement`, `Subscriber.ShardReader`, `Subscriber.SeekState`,
`Subscriber.ReaderTable`, `Delivery.KeySpreader`, `InProcess.SeekControl`, and the loops of the envelope.
Each method is proved against a function of its inputs or of the old state, and the properties are
proved about those functions. Tasks that interleave are state machines: a state, an action per atomic
step, and theorems about every run. Whatever the outside decides (whose turn it is, how many records a
read returns, whether a call takes effect, whether its answer arrives) is a parameter of an action, so
the theorems quantify over it.

| file | what it holds |
|---|---|
| `Tracking.dfy` | the watermark: reference, histories, the imperative tracker |
| `Cursor.dfy` | where a reader opens, and what a cursor names |
| `Lease.dfy` | the lease contract, histories of it, the memory store |
| `Dynamo.dfy` | the DynamoDB store, its agreement with the contract, the read that adopts old rows |
| `Shard.dfy`, `ShardSafety.dfy` | one shard under any number of instances, and what each step keeps |
| `Coordination.dfy` | all shards and coordinators; the main theorems |
| `Vetting.dfy`, `Passes.dfy` | what precedes every reader's start, and what the steps of a coordinator's pass come to |
| `Readings.dfy` | where every iterator starts, and what is handed out, over runs of many instances |
| `LeaseCalls.dfy`, `Checkpoints.dfy` | the rows of a run as lease histories; what acknowledgements settle and write |
| `HandOff.dfy`, `Anchor.dfy`, `HandOffSafety.dfy` | one instance over a store that drops the recorded opening: a cursor kept, no cursor needed, and both together |
| `HandOffLimits.dfy` | exactly when a lost cursor skips a record |
| `Subscriber.dfy` | the loops of the coordinator, the reader and the seeker, tied to the steps |
| `Settling.dfy` | an acknowledgement: gate, watermark, store |
| `Seek.dfy`, `StreamSeek.dfy` | generations of a shard's successive readers; a stream-wide seek against readers that come and go |
| `Startup.dfy` | opening a subscription over an undrained channel, and what becomes of the errors met |
| `Envelope.dfy`, `Delivery.dfy` | the record envelope; a message from publish to delivery |
| `Decimal.dfy`, `InProcess.dfy` | in-process positions, what a replay queues, and the count of deliveries in flight |

## Assumptions

- Owner ids are distinct, and one owner has one coordinator per stream. Lease rows start empty.
- A record's sequence number is its position in the shard's log. A read returns a contiguous run from
  its iterator; "no next iterator" means the shard is closed and was returned to its end. Nothing is
  trimmed while a run lasts.
- A timestamp may put an iterator anywhere, except in the modules on the hand-off, where the service puts
  one timestamp at the same record whenever it is asked. There, too, the installed position is the same
  throughout a run, and a shard that once continued its parents does so from then on.
- An aggregated record is reported and never tracked, so "settled" is said of the others.
- A store call that a task waits for takes effect before it is answered or given up, or not at all, also
  when its process crashes. The checkpoint write of an acknowledgement may take effect at any later time,
  twice, or never. The theorems of `Coordination` and on the hand-off rest on the first half: under an owner id
  that outlives its process, a recorded opening or an end mark that reached the store only after the
  restart could move the opening forward or finish the shard.
- A record counts as handed out once it is on the watermark, which is before it is sent.
- Stream names and shard ids hold no colon, so the rows of the two DynamoDB key forms never meet.
- Clocks are parameters: every theorem holds for arbitrary values of them.
- Header names are compared exactly, and a header map is a list of headers with distinct names. The
  function parameters `lossy` and `text` stand for the lossy reading of bytes as text and for the reader
  of the text envelope that earlier releases wrote.

## What the proofs found

- With a store that drops `opened_at`, three steps leave the next reader of one instance without a cursor:
  the service reports the stream gone, it answers a request for an iterator without one, or the end mark
  is not written. For a subscription that opens at the horizon or at a timestamp none of them does harm.
  For one that opens at the tip, `HandOff.Harmless` says exactly when they do not: with that guard no
  iterator skips a record (`HandOffSafety.EveryIteratorStartsEarlyEnough`), and in every other reachable
  state ordinary steps of the same subscription lead to a skipped one
  (`HandOffLimits.LossIsHarmlessExactlyWhen`).
- Each reader of a shard has a generation gate of its own. A seek discards exactly the deliveries of the
  reader it found; those a stopped reader left in the channel are still yielded and may write
  (`Seek.SeekDiscardsExactly`, `Seek.EarlierReaderOutlivesTheSeek`).
- Opening a sealed record gives back its headers and payload if and only if the header block is under
  4 GiB; a longer block writes a zero length (`Envelope.SealedRecordOpens`).
- `index_of` accepts a text nobody issued: a plus sign in place of the first digit of the index
  (`InProcess.PlusSignIsAccepted`).
- The two stores grant different leases at exactly one instant, the one a lease expires at
  (`Dynamo.StoresAgree`).
- After a lost copy the DynamoDB read falls back to the bare row's checkpoint; that branch is never taken
  (`Dynamo.LostCopyFindsACheckpoint`). Checkpoint and opening of one answer are of one moment unless the
  copy was made and the opening had changed before it (`Dynamo.AnswerIsOneRowUnless`).
- A stored checkpoint may move back and an end mark may be overwritten; neither is claimed. Every value
  ever stored is sound.

## Model

| member | source | states |
|---|---|---|
| Tracking.PrefixIsUnique | crates/ruststream-kinesis/src/track.rs:38-52 | "Longest settled prefix" has one meaning: whatever satisfies its three defining facts is it. |
| Tracking.MarkMovesPrefix | crates/ruststream-kinesis/src/track.rs:38-52 | A settlement moves the watermark exactly when it settles the delivery the watermark waits on. |
| Tracking.AnswersIncrease | crates/ruststream-kinesis/src/track.rs:25-52 | Over any history of deliver and settle calls, each answer names the last delivery of a settled prefix strictly longer than at every answer before. |
| Tracking.PopSettled | crates/ruststream-kinesis/src/track.rs:43-51 | The pop loop stops, leaves exactly the deliveries from the end of the longest settled prefix on, and answers the last one it popped. |
| Tracking.Watermark.Deliver | crates/ruststream-kinesis/src/track.rs:25-31 | Appends a delivery, unsettled, under the next index. |
| Tracking.Watermark.Settle | crates/ruststream-kinesis/src/track.rs:38-52 | Marks one index, ignoring an unknown one, and answers the end of the settled prefix if and only if that grew. |
| Tracking.Watermark.Drained | crates/ruststream-kinesis/src/track.rs:55-61 | True if and only if every delivery ever registered is settled. |
| Cursor.RewindNamesTheSamePlace | crates/ruststream-kinesis/src/cursor.rs:114-119 | The one cursor that is not kept is the tip; every other names the place it named before, however far the log has moved, if the service puts one timestamp at one record. |
| Cursor.TipMoves | crates/ruststream-kinesis/src/cursor.rs:114-119 | The tip is not kept, and for every longer log it names a later place. |
| Lease.KeyTextIsUnambiguous | crates/ruststream-kinesis/src/lease.rs:148-154 | No two keys of colon-free stream names share their text. |
| Lease.HolderIsTheLastGrant | crates/ruststream-kinesis/src/lease.rs:174-231 | After any history of operations the row names an owner if and only if that owner was granted the lease, has not released it, and nobody was granted it since. |
| Lease.FencedOwnerChangesNothing | crates/ruststream-kinesis/src/lease.rs:174-231 | Between another owner's grant and its own next grant, every renew, checkpoint, opening and release of an owner is refused and leaves the row as it is. |
| Lease.ExpiryIsTheLastWrite | crates/ruststream-kinesis/src/lease.rs:269-308 | A held row's expiry is the one its holder wrote last, by acquiring or renewing. |
| Lease.StealOnlyPastExpiry | crates/ruststream-kinesis/src/lease.rs:269-290 | A lease goes from a holder to another owner only at or past the expiry the holder wrote last, by the taker's clock. |
| Lease.AcquireIsGrantedExactlyWhen | crates/ruststream-kinesis/src/lease.rs:269-290 | Over any history an acquire is granted if and only if no other owner holds an unreleased grant whose last written expiry is still to come: an expired or released lease can always be taken. |
| Lease.CheckpointIsTheLastWrite | crates/ruststream-kinesis/src/lease.rs:310-326 | The checkpoint is what its last granted write stored; grants, renewals, releases and steals leave it. |
| Lease.OpeningIsTheLastWrite | crates/ruststream-kinesis/src/lease.rs:328-344 | So is the recorded opening. |
| Lease.MemoryLeaseStore.Entry | crates/ruststream-kinesis/src/lease.rs:257-265 | A key never seen is an empty lease, and looking it up changes no lease. |
| Lease.MemoryLeaseStore.Acquire | crates/ruststream-kinesis/src/lease.rs:269-290 | Performs the contract's acquire on one row and touches no other. |
| Lease.MemoryLeaseStore.Renew | crates/ruststream-kinesis/src/lease.rs:292-308 | Performs the contract's renew on one row and touches no other. |
| Lease.MemoryLeaseStore.SaveCheckpoint | crates/ruststream-kinesis/src/lease.rs:310-326 | Performs the contract's checkpoint on one row and touches no other. |
| Lease.MemoryLeaseStore.RecordOpenedAt | crates/ruststream-kinesis/src/lease.rs:328-344 | Performs the contract's recorded opening on one row and touches no other. |
| Lease.MemoryLeaseStore.Read | crates/ruststream-kinesis/src/lease.rs:346-353 | Answers the shard's checkpoint and opening, whoever holds the lease. |
| Lease.MemoryLeaseStore.Release | crates/ruststream-kinesis/src/lease.rs:355-369 | Frees the lease of its holder, keeping checkpoint and opening; anybody else's release does nothing. |
| Dynamo.StoresAgree | crates/ruststream-kinesis/src/dynamo.rs:263-409 | Under one clock the two stores grant and write the same for every operation, except an acquire by another owner at the exact expiry instant, which only the memory store grants. |
| Dynamo.FollowsTheContract | crates/ruststream-kinesis/src/dynamo.rs:263-493 | Any history of requests leaves the row the contract gives for those that took effect, each of which the contract grants where it stands; the counter is their number. |
| Dynamo.CounterCountsRowWrites | crates/ruststream-kinesis/src/dynamo.rs:191-493 | Among all operations on the table, copies and other rows included, the counter equals the number that changed the row. |
| Dynamo.DynamoLeaseStore.Write | crates/ruststream-kinesis/src/dynamo.rs:263-409 | One conditional write: refused with the row unchanged, or made, according to the condition. |
| Dynamo.DynamoLeaseStore.Adopt | crates/ruststream-kinesis/src/dynamo.rs:187-214 | Sets the checkpoint of an own row that has none and counts the write, or changes nothing; holder, expiry, opening and every other row stay; says which. |
| Dynamo.DynamoLeaseStore.Read | crates/ruststream-kinesis/src/dynamo.rs:411-460 | For any operations of others between its requests, the answer and the table are what the moments it saw determine. |
| Dynamo.LostCopyFindsACheckpoint | crates/ruststream-kinesis/src/dynamo.rs:440-451 | For every interleaving, a read whose copy lost finds a checkpoint on the own row at its last get, so it never falls back to the bare row's. |
| Dynamo.AnswerWasTheOwnRows | crates/ruststream-kinesis/src/dynamo.rs:411-460 | Legacy adoption linearizes: for every interleaving the answered checkpoint is the own row's when the call begins or when it answers, and so is the answered opening. |
| Dynamo.AnswerIsOneRowUnless | crates/ruststream-kinesis/src/dynamo.rs:411-460 | Checkpoint and opening of an answer are the row's at one moment, its first request or its last, if and only if the read did not make the copy or the opening had not changed since its first request. |
| Dynamo.AnswerOfTwoRequests | crates/ruststream-kinesis/src/dynamo.rs:440-446 | An input for which they are not. |
| Dynamo.CheckpointsStay | crates/ruststream-kinesis/src/dynamo.rs:343-376 | No sequence of operations removes a checkpoint from a stream's own row. |
| Dynamo.CopyNeverOverwrites | crates/ruststream-kinesis/src/dynamo.rs:187-214 | A copy onto a row with a checkpoint changes nothing; any copy leaves every other row alone, and every lease operation is granted after it exactly when it was before, with the same holder and expiry. |
| Dynamo.CopiesTouchNoLease | crates/ruststream-kinesis/src/dynamo.rs:191-214 | Over every history of operations on the table, copies included, a row carries an expiry exactly while it carries an owner, and owner, expiry and opening are those of the same history without the copies. |
| Dynamo.NamedStreamAdopts | crates/ruststream-kinesis/src/dynamo.rs:436-451 | For the named stream, an own row without a checkpoint and a bare row with one end in an answer and a row with one, which is the bare row's unless somebody wrote another meanwhile. |
| Dynamo.BareRowsReachOnlyTheNamedStream | crates/ruststream-kinesis/src/dynamo.rs:420-457 | A read for a stream other than the named one answers its own row and writes nothing; with none named, it fails exactly when only the bare row has a checkpoint. |
| ShardSafety.StepKeeps | crates/ruststream-kinesis/src/subscriber.rs:975-1241 | Every step of any reader, acknowledgement, coordinator or crash keeps the shard's invariant: all that is written or about to be written is sound, and every reader accounts for each record behind it. |
| ShardSafety.AdvanceIsSound | crates/ruststream-kinesis/src/message.rs:346-349 | What the watermark answers may be stored: every record from the recorded opening through it has settled. |
| ShardSafety.RecordOpeningKeeps | crates/ruststream-kinesis/src/subscriber.rs:1083-1096 | Recording the opening keeps the invariant, though the row may have moved since the reader read it: the write lands only while the row is as the reader left it. |
| ShardSafety.MarkEndKeeps | crates/ruststream-kinesis/src/subscriber.rs:1141-1151 | Writing the end mark keeps the invariant, whoever else read the shard. |
| Coordination.NextKeeps | crates/ruststream-kinesis/src/subscriber.rs:687-792 | Every step of the whole stream, of any instance, keeps the invariant of every shard and what every coordinator and reader knows of finished parents. |
| Coordination.FinishedStays | crates/ruststream-kinesis/src/subscriber.rs:854-857 | A shard once seen finished stays finished, although its row's end mark may be overwritten. |
| Coordination.CoordinatorHasNoReader | crates/ruststream-kinesis/src/subscriber.rs:714-716 | A coordinator that vets a shard or takes its lease has no reader of its own on it, so its steps are never blocked. |
| Coordination.RunKeeps | crates/ruststream-kinesis/src/subscriber.rs:687-792 | Every state of every run, from no shards and no instances, satisfies the invariant. |
| Coordination.TakeoverSkipsNothing | crates/ruststream-kinesis/src/subscriber.rs:885-923 | In every state of every seek-free run, with any number of instances, crashes and stolen leases, a record handed out and never settled lies at or after the cursor the row gives the next reader, and the row does not say the shard is finished. |
| Coordination.CheckpointIsSound | crates/ruststream-kinesis/src/message.rs:325-356 | A stored checkpoint implies that every record from the recorded opening through it has settled, despite late, reordered and repeated acknowledgement writes. |
| Coordination.EndMarkIsSound | crates/ruststream-kinesis/src/subscriber.rs:1141-1151 | A stored end mark implies that the shard is closed, that everything from its opening to its last record has settled, and that everything any reader ever handed out has. |
| Coordination.ParentsBeforeChildren | crates/ruststream-kinesis/src/subscriber.rs:840-864 | For a reader that continues its parents, at every moment of its life, every record ever handed out on a parent whose row read finished has settled. |
| Coordination.AncestorsBeforeDescendants | crates/ruststream-kinesis/src/subscriber.rs:717-727 | The same along any chain of such readers, across generations of splits and merges. |
| Vetting.EveryReaderWasVetted | crates/ruststream-kinesis/src/subscriber.rs:704-764 | Over every run, each reader there ever is was started by a pass that took its shard up, found each listed parent finished, unlisted, or closed and unread under a tip start, read the shard's own row as unfinished, was granted the lease, and did nothing between grant and start; the parents it was started on are exactly those found finished. |
| Vetting.AcquireIsAnswered | crates/ruststream-kinesis/src/subscriber.rs:737-764 | An acquire makes the coordinator start a reader if and only if it took effect, was answered, and the row then names its owner. |
| Passes.ParentsAreThoseListed | crates/ruststream-kinesis/src/subscriber.rs:840-848 | The parents a pass checks are those the shard was listed with. |
| Passes.CheckIsAnswered | crates/ruststream-kinesis/src/subscriber.rs:840-864 | A check moves the pass on if and only if the parent is unlisted, finished, or closed and unread under a tip start, and remembers it if and only if it is finished. |
| Passes.OwnRowIsAnswered | crates/ruststream-kinesis/src/subscriber.rs:728-736 | The shard's own row stops the pass if and only if it is finished or could not be read. |
| Passes.StartMakesAReader | crates/ruststream-kinesis/src/subscriber.rs:738-762 | Under the lease one reader starts, on a new watermark, with the cursor its instance kept for the shard, and continuing the parents if and only if one was found finished. |
| Passes.LineageIsWhatWasSeen | crates/ruststream-kinesis/src/subscriber.rs:717-727 | Of every reader in every state: it continues its parents if and only if one was seen finished. |
| Passes.ForgottenReaderMakesRoom | crates/ruststream-kinesis/src/subscriber.rs:795-808 | Forgetting a finished reader leaves its instance without one on the shard, and with the cursor it handed on or else the one kept before. |
| Passes.CrashLeavesNothing | crates/ruststream-kinesis/src/subscriber.rs:785-791 | A crash leaves an instance no reader, coordinator or cursor, and leaves rows, records and other instances as they were. |
| LeaseCalls.RowFollowsTheContract | crates/ruststream-kinesis/src/subscriber.rs:737-1236 | In every state of every run, the row of each shard is the one the lease contract gives for the store calls that took effect on it, in order: so every theorem on lease histories holds of it. |
| LeaseCalls.TakenOverOnlyPastExpiry | crates/ruststream-kinesis/src/subscriber.rs:737-764 | Over every run a shard's row changes hands only by its holder's release, or by an acquire at or past the expiry the holder wrote last, by the taker's clock. |
| LeaseCalls.ReleasedShardIsFree | crates/ruststream-kinesis/src/subscriber.rs:1206-1218 | After a release that took effect anybody's acquire is granted, and checkpoint and opening are as they were. |
| Checkpoints.WritesAreWhatWasReached | crates/ruststream-kinesis/src/message.rs:341-356 | In every state of every run, what each reader's watermark reached has been sent to the store under its owner, and every write sent is of a delivery some watermark of that owner had reached. |
| Checkpoints.RecordsAreWhatHappened | crates/ruststream-kinesis/src/subscriber.rs:1073-1140 | The records the theorems call handed out and settled are, over every run, exactly those some reader's step handed out and those whose delivery was acknowledged. |
| Readings.EveryIteratorStartsRightly | crates/ruststream-kinesis/src/subscriber.rs:885-923 | Each iterator fetched in any run starts exactly right after the checkpoint of the row as its reader read it, else at the recorded opening, else at the cursor kept, else at the first record, the tip or the timestamp, case by case. |
| Readings.FetchFollowsARead | crates/ruststream-kinesis/src/subscriber.rs:885-897 | A reader about to fetch goes by the row as it stood when it last read it, with no step of its own in between. |
| Readings.FailedRefetchReadsOn | crates/ruststream-kinesis/src/subscriber.rs:1219-1237 | A reader that cannot replace an expired iterator reads on, at the place and with the cursor it had when the iterator expired. |
| Readings.FencedReaderStops | crates/ruststream-kinesis/src/subscriber.rs:1053-1060 | Once a renewal or a recorded opening is refused or not answered, the reader never takes a step again. |
| Readings.FinishedShardIsNotRead | crates/ruststream-kinesis/src/subscriber.rs:894-896 | Over every run, a reader that finds its shard finished, at its start or after an expiry, never takes a step again and hands no cursor on. |
| Readings.LeavingReleasesTheLease | crates/ruststream-kinesis/src/subscriber.rs:1141-1218 | Over every run, a reader that gives up, loses the stream, reaches the end or finds its subscription dropped takes the release of its lease as its next and last step, unless its process dies; it hands its cursor on exactly if it gave up. |
| Readings.NothingIsLeftOut | crates/ruststream-kinesis/src/cursor.rs:89-108 | A subscription that opens at the horizon hands out every record behind an active reader, and one at a timestamp every record from where the service puts that; across any takeovers, aggregated records aside. |
| HandOff.SoloStepKeeps | crates/ruststream-kinesis/src/subscriber.rs:975-1241 | With a store that drops the opening, each step of the only instance, a loss before anything depends on a cursor included, keeps one, in a reader or with the coordinator, that reads again everything unsettled, unless a checkpoint does. |
| Anchor.StepAnchored | crates/ruststream-kinesis/src/cursor.rs:89-108 | Where every fresh cursor is one place that everything handed out lies at or after, or the tip of a closed shard with nothing unsettled, every step keeps that so, whatever cursors get lost and however often the process restarts. |
| HandOffSafety.SafeStepKeeps | crates/ruststream-kinesis/src/subscriber.rs:975-1241 | Every step of the instance keeps the state in one of those two safe conditions, and a harmless loss leads from the first to the second where it must. |
| HandOffSafety.EveryIteratorStartsEarlyEnough | crates/ruststream-kinesis/src/subscriber.rs:750-762 | So each iterator a new reader or a reader with an expired iterator fetches starts at or before every record handed out and never settled, through give-ups, failed renewals and openings, and every loss that `Harmless` allows: all of them, for a subscription that opens at the horizon or at a timestamp. |
| HandOffSafety.NothingIsLeftOutFrom | crates/ruststream-kinesis/src/cursor.rs:89-108 | The same over a store that drops the opening, for one instance: every record from the place its subscription opens at up to an active reader was handed out. |
| HandOffLimits.LossIsHarmlessExactlyWhen | crates/ruststream-kinesis/src/subscriber.rs:1141-1236 | In every reachable state of every subscription: after a lost stream, an answer without an iterator or a failed end mark, no continuation skips a record if and only if a checkpoint is stored; nothing was handed out; the subscription does not open at the tip; the shard already continues its parents and nothing unread is before what was handed out; or it is closed, all handed out has settled, and it has no parents or nothing unread is before that. |
| HandOffLimits.HarmlessLossIsSafe | crates/ruststream-kinesis/src/subscriber.rs:1033-1037 | The same condition suffices when the subscription is dropped or its process crashes. |
| HandOffLimits.TipSkips | crates/ruststream-kinesis/src/subscriber.rs:1207-1210 | From every state of a subscription that opens at the tip, on a shard that continues no parents yet, whose next reader knows nothing while a record handed out is unsettled, ordinary steps lead past that record. |
| HandOffLimits.GrowthSkips | crates/ruststream-kinesis/src/subscriber.rs:1207-1210 | So they do there when all has settled but the shard is open and an acknowledgement's write is still under way. |
| HandOffLimits.HorizonSkips | crates/ruststream-kinesis/src/subscriber.rs:1147-1151 | So they do on a shard with parents, when a record before one whose checkpoint write is still under way has not settled. |
| HandOffLimits.HarmfulLossIsReached | crates/ruststream-kinesis/src/subscriber.rs:1207-1236 | Every subscription that opens at the tip reaches such a state by ordinary steps before a lost stream, and before an answer without an iterator. |
| HandOffLimits.HarmfulEndIsReached | crates/ruststream-kinesis/src/subscriber.rs:1147-1151 | So it does, on a shard with parents, before a failed end mark. |
| Subscriber.CheckParents | crates/ruststream-kinesis/src/subscriber.rs:840-864 | Pending if and only if some listed parent cannot be read, or is unfinished and not a closed, untouched one under a tip start; otherwise consumed if and only if some listed parent was read to its end. |
| Subscriber.ChecksAreSteps | crates/ruststream-kinesis/src/subscriber.rs:717-727 | The loop's outcome is that of the coordinator's protocol steps over the same parents, which remember exactly the consumed ones. |
| Subscriber.ReaderTable.ForgetFinished | crates/ruststream-kinesis/src/subscriber.rs:795-808 | Exactly the running readers stay; a finished reader's hand-off replaces the one kept before, and one that hands nothing on, or panicked, leaves it. |
| Subscriber.ShardReader.InitialIterator | crates/ruststream-kinesis/src/subscriber.rs:885-923 | Starts right after the checkpoint, else at the opening, else at the kept cursor, else where lineage and installed position say, in positions of the log; makes the protocol's two opening steps, also when the service answers without an iterator, and leaves the variables alone when row or iterator could not be fetched or the shard is finished. |
| Subscriber.ShardReader.RecordReading | crates/ruststream-kinesis/src/subscriber.rs:1078-1096 | Records where a reading starts if the owner still holds the lease, says whether it was fenced, and keeps the place for the next reader either way. |
| Subscriber.ShardReader.HandOutBatch | crates/ruststream-kinesis/src/subscriber.rs:1073-1140 | A fenced reader hands out nothing; any other registers exactly the batch's non-aggregated records, in order, up to and including the one whose send finds the channel closed; then it stops, releasing the lease unless that was an aggregated one. |
| Subscriber.BatchAsAWhole | crates/ruststream-kinesis/src/subscriber.rs:1073-1140 | The protocol's steps over a batch have the effect the loop has, and hand out exactly those records. |
| Subscriber.ShardReader.ApplySeek | crates/ruststream-kinesis/src/subscriber.rs:926-972 | A failed seek changes nothing; a successful one starts an unrecorded reading on a fresh watermark. |
| Subscriber.SeekState.SeekShard | crates/ruststream-kinesis/src/subscriber.rs:475-500 | Moves the generation of the named shard's reader alone, sends it the command if it still listens, and answers what that reader answers. |
| Subscriber.SeekState.SeekStream | crates/ruststream-kinesis/src/subscriber.rs:503-535 | Installs the position, then moves every live generation by one, then sends every listening reader the command once, and waits for exactly those; it succeeds if and only if none of their replies is a failure, and otherwise answers one of those. |
| Settling.SavedIsSettled | crates/ruststream-kinesis/src/message.rs:341-356 | A checkpoint that an acknowledgement changes names a delivery with none unsettled up to it and an unsettled one after it, if any, and is written for the lease's holder only. |
| Settling.SettlingSaves | crates/ruststream-kinesis/src/message.rs:346-356 | Conversely, settling the delivery the watermark waits on writes the end of the settled prefix for the lease's holder. |
| Settling.Settlement.Settle | crates/ruststream-kinesis/src/message.rs:325-356 | A settlement of an earlier generation changes neither watermark nor store; any other marks its delivery and writes the one checkpoint reached, if it was the delivery the watermark waits on; it fails exactly when that write is not answered. |
| Settling.Settlement.Ack | crates/ruststream-kinesis/src/message.rs:382-384 | An acknowledgement settles its record; a fenced write is no failure, a store that does not answer is. |
| Settling.Settlement.Nack | crates/ruststream-kinesis/src/message.rs:386-395 | A requeue is refused as unsupported and changes nothing; otherwise the record settles, and fails as an acknowledgement does. |
| Seek.StaleStaysStale | crates/ruststream-kinesis/src/subscriber.rs:131-153 | Over all interleavings of readers, seeks and acknowledgements no reader's gate moves back, and a delivery stale at one moment is stale or discarded at every later one, whichever reader of the shard stamped it. |
| Seek.NothingStaleIsYielded | crates/ruststream-kinesis/src/subscriber.rs:573-591 | Once its reader's gate is past its generation, taking a delivery off the channel discards it. |
| Seek.BatchInFlightIsStale | crates/ruststream-kinesis/src/subscriber.rs:1062-1132 | Over every run, a record handed out after a bump of its reader's gate, with no generation loaded since, is stale from the start; handed out with no bump since the load it is current. |
| Seek.BatchInFlightIsNotYielded | crates/ruststream-kinesis/src/subscriber.rs:573-591 | So over every run a record read before a bump and handed out after it is discarded when the consumer would take it. |
| Seek.NothingStaleIsWritten | crates/ruststream-kinesis/src/message.rs:341-345 | A delivery stale before its acknowledgement's gate check never settles and never causes a checkpoint write. |
| Seek.WritesAreSettlements | crates/ruststream-kinesis/src/message.rs:341-356 | Over every run the writes started are exactly those of settlements that moved their watermark, each of what it then reached. |
| Seek.KeptWatermarkStopsAtTheDiscarded | crates/ruststream-kinesis/src/subscriber.rs:926-972 | A watermark kept through a failed seek never answers a delivery at or after one that has not settled, discarded ones included. |
| Seek.CommandsAreAppliedOnce | crates/ruststream-kinesis/src/subscriber.rs:1038-1052 | Over every run the commands sent to a reader are those it applied and those still waiting. |
| Seek.AppliedSeekStartsAfresh | crates/ruststream-kinesis/src/subscriber.rs:926-972 | An applied seek puts the reader on a watermark that no delivery and no other reader is on; a failed one leaves it on its own. |
| Seek.LastBatchEndsTheReading | crates/ruststream-kinesis/src/subscriber.rs:1141-1153 | After the last batch of a shard its reader never loads a generation, applies a seek or hands out again. |
| Seek.SeekDiscardsExactly | crates/ruststream-kinesis/src/subscriber.rs:475-500 | In every state, of the shard's deliveries that no acknowledgement has checked, a seek's bump keeps exactly these from ever settling: those of the reader whose handle it took, and those stale already. |
| Seek.EarlierReaderOutlivesTheSeek | crates/ruststream-kinesis/src/subscriber.rs:739-745 | A run in which a delivery of a stopped reader stays current after a seek bumped its successor's gate. |
| StreamSeek.NoReaderFallsBetween | crates/ruststream-kinesis/src/subscriber.rs:503-535 | From the return of a stream-wide seek on, every live reader was sent the command, or computed its cursor with that position or a later one installed, or has yet to compute it and will. |
| StreamSeek.ExitSparesTheSuccessor | crates/ruststream-kinesis/src/subscriber.rs:984-993 | A reader's exit removes its own registration, and every other live reader stays registered. |
| StreamSeek.InstallationsAreNumbered | crates/ruststream-kinesis/src/subscriber.rs:503-508 | Each stream-wide seek installs one position, numbered in order, and the last one installed is in force. |
| StreamSeek.CursorSawWhatWasInstalled | crates/ruststream-kinesis/src/subscriber.rs:898-906 | The position a reader's cursor was computed with is the one in force at that step. |
| StreamSeek.SeekGoesOn | crates/ruststream-kinesis/src/subscriber.rs:509-535 | Whoever else moves, a seek under way can send to one more reader of its snapshot or return, so it takes no more of its own steps than there are readers in that. |
| StreamSeek.LeavingMakesRoom | crates/ruststream-kinesis/src/subscriber.rs:795-808 | Once a reader that left has ended and is noticed, the next reader of its shard can start and is the one registered. |
| Startup.NoSendBeforeTheAnswer | crates/ruststream-kinesis/src/subscriber.rs:813-824 | Over every pass of the one loop, an error reported before `open` is answered is held and nothing of the coordinator's reaches the channel. |
| Startup.NoErrorIsLost | crates/ruststream-kinesis/src/subscriber.rs:774-784 | Over every run, the coordinator's errors received from the channel, on it, held, and being reported are together, in order, each failed call's error once; none is on the channel before the answer, and none stays held past the answer's sends. |
| Startup.EveryListedShardIsDecided | crates/ruststream-kinesis/src/subscriber.rs:706-772 | Every pass decides on each shard it listed once, whatever became of the others, and every granted lease starts one reader. |
| Startup.AnsweredOnce | crates/ruststream-kinesis/src/subscriber.rs:774-784 | The flag of the first pass is taken before the answer and never comes back: there is one answer. |
| Startup.CallsReturningSuffice | crates/ruststream-kinesis/src/subscriber.rs:241-281 | For any capacity and from any moment before the answer there is a way to it on which calls return and nothing touches the channel. |
| Startup.TheWaitIsBounded | crates/ruststream-kinesis/src/subscriber.rs:704-784 | Once the shards are listed, any run before the answer, whatever its calls answer and however its steps interleave, has room for a bounded number of returning calls and coordinator steps. |
| Startup.SomethingCanHappen | crates/ruststream-kinesis/src/subscriber.rs:704-784 | Before the answer some call or coordinator step is always possible that neither needs room in the channel nor makes any. |
| Startup.EveryReaderIsPositioned | crates/ruststream-kinesis/src/subscriber.rs:765-784 | At the answer every reader there is left its start signal and has its cursor or has stopped trying. |
| Startup.SignalMeansPositioned | crates/ruststream-kinesis/src/subscriber.rs:1017-1029 | A reader drops its start signal exactly once both calls that fix its cursor have returned well, or one has failed. |
| Envelope.BlockReadsBack | crates/ruststream-kinesis/src/envelope/rsk.rs:157-192 | A header block under 4 GiB decodes to the headers it was written from. |
| Envelope.BlockWritesBack | crates/ruststream-kinesis/src/envelope/rsk.rs:176-192 | On every byte string, re-encoding what decoding yields reproduces what it consumed, and the parser accepts exactly when nothing is left over. |
| Envelope.AcceptedBlockIsCanonical | crates/ruststream-kinesis/src/envelope/rsk.rs:176-184 | A block is accepted if and only if it is the encoding of the headers it decodes to, byte for byte. |
| Envelope.EveryRecordOpens | crates/ruststream-kinesis/src/envelope/rsk.rs:129-141 | On every byte string the payload range fits the record; a record that is no envelope is delivered whole, and one with a binary block is the very record the writer writes for what was read. |
| Envelope.FittedPayloadIsInTheRecord | crates/ruststream-kinesis/src/envelope/mod.rs:271-285 | Whatever range an envelope answers, the payload is a part of the record, and all of it if the range does not fit. |
| Envelope.SealedRecordOpens | crates/ruststream-kinesis/src/envelope/rsk.rs:68-141 | Opening a sealed record gives back its headers and payload if and only if the block is under 4 GiB, payloads that begin with a magic included. |
| Envelope.SealIsInjective | crates/ruststream-kinesis/src/envelope/rsk.rs:68-96 | Two publishes with blocks under 4 GiB that seal to the same bytes are the same publish. |
| Envelope.WireFormat | crates/ruststream-kinesis/src/envelope/rsk.rs:68-96 | A sealed record, byte by byte: the magic, the block length and each field's length in big-endian order, then the payload. |
| Envelope.ValidMeansUtf8 | crates/ruststream-kinesis/src/envelope/rsk.rs:169-173 | A name is accepted if and only if it is the UTF-8 encoding of some sequence of Unicode scalar values. |
| Envelope.Seal | crates/ruststream-kinesis/src/envelope/rsk.rs:68-96 | The writing loops produce the record those theorems are about. |
| Envelope.FieldsParse | crates/ruststream-kinesis/src/envelope/rsk.rs:176-184 | The walk over a shrinking block accepts exactly the blocks that parse whole. |
| Envelope.DecodeFields | crates/ruststream-kinesis/src/envelope/rsk.rs:187-192 | The decoding loop inserts exactly the block's headers, in order. |
| Delivery.KeySpreader.ResolvePartitionKey | crates/ruststream-kinesis/src/publisher.rs:187-199 | The key is the call's; without one, the header's; without both, the policy's; only without all three is a spread key drawn and the counter moved. |
| Delivery.SpreadKeysDiffer | crates/ruststream-kinesis/src/publisher.rs:201-209 | Two counts never give one process the same spread key. |
| Delivery.KeySpreader.Publish | crates/ruststream-kinesis/src/publisher.rs:221-263 | A publish puts the key so chosen, from call, header, policy or counter, beside the sealed non-native headers and payload. |
| Delivery.CarriedKeepsTheRest | crates/ruststream-kinesis/src/envelope/mod.rs:354-358 | The envelope carries every header but the native three, and those only. |
| Delivery.NativeHeadersWin | crates/ruststream-kinesis/src/message.rs:275-306 | Whatever the header block contains, a delivery reports the record's own key, sequence number and shard. |
| Delivery.PublishedMessageArrives | crates/ruststream-kinesis/src/message.rs:263-306 | A publish with a block under 4 GiB is delivered with its payload, exactly its non-native headers and the chosen key; with a longer block it is not. |
| InProcess.SequenceNumbersReadBack | crates/ruststream-kinesis/src/in_process/seek.rs:36-47 | A text parses to an index, with no plus sign, if and only if it is that index's rendering. |
| InProcess.PlusSignIsAccepted | crates/ruststream-kinesis/src/in_process/seek.rs:41-47 | A text no index renders to that parses all the same. |
| InProcess.SequenceNumbersSortInLogOrder | crates/ruststream-kinesis/src/in_process/seek.rs:33-38 | For every pair of indices, text order is log order. |
| InProcess.SeekControl.InstallSeek | crates/ruststream-kinesis/src/in_process/seek.rs:80-107 | The new plan replaces the pending one, and the count moves by the difference of the two. |
| InProcess.SeekLandsOnItsTarget | crates/ruststream-kinesis/src/in_process/log.rs:195-230 | Over every run, after a reposition the queue holds exactly the log from the plan's target on, what grew since it was resolved included, in order; the plan is one a seek resolved, target and count. |
| InProcess.ReadsOnFrom | crates/ruststream-kinesis/src/in_process/log.rs:142-171 | From where a seek landed or a subscription opened until the next reposition, what is taken off the queue and what is on it are the log from that place on, in order, each record once. |
| InProcess.PlanWasResolved | crates/ruststream-kinesis/src/in_process/log.rs:242-288 | Every plan being installed, pending or taken was resolved by a seek of that subscription, and its count is the log's length then less its target. |
| InProcess.OpenIsUnsettled | crates/ruststream-kinesis/src/in_process/deliveries.rs:145-172 | The deliveries a subscription has open are those handed to its handlers less those settled. |
| InProcess.DroppedGetsNothing | crates/ruststream-kinesis/src/in_process/log.rs:141-144 | From the moment a subscription is dropped no append reaches it, and it takes no record and applies no seek. |
| InProcess.RunBalances | crates/ruststream-kinesis/src/in_process/log.rs:153-230 | Over every interleaving of appends, seeks, polls and settlements of all subscriptions on all streams, what is counted in flight is the sum of what each has queued, unsettled, or promised by seeks installing, pending or taken. |
| InProcess.ZeroMeansQuiet | crates/ruststream-kinesis/src/in_process/seek.rs:71-91 | A count of zero, with no append half done, means that no subscription has anything queued, unsettled or promised: no replay is pending. |

## Left out

- Seeks inside the runs of many instances: the takeover theorems are about seek-free runs, with any installed position.
- The whole `read_shard` and `coordinate` loops as single methods: they interleave with other tasks at each await, so they are steps of a state machine; the parts that do not are methods of `Subscriber`.
- Subscriber.ShardReader.HandOutBatch: runs without interleaving; how many sends succeed is a parameter.
- Subscriber.SeekState.SeekStream: runs without interleaving; what readers that come, go or answer meanwhile do to a seek is proved in `Seek` and `StreamSeek`.
- Subscriber.SeekState.SeekShard: runs without interleaving; the reader's answer is a parameter.
- Seek.NothingStaleIsYielded: the channel is a set of deliveries, so their order in it is not modelled.
- StreamSeek.NoReaderFallsBetween: does not say that the command sent was applied successfully.
- HandOffLimits.HarmlessLossIsSafe: for a dropped subscription or a crash only this direction is claimed, since which deliveries may still be acknowledged afterwards is not modelled.
- Dynamo.DynamoLeaseStore.Read: a request that fails ends the read with that error; only answered requests are modelled.
- Lease.MemoryLeaseStore.Acquire: an expiry that overflows the clock is not modelled.
- Delivery.KeySpreader.ResolvePartitionKey: the lossy reading of a header as text is a parameter.
- The count of failed reads before a reader gives up: giving up may happen at any read.
- Poll intervals, renewal periods, throttling delays and batch windows: timing only.
- 64-bit wrap-around of delivery indices and generations.
- Decoding of the text envelope of earlier releases, `Framed` and `NoOp`: nothing here writes the first, and the others carry no headers of this format.
- Resolving a seek's target in the in-process log: the plan is any target within the log.
- Clients, credentials, claims, builders, error texts and broker descriptions: wiring without protocol state.
