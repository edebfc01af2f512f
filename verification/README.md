# WalStream replay: a verified model

A Dafny model of the durable replay path of WalStream, with proofs about it: the
job row and its lease, the worker's event loop, the bounded and resumable Redis
and Kafka sources, the replayer's `exists -> apply -> mark_processed`, and the
target database. Two smaller arithmetic parts stand beside it: the token bucket
of the API's rate limiter and the histogram percentiles of the dashboard.

`dafny verify dfyconfig.toml` checks everything.

## How it is organised

* `Prelude`, `Target`: the target database. A table is a list of rows with unique
  constraints; `Effect` is what one change record does to it, `Replay` the fold.
* `Jobs`: the job row, every transaction on it as a function on rows, and the
  mapped object (`class Job`) whose methods assign the columns and are proved to
  be those transactions. `Leases` proves what holds over every run of them, and
  `History` what each column says about the run.
* `Windows`: which records of one partition a job with `[start_ms, end_ms]` covers.
* `KafkaSource`, `RedisSource`, `CheckpointText`: seeking, streaming, paging,
  resuming, and the text form of checkpoints.
* `Dedup`, `Replayer`, `Ingestor`, `Worker`: the dedup store, the replayer service,
  the producer's keying by table, the worker's retry and event loops.
* `Pipeline`: all of it as one step machine. The state holds one job row, any number
  of executors of that job, both logs, the requests inside the replayer, the dedup
  marks and the target. Steps may come in any order: a crash between any two steps, a
  lost response, a failed check, write or mark, a write that took effect but was
  reported as failed, dedup expiry and cleanup, lease expiry, API calls, appends to
  the logs (also in the middle of opening a stream) and any Kafka interleaving.
* `Soundness`: what every run of `Pipeline` keeps, with any number of executors.
  `Attempts`: what comes of the attempts at each event, and what each counter counts.
  `Counting`: what every run keeps with one executor at a time, keys repeated or not and
  attempts overlapping or not. `Alignment`: what it keeps when attempts do not overlap.
  `ExactlyOnce`: what the target then holds, keys repeated or not. `Events`, `Completion`: such
  runs exist and complete.
  `Pinning`, `OpeningRace`: source pinning, and the two runs that break a promise.
* `Ownership`, `Requests`, `Deliveries`: the pipeline refines the row machine of `Leases`,
  its request steps are `ReplayEvent`, and its executors are handed what the consumer loop
  of `KafkaSource` yields.

## Hypotheses

Worker ids are unique, all times come from one clock that does not step back, and
every database transaction is one atomic step, the worker's second read of the row it
has just acquired included (but see "Left out"). Partitions are fixed in number, their
offsets contiguous and append-only; Redis never trims past the cursor. Target tables have
no foreign keys or triggers.

Conservation (`Counting.Single`) takes one executor at a time, and that the first event
committed in a partition is the first of its window. Exactly-once effect
(`ExactlyOnce.Serial`, `ExactlyOnce.LogOk`) takes one executor at a time; that a timed-out
attempt has finished before the next begins; that the first event sent of a partition is
the first of its window, and a job completes only if the partitions nothing was committed
in had an empty one; that an inserted row has all columns of some unique constraint; that
the records of a table, and those of an event and its redeliveries, share a partition; and
that the run is shorter than the dedup TTL or keys are distinct. A stream that is opened
exactly (`KafkaSource.OpensExactly`) starts at the first event of every window it has
something of (`Counting.ExactOpeningSuffices`).

## Findings

Where the code does not keep a promise on all inputs, the code is modelled as it is, a
lemma gives the input, and another says exactly when the promise holds.

* Opening a Kafka stream asks the broker for offsets by time, then for the end offset of
  partitions that have none, then for the snapshot of end offsets
  (`replay_router.py:210-249`). A record that arrives in between can be passed over for
  good, or one from before the range replayed (`KafkaSource.OpeningRaces`;
  `OpeningRace.CompletedWithoutCoverage` is a whole run to COMPLETED without its one
  in-range record). For one opening, `KafkaSource.CoverageIff` says exactly when the stream
  contains the window of the snapshot (`Misses`), and `KafkaSource.WindowIff` when it is the
  window, no more and no less (`OpensExactly`). For whole runs, `skipped` collects the records
  that openings passed over (`Pipeline.SkipsIff`): on every run each in-range event at or below
  a checkpoint is acknowledged or skipped, and the snapshot of a COMPLETED job was applied in
  full if and only if its skipped records were, by a later opening
  (`Soundness.CheckpointSoundness`, `Soundness.CompletedCoversWindow`). With one executor at a
  time the counters are right throughout a run if and only if the first commit in each partition
  was at the base of its window (`Counting.ConservationIff`).
* A resumed partition that has no checkpoint is opened afresh, and may then stream other records
  than the uninterrupted run (`KafkaSource.ResumeDiffers`). `KafkaSource.ResumeContinues` says
  exactly when it continues that run.
* The repository's README says resumed jobs reuse their source. An executor that fetched
  the row before a source was set overwrites it later, even over a stored checkpoint
  (`Pinning.PinningBroken`, where the job then holds an id that its new source cannot read).
  `Pinning.SourceFixedIff` gives the exact condition.
* The flat id is kept as a fallback for a Kafka job without a map. A commit in another partition than
  the flat id's then starts a map without it, and that progress is lost (`Pipeline.FallbackLost`).
  `Pipeline.ReadBackIff` says exactly when a commit keeps the other partitions' progress: always when
  there is a map, as after any commit of the code itself.
* `ON CONFLICT DO NOTHING` makes an INSERT repeatable if and only if some unique
  constraint lies within the columns of `new` (`Target.IdempotentIff`).
* The rate limiter's window bound needs a clock that does not step back: the script
  writes an earlier `ts` back (`RateLimit.BackwardClockBreaksBound`). For buckets of any given
  size the bound holds at all rates and in all windows if and only if the clock never steps back
  (`RateLimit.WindowBoundIff`); for any clock it holds with the sum of the forward steps in place
  of the length (`RateLimit.ForwardBound`). Waiting the Retry-After time helps if and only if the
  capacity is at least one token (`RateLimit.RetryAfterSuffices`).
* The repository's README says leases prevent two workers from processing one job.
  `_execute_job` never looks at `worker_id`, and in any reachable state, whoever is at work,
  calls of the API and an acquisition start one more executor if and only if the job is not
  terminal (`Ownership.SecondExecutorIff`, `Leases.AcquirableAgainIff`). `Soundness` therefore
  allows any number of executors, and proves what survives that.

## Model

| member | source | states |
|---|---|---|
| Target.UpdatedTwice | replayer/server.py:192-220 | the same UPDATE run again on its own result changes no row |
| Target.Deleted | replayer/server.py:222-240 | the rows that DELETE leaves are exactly the rows of the table that do not match the old columns |
| Target.InsertMeaning | replayer/server.py:172-190 | INSERT appends `new`, unless it is empty or collides with a row on a unique constraint; in a table that respects its constraints, unless appending it would break one |
| Target.UpdateMeaning | replayer/server.py:192-220 | UPDATE overlays `new` on each row that holds every old column with its old value, leaves the others, and fails, changing nothing, exactly when that would break a constraint |
| Target.DeleteMeaning | replayer/server.py:222-240 | DELETE drops each row that holds every old column with its old value and keeps every other, in place and in order; without old columns it drops nothing |
| Target.EffectKeepsConstraints | replayer/server.py:172-247 | no record of any operation can make a table break a unique constraint |
| Target.EffectTwice | replayer/server.py:172-247 | applying a repeatable record a second time changes nothing, and succeeds if the first did |
| Target.IdempotentIff | replayer/server.py:172-190 | a record is idempotent on every table if and only if it is no INSERT, or has no columns, or contains a unique constraint |
| Target.ReplayByTable | replayer/server.py:146-247 | one table of the replayed target depends on that table's records only |
| Target.TablesCommute | replayer/server.py:146-247 | records on different tables commute, and neither shows in the other's table |
| Target.OwnPartitionSuffices | ingestor/ingestor.py:316-326 | a table's content is the fold of the one partition its records are keyed to |
| Target.InterleavingIndependence | ingestor/ingestor.py:316-326 | two delivery orders that agree on every partition leave the same target |
| Ingestor.Ingestor.PublishToKafka | ingestor/ingestor.py:316-327 | after publishing, the topic is exactly the one built by the records published so far plus this one, each in its table's partition |
| Ingestor.PartitionOrderIsTableOrder | ingestor/ingestor.py:316-327 | a table's records all lie in one partition, and consuming the partitions in any interleaving leaves what the publication order leaves |
| Jobs.Job.TransitionStatus | control/app/services/job_service.py:90-108 | moves along the transition table only; pausing and cancelling release the job, cancelling stamps its end; a refusal changes nothing |
| Jobs.Job.UpdateJob | control/app/services/job_service.py:111-132 | status and speed change together or, when either is refused, not at all |
| Jobs.Job.StartJob | control/app/services/job_service.py:135-145 | PENDING becomes QUEUED, anything else is refused unchanged |
| Jobs.Job.PauseJob | control/app/services/job_service.py:148-160 | RUNNING becomes PAUSED and released, anything else is refused unchanged |
| Jobs.Job.ResumeJob | control/app/services/job_service.py:163-173 | PAUSED becomes QUEUED, anything else is refused unchanged |
| Jobs.Job.CancelJob | control/app/services/job_service.py:176-189 | any job that is not terminal becomes CANCELLED, released and stamped; a terminal one is refused unchanged |
| Jobs.Job.AcquireJob | control/app/workers/job_worker.py:126-178 | a job is taken exactly when it is QUEUED with no live lease or RUNNING with a lapsed one; the first start time is kept |
| Jobs.Job.RenewLease | control/app/workers/job_worker.py:397-413 | only the owner's renewal moves the lease, and it moves nothing else |
| Jobs.Job.RecordSource | control/app/workers/job_worker.py:196-205 | writes the chosen source over whatever is there, and the total only where it is 0 |
| Jobs.Job.UpdateCheckpoint | control/app/workers/job_worker.py:366-384 | Kafka progress goes to one entry of the map, and the flat id always follows |
| Jobs.Job.CommitEvent | control/app/workers/job_worker.py:260-270 | the duplicate or the processed counter and the checkpoint move in one transaction; which counter, and what it then counts, is in `History` and `Attempts` |
| Jobs.Job.CountFailure | control/app/workers/job_worker.py:271-275 | a failed event counts and leaves the checkpoint alone |
| Jobs.Job.CheckpointJob | control/app/workers/job_worker.py:415-429 | saves the flat id, pauses and releases; the map and the counters stay |
| Jobs.Job.CompleteJob | control/app/workers/job_worker.py:431-442 | completes, stamps and releases from any status |
| Jobs.Job.FailJob | control/app/workers/job_worker.py:444-456 | fails, counts the error and releases from any status |
| Leases.EndpointsMatchTable | control/app/services/job_service.py:20-25 | for every row the four endpoints and the generic update answer and do the same, and the update reaches no other status |
| Leases.UpdateComposes | control/app/services/job_service.py:111-132 | an update of status and speed is the one followed by the other, or nothing; a speed is taken iff the job is then PENDING, RUNNING or PAUSED |
| Leases.ApiKeepsTerminal | control/app/services/job_service.py:20-25 | no run of API calls changes anything in a COMPLETED, FAILED or CANCELLED job |
| Leases.StampsInvariant | control/app/workers/job_worker.py:158-166 | after any run of transactions a RUNNING job has a start time and a COMPLETED or CANCELLED one an end time |
| Leases.StartedOnce | control/app/workers/job_worker.py:158-166 | once set, the start time is never moved by any run |
| Leases.LeaseInvariant | control/app/workers/job_worker.py:126-178 | after any run of API and worker transactions a job is RUNNING iff it has an owner iff it has a lease |
| Leases.LeaseConsequences | control/app/workers/job_worker.py:397-413 | so renewal never revives a released job, and a job can be acquired iff it is QUEUED or RUNNING with a lapsed lease |
| Leases.HeldUntil | control/app/workers/job_worker.py:130-166 | from an acquisition until the next release or acquisition the job is RUNNING, held by that worker, with the last lease written |
| Leases.Handover | control/app/workers/job_worker.py:130-166 | between two acquisitions a transaction released the job, or the clock passed the last lease written |
| Leases.PromptOwnerKeepsJob | control/app/workers/job_worker.py:386-413 | on a clock that does not step back, an owner whose own renewals come at gaps of at most the lease is not displaced: only a release takes the job from it |
| Leases.AcquirableAgainIff | control/app/workers/job_worker.py:130-166 | by API calls alone, with no time passing, a job can be made acquirable iff it is not terminal, whoever holds it |
| History.RowTellsHistory | control/app/workers/job_worker.py:126-456 | after any run of transactions every column is told by the run: each counter counts its own kind, each partition holds its last commit, source, id, owner, lease, status, end time and speed are the last written, total and start time the first |
| Ownership.RowIsTransactionRun | control/app/workers/job_worker.py:182-289 | the pipeline's row after any run is what the run's transactions, in commit order, make of it |
| Ownership.LeaseInvariantInPipeline | control/app/workers/job_worker.py:126-178 | the lease invariant and its two consequences hold in every state the pipeline reaches |
| Ownership.SecondExecutorIff | control/app/workers/job_worker.py:182-289 | in every reachable state, API calls and an acquisition can start one more executor beside those at work iff the job is not terminal |
| Windows.Base | control/app/services/replay_router.py:232-245 | the first offset stamped at or after start_ms, the end of the log where there is none |
| Windows.Stop | control/app/services/replay_router.py:276-299 | the first offset from a position on that is at the end or stamped after end_ms |
| Windows.WindowIsTimeRange | control/app/services/replay_router.py:276-299 | with stamps that never decrease, the window is exactly the records with start_ms <= stamp <= end_ms |
| KafkaSource.SeekAll | control/app/services/replay_router.py:210-245 | every partition is sought to the offset after its checkpoint, else to the offset found by time, else to the end |
| KafkaSource.HandleMessage | control/app/services/replay_router.py:276-299 | one message does what the stream's step function says: skip, close the partition, or yield and close at the end |
| KafkaSource.AllCompleted | control/app/services/replay_router.py:298-299 | comparing the sizes of the two sets decides whether every partition is complete |
| KafkaSource.StreamEvents | control/app/services/replay_router.py:247-299 | for every interleaving, each partition yields a prefix of the run from its seek offset to the first stamp above end_ms or the snapshot's end, and exactly that run when the loop ends by itself |
| KafkaSource.BoundedStream | control/app/services/replay_router.py:273-299 | the same of the stream's step function: no partition cuts another short |
| KafkaSource.Progresses | control/app/services/replay_router.py:276-299 | every record taken from an uncompleted partition lowers the sum of what is left below the snapshot's ends, whatever is appended |
| KafkaSource.ZeroMeansFinished | control/app/services/replay_router.py:296-299 | that sum is zero exactly when every partition is complete and the loop ends |
| KafkaSource.SoughtTo | control/app/services/replay_router.py:232-245 | a partition without checkpoint starts at the first record from start_ms on of the snapshot when the lookup found one, else at the end offset read after it |
| KafkaSource.CoverageIff | control/app/services/replay_router.py:232-299 | the stream contains the snapshot's window iff the opening misses no record of it |
| KafkaSource.WindowIff | control/app/services/replay_router.py:232-299 | the stream is exactly the snapshot's window iff it was opened exactly |
| KafkaSource.OpeningExactIff | control/app/services/replay_router.py:232-299 | with stamps that never decrease, the stream is exactly the snapshot's records with start_ms <= stamp <= end_ms iff it was opened exactly |
| KafkaSource.OpeningRaces | control/app/services/replay_router.py:232-251 | an input on which an in-range record is passed over, and one on which a record from before the range is replayed |
| KafkaSource.SavedPartition | control/app/workers/job_worker.py:375-380 | after committing any events, a partition's entry in the map is the last of its offsets, or unchanged where it had none |
| KafkaSource.ResumeContinues | control/app/services/replay_router.py:210-245 | cut after any event of any interleaving and resume: in a partition with a checkpoint, or whose first lookup had found a record, handled plus streamed is the uninterrupted run; in any other it is so iff the partition is sought to the same offset again or neither offset has anything to stream |
| KafkaSource.ResumeDiffers | control/app/services/replay_router.py:219-232 | an input on which a resumed partition without checkpoint streams a record that the uninterrupted run does not |
| Pipeline.SkipsIff | control/app/services/replay_router.py:232-251 | an opening passes over a record of a partition iff it misses one there |
| Pipeline.ReadBackIff | control/app/workers/job_worker.py:366-384 | after a commit the checkpoint is read back with that partition moved and the others as they were, for a Kafka job iff no other partition's progress was in the flat id alone |
| Pipeline.FallbackLost | control/app/workers/job_worker.py:375-384 | a row with a flat id and no map, whose progress a commit in another partition loses |
| Pipeline.FlatIdRead | control/app/workers/job_worker.py:211-218 | a flat id with no map beside it is read as its own position by its source, and is an error for the other |
| RedisSource.SelectSound | control/app/services/replay_router.py:87-92 | a range query returns exactly the entries in range, each once and in stream order |
| RedisSource.StreamEvents | control/app/services/replay_router.py:75-117 | batches of 100 with the inclusive, then exclusive cursor return exactly what one range query on the last view of the stream returns, entries being appended between batches |
| RedisSource.CutAndResume | control/app/services/replay_router.py:81-117 | cut after any entry and resume from its id, on a longer stream: together they are the whole range, no gap and no repeat |
| RedisSource.SelectIsWindow | control/app/services/replay_router.py:81-92 | selecting by id from start_ms is taking the window by position |
| RedisSource.SelectAfterIsWindow | control/app/services/replay_router.py:86-92 | selecting after the id of an entry is taking the rest of the window after its position |
| CheckpointText.MapRoundTrip | control/app/services/replay_router.py:175-191 | parsing the dumped JSON object recovers exactly the map that was written |
| CheckpointText.KafkaIdRoundTrip | control/app/services/replay_router.py:186-190 | parsing a flat Kafka id recovers exactly its partition and offset |
| CheckpointText.RedisIdRoundTrip | control/app/services/replay_router.py:83-92 | a Redis id used as a cursor names exactly the entry it was taken from |
| CheckpointText.NeverMisread | control/app/workers/job_worker.py:188-194 | a Redis id given to the Kafka parser and a Kafka id given to Redis are errors, never another position |
| CheckpointText.IdSpellings | control/app/services/replay_router.py:186-190 | the text of a Kafka id and of a Redis id, on concrete values |
| CheckpointText.MapSpelling | control/app/workers/job_worker.py:211-216 | the text of a checkpoint map with two partitions |
| Dedup.AsyncDedupStore.IsProcessed | replayer/server.py:315-336 | true iff the key is stored with an expiry still ahead |
| Dedup.AsyncDedupStore.MarkProcessed | replayer/server.py:338-364 | stores the key, or moves its expiry, to one TTL from now, and touches no other key |
| Dedup.AsyncDedupStore.CleanupExpired | replayer/server.py:406-425 | removes exactly the keys whose expiry is past and returns how many |
| Dedup.ExistsIffMarkedLately | replayer/server.py:315-364 | after any run of marks and cleanups, exists answers whether the key was last marked less than a TTL ago |
| Dedup.CleanupLeaves | replayer/server.py:406-425 | after any run of marks and cleanups, a cleanup leaves exactly the keys last marked at most a TTL ago, with that expiry |
| Dedup.CleanupInvisible | replayer/server.py:406-425 | running the cleanup at any moments changes no answer, then or later |
| Replayer.PostgreSQLTargetApplier.Apply | replayer/server.py:146-170 | dispatches to one statement; false for an unknown operation or a failure, and then the target is unchanged unless only the report was lost; no other table changes |
| Replayer.PostgreSQLTargetApplier.ApplyInsert | replayer/server.py:172-190 | adds the row unless it has no columns or a unique constraint already holds it |
| Replayer.PostgreSQLTargetApplier.ApplyUpdate | replayer/server.py:192-220 | overlays `new` on the rows that the old columns name and on no other, or fails and changes nothing if a constraint would break |
| Replayer.PostgreSQLTargetApplier.ApplyDelete | replayer/server.py:222-240 | the rows left are exactly those that the old columns do not name; all of them when there are no old columns |
| Replayer.PostgreSQLTargetApplier.ApplyTruncate | replayer/server.py:242-247 | empties the table |
| Replayer.ReplayerService.ReplayEvent | replayer/server.py:444-516 | for every combination of failures, the reply, the marks and the target are those of `Handled` |
| Replayer.ReplyMeaning | replayer/server.py:467-507 | a duplicate is exactly a key marked before, and changes nothing; any other success exactly an effect with a mark stored and reported, which lasts until one TTL from now and no longer; a failed apply is never marked |
| Replayer.RetryIsHarmless | replayer/server.py:467-507 | once an attempt has written a repeatable record, a further attempt changes no table, whatever failed in either |
| Replayer.FirstOccurrencesSuffice | replayer/server.py:444-507 | within the TTL, a sequential replay of a log with repeated keys leaves what its first occurrences alone leave, up to the first refused event |
| Requests.StepsAreReplayEvent | replayer/server.py:444-516 | a request's steps in the pipeline, left undisturbed, give the reply, marks and target of `ReplayEvent` |
| Requests.OnlyEarlierChecksWrite | replayer/server.py:467-490 | while a key stays marked, no further request for it gets past its existence check, on any run |
| Requests.MarkBlocksLaterRequests | replayer/server.py:467-490 | after a mark commits and until it expires, whatever can still write an event with that key had passed its check before the mark |
| Worker.ReplayEventWithRetries | control/app/workers/job_worker.py:307-337 | succeeds iff one of max(0, retries) + 1 attempts does, returns the first that does, and makes no further attempt |
| Worker.ExecuteJob | control/app/workers/job_worker.py:182-289 | for every event sequence, shutdown, outcome of the attempts, and any API calls served between the worker's transactions and its status reads, the job object ends as `Executed` says, with that ending and that many events handled |
| Worker.LoopEnds | control/app/workers/job_worker.py:220-289 | the loop ends in the first round with a shutdown, a status read of PAUSED or CANCELLED, or a failed event, every event before it committed and none after; a round that reads CANCELLED leaves the row as read, a pause saves the last id handled |
| Worker.SourceReused | control/app/workers/job_worker.py:188-218 | a recorded source is used whatever would be chosen now, the source in use is the one recorded and that of the ids committed, and a checkpoint it cannot read fails the job with nothing handled |
| Worker.LoopCommitsHandled | control/app/workers/job_worker.py:220-289 | checkpoint map and flat id move exactly by the events handled, skipped by the duplicates among them and processed by the others; the loop ends at the first event it cannot handle, uncommitted; every ending but cancellation releases the job |
| Worker.LoopIsTransactionRun | control/app/workers/job_worker.py:220-289 | the row the loop leaves is the one its transactions and the API's make of the row it found |
| Worker.ExecutionKeepsLease | control/app/workers/job_worker.py:182-289 | an execution keeps the lease invariant, whatever API calls are served between its transactions |
| Events.EventReplayed | control/app/workers/job_worker.py:220-270 | an event that the target can take and that is not marked is delivered, sent, applied, marked and committed by seven steps of the pipeline |
| Deliveries.Begins | control/app/services/replay_router.py:247-271 | an executor that opens its stream starts where the consumer loop starts |
| Deliveries.MessageMirrored | control/app/services/replay_router.py:276-299 | on each message the loop yields exactly when there is an event for the executor, and it is that event |
| Deliveries.LoopMirrored | control/app/services/replay_router.py:276-299 | over every interleaving the executor is handed exactly what the loop yields, and when the loop has ended it can complete |
| Deliveries.OnlyClosingLeft | control/app/services/replay_router.py:282-299 | when the executor has nothing left, every partition still open has a record above end_ms next, which closes it and yields nothing |
| Soundness.WorldKeepsInv | control/app/services/job_service.py:90-189 | API calls, acquisition, renewal, time, appends and dedup cleanup keep the invariant |
| Soundness.WorkKeepsInv | control/app/workers/job_worker.py:182-289 | every step of any executor keeps it, a crash at any point included |
| Soundness.RpcKeepsInv | replayer/server.py:444-516 | every step inside the replayer keeps it, failed, lost or misreported ones included |
| Soundness.RunKeepsInv | control/app/workers/job_worker.py:182-289 | so every run with any number of executors keeps it |
| Soundness.ResumeMapOk | control/app/workers/job_worker.py:211-218 | whichever column a checkpoint is read back from, all earlier in-range events of its partition are acknowledged or were passed over by an opening |
| Soundness.CompletionCovers | control/app/workers/job_worker.py:284-285 | an executor whose stream has ended has every in-range event of its snapshot acknowledged or passed over by an opening |
| Soundness.CheckpointSoundness | control/app/workers/job_worker.py:211-282 | on every run, each in-range event at or below any checkpoint in the row, flat or per partition, is acknowledged or was passed over by an opening, and every acknowledged event's key was applied |
| Soundness.CompletedCoversWindow | control/app/workers/job_worker.py:260-285 | on every run that ends COMPLETED, each in-range event of the finishing executor's snapshot was applied or passed over by an opening, and all of them were applied iff those passed over were |
| Soundness.NeverPastFailedEvent | control/app/workers/job_worker.py:271-282 | everything an executor ever commits in the partition of the event it gave up on lies before that event |
| OpeningRace.CompletedWithoutCoverage | control/app/services/replay_router.py:232-251 | a run from a fresh job to COMPLETED whose one in-range record was never applied, because it arrived while the stream was opened |
| ExactlyOnce.PartitionDone | control/app/services/replay_router.py:276-299 | when a partition's stream has ended, the events at or below its checkpoint are exactly its window |
| ExactlyOnce.UnmarkedIsNew | replayer/server.py:467-481 | within the TTL or with distinct keys, an existence check that finds no mark is for an event whose key was not handled before |
| ExactlyOnce.AppliedOrKnown | replayer/server.py:467-507 | an acknowledged next event was applied itself, or its key belongs to an event handled before |
| ExactlyOnce.TableWritten | replayer/server.py:483-497 | writing the next event of a partition, for the first time or again, advances the fold of its own table and of no other |
| ExactlyOnce.CommitAdvances | control/app/workers/job_worker.py:260-270 | a commit passes exactly the next event, which has reached the target or repeats a key handled before |
| ExactlyOnce.StepKeepsSerial | control/app/workers/job_worker.py:182-289 | every serial step keeps the serial invariant: target, marks, counters, checkpoint, executor and requests all agree |
| ExactlyOnce.ExactlyOnceEffect | control/app/workers/job_worker.py:220-285 | on every serial run, the target of a COMPLETED job equals, table by table, the in-order fold of the first occurrences in its window over the target it began with, keys repeated or not |
| ExactlyOnce.DistinctEffect | control/app/workers/job_worker.py:220-285 | where keys are distinct it equals the in-order fold of the whole window, however long the run and whatever marks expired |
| ExactlyOnce.AnyGlobalOrder | control/app/workers/job_worker.py:220-285 | and so it equals the replay of any single order of those events that keeps each partition's order |
| Counting.StepKeepsCount | control/app/workers/job_worker.py:182-289 | with one executor at a time and first commits at the base of the window, every step keeps row, executor and counters in agreement, whatever the replayer does |
| Counting.Conservation | control/app/workers/job_worker.py:260-270 | with one executor at a time and first commits at the base of the window, processed plus skipped equals the number of in-range events at or below the stored checkpoint, summed over partitions, however streams were opened, keys repeated or not and attempts overlapping or not |
| Counting.ConservationIff | control/app/workers/job_worker.py:260-270 | with one executor at a time the counters are right in every state of a run iff the first commit in each partition was at the base of its window |
| Counting.ExactOpeningSuffices | control/app/services/replay_router.py:232-251 | a stream opened exactly stands at the base of every window it hands an event of, and the other windows are empty |
| Attempts.CountersAreReplies | control/app/workers/job_worker.py:260-266 | on every run with any number of executors, events_processed is the number of commits whose reply was no duplicate and events_skipped_dedup of those whose reply was one |
| Attempts.ConservationByReply | control/app/workers/job_worker.py:260-270 | with one executor at a time and first commits at the base of the window, the two counters, each that number, add up to the in-range events at or below the checkpoint |
| Attempts.FirstSuccessCommitted | control/app/workers/job_worker.py:307-337 | on every run an event is committed on its first successful attempt, tried again iff all attempts failed and some are left, and given up iff as many as allowed have failed |
| Attempts.StopsWhenTold | control/app/workers/job_worker.py:229-242 | while a job is paused or cancelled, an executor sends and commits no event beyond the one it has in hand |
| Alignment.WorkKeepsAlign | control/app/workers/job_worker.py:182-289 | with one attempt at a time, every step of the executor but a commit keeps what was applied, the requests under way and its task in agreement with the row |
| Alignment.CommitKeepsAlign | control/app/workers/job_worker.py:260-270 | so does a commit, and nothing beyond the next event was applied |
| Alignment.OpenedAhead | control/app/services/replay_router.py:210-251 | an executor that opens a stream, exactly or not, still comes to a next event that already reached the target |
| Completion.CanComplete | control/app/workers/job_worker.py:220-285 | from any fresh job with well-formed logs and distinct keys whose window the target can take in order, some serial run replays the whole window and completes |
| Pinning.PinnedWhenSingle | control/app/workers/job_worker.py:188-218 | with one executor at a time, however streams are opened, a source once set never changes, the checkpoint has its format, and reading it back never fails |
| Pinning.SourceWritten | control/app/workers/job_worker.py:196-199 | recording an executor's choice is the only step that writes a job's source |
| Pinning.SourceFixedIff | control/app/workers/job_worker.py:188-199 | a recorded source survives every run iff no executor still holds a row fetched with another source or none |
| Pinning.CheckpointHasSource | control/app/workers/job_worker.py:196-218 | with any number of executors, once any checkpoint is stored the source is set |
| Pinning.PinnedFromFirstChoice | control/app/workers/job_worker.py:188-218 | if the executor that first chooses a source is then the only one, source and checkpoint format are fixed on every later run with any number of executors, and reading the checkpoint back never fails |
| Pinning.PinningBroken | control/app/workers/job_worker.py:188-199 | a run from a fresh job that commits a Redis checkpoint, after which the source is overwritten by Kafka and the checkpoint cannot be read there |
| RateLimit.RateLimiter.Consume | control/app/middleware/rate_limit.py:34-58 | one run of the script: the decision, the stored bucket and the remaining tokens, for an absent, expired or live key |
| RateLimit.TokensInRange | control/app/middleware/rate_limit.py:45-57 | whatever the clock does, the tokens stay within [0, capacity] |
| RateLimit.ExpiryInvisible | control/app/middleware/rate_limit.py:53-57 | keys that expire and keys that never do give the same bucket and the same decision at every request |
| RateLimit.Budget | control/app/middleware/rate_limit.py:45-57 | whatever the clock does, admissions since any request plus the tokens left never exceed capacity + rate * the forward steps of the clock |
| RateLimit.AdmittedIff | control/app/middleware/rate_limit.py:34-58 | whatever the clock does, a request is admitted iff with it every window that ends there stays within capacity + rate * the clock's forward steps |
| RateLimit.NotRefusedEarly | control/app/middleware/rate_limit.py:44-51 | no client is refused before as many of its requests were admitted as a full bucket holds |
| RateLimit.RemainingAdmitted | control/app/middleware/rate_limit.py:49-58 | at one instant, exactly as many further requests are admitted as whole tokens were left |
| RateLimit.InstantAdmits | control/app/middleware/rate_limit.py:38-51 | a new client has exactly floor(capacity) requests of one instant admitted |
| RateLimit.ForwardBound | control/app/middleware/rate_limit.py:45-57 | any window admits at most capacity + rate * the sum of the clock's forward steps within it |
| RateLimit.WindowBound | control/app/middleware/rate_limit.py:45-57 | with a monotone clock, any window of length T admits at most capacity + rate * T requests |
| RateLimit.WindowBoundIff | control/app/middleware/rate_limit.py:44-57 | for buckets of any given size, that bound holds at every rate and in every window iff the clock never steps back |
| RateLimit.BackwardClockBreaksBound | control/app/middleware/rate_limit.py:45-47 | three times, one stepping back, for which the bound fails |
| RateLimit.RetryAfterSuffices | control/app/middleware/rate_limit.py:112-121 | a client left alone for at least the Retry-After time is admitted iff the capacity is at least 1 |
| Percentiles.ExtractPercentile | frontend/src/lib/utils/prometheus-parser.ts:142-168 | the loop returns the interpolated value of the first bucket that holds the target, 0 without data, nothing when no bucket holds it |
| Percentiles.ExtractPercentiles | frontend/src/lib/utils/prometheus-parser.ts:136-172 | the result has exactly one entry per percentile that has a value |
| Percentiles.CoveredIff | frontend/src/lib/utils/prometheus-parser.ts:146-168 | a value exists iff the last bucket holds the target |
| Percentiles.OnItsSegment | frontend/src/lib/utils/prometheus-parser.ts:150-165 | the value lies in the bucket that covers it, on the line between that bucket's corners |
| Percentiles.PercentileIsQuantile | frontend/src/lib/utils/prometheus-parser.ts:142-168 | for repeated bounds too, the value is the least one at which the piecewise-linear cumulative curve reaches the target |
| Percentiles.EntryIsQuantile | frontend/src/lib/utils/prometheus-parser.ts:142-168 | percentile p has a value iff the buckets hold total * p observations, and it is the least value at which the curve reaches total * p; 0 without data |
| Percentiles.InverseOfCurve | frontend/src/lib/utils/prometheus-parser.ts:150-158 | where no bound repeats, the curve at the value is the target again |
| Percentiles.EntriesMonotone | frontend/src/lib/utils/prometheus-parser.ts:142-168 | p <= q implies value(p) <= value(q), and p has a value if q has |

## Left out

- Clients and I/O: aiokafka, redis, asyncpg, gRPC and SQLAlchemy are logs, maps and atomic steps that may fail; consumer caching, topic metadata, a consumer without a position, and shutdown of the services are not modelled.
- Mutual exclusion of execution, which the code does not provide; see Findings.
- Terminal states under worker transactions: completing, failing and pausing set the status from any status, so only API calls are shown to leave a finished job alone.
- Jobs.Job.CommitEvent: the row is read and written in one step; two executors whose transactions overlap under READ COMMITTED could lose one of two updates.
- Jobs.Job.CancelJob: the row is read and written in one step, as in every API call; on a row read as QUEUED the code writes only the columns it changed, so an acquisition that commits in between could leave CANCELLED with an owner and a lease.
- Jobs.Job.AcquireJob: the row is read again after the acquisition has committed (control/app/workers/job_worker.py:168-176); the model joins that read to the acquisition.
- Pinning.PinnedFromFirstChoice: that a checkpoint stays readable with many executors is shown one way only; the converse turns on whether an old executor can still commit an event, and so on logs and target.
- Worker.ExecuteJob: an exception that reaches the handler after a final status was already committed would mark the job FAILED as well; that and a crash in mid-loop are steps of `Pipeline`, not of this method.
- Delivery from the WAL to the logs, where a failed message can be passed over by later feedback; the model starts from given logs.
- Redis MAXLEN trimming and Kafka retention or compaction; the logs only grow.
- PostgreSQL column types, defaults, foreign keys and triggers; a NULL column is an absent one.
- The MD5 in the idempotency key; keys are given. The older `check_and_mark` and control/app/services/dedup_store.py are outside the replay path.
- CheckpointText.MapRoundTrip: the parser accepts plain decimal keys and values, as the code writes them; JSON in other spellings (signs, exponents, nested values) is treated as no object.
- Percentiles.ExtractPercentile: filtering and sorting the metrics, and the NaN that `+Inf` becomes, are left out; bounds are finite and sorted, arithmetic is over reals.
- RateLimit.RateLimiter.Consume: floating-point rounding, a refill rate of zero or less, the skipped paths and the fail-open branch are left out; the key's expiry is read from the client's clock.
- The choice between Redis and Kafka by age and size of the window: a new job may get either.
- `count_events` (any total is allowed), the wait for virtual time, backoff delays, and the columns updated_at, last_processed_time and error_message.
- Creating, listing and deleting jobs, which are plain row operations.
- LoggingTargetApplier, authentication, RBAC, audit, health checks, metrics, migrations, configuration and the frontend other than the percentiles.
