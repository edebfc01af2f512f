/**
 The replay job row (control/app/models/replay_job.py), the transactions the API
 service runs on it (control/app/services/job_service.py) and the ones a worker
 runs on it (control/app/workers/job_worker.py).  `JobRow` is the committed row;
 `Job` is the mapped object whose attributes the code assigns.
 */
module Jobs {
  import opened Prelude

  datatype JobStatus = Pending | Queued | Running | Paused | Completed | Failed | Cancelled

  /** `last_processed_id`: NULL, the empty string, or the id of an event of either source.
      A Redis entry is named by its position in the stream. */
  datatype EventId = NoId | EmptyId | RedisId(entry: nat) | KafkaId(partition: nat, offset: nat)

  datatype JobRow = JobRow(
    status: JobStatus,
    workerId: Option<string>,
    leaseExpiresAt: Option<int>,
    replaySource: Option<Source>,
    checkpoint: map<nat, nat>,
    lastProcessedId: EventId,
    eventsTotal: nat,
    eventsProcessed: nat,
    eventsSkippedDedup: nat,
    eventsFailed: nat,
    errorCount: nat,
    startedAt: Option<int>,
    completedAt: Option<int>,
    speedFactor: real)

  const NEW_JOB := JobRow(Pending, None, None, None, map[], NoId, 0, 0, 0, 0, 0, None, None, 1.0)

  // ---- API transactions ----------------------------------------------------

  const VALID_TRANSITIONS: map<JobStatus, set<JobStatus>> :=
    map[Pending := {Queued, Cancelled},
        Queued := {Cancelled},
        Running := {Paused, Cancelled},
        Paused := {Queued, Cancelled}]

  predicate IsTerminal(status: JobStatus) {
    status in {Completed, Failed, Cancelled}
  }

  datatype ApiCall =
    | Start
    | Pause
    | Resume
    | Cancel
    | Update(target: Option<JobStatus>, speed: Option<real>)

  /** The row with the ownership columns cleared. */
  function Released(row: JobRow): JobRow {
    row.(workerId := None, leaseExpiresAt := None)
  }

  function Transitioned(row: JobRow, target: JobStatus, now: int): JobRow {
    var moved := row.(status := target);
    var freed := if target in {Paused, Cancelled} then Released(moved) else moved;
    if target == Cancelled then freed.(completedAt := Some(now)) else freed
  }

  predicate CanTransition(row: JobRow, target: JobStatus) {
    row.status in VALID_TRANSITIONS && target in VALID_TRANSITIONS[row.status]
  }

  /** `None` when the service answers 400; the session is then rolled back. */
  function ApiResult(row: JobRow, call: ApiCall, now: int): Option<JobRow> {
    match call
    case Start => if row.status == Pending then Some(row.(status := Queued)) else None
    case Pause => if row.status == Running then Some(Transitioned(row, Paused, now)) else None
    case Resume => if row.status == Paused then Some(row.(status := Queued)) else None
    case Cancel => if IsTerminal(row.status) then None else Some(Transitioned(row, Cancelled, now))
    case Update(target, speed) =>
      if target.Some? && !CanTransition(row, target.value) then None
      else
        var moved := if target.Some? then Transitioned(row, target.value, now) else row;
        if speed.None? then Some(moved)
        else if moved.status !in {Running, Paused, Pending} then None
        else Some(moved.(speedFactor := speed.value))
  }

  // ---- Worker transactions -------------------------------------------------

  predicate Acquirable(row: JobRow, now: int) {
    || (row.status == Queued && (row.leaseExpiresAt.None? || row.leaseExpiresAt.value < now))
    || (row.status == Running && row.leaseExpiresAt.Some? && row.leaseExpiresAt.value < now)
  }

  function Acquired(row: JobRow, worker: string, now: int, lease: int): JobRow {
    row.(workerId := Some(worker), leaseExpiresAt := Some(now + lease), status := Running,
         startedAt := if row.startedAt.Some? then row.startedAt else Some(now))
  }

  predicate Owns(row: JobRow, worker: string) {
    row.workerId == Some(worker)
  }

  function Renewed(row: JobRow, worker: string, now: int, lease: int): JobRow {
    if Owns(row, worker) then row.(leaseExpiresAt := Some(now + lease)) else row
  }

  function SourceRecorded(row: JobRow, source: Source, total: nat): JobRow {
    row.(replaySource := Some(source), eventsTotal := if row.eventsTotal == 0 then total else row.eventsTotal)
  }

  function EventIdOf(source: Source, partition: nat, offset: nat): EventId {
    if source.Kafka? then KafkaId(partition, offset) else RedisId(offset)
  }

  /** `_update_checkpoint`: Kafka progress goes to the map; the flat id is always kept in sync. */
  function CheckpointUpdated(row: JobRow, source: Source, partition: nat, offset: nat): JobRow {
    var noted := if source.Kafka? then row.(checkpoint := row.checkpoint[partition := offset]) else row;
    noted.(lastProcessedId := EventIdOf(source, partition, offset))
  }

  function EventCommitted(row: JobRow, duplicate: bool, source: Source, partition: nat, offset: nat): JobRow {
    var counted := if duplicate
                   then row.(eventsSkippedDedup := row.eventsSkippedDedup + 1)
                   else row.(eventsProcessed := row.eventsProcessed + 1);
    CheckpointUpdated(counted, source, partition, offset)
  }

  function FailureCounted(row: JobRow): JobRow {
    row.(eventsFailed := row.eventsFailed + 1)
  }

  /** `_checkpoint_job(id, last_processed_id or "", PAUSED)`. */
  function PauseSaved(row: JobRow, lastId: EventId): JobRow {
    Released(row.(lastProcessedId := if lastId.NoId? then EmptyId else lastId, status := Paused))
  }

  function CompletedRow(row: JobRow, now: int): JobRow {
    Released(row.(status := Completed, completedAt := Some(now)))
  }

  function FailedRow(row: JobRow): JobRow {
    Released(row.(status := Failed, errorCount := row.errorCount + 1))
  }

  // ---- The mapped object ---------------------------------------------------

  class Job {
    var status: JobStatus
    var workerId: Option<string>
    var leaseExpiresAt: Option<int>
    var replaySource: Option<Source>
    var checkpoint: map<nat, nat>
    var lastProcessedId: EventId
    var eventsTotal: nat
    var eventsProcessed: nat
    var eventsSkippedDedup: nat
    var eventsFailed: nat
    var errorCount: nat
    var startedAt: Option<int>
    var completedAt: Option<int>
    var speedFactor: real

    function Row(): JobRow
      reads this
    {
      JobRow(status, workerId, leaseExpiresAt, replaySource, checkpoint, lastProcessedId, eventsTotal,
             eventsProcessed, eventsSkippedDedup, eventsFailed, errorCount, startedAt, completedAt, speedFactor)
    }

    constructor ()
      ensures Row() == NEW_JOB
    {
      status, workerId, leaseExpiresAt, replaySource := Pending, None, None, None;
      checkpoint, lastProcessedId := map[], NoId;
      eventsTotal, eventsProcessed, eventsSkippedDedup, eventsFailed, errorCount := 0, 0, 0, 0, 0;
      startedAt, completedAt, speedFactor := None, None, 1.0;
    }

    /** `_transition_status`; false stands for the HTTP 400. */
    method TransitionStatus(target: JobStatus, now: int) returns (ok: bool)
      modifies this
      ensures ok == CanTransition(old(Row()), target)
      ensures Row() == if ok then Transitioned(old(Row()), target, now) else old(Row())
    {
      var allowed := if status in VALID_TRANSITIONS then VALID_TRANSITIONS[status] else {};
      if target !in allowed {
        return false;
      }
      status := target;
      if target in {Paused, Cancelled} {
        workerId := None;
        leaseExpiresAt := None;
      }
      if target == Cancelled {
        completedAt := Some(now);
      }
      return true;
    }

    /** `update_job`: a refused speed change also undoes the status change, by rollback. */
    method UpdateJob(target: Option<JobStatus>, speed: Option<real>, now: int) returns (ok: bool)
      modifies this
      ensures ok == ApiResult(old(Row()), Update(target, speed), now).Some?
      ensures Row() == if ok then ApiResult(old(Row()), Update(target, speed), now).value else old(Row())
    {
      var savedStatus, savedWorker, savedLease, savedDone := status, workerId, leaseExpiresAt, completedAt;
      if target.Some? {
        ok := TransitionStatus(target.value, now);
        if !ok {
          return;
        }
      }
      if speed.Some? {
        if status !in {Running, Paused, Pending} {
          status, workerId, leaseExpiresAt, completedAt := savedStatus, savedWorker, savedLease, savedDone;
          return false;
        }
        speedFactor := speed.value;
      }
      return true;
    }

    method StartJob() returns (ok: bool)
      modifies this
      ensures ok == (old(status) == Pending)
      ensures Row() == if ok then old(Row()).(status := Queued) else old(Row())
    {
      if status != Pending {
        return false;
      }
      status := Queued;
      return true;
    }

    method PauseJob(now: int) returns (ok: bool)
      modifies this
      ensures ok == (old(status) == Running)
      ensures Row() == if ok then Transitioned(old(Row()), Paused, now) else old(Row())
    {
      if status != Running {
        return false;
      }
      status, workerId, leaseExpiresAt := Paused, None, None;
      return true;
    }

    method ResumeJob() returns (ok: bool)
      modifies this
      ensures ok == (old(status) == Paused)
      ensures Row() == if ok then old(Row()).(status := Queued) else old(Row())
    {
      if status != Paused {
        return false;
      }
      status := Queued;
      return true;
    }

    method CancelJob(now: int) returns (ok: bool)
      modifies this
      ensures ok == !IsTerminal(old(status))
      ensures Row() == if ok then Transitioned(old(Row()), Cancelled, now) else old(Row())
    {
      if IsTerminal(status) {
        return false;
      }
      status, workerId, leaseExpiresAt, completedAt := Cancelled, None, None, Some(now);
      return true;
    }

    method AcquireJob(worker: string, now: int, lease: int) returns (ok: bool)
      modifies this
      ensures ok == Acquirable(old(Row()), now)
      ensures ok <==> old(status) in {Queued, Running}
                      && (if old(leaseExpiresAt).Some? then old(leaseExpiresAt).value < now else old(status) == Queued)
      ensures Row() == if ok then Acquired(old(Row()), worker, now, lease) else old(Row())
    {
      var free := leaseExpiresAt.None? || leaseExpiresAt.value < now;
      var lapsed := leaseExpiresAt.Some? && leaseExpiresAt.value < now;
      if !(status == Queued && free) && !(status == Running && lapsed) {
        return false;
      }
      workerId, leaseExpiresAt, status := Some(worker), Some(now + lease), Running;
      if startedAt.None? {
        startedAt := Some(now);
      }
      return true;
    }

    method RenewLease(worker: string, now: int, lease: int)
      modifies this`leaseExpiresAt
      ensures Row() == Renewed(old(Row()), worker, now, lease)
    {
      if workerId == Some(worker) {
        leaseExpiresAt := Some(now + lease);
      }
    }

    method RecordSource(source: Source, total: nat)
      modifies this
      ensures Row() == SourceRecorded(old(Row()), source, total)
    {
      replaySource := Some(source);
      if eventsTotal == 0 {
        eventsTotal := total;
      }
    }

    method UpdateCheckpoint(source: Source, partition: nat, offset: nat)
      modifies this
      ensures Row() == CheckpointUpdated(old(Row()), source, partition, offset)
    {
      if source == Kafka {
        checkpoint := checkpoint[partition := offset];
      }
      lastProcessedId := EventIdOf(source, partition, offset);
    }

    method CommitEvent(duplicate: bool, source: Source, partition: nat, offset: nat)
      modifies this
      ensures Row() == EventCommitted(old(Row()), duplicate, source, partition, offset)
    {
      if duplicate {
        eventsSkippedDedup := eventsSkippedDedup + 1;
      } else {
        eventsProcessed := eventsProcessed + 1;
      }
      UpdateCheckpoint(source, partition, offset);
    }

    method CountFailure()
      modifies this
      ensures Row() == FailureCounted(old(Row()))
    {
      eventsFailed := eventsFailed + 1;
    }

    method CheckpointJob(lastId: EventId)
      modifies this
      ensures Row() == PauseSaved(old(Row()), lastId)
    {
      lastProcessedId := if lastId == NoId then EmptyId else lastId;
      status, workerId, leaseExpiresAt := Paused, None, None;
    }

    method CompleteJob(now: int)
      modifies this
      ensures Row() == CompletedRow(old(Row()), now)
    {
      status, completedAt := Completed, Some(now);
      workerId, leaseExpiresAt := None, None;
    }

    method FailJob()
      modifies this
      ensures Row() == FailedRow(old(Row()))
    {
      status, errorCount := Failed, errorCount + 1;
      workerId, leaseExpiresAt := None, None;
    }
  }
}
