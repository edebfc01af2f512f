/**
 What holds of one job row over every run of API and worker transactions, in any
 order and by any workers: the lease invariant, and the handover of ownership.
 A run lists the committed transactions with the time of each.
 */
module Leases {
  import opened Prelude
  import opened Jobs

  datatype Txn =
    | Api(call: ApiCall)
    | Acquire(worker: string)
    | Renew(worker: string)
    | RecordSource(source: Source, total: nat)
    | CommitEvent(duplicate: bool, from: Source, partition: nat, offset: nat)
    | CountFailure
    | SavePause(lastId: EventId)
    | Complete
    | Fail

  datatype Entry = Entry(now: int, txn: Txn)

  function RowStep(row: JobRow, entry: Entry, lease: int): JobRow {
    match entry.txn
    case Api(call) =>
      var result := ApiResult(row, call, entry.now);
      if result.Some? then result.value else row
    case Acquire(worker) => if Acquirable(row, entry.now) then Acquired(row, worker, entry.now, lease) else row
    case Renew(worker) => Renewed(row, worker, entry.now, lease)
    case RecordSource(source, total) => SourceRecorded(row, source, total)
    case CommitEvent(duplicate, source, partition, offset) =>
      EventCommitted(row, duplicate, source, partition, offset)
    case CountFailure => FailureCounted(row)
    case SavePause(lastId) => PauseSaved(row, lastId)
    case Complete => CompletedRow(row, entry.now)
    case Fail => FailedRow(row)
  }

  /** The row after a run. */
  function RowAfter(row: JobRow, run: seq<Entry>, lease: int): JobRow {
    if run == [] then row
    else RowStep(RowAfter(row, run[..|run| - 1], lease), run[|run| - 1], lease)
  }

  lemma {:induction false} RowAfterAppend(row: JobRow, a: seq<Entry>, b: seq<Entry>, lease: int)
    ensures RowAfter(row, a + b, lease) == RowAfter(RowAfter(row, a, lease), b, lease)
  {
    if b == [] {
      assert a + b == a;
    } else {
      var n := |b| - 1;
      assert (a + b)[..|a + b| - 1] == a + b[..n];
      RowAfterAppend(row, a, b[..n], lease);
    }
  }

  lemma RowAfterOne(row: JobRow, entry: Entry, lease: int)
    ensures RowAfter(row, [entry], lease) == RowStep(row, entry, lease)
  {
    assert [entry][..0] == [];
    assert RowAfter(row, [], lease) == row;
  }

  /** RUNNING, owned and leased are the same thing. */
  predicate LeaseInv(row: JobRow) {
    && (row.status == Running <==> row.workerId.Some?)
    && (row.workerId.Some? <==> row.leaseExpiresAt.Some?)
  }

  lemma {:induction false} LeaseInvKept(row: JobRow, run: seq<Entry>, lease: int)
    requires LeaseInv(row)
    ensures LeaseInv(RowAfter(row, run, lease))
  {
    if run != [] {
      LeaseInvKept(row, run[..|run| - 1], lease);
      hide RowStep;
      LeaseStep(RowAfter(row, run[..|run| - 1], lease), run[|run| - 1], lease);
    }
  }

  lemma LeaseStep(row: JobRow, entry: Entry, lease: int)
    requires LeaseInv(row)
    ensures LeaseInv(RowStep(row, entry, lease))
  {
    hide SourceRecorded, EventCommitted, FailureCounted, PauseSaved, CompletedRow, FailedRow, ApiResult;
    match entry.txn
    case Api(call) =>
      if ApiResult(row, call, entry.now).Some? {
        ApiKeepsLease(row, call, entry.now);
      }
    case _ => WorkerKeepsLease(row, entry, lease);
  }

  lemma ApiKeepsLease(row: JobRow, call: ApiCall, now: int)
    requires LeaseInv(row) && ApiResult(row, call, now).Some?
    ensures LeaseInv(ApiResult(row, call, now).value)
  {
  }

  lemma WorkerKeepsLease(row: JobRow, entry: Entry, lease: int)
    requires LeaseInv(row) && !entry.txn.Api?
    ensures LeaseInv(RowStep(row, entry, lease))
  {
    hide ApiResult;
  }

  lemma {:induction false} LeaseInvariant(run: seq<Entry>, lease: int)
    ensures LeaseInv(RowAfter(NEW_JOB, run, lease))
  {
    LeaseInvKept(NEW_JOB, run, lease);
  }

  /** Renewal never revives a released job, and exactly the queued and the lapsed jobs can be acquired. */
  lemma LeaseConsequences(run: seq<Entry>, lease: int, worker: string, now: int)
    ensures var row := RowAfter(NEW_JOB, run, lease);
            && (row.status != Running ==> Renewed(row, worker, now, lease) == row)
            && (Acquirable(row, now) <==>
                row.status == Queued
                || (row.status == Running && row.leaseExpiresAt.Some? && row.leaseExpiresAt.value < now))
  {
    LeaseInvariant(run, lease);
  }

  /** The dedicated endpoints and the generic update agree with the transition table. */
  lemma EndpointsMatchTable(row: JobRow, now: int)
    ensures ApiResult(row, Pause, now) == ApiResult(row, Update(Some(Paused), None), now)
    ensures ApiResult(row, Cancel, now) == ApiResult(row, Update(Some(Cancelled), None), now)
    ensures ApiResult(row, Update(Some(Queued), None), now)
         == if row.status == Pending then ApiResult(row, Start, now) else ApiResult(row, Resume, now)
    ensures forall target | target in {Pending, Running, Completed, Failed} ::
              ApiResult(row, Update(Some(target), None), now).None?
  {
  }

  /** An update of both status and speed is the one followed by the other, or nothing; a speed is taken exactly
      by a job that is PENDING, RUNNING or PAUSED, and changes nothing else. */
  lemma UpdateComposes(row: JobRow, target: Option<JobStatus>, speed: Option<real>, now: int)
    ensures var moved := ApiResult(row, Update(target, None), now);
            ApiResult(row, Update(target, speed), now)
            == if moved.None? then None else ApiResult(moved.value, Update(None, speed), now)
    ensures var sped := ApiResult(row, Update(None, speed), now);
            && (sped.Some? <==> speed.None? || row.status in {Pending, Running, Paused})
            && (sped.Some? ==> sped.value == if speed.Some? then row.(speedFactor := speed.value) else row)
  {
  }

  /** A job that ran has its start time, a completed or cancelled one its end time. */
  predicate Stamped(row: JobRow) {
    && (row.status == Running ==> row.startedAt.Some?)
    && (row.status in {Completed, Cancelled} ==> row.completedAt.Some?)
  }

  lemma {:induction false} StampsInvariant(run: seq<Entry>, lease: int)
    ensures Stamped(RowAfter(NEW_JOB, run, lease))
  {
    if run != [] {
      StampsInvariant(run[..|run| - 1], lease);
      hide RowStep;
      StampsStep(RowAfter(NEW_JOB, run[..|run| - 1], lease), run[|run| - 1], lease);
    }
  }

  lemma StampsStep(row: JobRow, entry: Entry, lease: int)
    requires Stamped(row)
    ensures Stamped(RowStep(row, entry, lease))
  {
    hide ApiResult;
    if entry.txn.Api? && ApiResult(row, entry.txn.call, entry.now).Some? {
      ApiKeepsStamps(row, entry.txn.call, entry.now);
    }
  }

  lemma ApiKeepsStamps(row: JobRow, call: ApiCall, now: int)
    requires Stamped(row) && ApiResult(row, call, now).Some?
    ensures Stamped(ApiResult(row, call, now).value)
  {
  }

  /** The start time is that of the first acquisition: no later one moves it. */
  lemma {:induction false} StartedOnce(row: JobRow, run: seq<Entry>, lease: int)
    requires row.startedAt.Some?
    ensures RowAfter(row, run, lease).startedAt == row.startedAt
  {
    if run != [] {
      StartedOnce(row, run[..|run| - 1], lease);
    }
  }

  /** No call of the API moves a finished job: it keeps its status and its stamps. */
  lemma {:induction false} ApiKeepsTerminal(row: JobRow, run: seq<Entry>, lease: int)
    requires IsTerminal(row.status) && forall i | 0 <= i < |run| :: run[i].txn.Api?
    ensures RowAfter(row, run, lease) == row
  {
    if run != [] {
      ApiKeepsTerminal(row, run[..|run| - 1], lease);
    }
  }

  // ---- Handover ------------------------------------------------------------

  function At(run: seq<Entry>, lease: int, i: nat): JobRow
    requires i <= |run|
  {
    RowAfter(NEW_JOB, run[..i], lease)
  }

  lemma AtNext(run: seq<Entry>, lease: int, i: nat)
    requires i < |run|
    ensures At(run, lease, i + 1) == RowStep(At(run, lease, i), run[i], lease)
  {
    assert run[..i + 1][..i] == run[..i];
  }

  predicate AcquiresAt(run: seq<Entry>, lease: int, i: nat)
    requires i < |run|
  {
    run[i].txn.Acquire? && Acquirable(At(run, lease, i), run[i].now)
  }

  predicate ReleasesAt(run: seq<Entry>, lease: int, i: nat)
    requires i < |run|
  {
    At(run, lease, i).workerId.Some? && At(run, lease, i + 1).workerId.None?
  }

  predicate WritesLease(run: seq<Entry>, lease: int, i: nat)
    requires i < |run|
  {
    AcquiresAt(run, lease, i) || (run[i].txn.Renew? && Owns(At(run, lease, i), run[i].txn.worker))
  }

  /** The last transaction of `run[i..m]` that wrote the lease, where `i` is an acquisition. */
  function LastWrite(run: seq<Entry>, lease: int, i: nat, m: nat): (k: nat)
    requires i < m <= |run| && AcquiresAt(run, lease, i)
    ensures i <= k < m && WritesLease(run, lease, k)
    ensures forall n | k < n < m :: !WritesLease(run, lease, n)
    decreases m
  {
    if WritesLease(run, lease, m - 1) then m - 1 else LastWrite(run, lease, i, m - 1)
  }

  /** Since the acquisition at `i`, nothing up to `m` released or re-acquired the job. */
  predicate Undisturbed(run: seq<Entry>, lease: int, i: nat, m: nat)
    requires m <= |run|
  {
    forall k | i < k < m :: !ReleasesAt(run, lease, k) && !AcquiresAt(run, lease, k)
  }

  /** One transaction leaves an owned job with its owner, unless it releases or re-acquires it. */
  lemma OwnerStep(row: JobRow, entry: Entry, lease: int)
    requires LeaseInv(row) && row.status == Running
    requires RowStep(row, entry, lease).workerId.Some?
    requires !(entry.txn.Acquire? && Acquirable(row, entry.now))
    ensures var next := RowStep(row, entry, lease);
            && next.status == Running && next.workerId == row.workerId
            && next.leaseExpiresAt == if entry.txn.Renew? && Owns(row, entry.txn.worker)
                                      then Some(entry.now + lease) else row.leaseExpiresAt
  {
  }

  lemma {:induction false} HeldUntil(run: seq<Entry>, lease: int, i: nat, m: nat)
    requires i < m <= |run| && AcquiresAt(run, lease, i) && Undisturbed(run, lease, i, m)
    ensures var row := At(run, lease, m);
            && row.status == Running && Owns(row, run[i].txn.worker)
            && row.leaseExpiresAt == Some(run[LastWrite(run, lease, i, m)].now + lease)
    decreases m
  {
    AtNext(run, lease, m - 1);
    if i + 1 < m {
      HeldUntil(run, lease, i, m - 1);
      LeaseInvariant(run[..m - 1], lease);
      assert !ReleasesAt(run, lease, m - 1);
      OwnerStep(At(run, lease, m - 1), run[m - 1], lease);
    }
  }

  /** Two successive acquisitions: a release lies between them, or the clock passed the last written lease. */
  lemma Handover(run: seq<Entry>, lease: int, i: nat, j: nat)
    requires i < j < |run| && AcquiresAt(run, lease, i) && AcquiresAt(run, lease, j)
    requires forall k | i < k < j :: !AcquiresAt(run, lease, k)
    ensures (exists k | i < k < j :: ReleasesAt(run, lease, k))
         || run[LastWrite(run, lease, i, j)].now + lease < run[j].now
  {
    if forall k | i < k < j :: !ReleasesAt(run, lease, k) {
      HeldUntil(run, lease, i, j);
    }
  }

  /** While the last lease written is never overrun, only a release can take the job from its owner. */
  lemma {:induction false} RenewingOwnerKeepsJob(run: seq<Entry>, lease: int, i: nat, m: nat)
    requires i < m <= |run| && AcquiresAt(run, lease, i)
    requires forall k | i < k < m :: !ReleasesAt(run, lease, k)
    requires forall k | i < k < m :: run[k].now <= run[LastWrite(run, lease, i, k)].now + lease
    ensures Undisturbed(run, lease, i, m) && Owns(At(run, lease, m), run[i].txn.worker)
    decreases m
  {
    if i + 1 < m {
      RenewingOwnerKeepsJob(run, lease, i, m - 1);
      HeldUntil(run, lease, i, m - 1);
    }
    HeldUntil(run, lease, i, m);
  }

  predicate Monotone(run: seq<Entry>) {
    forall i, j | 0 <= i < j < |run| :: run[i].now <= run[j].now
  }

  /** The acquisition at `i` and the owner's own renewals after it: each comes at most a lease after the
      one before, and up to `m` no more than a lease passes since the last. */
  predicate Beats(run: seq<Entry>, lease: int, i: nat, m: nat, beats: seq<nat>)
    requires i < m <= |run| && run[i].txn.Acquire?
  {
    && beats != [] && beats[0] == i
    && (forall n | 0 <= n < |beats| :: i <= beats[n] < m)
    && (forall n | 0 < n < |beats| ::
          && beats[n - 1] < beats[n] && run[beats[n]].txn == Renew(run[i].txn.worker)
          && run[beats[n]].now <= run[beats[n - 1]].now + lease)
    && (forall k | beats[|beats| - 1] < k < m :: run[k].now <= run[beats[|beats| - 1]].now + lease)
  }

  /** The last of the beats before `k`: no more than a lease has passed since. */
  lemma {:induction false} LastBeat(
    run: seq<Entry>, lease: int, i: nat, m: nat, beats: seq<nat>, k: nat, n: nat) returns (j: nat)
    requires i < k < m <= |run| && run[i].txn.Acquire? && Monotone(run) && Beats(run, lease, i, m, beats)
    requires n < |beats| && (n + 1 < |beats| ==> k <= beats[n + 1])
    ensures i <= j < k && (j == i || run[j].txn == Renew(run[i].txn.worker)) && run[k].now <= run[j].now + lease
    decreases n
  {
    if beats[n] < k {
      j := beats[n];
      if n + 1 < |beats| && k < beats[n + 1] {
        assert run[k].now <= run[beats[n + 1]].now;
      }
    } else {
      j := LastBeat(run, lease, i, m, beats, k, n - 1);
    }
  }

  /** On a clock that does not step back, an owner whose renewals come at gaps of at most the lease is
      not displaced: only a release can take the job from it. */
  lemma {:induction false} PromptOwnerKeepsJob(
    run: seq<Entry>, lease: int, i: nat, m: nat, beats: seq<nat>, k: nat)
    requires i < m <= |run| && AcquiresAt(run, lease, i) && Monotone(run) && Beats(run, lease, i, m, beats)
    requires forall n | i < n < m :: !ReleasesAt(run, lease, n)
    requires i < k <= m
    ensures Undisturbed(run, lease, i, k) && Owns(At(run, lease, k), run[i].txn.worker)
    decreases k
  {
    hide RowStep, RowAfter, At;
    if i + 1 < k {
      PromptOwnerKeepsJob(run, lease, i, m, beats, k - 1);
      HeldUntil(run, lease, i, k - 1);
      var j := LastBeat(run, lease, i, m, beats, k - 1, |beats| - 1);
      if i < j {
        HeldUntil(run, lease, i, j);
        assert WritesLease(run, lease, j);
      }
      assert j <= LastWrite(run, lease, i, k - 1);
    }
    HeldUntil(run, lease, i, k);
  }

  // ---- A second owner ------------------------------------------------------

  /** The calls that make a job acquirable at once. */
  function CallsToQueue(status: JobStatus): seq<ApiCall> {
    match status
    case Pending => [Start]
    case Running => [Pause, Resume]
    case Paused => [Resume]
    case _ => []
  }

  function AsEntries(calls: seq<ApiCall>, now: int): (run: seq<Entry>)
    ensures |run| == |calls| && forall i | 0 <= i < |run| :: run[i] == Entry(now, Api(calls[i]))
  {
    seq(|calls|, i requires 0 <= i < |calls| => Entry(now, Api(calls[i])))
  }

  /** The lease does not keep a second worker out: by API calls alone, with no time passing, a job can
      be made acquirable exactly when it is not terminal, whoever holds it. */
  lemma AcquirableAgainIff(row: JobRow, now: int, lease: int)
    requires LeaseInv(row)
    ensures (exists calls: seq<ApiCall> :: Acquirable(RowAfter(row, AsEntries(calls, now), lease), now))
       <==> !IsTerminal(row.status)
  {
    if IsTerminal(row.status) {
      forall calls: seq<ApiCall> ensures !Acquirable(RowAfter(row, AsEntries(calls, now), lease), now) {
        ApiKeepsTerminal(row, AsEntries(calls, now), lease);
      }
    } else {
      var calls := CallsToQueue(row.status);
      var run := AsEntries(calls, now);
      if row.status == Running {
        var pause, resume := Entry(now, Api(Pause)), Entry(now, Api(Resume));
        assert run == [pause] + [resume];
        RowAfterAppend(row, [pause], [resume], lease);
        RowAfterOne(row, pause, lease);
        RowAfterOne(RowStep(row, pause, lease), resume, lease);
      } else if row.status != Queued {
        assert run == [Entry(now, Api(calls[0]))];
        RowAfterOne(row, run[0], lease);
      }
      assert Acquirable(RowAfter(row, AsEntries(calls, now), lease), now);
    }
  }
}
