/**
 The job row told from its history, column by column: after any run of transactions, by the
 API and any workers, each column is a count, or the first or the last of the transactions
 that write it.  `Leases` says what each transaction does to the whole row; this is the
 same row read the other way.
 */
module History {
  import opened Prelude
  import opened Jobs
  import opened Leases

  /** Whether the transaction takes effect on the row it meets. */
  predicate Takes(row: JobRow, entry: Entry) {
    match entry.txn
    case Api(call) => ApiResult(row, call, entry.now).Some?
    case Acquire(_) => Acquirable(row, entry.now)
    case Renew(worker) => Owns(row, worker)
    case _ => true
  }

  /** The transactions of a run that take effect. */
  function Effective(run: seq<Entry>, lease: int): seq<Entry> {
    if run == [] then []
    else
      var n := |run| - 1;
      var prior := Effective(run[..n], lease);
      if Takes(RowAfter(NEW_JOB, run[..n], lease), run[n]) then prior + [run[n]] else prior
  }

  function Count(done: seq<Entry>, kind: Txn -> bool): nat {
    if done == [] then 0
    else Count(done[..|done| - 1], kind) + if kind(done[|done| - 1].txn) then 1 else 0
  }

  function First(done: seq<Entry>, kind: Txn -> bool): (e: Option<Entry>)
    ensures e.Some? ==> kind(e.value.txn)
  {
    if done == [] then None
    else
      var prior := First(done[..|done| - 1], kind);
      if prior.Some? || !kind(done[|done| - 1].txn) then prior else Some(done[|done| - 1])
  }

  function Last(done: seq<Entry>, kind: Txn -> bool): (e: Option<Entry>)
    ensures e.Some? ==> kind(e.value.txn)
  {
    if done == [] then None
    else if kind(done[|done| - 1].txn) then Some(done[|done| - 1])
    else Last(done[..|done| - 1], kind)
  }

  // ---- Kinds of transactions -----------------------------------------------

  predicate Applies(t: Txn) {
    t.CommitEvent? && !t.duplicate
  }

  predicate Repeats(t: Txn) {
    t.CommitEvent? && t.duplicate
  }

  predicate CountsFailure(t: Txn) {
    t.CountFailure?
  }

  predicate Fails(t: Txn) {
    t.Fail?
  }

  predicate Chooses(t: Txn) {
    t.RecordSource?
  }

  predicate Totals(t: Txn) {
    t.RecordSource? && t.total > 0
  }

  predicate Acquires(t: Txn) {
    t.Acquire?
  }

  predicate SetsSpeed(t: Txn) {
    t.Api? && t.call.Update? && t.call.speed.Some?
  }

  predicate Marks(t: Txn) {
    t.CommitEvent? || t.SavePause?
  }

  function MarksIn(p: nat): Txn -> bool {
    (t: Txn) => t.CommitEvent? && t.from.Kafka? && t.partition == p
  }

  /** The status a transaction moves the job to, if it moves it. */
  function Moves(t: Txn): Option<JobStatus> {
    match t
    case Api(Start) => Some(Queued)
    case Api(Pause) => Some(Paused)
    case Api(Resume) => Some(Queued)
    case Api(Cancel) => Some(Cancelled)
    case Api(Update(target, _)) => target
    case Acquire(_) => Some(Running)
    case SavePause(_) => Some(Paused)
    case Complete => Some(Completed)
    case Fail => Some(Failed)
    case _ => None
  }

  predicate SetsStatus(t: Txn) {
    Moves(t).Some?
  }

  /** The job has no owner in these. */
  predicate Releases(t: Txn) {
    Moves(t).Some? && Moves(t).value in {Paused, Cancelled, Completed, Failed}
  }

  predicate SetsOwner(t: Txn) {
    t.Acquire? || Releases(t)
  }

  predicate SetsLease(t: Txn) {
    t.Acquire? || t.Renew? || Releases(t)
  }

  predicate Stamps(t: Txn) {
    Moves(t) == Some(Completed) || Moves(t) == Some(Cancelled)
  }

  // ---- The columns ---------------------------------------------------------

  function TimeOf(e: Option<Entry>): Option<int> {
    if e.Some? then Some(e.value.now) else None
  }

  /** The counters: events applied, duplicates, failed events, failures of the job. */
  predicate CountersTell(row: JobRow, done: seq<Entry>) {
    && row.eventsProcessed == Count(done, Applies)
    && row.eventsSkippedDedup == Count(done, Repeats)
    && row.eventsFailed == Count(done, CountsFailure)
    && row.errorCount == Count(done, Fails)
  }

  /** Source and progress: the last source chosen, the first total that is not zero, the last commit of every
      Kafka partition, and the id last committed or saved. */
  ghost predicate ProgressTells(row: JobRow, done: seq<Entry>) {
    && row.replaySource == (var e := Last(done, Chooses); if e.Some? then Some(e.value.txn.source) else None)
    && row.eventsTotal == (var e := First(done, Totals); if e.Some? then e.value.txn.total else 0)
    && row.lastProcessedId == (var e := Last(done, Marks); if e.Some? then IdMarked(e.value.txn) else NoId)
    && (forall p: nat :: OffsetTells(row, done, p))
  }

  predicate OffsetTells(row: JobRow, done: seq<Entry>, p: nat) {
    var e := Last(done, MarksIn(p));
    if e.Some? then p in row.checkpoint && row.checkpoint[p] == e.value.txn.offset else p !in row.checkpoint
  }

  function IdMarked(t: Txn): EventId
    requires Marks(t)
  {
    match t
    case CommitEvent(_, Kafka, partition, offset) => KafkaId(partition, offset)
    case CommitEvent(_, Redis, _, offset) => RedisId(offset)
    case SavePause(NoId) => EmptyId
    case SavePause(lastId) => lastId
  }

  /** The last status set; the last owner and lease, unless released since. */
  predicate OwnerTells(row: JobRow, done: seq<Entry>, lease: int) {
    && row.status == (var e := Last(done, SetsStatus); if e.Some? then Moves(e.value.txn).value else Pending)
    && row.workerId == (var e := Last(done, SetsOwner);
                        if e.Some? && e.value.txn.Acquire? then Some(e.value.txn.worker) else None)
    && row.leaseExpiresAt == (var e := Last(done, SetsLease);
                              if e.Some? && !Releases(e.value.txn) then Some(e.value.now + lease) else None)
  }

  /** The time of the first acquisition and of the last ending, and the last speed asked for. */
  predicate StampsTell(row: JobRow, done: seq<Entry>) {
    && row.startedAt == TimeOf(First(done, Acquires))
    && row.completedAt == TimeOf(Last(done, Stamps))
    && row.speedFactor == (var e := Last(done, SetsSpeed); if e.Some? then e.value.txn.call.speed.value else 1.0)
  }

  // ---- One more transaction ------------------------------------------------

  lemma Snoc(done: seq<Entry>, e: Entry, kind: Txn -> bool)
    ensures Count(done + [e], kind) == Count(done, kind) + if kind(e.txn) then 1 else 0
    ensures First(done + [e], kind)
         == if First(done, kind).Some? || !kind(e.txn) then First(done, kind) else Some(e)
    ensures Last(done + [e], kind) == if kind(e.txn) then Some(e) else Last(done, kind)
  {
    assert (done + [e])[..|done|] == done;
  }

  /** Calls of the API count nothing and move no progress. */
  lemma ApiMovesNothing(row: JobRow, e: Entry, lease: int)
    requires e.txn.Api?
    ensures var next := RowStep(row, e, lease);
            next == row.(status := next.status, workerId := next.workerId, leaseExpiresAt := next.leaseExpiresAt,
                         completedAt := next.completedAt, speedFactor := next.speedFactor)
  {
  }

  /** What one effective transaction does to the counters. */
  lemma CountersMoved(row: JobRow, e: Entry, lease: int)
    requires Takes(row, e)
    ensures var next := RowStep(row, e, lease);
            && next.eventsProcessed == row.eventsProcessed + (if Applies(e.txn) then 1 else 0)
            && next.eventsSkippedDedup == row.eventsSkippedDedup + (if Repeats(e.txn) then 1 else 0)
            && next.eventsFailed == row.eventsFailed + (if CountsFailure(e.txn) then 1 else 0)
            && next.errorCount == row.errorCount + (if Fails(e.txn) then 1 else 0)
  {
    hide ApiResult;
    if e.txn.Api? {
      ApiMovesNothing(row, e, lease);
    }
  }

  lemma CountersStep(row: JobRow, done: seq<Entry>, e: Entry, lease: int)
    requires CountersTell(row, done) && Takes(row, e)
    ensures CountersTell(RowStep(row, e, lease), done + [e])
  {
    hide RowStep, Takes, Count, First, Last;
    Snoc(done, e, Applies);
    Snoc(done, e, Repeats);
    Snoc(done, e, CountsFailure);
    Snoc(done, e, Fails);
    CountersMoved(row, e, lease);
  }

  /** What one effective transaction does to source and progress. */
  lemma ProgressMoved(row: JobRow, e: Entry, lease: int)
    requires Takes(row, e)
    ensures var next := RowStep(row, e, lease);
            && next.replaySource == (if Chooses(e.txn) then Some(e.txn.source) else row.replaySource)
            && next.eventsTotal == (if Totals(e.txn) && row.eventsTotal == 0 then e.txn.total else row.eventsTotal)
            && next.lastProcessedId == (if Marks(e.txn) then IdMarked(e.txn) else row.lastProcessedId)
            && next.checkpoint == (if e.txn.CommitEvent? && e.txn.from.Kafka?
                                   then row.checkpoint[e.txn.partition := e.txn.offset] else row.checkpoint)
  {
    hide ApiResult;
    if e.txn.Api? {
      ApiMovesNothing(row, e, lease);
    }
  }

  lemma ProgressStep(row: JobRow, done: seq<Entry>, e: Entry, lease: int)
    requires ProgressTells(row, done) && Takes(row, e)
    ensures ProgressTells(RowStep(row, e, lease), done + [e])
  {
    hide RowStep, Takes, Count, First, Last;
    Snoc(done, e, Chooses);
    Snoc(done, e, Totals);
    Snoc(done, e, Marks);
    ProgressMoved(row, e, lease);
    forall p: nat ensures OffsetTells(RowStep(row, e, lease), done + [e], p) {
      assert OffsetTells(row, done, p);
      Snoc(done, e, MarksIn(p));
    }
  }

  /** What one effective transaction does to status, owner and lease. */
  lemma OwnerMoved(row: JobRow, e: Entry, lease: int)
    requires Takes(row, e)
    ensures var next := RowStep(row, e, lease);
            && next.status == (if SetsStatus(e.txn) then Moves(e.txn).value else row.status)
            && next.workerId == (if Releases(e.txn) then None
                                 else if e.txn.Acquire? then Some(e.txn.worker) else row.workerId)
            && next.leaseExpiresAt == (if Releases(e.txn) then None
                                       else if SetsLease(e.txn) then Some(e.now + lease) else row.leaseExpiresAt)
  {
    if e.txn.Api? {
      hide Acquired, Renewed, SourceRecorded, EventCommitted, FailureCounted, PauseSaved, CompletedRow, FailedRow;
    } else {
      hide ApiResult;
    }
  }

  lemma OwnerStep(row: JobRow, done: seq<Entry>, e: Entry, lease: int)
    requires OwnerTells(row, done, lease) && Takes(row, e)
    ensures OwnerTells(RowStep(row, e, lease), done + [e], lease)
  {
    hide RowStep, Takes, First, Last, Count;
    Snoc(done, e, SetsStatus);
    Snoc(done, e, SetsOwner);
    Snoc(done, e, SetsLease);
    OwnerMoved(row, e, lease);
  }

  /** What an effective call of the API does to the stamps and the speed. */
  lemma ApiStamps(row: JobRow, call: ApiCall, now: int)
    requires ApiResult(row, call, now).Some?
    ensures var next := ApiResult(row, call, now).value;
            && next.startedAt == row.startedAt
            && next.completedAt == (if Stamps(Api(call)) then Some(now) else row.completedAt)
            && next.speedFactor == (if SetsSpeed(Api(call)) then call.speed.value else row.speedFactor)
  {
  }

  /** What one effective transaction does to the stamps and the speed. */
  lemma StampsMoved(row: JobRow, e: Entry, lease: int)
    requires Takes(row, e)
    ensures var next := RowStep(row, e, lease);
            && next.startedAt == (if Acquires(e.txn) && row.startedAt.None? then Some(e.now) else row.startedAt)
            && next.completedAt == (if Stamps(e.txn) then Some(e.now) else row.completedAt)
            && next.speedFactor == (if SetsSpeed(e.txn) then e.txn.call.speed.value else row.speedFactor)
  {
    hide ApiResult;
    if e.txn.Api? {
      hide Moves;
      ApiStamps(row, e.txn.call, e.now);
    }
  }

  lemma StampsStep(row: JobRow, done: seq<Entry>, e: Entry, lease: int)
    requires StampsTell(row, done) && Takes(row, e)
    ensures StampsTell(RowStep(row, e, lease), done + [e])
  {
    hide RowStep, Takes, First, Last, Count;
    Snoc(done, e, Acquires);
    Snoc(done, e, Stamps);
    Snoc(done, e, SetsSpeed);
    StampsMoved(row, e, lease);
  }

  lemma Refused(row: JobRow, e: Entry, lease: int)
    requires !Takes(row, e)
    ensures RowStep(row, e, lease) == row
  {
  }

  /** After any run, every column of the row is what its own history tells. */
  lemma {:induction false} RowTellsHistory(run: seq<Entry>, lease: int)
    ensures var row, done := RowAfter(NEW_JOB, run, lease), Effective(run, lease);
            CountersTell(row, done) && ProgressTells(row, done) && OwnerTells(row, done, lease) && StampsTell(row, done)
  {
    if run != [] {
      hide CountersTell, ProgressTells, OwnerTells, StampsTell, RowStep, Takes;
      var init, e := run[..|run| - 1], run[|run| - 1];
      RowTellsHistory(init, lease);
      var row, done := RowAfter(NEW_JOB, init, lease), Effective(init, lease);
      if Takes(row, e) {
        CountersStep(row, done, e, lease);
        ProgressStep(row, done, e, lease);
        OwnerStep(row, done, e, lease);
        StampsStep(row, done, e, lease);
      } else {
        Refused(row, e, lease);
      }
    }
  }
}
