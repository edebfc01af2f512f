/**
 The worker's own loops (control/app/workers/job_worker.py): bounded retries of one
 event, and the event loop of `_execute_job` over the job object, with the moves of
 the environment given per event.
 */
module Worker {
  import opened Prelude
  import opened Jobs
  import opened Pipeline
  import KafkaSource
  import Leases

  // ---- Bounded retries -----------------------------------------------------

  /** What one attempt returns: `_replay_event`. */
  datatype Answer = Answer(success: bool, duplicate: bool) {
    predicate Ok() {
      success || duplicate
    }
  }

  function MaxAttempts(maxEventRetries: int): (n: nat)
    ensures maxEventRetries <= 0 ==> n == 1
    ensures maxEventRetries > 0 ==> n == maxEventRetries + 1
  {
    (if maxEventRetries < 0 then 0 else maxEventRetries) + 1
  }

  /** `_replay_event_with_retries`; `answers(k)` is what the k-th attempt would return. */
  method ReplayEventWithRetries(maxEventRetries: int, answers: nat -> Answer)
    returns (answer: Answer, attempts: nat)
    ensures 1 <= attempts <= MaxAttempts(maxEventRetries)
    ensures forall k | 1 <= k < attempts :: !answers(k).Ok()
    ensures answer.Ok() ==> answer == answers(attempts)
    ensures !answer.Ok() ==> attempts == MaxAttempts(maxEventRetries) && !answers(attempts).Ok()
    ensures answer.Ok() <==> exists k | 1 <= k <= MaxAttempts(maxEventRetries) :: answers(k).Ok()
  {
    var maxAttempts := MaxAttempts(maxEventRetries);
    for attempt := 1 to maxAttempts + 1
      invariant forall k | 1 <= k < attempt :: !answers(k).Ok()
    {
      answer := answers(attempt);
      if answer.Ok() {
        return answer, attempt;
      }
    }
    return Answer(false, false), maxAttempts;
  }

  // ---- The event loop ------------------------------------------------------

  /** A call of the API, and when it is served. */
  datatype Call = Call(call: ApiCall, at: int)

  /** What happens around one event: the calls served before the status is read, between that and the
      next transaction of the worker, and between counting a failure and failing the job; whether the
      worker is shutting down; and the outcome of the attempts. */
  datatype Round = Round(shutdown: bool, before: seq<Call>, during: seq<Call>, after: seq<Call>, answer: Answer)

  datatype End = AllDone | WasPaused | WasCancelled | GaveUp

  datatype Outcome = Outcome(row: JobRow, end: End, handled: nat)

  /** The row after some calls; a refused one changes nothing. */
  function Called(row: JobRow, calls: seq<Call>): JobRow {
    if calls == [] then row
    else
      var before := Called(row, calls[..|calls| - 1]);
      var result := ApiResult(before, calls[|calls| - 1].call, calls[|calls| - 1].at);
      if result.Some? then result.value else before
  }

  /** The loop from event `i` on; `closing` are the calls served after the last event. */
  function Loop(row: JobRow, lastId: EventId, source: Source, events: seq<KafkaSource.Event>,
                rounds: seq<Round>, closing: seq<Call>, i: nat, now: int): Outcome
    requires i <= |events| == |rounds|
    decreases |events| - i
  {
    if i == |events| then Outcome(CompletedRow(Called(row, closing), now), AllDone, i)
    else
      var seen := Called(row, rounds[i].before);
      var found := Called(seen, rounds[i].during);
      if rounds[i].shutdown then Outcome(PauseSaved(seen, lastId), WasPaused, i)
      else if seen.status == Paused then Outcome(PauseSaved(found, lastId), WasPaused, i)
      else if seen.status == Cancelled then Outcome(seen, WasCancelled, i)
      else if rounds[i].answer.Ok() then
        var next := EventCommitted(found, rounds[i].answer.duplicate, source, events[i].part, events[i].off);
        Loop(next, next.lastProcessedId, source, events, rounds, closing, i + 1, now)
      else Outcome(FailedRow(Called(FailureCounted(found), rounds[i].after)), GaveUp, i)
  }

  /** The whole of `_execute_job`: pin the source, open the stream or fail, run the loop. */
  function Executed(row: JobRow, choice: Source, total: nat, events: seq<KafkaSource.Event>,
                    rounds: seq<Round>, closing: seq<Call>, now: int): Outcome
    requires |events| == |rounds|
  {
    var source := if row.replaySource.Some? then row.replaySource.value else choice;
    var recorded := SourceRecorded(row, source, total);
    if ResumeMap(source, recorded.checkpoint, recorded.lastProcessedId).None?
    then Outcome(FailedRow(Called(recorded, closing)), GaveUp, 0)
    else Loop(recorded, recorded.lastProcessedId, source, events, rounds, closing, 0, now)
  }

  method ServeCall(job: Job, call: ApiCall, at: int)
    modifies job
    ensures job.Row() == if ApiResult(old(job.Row()), call, at).Some? then ApiResult(old(job.Row()), call, at).value
                         else old(job.Row())
  {
    var ok;
    match call {
      case Start => ok := job.StartJob();
      case Pause => ok := job.PauseJob(at);
      case Resume => ok := job.ResumeJob();
      case Cancel => ok := job.CancelJob(at);
      case Update(target, speed) => ok := job.UpdateJob(target, speed, at);
    }
  }

  method ServeCalls(job: Job, calls: seq<Call>)
    modifies job
    ensures job.Row() == Called(old(job.Row()), calls)
  {
    for k := 0 to |calls|
      invariant job.Row() == Called(old(job.Row()), calls[..k])
    {
      assert calls[..k + 1][..k] == calls[..k];
      ServeCall(job, calls[k].call, calls[k].at);
    }
    assert calls[..|calls|] == calls;
  }

  method ExecuteJob(job: Job, choice: Source, total: nat, events: seq<KafkaSource.Event>,
                    rounds: seq<Round>, closing: seq<Call>, now: int) returns (end: End, handled: nat)
    requires |events| == |rounds|
    modifies job
    ensures Outcome(job.Row(), end, handled) == Executed(old(job.Row()), choice, total, events, rounds, closing, now)
  {
    hide Called, PauseSaved, CompletedRow, FailedRow, FailureCounted, EventCommitted, ResumeMap;
    var source := if job.replaySource.Some? then job.replaySource.value else choice;
    job.RecordSource(source, total);
    var lastId := job.lastProcessedId;
    if ResumeMap(source, job.checkpoint, lastId).None? {
      ServeCalls(job, closing);
      job.FailJob();
      return GaveUp, 0;
    }
    ghost var expected := Loop(job.Row(), lastId, source, events, rounds, closing, 0, now);
    handled := 0;
    while handled < |events|
      invariant handled <= |events|
      invariant Loop(job.Row(), lastId, source, events, rounds, closing, handled, now) == expected
    {
      var round := rounds[handled];
      ServeCalls(job, round.before);
      if round.shutdown {
        job.CheckpointJob(lastId);
        return WasPaused, handled;
      }
      var status := job.status;
      if status == Cancelled {
        return WasCancelled, handled;
      }
      ServeCalls(job, round.during);
      if status == Paused {
        job.CheckpointJob(lastId);
        return WasPaused, handled;
      }
      if round.answer.Ok() {
        job.CommitEvent(round.answer.duplicate, source, events[handled].part, events[handled].off);
        lastId := job.lastProcessedId;
      } else {
        job.CountFailure();
        ServeCalls(job, round.after);
        job.FailJob();
        return GaveUp, handled;
      }
      handled := handled + 1;
    }
    ServeCalls(job, closing);
    job.CompleteJob(now);
    return AllDone, handled;
  }

  // ---- An execution is a run of row transactions ----------------------------

  function CallTransactions(calls: seq<Call>): seq<Leases.Entry> {
    if calls == [] then []
    else
      CallTransactions(calls[..|calls| - 1])
      + [Leases.Entry(calls[|calls| - 1].at, Leases.Api(calls[|calls| - 1].call))]
  }

  lemma {:induction false} CallsAreTransactions(row: JobRow, calls: seq<Call>, lease: int)
    ensures Leases.RowAfter(row, CallTransactions(calls), lease) == Called(row, calls)
  {
    if calls != [] {
      var init, last := calls[..|calls| - 1], calls[|calls| - 1];
      hide ApiResult;
      CallsAreTransactions(row, init, lease);
      Leases.RowAfterAppend(row, CallTransactions(init), [Leases.Entry(last.at, Leases.Api(last.call))], lease);
      Leases.RowAfterOne(Called(row, init), Leases.Entry(last.at, Leases.Api(last.call)), lease);
    }
  }

  /** The transactions on the job row that the loop commits from event `i` on, the API's among them. */
  function LoopTransactions(row: JobRow, lastId: EventId, source: Source, events: seq<KafkaSource.Event>,
                            rounds: seq<Round>, closing: seq<Call>, i: nat, now: int): seq<Leases.Entry>
    requires i <= |events| == |rounds|
    decreases |events| - i
  {
    if i == |events| then CallTransactions(closing) + [Leases.Entry(now, Leases.Complete)]
    else
      var seen := Called(row, rounds[i].before);
      CallTransactions(rounds[i].before) + RestOfRound(seen, lastId, source, events, rounds, closing, i, now)
  }

  /** Those of round `i` once the calls before its status read are served, and of the rounds after it. */
  function RestOfRound(seen: JobRow, lastId: EventId, source: Source, events: seq<KafkaSource.Event>,
                       rounds: seq<Round>, closing: seq<Call>, i: nat, now: int): seq<Leases.Entry>
    requires i < |events| == |rounds|
    decreases |events| - i, 0
  {
    var found, calls := Called(seen, rounds[i].during), CallTransactions(rounds[i].during);
    var duplicate, e := rounds[i].answer.duplicate, events[i];
    if rounds[i].shutdown then [Leases.Entry(now, Leases.SavePause(lastId))]
    else if seen.status == Paused then calls + [Leases.Entry(now, Leases.SavePause(lastId))]
    else if seen.status == Cancelled then []
    else if rounds[i].answer.Ok() then
      var next := EventCommitted(found, duplicate, source, e.part, e.off);
      calls + ([Leases.Entry(now, Leases.CommitEvent(duplicate, source, e.part, e.off))]
               + LoopTransactions(next, next.lastProcessedId, source, events, rounds, closing, i + 1, now))
    else
      calls + ([Leases.Entry(now, Leases.CountFailure)]
               + (CallTransactions(rounds[i].after) + [Leases.Entry(now, Leases.Fail)]))
  }

  /** Some calls, one transaction, and what follows. */
  lemma CallsThen(row: JobRow, calls: seq<Call>, entry: Leases.Entry, rest: seq<Leases.Entry>, lease: int)
    ensures Leases.RowAfter(row, CallTransactions(calls) + ([entry] + rest), lease)
         == Leases.RowAfter(Leases.RowStep(Called(row, calls), entry, lease), rest, lease)
  {
    hide Called, CallTransactions, Leases.RowStep;
    CallsAreTransactions(row, calls, lease);
    Leases.RowAfterAppend(row, CallTransactions(calls), [entry] + rest, lease);
    Leases.RowAfterAppend(Called(row, calls), [entry], rest, lease);
    Leases.RowAfterOne(Called(row, calls), entry, lease);
  }

  lemma CallsThenLast(row: JobRow, calls: seq<Call>, entry: Leases.Entry, lease: int)
    ensures Leases.RowAfter(row, CallTransactions(calls) + [entry], lease)
         == Leases.RowStep(Called(row, calls), entry, lease)
  {
    hide Called, CallTransactions, Leases.RowStep;
    CallsAreTransactions(row, calls, lease);
    Leases.RowAfterAppend(row, CallTransactions(calls), [entry], lease);
    Leases.RowAfterOne(Called(row, calls), entry, lease);
  }

  lemma {:induction false} LoopIsTransactionRun(
    row: JobRow, lastId: EventId, source: Source, events: seq<KafkaSource.Event>, rounds: seq<Round>,
    closing: seq<Call>, i: nat, now: int, lease: int)
    requires i <= |events| == |rounds|
    ensures Loop(row, lastId, source, events, rounds, closing, i, now).row
         == Leases.RowAfter(row, LoopTransactions(row, lastId, source, events, rounds, closing, i, now), lease)
    decreases |events| - i
  {
    hide Called, CallTransactions, EventCommitted, RestOfRound;
    if i == |events| {
      CallsThenLast(row, closing, Leases.Entry(now, Leases.Complete), lease);
    } else {
      var seen := Called(row, rounds[i].before);
      var rest := RestOfRound(seen, lastId, source, events, rounds, closing, i, now);
      CallsAreTransactions(row, rounds[i].before, lease);
      Leases.RowAfterAppend(row, CallTransactions(rounds[i].before), rest, lease);
      RestIsTransactionRun(row, lastId, source, events, rounds, closing, i, now, lease);
    }
  }

  lemma RestIsTransactionRun(
    row: JobRow, lastId: EventId, source: Source, events: seq<KafkaSource.Event>, rounds: seq<Round>,
    closing: seq<Call>, i: nat, now: int, lease: int)
    requires i < |events| == |rounds|
    ensures var seen := Called(row, rounds[i].before);
            Loop(row, lastId, source, events, rounds, closing, i, now).row
            == Leases.RowAfter(seen, RestOfRound(seen, lastId, source, events, rounds, closing, i, now), lease)
    decreases |events| - i, 0
  {
    hide Called, CallTransactions, EventCommitted, LoopTransactions;
    var seen, round, e := Called(row, rounds[i].before), rounds[i], events[i];
    var found := Called(seen, round.during);
    var pause := Leases.Entry(now, Leases.SavePause(lastId));
    if round.shutdown {
      Leases.RowAfterOne(seen, pause, lease);
    } else if seen.status == Paused {
      CallsThenLast(seen, round.during, pause, lease);
    } else if seen.status == Cancelled {
    } else if round.answer.Ok() {
      var next := EventCommitted(found, round.answer.duplicate, source, e.part, e.off);
      var commit := Leases.Entry(now, Leases.CommitEvent(round.answer.duplicate, source, e.part, e.off));
      var more := LoopTransactions(next, next.lastProcessedId, source, events, rounds, closing, i + 1, now);
      LoopIsTransactionRun(next, next.lastProcessedId, source, events, rounds, closing, i + 1, now, lease);
      CallsThen(seen, round.during, commit, more, lease);
    } else {
      var count, fail := Leases.Entry(now, Leases.CountFailure), Leases.Entry(now, Leases.Fail);
      CallsThen(seen, round.during, count, CallTransactions(round.after) + [fail], lease);
      CallsThenLast(FailureCounted(found), round.after, fail, lease);
    }
  }

  /** So an execution keeps the lease invariant, whatever calls of the API come between its transactions. */
  lemma ExecutionKeepsLease(row: JobRow, choice: Source, total: nat, events: seq<KafkaSource.Event>,
                            rounds: seq<Round>, closing: seq<Call>, now: int)
    requires |events| == |rounds| && Leases.LeaseInv(row)
    ensures Leases.LeaseInv(Executed(row, choice, total, events, rounds, closing, now).row)
  {
    hide Loop, LoopTransactions, Called, CallTransactions;
    var recorded := SourceRecorded(row, if row.replaySource.Some? then row.replaySource.value else choice, total);
    var source, lastId := recorded.replaySource.value, recorded.lastProcessedId;
    LoopIsTransactionRun(recorded, lastId, source, events, rounds, closing, 0, now, 0);
    Leases.LeaseInvKept(recorded, LoopTransactions(recorded, lastId, source, events, rounds, closing, 0, now), 0);
    CallsThenLast(recorded, closing, Leases.Entry(now, Leases.Fail), 0);
    Leases.LeaseInvKept(recorded, CallTransactions(closing) + [Leases.Entry(now, Leases.Fail)], 0);
  }

  // ---- What an execution leaves behind --------------------------------------

  /** The columns that count and locate progress, and where it comes from. */
  predicate SameProgress(row: JobRow, next: JobRow) {
    && next.replaySource == row.replaySource && next.eventsTotal == row.eventsTotal
    && next.checkpoint == row.checkpoint && next.lastProcessedId == row.lastProcessedId
    && next.eventsProcessed == row.eventsProcessed && next.eventsSkippedDedup == row.eventsSkippedDedup
    && next.eventsFailed == row.eventsFailed
  }

  lemma {:induction false} CallsKeepProgress(row: JobRow, calls: seq<Call>)
    ensures SameProgress(row, Called(row, calls))
  {
    if calls != [] {
      CallsKeepProgress(row, calls[..|calls| - 1]);
    }
  }

  /** How many of these rounds found their event already replayed. */
  function Duplicates(rounds: seq<Round>): (n: nat)
    ensures n <= |rounds|
  {
    if rounds == [] then 0 else Duplicates(rounds[1..]) + if rounds[0].answer.duplicate then 1 else 0
  }

  /** What the loop has done from event `i` on: the checkpoint and the counters moved exactly by the events
      handled, and it ended at the first event it cannot handle, with that event uncommitted. */
  predicate Committed(
    row: JobRow, source: Source, events: seq<KafkaSource.Event>, rounds: seq<Round>, i: nat, r: Outcome)
    requires i <= |events| == |rounds|
  {
    && i <= r.handled <= |events|
    && r.row.replaySource == row.replaySource && r.row.eventsTotal == row.eventsTotal
    && r.row.eventsSkippedDedup == row.eventsSkippedDedup + Duplicates(rounds[i..r.handled])
    && r.row.eventsProcessed == row.eventsProcessed + (r.handled - i - Duplicates(rounds[i..r.handled]))
    && r.row.eventsFailed == row.eventsFailed + (if r.end.GaveUp? then 1 else 0)
    && (source.Kafka? ==> r.row.checkpoint == KafkaSource.Saved(row.checkpoint, events[i..r.handled]))
    && (r.handled > i ==>
          var last := events[r.handled - 1]; r.row.lastProcessedId == EventIdOf(source, last.part, last.off))
    && (r.handled == i ==>
          r.row.lastProcessedId == row.lastProcessedId
          || (row.lastProcessedId.NoId? && r.row.lastProcessedId.EmptyId?))
    && (forall k | i <= k < r.handled :: rounds[k].answer.Ok() && !rounds[k].shutdown)
    && (r.end.AllDone? ==> r.handled == |events| && r.row.status == Completed)
    && (r.end.GaveUp? ==> r.handled < |events| && !rounds[r.handled].answer.Ok() && r.row.status == Failed)
    && (r.end.WasPaused? ==> r.row.status == Paused)
    && (!r.end.WasCancelled? ==> r.row.workerId.None? && r.row.leaseExpiresAt.None?)
  }

  /** Where the loop ends without handling another event. */
  lemma LoopStops(
    row: JobRow, lastId: EventId, source: Source, events: seq<KafkaSource.Event>, rounds: seq<Round>,
    closing: seq<Call>, i: nat, now: int)
    requires i <= |events| == |rounds| && lastId == row.lastProcessedId
    requires Loop(row, lastId, source, events, rounds, closing, i, now).handled == i
    requires i < |events| ==>
               || rounds[i].shutdown || !rounds[i].answer.Ok()
               || Called(row, rounds[i].before).status in {Paused, Cancelled}
    ensures Committed(row, source, events, rounds, i, Loop(row, lastId, source, events, rounds, closing, i, now))
  {
    hide Called;
    assert events[i..i] == [] && rounds[i..i] == [];
    if i == |events| {
      CallsKeepProgress(row, closing);
    } else {
      var seen := Called(row, rounds[i].before);
      var found := Called(seen, rounds[i].during);
      CallsKeepProgress(row, rounds[i].before);
      CallsKeepProgress(seen, rounds[i].during);
      CallsKeepProgress(FailureCounted(found), rounds[i].after);
    }
  }

  lemma {:induction false} LoopCommitsHandled(
    row: JobRow, lastId: EventId, source: Source, events: seq<KafkaSource.Event>, rounds: seq<Round>,
    closing: seq<Call>, i: nat, now: int)
    requires i <= |events| == |rounds| && lastId == row.lastProcessedId
    ensures Committed(row, source, events, rounds, i, Loop(row, lastId, source, events, rounds, closing, i, now))
    decreases |events| - i
  {
    hide Committed, Called, EventCommitted;
    if i < |events| && !rounds[i].shutdown && rounds[i].answer.Ok()
       && Called(row, rounds[i].before).status !in {Paused, Cancelled} {
      var seen := Called(row, rounds[i].before);
      var found := Called(seen, rounds[i].during);
      var next := EventCommitted(found, rounds[i].answer.duplicate, source, events[i].part, events[i].off);
      LoopCommitsHandled(next, next.lastProcessedId, source, events, rounds, closing, i + 1, now);
      CallsKeepProgress(row, rounds[i].before);
      CallsKeepProgress(seen, rounds[i].during);
      OneMoreHandled(row, found, source, events, rounds, i,
                     Loop(next, next.lastProcessedId, source, events, rounds, closing, i + 1, now));
    } else {
      LoopStops(row, lastId, source, events, rounds, closing, i, now);
    }
  }

  lemma OneMoreHandled(row: JobRow, found: JobRow, source: Source, events: seq<KafkaSource.Event>,
                       rounds: seq<Round>, i: nat, r: Outcome)
    requires i < |events| == |rounds| && SameProgress(row, found)
    requires !rounds[i].shutdown && rounds[i].answer.Ok()
    requires var next := EventCommitted(found, rounds[i].answer.duplicate, source, events[i].part, events[i].off);
             Committed(next, source, events, rounds, i + 1, r)
    ensures Committed(row, source, events, rounds, i, r)
  {
    assert events[i..r.handled] == [events[i]] + events[i + 1..r.handled];
    assert rounds[i..r.handled] == [rounds[i]] + rounds[i + 1..r.handled];
    if source.Kafka? {
      SavedCons(row.checkpoint, events[i], events[i + 1..r.handled]);
    }
  }

  lemma {:induction false} SavedCons(checkpoint: map<nat, nat>, e: KafkaSource.Event, rest: seq<KafkaSource.Event>)
    ensures KafkaSource.Saved(checkpoint, [e] + rest) == KafkaSource.Saved(checkpoint[e.part := e.off], rest)
    decreases |rest|
  {
    if rest == [] {
      assert ([e] + rest)[..0] == [];
    } else {
      var n := |rest|;
      assert ([e] + rest)[..n] == [e] + rest[..n - 1];
      SavedCons(checkpoint, e, rest[..n - 1]);
    }
  }

  // ---- Where the loop ends --------------------------------------------------

  /** The row at the start of round `k`, if every round from `i` on committed its event. */
  function Reached(row: JobRow, source: Source, events: seq<KafkaSource.Event>, rounds: seq<Round>,
                   i: nat, k: nat): JobRow
    requires i <= k <= |events| == |rounds|
    decreases k, 0
  {
    if k == i then row
    else
      var found := Called(Seen(row, source, events, rounds, i, k - 1), rounds[k - 1].during);
      EventCommitted(found, rounds[k - 1].answer.duplicate, source, events[k - 1].part, events[k - 1].off)
  }

  /** The row whose status is read in round `k`. */
  function Seen(row: JobRow, source: Source, events: seq<KafkaSource.Event>, rounds: seq<Round>,
                i: nat, k: nat): JobRow
    requires i <= k < |events| == |rounds|
    decreases k, 1
  {
    Called(Reached(row, source, events, rounds, i, k), rounds[k].before)
  }

  /** Round `k` commits its event: no shutdown, a job neither paused nor cancelled, and an attempt that succeeds. */
  predicate GoesOn(row: JobRow, source: Source, events: seq<KafkaSource.Event>, rounds: seq<Round>, i: nat, k: nat)
    requires i <= k < |events| == |rounds|
  {
    && !rounds[k].shutdown && rounds[k].answer.Ok()
    && Seen(row, source, events, rounds, i, k).status !in {Paused, Cancelled}
  }

  /** The ending of a loop whose first round that does not go on is `h`, and the row it leaves: all events
      handled; cancelled, with the row as it was read; paused, from outside or by a shutdown, with the id of
      the last event handled saved; or a failed event. */
  function Ending(row: JobRow, lastId: EventId, source: Source, events: seq<KafkaSource.Event>,
                  rounds: seq<Round>, closing: seq<Call>, i: nat, now: int, h: nat): Outcome
    requires i <= h <= |events| == |rounds|
  {
    if h == |events|
    then Outcome(CompletedRow(Called(Reached(row, source, events, rounds, i, h), closing), now), AllDone, h)
    else
      var seen := Seen(row, source, events, rounds, i, h);
      var last := if h == i then lastId else EventIdOf(source, events[h - 1].part, events[h - 1].off);
      var found := Called(seen, rounds[h].during);
      if rounds[h].shutdown then Outcome(PauseSaved(seen, last), WasPaused, h)
      else if seen.status == Cancelled then Outcome(seen, WasCancelled, h)
      else if seen.status == Paused then Outcome(PauseSaved(found, last), WasPaused, h)
      else Outcome(FailedRow(Called(FailureCounted(found), rounds[h].after)), GaveUp, h)
  }

  lemma {:induction false} ReachedFrom(
    row: JobRow, source: Source, events: seq<KafkaSource.Event>, rounds: seq<Round>, i: nat, k: nat)
    requires i < k <= |events| == |rounds|
    ensures Reached(row, source, events, rounds, i, k)
         == Reached(Reached(row, source, events, rounds, i, i + 1), source, events, rounds, i + 1, k)
  {
    hide Called, EventCommitted;
    if i + 1 < k {
      ReachedFrom(row, source, events, rounds, i, k - 1);
    }
  }

  /** The loop ended in the first round that does not go on, and there as `Ending` says. */
  predicate EndsFirst(row: JobRow, lastId: EventId, source: Source, events: seq<KafkaSource.Event>,
                      rounds: seq<Round>, closing: seq<Call>, i: nat, now: int, r: Outcome)
    requires i <= |events| == |rounds|
  {
    && i <= r.handled <= |events|
    && (forall k | i <= k < r.handled :: GoesOn(row, source, events, rounds, i, k))
    && (r.handled < |events| ==> !GoesOn(row, source, events, rounds, i, r.handled))
    && r == Ending(row, lastId, source, events, rounds, closing, i, now, r.handled)
  }

  lemma EndsHere(
    row: JobRow, lastId: EventId, source: Source, events: seq<KafkaSource.Event>, rounds: seq<Round>,
    closing: seq<Call>, i: nat, now: int)
    requires i <= |events| == |rounds|
    requires i < |events| ==> !GoesOn(row, source, events, rounds, i, i)
    ensures EndsFirst(row, lastId, source, events, rounds, closing, i, now,
                      Loop(row, lastId, source, events, rounds, closing, i, now))
  {
    hide Called, PauseSaved, FailedRow, FailureCounted, CompletedRow;
    assert Reached(row, source, events, rounds, i, i) == row;
  }

  lemma EndsLater(
    row: JobRow, lastId: EventId, source: Source, events: seq<KafkaSource.Event>, rounds: seq<Round>,
    closing: seq<Call>, i: nat, now: int, r: Outcome)
    requires i < |events| == |rounds| && GoesOn(row, source, events, rounds, i, i)
    requires var next := Reached(row, source, events, rounds, i, i + 1);
             EndsFirst(next, next.lastProcessedId, source, events, rounds, closing, i + 1, now, r)
    ensures EndsFirst(row, lastId, source, events, rounds, closing, i, now, r)
  {
    hide Called, EventCommitted, PauseSaved, FailedRow, FailureCounted, CompletedRow, Reached;
    var next := Reached(row, source, events, rounds, i, i + 1);
    LastIdReached(row, source, events, rounds, i);
    forall k | i < k <= |events|
      ensures Reached(row, source, events, rounds, i, k) == Reached(next, source, events, rounds, i + 1, k)
    {
      ReachedFrom(row, source, events, rounds, i, k);
    }
    forall k | i < k < |events|
      ensures GoesOn(row, source, events, rounds, i, k) <==> GoesOn(next, source, events, rounds, i + 1, k)
    {
      assert Reached(row, source, events, rounds, i, k) == Reached(next, source, events, rounds, i + 1, k);
    }
    var h := r.handled;
    assert Reached(row, source, events, rounds, i, h) == Reached(next, source, events, rounds, i + 1, h);
  }

  /** The loop ends in the first round that does not go on: every event before it was committed in a round that
      read neither PAUSED nor CANCELLED, the event of that round is not, and none after it is tried. */
  lemma {:induction false} LoopEnds(
    row: JobRow, lastId: EventId, source: Source, events: seq<KafkaSource.Event>, rounds: seq<Round>,
    closing: seq<Call>, i: nat, now: int)
    requires i <= |events| == |rounds|
    ensures EndsFirst(row, lastId, source, events, rounds, closing, i, now,
                      Loop(row, lastId, source, events, rounds, closing, i, now))
    decreases |events| - i
  {
    if i < |events| && GoesOn(row, source, events, rounds, i, i) {
      hide Called, EventCommitted, EndsFirst;
      var next := Reached(row, source, events, rounds, i, i + 1);
      assert Reached(row, source, events, rounds, i, i) == row;
      LoopEnds(next, next.lastProcessedId, source, events, rounds, closing, i + 1, now);
      EndsLater(row, lastId, source, events, rounds, closing, i, now,
                Loop(next, next.lastProcessedId, source, events, rounds, closing, i + 1, now));
    } else {
      EndsHere(row, lastId, source, events, rounds, closing, i, now);
    }
  }

  lemma LastIdReached(row: JobRow, source: Source, events: seq<KafkaSource.Event>, rounds: seq<Round>, i: nat)
    requires i < |events| == |rounds|
    ensures Reached(row, source, events, rounds, i, i + 1).lastProcessedId
         == EventIdOf(source, events[i].part, events[i].off)
  {
    hide Called;
  }

  /** A recorded source is reused, whatever would be chosen now; the source in use is the one recorded and the
      one of every id committed.  A checkpoint that it cannot read fails the job with nothing handled. */
  lemma SourceReused(row: JobRow, choice: Source, total: nat, events: seq<KafkaSource.Event>,
                     rounds: seq<Round>, closing: seq<Call>, now: int, other: Source)
    requires |events| == |rounds|
    ensures var r := Executed(row, choice, total, events, rounds, closing, now);
            var source := if row.replaySource.Some? then row.replaySource.value else choice;
            && (row.replaySource.Some? ==> r == Executed(row, other, total, events, rounds, closing, now))
            && r.row.replaySource == Some(source)
            && r.row.eventsTotal == (if row.eventsTotal == 0 then total else row.eventsTotal)
            && r.handled <= |events|
            && (r.handled > 0 ==>
                  var last := events[r.handled - 1]; r.row.lastProcessedId == EventIdOf(source, last.part, last.off))
            && (ResumeMap(source, row.checkpoint, row.lastProcessedId).None? ==>
                  r.handled == 0 && r.end.GaveUp? && r.row.status == Failed
                  && r.row.checkpoint == row.checkpoint && r.row.lastProcessedId == row.lastProcessedId)
  {
    hide Loop, Called;
    var source := if row.replaySource.Some? then row.replaySource.value else choice;
    var recorded := SourceRecorded(row, source, total);
    CallsKeepProgress(recorded, closing);
    LoopCommitsHandled(recorded, recorded.lastProcessedId, source, events, rounds, closing, 0, now);
  }
}
