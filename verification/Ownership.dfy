/**
 The job row of the pipeline is the row of `Leases`: every run of the pipeline commits
 a run of row transactions, so what holds of all of those holds in the pipeline.
 */
module Ownership {
  import opened Prelude
  import opened Jobs
  import opened Pipeline
  import opened Soundness
  import Leases

  /** The row transaction that a step commits, if it commits one. */
  function TransactionOf(c: Config, s: State, step: Step): Option<Leases.Txn>
    requires Enabled(c, s, step)
  {
    match step
    case World(event) =>
      (match event
       case Api(call) => Some(Leases.Api(call))
       case Acquire(worker) => Some(Leases.Acquire(worker))
       case Renew(worker) => Some(Leases.Renew(worker))
       case _ => None)
    case Work(exec, action) =>
      var x := s.execs[exec];
      (match action
       case RecordSource(choice, total) => Some(Leases.RecordSource(choice, total))
       case Commit => Some(Leases.CommitEvent(x.task.duplicate, x.source, x.task.part, x.pos[x.task.part]))
       case CountFailure => Some(Leases.CountFailure)
       case SavePause => Some(Leases.SavePause(x.lastId))
       case Complete => Some(Leases.Complete)
       case Fail => Some(Leases.Fail)
       case _ => None)
    case Rpc(_, _) => None
  }

  lemma StepIsTransaction(c: Config, s: State, step: Step)
    requires Enabled(c, s, step)
    ensures var txn := TransactionOf(c, s, step);
            Next(c, s, step).row
            == if txn.None? then s.row else Leases.RowStep(s.row, Leases.Entry(s.now, txn.value), c.lease)
  {
    hide WorldNext, WorkNext, RpcNext, Moved, RowNext, Grows, ActionEnabled, ApiResult;
    match step
    case World(event) => WorldIsTransaction(c, s, event);
    case Work(exec, action) =>
      WorkFrame(c, s, exec, action);
      WorkIsTransaction(c, s, exec, action);
    case Rpc(req, handling) => RpcFrame(c, s, req, handling);
  }

  lemma WorldIsTransaction(c: Config, s: State, event: WorldStep)
    requires Enabled(c, s, World(event))
    ensures var txn := TransactionOf(c, s, World(event));
            WorldNext(c, s, event).row
            == if txn.None? then s.row else Leases.RowStep(s.row, Leases.Entry(s.now, txn.value), c.lease)
  {
    hide ApiResult;
  }

  lemma WorkIsTransaction(c: Config, s: State, exec: nat, action: Action)
    requires WorkEnabled(c, s, exec, action)
    ensures var txn := TransactionOf(c, s, Work(exec, action));
            RowNext(c, s, s.execs[exec], action)
            == if txn.None? then s.row else Leases.RowStep(s.row, Leases.Entry(s.now, txn.value), c.lease)
  {
    hide Moved;
  }

  /** The transactions of a run, in the order they commit. */
  function Transactions(c: Config, s: State, steps: seq<Step>): seq<Leases.Entry>
    requires IsRun(c, s, steps)
    decreases |steps|
  {
    if steps == [] then []
    else
      var txn := TransactionOf(c, s, steps[0]);
      var rest := Transactions(c, Next(c, s, steps[0]), steps[1..]);
      if txn.None? then rest else [Leases.Entry(s.now, txn.value)] + rest
  }

  /** The pipeline's row refines the row machine: it is what the run's transactions make of it. */
  lemma {:induction false} RowIsTransactionRun(c: Config, s: State, steps: seq<Step>)
    requires IsRun(c, s, steps)
    ensures Final(c, s, steps).row == Leases.RowAfter(s.row, Transactions(c, s, steps), c.lease)
    decreases |steps|
  {
    if steps != [] {
      hide Next, Enabled, TransactionOf, Leases.RowStep;
      StepIsTransaction(c, s, steps[0]);
      var txn := TransactionOf(c, s, steps[0]);
      RowIsTransactionRun(c, Next(c, s, steps[0]), steps[1..]);
      if txn.Some? {
        var entry := Leases.Entry(s.now, txn.value);
        Leases.RowAfterOne(s.row, entry, c.lease);
        Leases.RowAfterAppend(s.row, [entry], Transactions(c, Next(c, s, steps[0]), steps[1..]), c.lease);
      }
    }
  }

  /** In every state the pipeline reaches a job is RUNNING iff owned iff leased, and exactly the
      queued and the lapsed jobs can be acquired. */
  lemma LeaseInvariantInPipeline(c: Config, s: State, steps: seq<Step>, worker: string)
    requires Initial(s) && IsRun(c, s, steps)
    ensures var t := Final(c, s, steps);
            && Leases.LeaseInv(t.row)
            && (t.row.status != Running ==> Renewed(t.row, worker, t.now, c.lease) == t.row)
            && (WorldEnabled(t, Acquire(worker)) <==>
                t.row.status == Queued
                || (t.row.status == Running && t.row.leaseExpiresAt.Some? && t.row.leaseExpiresAt.value < t.now))
  {
    RowIsTransactionRun(c, s, steps);
    Leases.LeaseInvariant(Transactions(c, s, steps), c.lease);
    Leases.LeaseConsequences(Transactions(c, s, steps), c.lease, worker, Final(c, s, steps).now);
  }

  // ---- A second executor ---------------------------------------------------

  /** Runs of API calls and acquisitions only: no executor does anything, and no time passes. */
  predicate OnlyCallsAndAcquires(steps: seq<Step>) {
    forall i | 0 <= i < |steps| :: steps[i].World? && (steps[i].event.Api? || steps[i].event.Acquire?)
  }

  lemma TerminalStep(c: Config, s: State, event: WorldStep)
    requires IsTerminal(s.row.status) && WorldEnabled(s, event) && (event.Api? || event.Acquire?)
    ensures WorldNext(c, s, event).row == s.row && WorldNext(c, s, event).execs == s.execs
  {
  }

  lemma {:induction false} TerminalStaysPut(c: Config, s: State, steps: seq<Step>)
    requires IsTerminal(s.row.status) && IsRun(c, s, steps) && OnlyCallsAndAcquires(steps)
    ensures Final(c, s, steps).execs == s.execs
    decreases |steps|
  {
    hide WorldNext, WorkNext, RpcNext, WorldEnabled, WorkEnabled, RpcEnabled;
    if steps != [] {
      TerminalStep(c, s, steps[0].event);
      TerminalStaysPut(c, Next(c, s, steps[0]), steps[1..]);
    }
  }

  /** The calls of the API by which a job that is not terminal comes to be acquirable. */
  predicate Queues(row: JobRow, calls: seq<ApiCall>, now: int)
    decreases |calls|
  {
    if calls == [] then Acquirable(row, now)
    else ApiResult(row, calls[0], now).Some? && Queues(ApiResult(row, calls[0], now).value, calls[1..], now)
  }

  lemma CallsQueue(row: JobRow, now: int)
    requires Leases.LeaseInv(row) && !IsTerminal(row.status)
    ensures Queues(row, Leases.CallsToQueue(row.status), now)
  {
    if row.status == Running {
      var paused := ApiResult(row, Pause, now).value;
      assert Queues(ApiResult(paused, Resume, now).value, [], now);
      assert [Pause, Resume][1..] == [Resume];
      assert Queues(paused, [Resume], now);
    } else if row.status != Queued {
      var calls := Leases.CallsToQueue(row.status);
      assert Queues(ApiResult(row, calls[0], now).value, [], now);
    }
  }

  function StepsToSecond(calls: seq<ApiCall>): (steps: seq<Step>)
    ensures OnlyCallsAndAcquires(steps)
    decreases |calls|
  {
    if calls == [] then [World(Acquire("w"))] else [World(Api(calls[0]))] + StepsToSecond(calls[1..])
  }

  lemma {:induction false} SecondStarts(c: Config, s: State, calls: seq<ApiCall>)
    requires Queues(s.row, calls, s.now)
    ensures IsRun(c, s, StepsToSecond(calls))
    ensures Final(c, s, StepsToSecond(calls)).execs.Keys == s.execs.Keys + {s.nextExec}
    decreases |calls|
  {
    hide ApiResult, IsRun, Final;
    if calls == [] {
      AcquireAddsExecutor(c, s);
    } else {
      var next := s.(row := ApiResult(s.row, calls[0], s.now).value);
      CallsRow(c, s, calls[0]);
      SecondStarts(c, next, calls[1..]);
      Prepend(c, s, World(Api(calls[0])), StepsToSecond(calls[1..]));
    }
  }

  lemma CallsRow(c: Config, s: State, call: ApiCall)
    requires ApiResult(s.row, call, s.now).Some?
    ensures Enabled(c, s, World(Api(call)))
    ensures Next(c, s, World(Api(call))) == s.(row := ApiResult(s.row, call, s.now).value)
  {
    hide ApiResult;
  }

  lemma AcquireAddsExecutor(c: Config, s: State)
    requires Acquirable(s.row, s.now)
    ensures IsRun(c, s, [World(Acquire("w"))])
    ensures Final(c, s, [World(Acquire("w"))]).execs.Keys == s.execs.Keys + {s.nextExec}
  {
    hide Acquirable;
    Prepend(c, s, World(Acquire("w")), []);
  }

  /** The lease does not keep a second executor out: in any state the pipeline reaches, whoever is at
      work, API calls and an acquisition alone can start one more executor exactly when the job is not
      terminal. */
  lemma SecondExecutorIff(c: Config, s: State, steps: seq<Step>)
    requires Initial(s) && IsRun(c, s, steps)
    ensures var t := Final(c, s, steps);
            (exists more | IsRun(c, t, more) && OnlyCallsAndAcquires(more) ::
               t.execs.Keys < Final(c, t, more).execs.Keys)
            <==> !IsTerminal(t.row.status)
  {
    hide Final, IsRun, Inv;
    var t := Final(c, s, steps);
    LeaseInvariantInPipeline(c, s, steps, "w");
    if IsTerminal(t.row.status) {
      forall more | IsRun(c, t, more) && OnlyCallsAndAcquires(more) ensures Final(c, t, more).execs == t.execs {
        TerminalStaysPut(c, t, more);
      }
    } else {
      var calls := Leases.CallsToQueue(t.row.status);
      CallsQueue(t.row, t.now);
      SecondStarts(c, t, calls);
      InitialInv(c, s);
      RunKeepsInv(c, s, steps);
      NextIsNew(c, t);
      var more := StepsToSecond(calls);
      assert OnlyCallsAndAcquires(more) && IsRun(c, t, more);
    }
  }

  lemma NextIsNew(c: Config, s: State)
    requires Inv(c, s)
    ensures s.nextExec !in s.execs
  {
  }
}
