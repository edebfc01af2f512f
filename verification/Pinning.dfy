/**
 Source pinning.  With one executor at a time a job's source never changes once it
 is set.  With more it can: an executor that fetched the row before any source was
 set still writes its own choice later, even over a stored checkpoint.
 */
module Pinning {
  import opened Prelude
  import opened Target
  import opened Jobs
  import opened Windows
  import opened Pipeline
  import opened Soundness
  import opened Counting
  import Events

  lemma RowNextSource(c: Config, s: State, x: Executor, action: Action)
    requires ActionEnabled(c, s, x, action)
    ensures RowNext(c, s, x, action).replaySource
         == if action.RecordSource? then Some(action.choice) else s.row.replaySource
  {
  }

  /** Recording its choice is the only thing that writes a job's source. */
  lemma SourceWritten(c: Config, s: State, step: Step)
    requires Enabled(c, s, step)
    ensures Next(c, s, step).row.replaySource
         == if step.Work? && step.action.RecordSource? then Some(step.action.choice) else s.row.replaySource
  {
    hide WorldNext, WorkNext, RpcNext, Grows, Moved, RowNext, CanWrite;
    match step
    case World(event) => WorldStays(c, s, event);
    case Work(exec, action) =>
      WorkFrame(c, s, exec, action);
      RowNextSource(c, s, s.execs[exec], action);
    case Rpc(req, handling) => RpcFrame(c, s, req, handling);
  }

  // ---- One executor at a time -----------------------------------------------

  /** The checkpoint has the format of the row's source, and the one executor holds both. */
  predicate Paired(s: State) {
    Pinned(s.row) && LoneExecutor(s) && forall x | x in s.execs :: ExecMatches(s.row, s.execs[x])
  }

  lemma PairedMoves(c: Config, s: State, x: Executor, action: Action)
    requires ActionEnabled(c, s, x, action) && Pinned(s.row) && ExecMatches(s.row, x)
    ensures var next := RowNext(c, s, x, action);
            && Pinned(next) && (s.row.replaySource.Some? ==> next.replaySource == s.row.replaySource)
            && (Moved(c, s, x, action).Some? ==> ExecMatches(next, Moved(c, s, x, action).value))
  {
  }

  lemma WorldPaired(c: Config, s: State, event: WorldStep)
    requires WorldEnabled(s, event) && Paired(s) && (event.Acquire? ==> s.execs == map[])
    ensures Paired(WorldNext(c, s, event))
  {
    hide WorldNext, RowStays;
    WorldStays(c, s, event);
    WorldAcquires(c, s, event);
    SameFormat(s.row, WorldNext(c, s, event).row, s, WorldNext(c, s, event));
  }

  lemma SameFormat(row: JobRow, next: JobRow, s: State, t: State)
    requires s.row == row && t.row == next && RowStays(s, t) && next.lastProcessedId == row.lastProcessedId
    ensures Pinned(next) <==> Pinned(row)
    ensures forall x | x in s.execs :: ExecMatches(next, s.execs[x]) <==> ExecMatches(row, s.execs[x])
    ensures next.replaySource == row.replaySource
  {
  }

  lemma StepKeepsPaired(c: Config, s: State, step: Step)
    requires Enabled(c, s, step) && OneAtATime(s, step) && Paired(s)
    ensures Paired(Next(c, s, step))
    ensures s.row.replaySource.Some? ==> Next(c, s, step).row.replaySource == s.row.replaySource
  {
    hide WorldNext, WorkNext, RpcNext, Moved, RowNext, Grows, ActionEnabled, Pinned, ExecMatches;
    SourceWritten(c, s, step);
    match step {
      case World(event) => WorldPaired(c, s, event);
      case Work(exec, action) =>
        WorkFrame(c, s, exec, action);
        PairedMoves(c, s, s.execs[exec], action);
        assert forall x | x in Next(c, s, step).execs :: x == exec;
      case Rpc(req, handling) => RpcFrame(c, s, req, handling);
    }
  }

  lemma {:induction false} RunKeepsPaired(c: Config, s: State, steps: seq<Step>)
    requires Paired(s) && IsLoneRun(c, s, steps)
    ensures IsRun(c, s, steps) && Paired(Final(c, s, steps))
    ensures s.row.replaySource.Some? ==> Final(c, s, steps).row.replaySource == s.row.replaySource
    decreases |steps|
  {
    if steps != [] {
      hide Paired;
      StepKeepsPaired(c, s, steps[0]);
      RunKeepsPaired(c, Next(c, s, steps[0]), steps[1..]);
    }
  }

  /** With one executor at a time, however its streams are opened: a source once set never changes, the
      stored checkpoint has its format, and reading it back never fails. */
  lemma PinnedWhenSingle(c: Config, s: State, steps: seq<Step>, more: seq<Step>)
    requires Initial(s) && IsLoneRun(c, s, steps) && IsRun(c, s, steps)
    requires IsLoneRun(c, Final(c, s, steps), more) && IsRun(c, Final(c, s, steps), more)
    requires Final(c, s, steps).row.replaySource.Some?
    ensures var row := Final(c, Final(c, s, steps), more).row;
            && row.replaySource == Final(c, s, steps).row.replaySource && Pinned(row)
            && ResumeMap(row.replaySource.value, row.checkpoint, row.lastProcessedId).Some?
  {
    RunKeepsPaired(c, s, steps);
    RunKeepsPaired(c, Final(c, s, steps), more);
  }

  // ---- Any number of executors ---------------------------------------------

  /** No executor still holds a row it fetched before this source was recorded. */
  predicate NoOldFetch(s: State, source: Source) {
    forall x | x in s.execs && s.execs[x].Fetched? :: s.execs[x].pinned == Some(source)
  }

  lemma StepKeepsSource(c: Config, s: State, step: Step, source: Source)
    requires Enabled(c, s, step) && s.row.replaySource == Some(source) && NoOldFetch(s, source)
    ensures Next(c, s, step).row.replaySource == Some(source) && NoOldFetch(Next(c, s, step), source)
  {
    SourceWritten(c, s, step);
    FetchesKept(c, s, step);
  }

  lemma MovedNotFetched(c: Config, s: State, x: Executor, action: Action)
    requires ActionEnabled(c, s, x, action)
    ensures Moved(c, s, x, action).Some? ==> !Moved(c, s, x, action).value.Fetched?
  {
  }

  /** A new fetch holds the source the row has at that moment. */
  lemma FetchesKept(c: Config, s: State, step: Step)
    requires Enabled(c, s, step)
    ensures var t := Next(c, s, step);
            forall x | x in t.execs && t.execs[x].Fetched? ::
              t.execs[x].pinned == s.row.replaySource || (x in s.execs && t.execs[x] == s.execs[x])
  {
    hide WorldNext, WorkNext, RpcNext, Moved, RowNext, Grows, ActionEnabled;
    match step
    case World(event) => WorldFrame(c, s, event);
    case Work(exec, action) =>
      WorkFrame(c, s, exec, action);
      MovedNotFetched(c, s, s.execs[exec], action);
    case Rpc(req, handling) => RpcFrame(c, s, req, handling);
  }

  lemma {:induction false} RunKeepsSource(c: Config, s: State, steps: seq<Step>, source: Source)
    requires IsRun(c, s, steps) && s.row.replaySource == Some(source) && NoOldFetch(s, source)
    ensures Final(c, s, steps).row.replaySource == Some(source)
    decreases |steps|
  {
    if steps != [] {
      StepKeepsSource(c, s, steps[0], source);
      RunKeepsSource(c, Next(c, s, steps[0]), steps[1..], source);
    }
  }

  /** A recorded source is safe on every run exactly when no executor holds an older fetch. */
  lemma SourceFixedIff(c: Config, s: State, source: Source)
    requires s.row.replaySource == Some(source)
    ensures (forall steps | IsRun(c, s, steps) :: Final(c, s, steps).row.replaySource == Some(source))
       <==> NoOldFetch(s, source)
  {
    if NoOldFetch(s, source) {
      forall steps | IsRun(c, s, steps) ensures Final(c, s, steps).row.replaySource == Some(source) {
        RunKeepsSource(c, s, steps, source);
      }
    } else {
      var x :| x in s.execs && s.execs[x].Fetched? && s.execs[x].pinned != Some(source);
      var step := Work(x, RecordSource(if source.Redis? then Kafka else Redis, 0));
      Prepend(c, s, step, []);
      assert Final(c, s, [step] + []).row.replaySource != Some(source);
    }
  }

  // ---- From the first choice on ---------------------------------------------

  /** Before a source is chosen nothing is stored and no executor is past fetching the row. */
  predicate Unsourced(s: State) {
    s.row.replaySource.None? ==>
      && s.row.checkpoint == map[] && s.row.lastProcessedId.NoId?
      && forall x | x in s.execs :: s.execs[x] == Fetched(None)
  }

  lemma StepKeepsUnsourced(c: Config, s: State, step: Step)
    requires Enabled(c, s, step) && Unsourced(s)
    ensures Unsourced(Next(c, s, step))
  {
    hide WorldNext, WorkNext, RpcNext, Moved, RowNext, Grows, ActionEnabled;
    SourceWritten(c, s, step);
    if Next(c, s, step).row.replaySource.None? {
      match step {
        case World(event) => WorldFrame(c, s, event);
        case Work(exec, action) =>
          WorkFrame(c, s, exec, action);
          FetchedMoves(c, s, s.execs[exec], action);
        case Rpc(req, handling) => RpcFrame(c, s, req, handling);
      }
    }
  }

  /** An executor that only fetched the row can choose its source, fail, or crash. */
  lemma FetchedMoves(c: Config, s: State, x: Executor, action: Action)
    requires ActionEnabled(c, s, x, action) && x.Fetched? && !action.RecordSource?
    ensures Moved(c, s, x, action).None?
    ensures var next := RowNext(c, s, x, action);
            next.checkpoint == s.row.checkpoint && next.lastProcessedId == s.row.lastProcessedId
  {
  }

  lemma {:induction false} RunKeepsUnsourced(c: Config, s: State, steps: seq<Step>)
    requires Unsourced(s) && IsRun(c, s, steps)
    ensures Unsourced(Final(c, s, steps))
    decreases |steps|
  {
    if steps != [] {
      StepKeepsUnsourced(c, s, steps[0]);
      RunKeepsUnsourced(c, Next(c, s, steps[0]), steps[1..]);
    }
  }

  /** Once any checkpoint is stored, the source is set: with any number of executors. */
  lemma CheckpointHasSource(c: Config, s: State, steps: seq<Step>)
    requires Initial(s) && IsRun(c, s, steps)
    ensures var row := Final(c, s, steps).row;
            row.checkpoint != map[] || !row.lastProcessedId.NoId? ==> row.replaySource.Some?
  {
    RunKeepsUnsourced(c, s, steps);
  }

  /** A stored id that this source can have written. */
  predicate IdFits(source: Source, id: EventId) {
    if source.Redis? then !id.KafkaId? else !id.RedisId?
  }

  predicate ExecAgrees(x: Executor, source: Source) {
    match x
    case Fetched(pinned) => pinned == Some(source)
    case Recorded(chosen, checkpoint, lastId) =>
      chosen == source && IdFits(source, lastId) && (source.Redis? ==> checkpoint == map[])
    case Streaming(chosen, _, _, _, lastId, _) => chosen == source && IdFits(source, lastId)
  }

  /** The row and every executor hold the same source, and nothing the other one wrote. */
  predicate Agreed(s: State, source: Source) {
    && s.row.replaySource == Some(source) && IdFits(source, s.row.lastProcessedId)
    && (source.Redis? ==> s.row.checkpoint == map[])
    && forall x | x in s.execs :: ExecAgrees(s.execs[x], source)
  }

  lemma StepKeepsAgreed(c: Config, s: State, step: Step, source: Source)
    requires Enabled(c, s, step) && Agreed(s, source)
    ensures Agreed(Next(c, s, step), source)
  {
    hide WorldNext, WorkNext, RpcNext, Moved, RowNext, Grows, ActionEnabled;
    SourceWritten(c, s, step);
    match step {
      case World(event) => WorldFrame(c, s, event);
      case Work(exec, action) =>
        WorkFrame(c, s, exec, action);
        AgreedMoves(c, s, s.execs[exec], action, source);
      case Rpc(req, handling) => RpcFrame(c, s, req, handling);
    }
  }

  lemma AgreedMoves(c: Config, s: State, x: Executor, action: Action, source: Source)
    requires ActionEnabled(c, s, x, action) && Agreed(s, source) && ExecAgrees(x, source)
    ensures var next := RowNext(c, s, x, action);
            && next.replaySource == Some(source) && IdFits(source, next.lastProcessedId)
            && (source.Redis? ==> next.checkpoint == map[])
    ensures Moved(c, s, x, action).Some? ==> ExecAgrees(Moved(c, s, x, action).value, source)
  {
  }

  lemma {:induction false} RunKeepsAgreed(c: Config, s: State, steps: seq<Step>, source: Source)
    requires Agreed(s, source) && IsRun(c, s, steps)
    ensures Agreed(Final(c, s, steps), source)
    decreases |steps|
  {
    if steps != [] {
      StepKeepsAgreed(c, s, steps[0], source);
      RunKeepsAgreed(c, Next(c, s, steps[0]), steps[1..], source);
    }
  }

  /** If the executor that first chooses a source is then the only one, the source is fixed for good,
      whatever number of executors come later, the checkpoint has its format, and parsing it never fails. */
  lemma PinnedFromFirstChoice(
    c: Config, s: State, steps: seq<Step>, exec: nat, choice: Source, total: nat, more: seq<Step>)
    requires Initial(s) && IsRun(c, s, steps)
    requires var t := Final(c, s, steps); t.row.replaySource.None? && t.execs.Keys == {exec}
    requires WorkEnabled(c, Final(c, s, steps), exec, RecordSource(choice, total))
    requires IsRun(c, WorkNext(c, Final(c, s, steps), exec, RecordSource(choice, total)), more)
    ensures var row := Final(c, WorkNext(c, Final(c, s, steps), exec, RecordSource(choice, total)), more).row;
            && row.replaySource == Some(choice) && IdFits(choice, row.lastProcessedId)
            && (choice.Redis? ==> row.checkpoint == map[])
            && ResumeMap(choice, row.checkpoint, row.lastProcessedId).Some?
  {
    hide IsRun, Final;
    var t := Final(c, s, steps);
    RunKeepsUnsourced(c, s, steps);
    var chosen := WorkNext(c, t, exec, RecordSource(choice, total));
    assert chosen.execs == map[exec := Recorded(choice, map[], NoId)];
    RunKeepsAgreed(c, chosen, more, choice);
  }

  // ---- A run that breaks pinning --------------------------------------------

  const BLANK := Record(Some(0), "t", Truncate, map[], map[], "k")
  const SETUP := Config(0, 10, 300, 7, 4, map[])
  const START := State(0, [BLANK], [], NEW_JOB, map[], 0, map[], 0, map[], map[], {}, {}, {}, map[], None, {})

  /** Two executors fetched the row before a source was set. */
  function BothFetched(): State {
    START.(row := Acquired(NEW_JOB.(startedAt := Some(0)), "b", 0, 300), nextExec := 2,
            execs := map[0 := Fetched(None), 1 := Fetched(None)])
  }

  lemma ReachBothFetched() returns (steps: seq<Step>)
    ensures IsRun(SETUP, START, steps) && Final(SETUP, START, steps) == BothFetched()
  {
    var c := SETUP;
    var s1 := Next(c, START, World(Api(Start)));
    var s2 := Next(c, s1, World(Acquire("a")));
    var s3 := Next(c, s2, World(Api(Pause)));
    var s4 := Next(c, s3, World(Api(Resume)));
    var s5 := Next(c, s4, World(Acquire("b")));
    assert s5.execs == BothFetched().execs;
    steps := [World(Acquire("b"))];
    Prepend(c, s4, World(Acquire("b")), []);
    Prepend(c, s3, World(Api(Resume)), steps);
    steps := [World(Api(Resume))] + steps;
    Prepend(c, s2, World(Api(Pause)), steps);
    steps := [World(Api(Pause))] + steps;
    Prepend(c, s1, World(Acquire("a")), steps);
    steps := [World(Acquire("a"))] + steps;
    Prepend(c, START, World(Api(Start)), steps);
    steps := [World(Api(Start))] + steps;
  }

  /** The first executor chose Redis and opened its stream; the second still holds what it fetched. */
  function RedisOpened(): State {
    BothFetched().(row := SourceRecorded(BothFetched().row, Redis, 1),
                   execs := map[0 := Streaming(Redis, [0], [1], [1], NoId, Idle), 1 := Fetched(None)])
  }

  /** ... before it opened the stream. */
  function RedisRecorded(): State {
    BothFetched().(row := SourceRecorded(BothFetched().row, Redis, 1),
                   execs := map[0 := Recorded(Redis, map[], NoId), 1 := Fetched(None)])
  }

  lemma RecordsRedis()
    ensures Enabled(SETUP, BothFetched(), Work(0, RecordSource(Redis, 1)))
    ensures Next(SETUP, BothFetched(), Work(0, RecordSource(Redis, 1))) == RedisRecorded()
  {
    assert Next(SETUP, BothFetched(), Work(0, RecordSource(Redis, 1))).execs == RedisRecorded().execs;
  }

  lemma OpensRedis()
    ensures Enabled(SETUP, RedisRecorded(), Work(0, Open([1], [1])))
    ensures Next(SETUP, RedisRecorded(), Work(0, Open([1], [1]))) == RedisOpened()
  {
    var s := RedisRecorded();
    assert Base([BLANK], 0) == 0 && Base([BLANK][..1], 0) == 0 && [BLANK][..1] == [BLANK];
    assert Enabled(SETUP, s, Work(0, Open([1], [1])));
    var y := Opened(SETUP, s, s.execs[0], [1], [1]);
    assert y.pos == [0] && y.stop == [1] && y.seen == [1];
    assert Next(SETUP, s, Work(0, Open([1], [1]))).execs == RedisOpened().execs;
  }

  lemma ReachRedisOpened()
    ensures IsRun(SETUP, BothFetched(), [Work(0, RecordSource(Redis, 1)), Work(0, Open([1], [1]))])
    ensures Final(SETUP, BothFetched(), [Work(0, RecordSource(Redis, 1)), Work(0, Open([1], [1]))]) == RedisOpened()
  {
    hide Enabled, Next, BothFetched, RedisRecorded, RedisOpened;
    var record, open := Work(0, RecordSource(Redis, 1)), Work(0, Open([1], [1]));
    RecordsRedis();
    OpensRedis();
    OneStep(SETUP, RedisRecorded(), open);
    Prepend(SETUP, BothFetched(), record, [open]);
    assert [record] + [open] == [record, open];
  }

  lemma RedisReplayable()
    ensures Events.CanReplay(SETUP, RedisOpened(), 0, 0)
    ensures var t := Events.Replayed(SETUP, RedisOpened(), 0, 0);
            && t.row.replaySource == Some(Redis) && t.row.lastProcessedId == RedisId(0) && t.row.checkpoint == map[]
            && Enabled(SETUP, t, Work(1, RecordSource(Kafka, 0)))
            && Next(SETUP, t, Work(1, RecordSource(Kafka, 0))).row == SourceRecorded(t.row, Kafka, 0)
  {
  }

  /** From a fresh job, a run that commits a Redis checkpoint, after which the source is overwritten:
      the job now resumes from Kafka with an id that cannot be read there. */
  lemma PinningBroken()
    ensures Initial(START)
    ensures exists steps, more | IsRun(SETUP, START, steps) && IsRun(SETUP, Final(SETUP, START, steps), more) ::
      var s, t := Final(SETUP, START, steps), Final(SETUP, Final(SETUP, START, steps), more);
      && s.row.replaySource == Some(Redis) && s.row.lastProcessedId.RedisId?
      && t.row.replaySource == Some(Kafka) && t.row.lastProcessedId == s.row.lastProcessedId
      && ResumeMap(Kafka, t.row.checkpoint, t.row.lastProcessedId).None?
  {
    hide IsRun, Final, Next, Enabled, Events.CanReplay, Events.Replayed, RedisOpened, BothFetched;
    var c := SETUP;
    var steps := ReachBothFetched();
    var open := [Work(0, RecordSource(Redis, 1)), Work(0, Open([1], [1]))];
    ReachRedisOpened();
    RunAppended(c, START, steps, open);
    RedisReplayable();
    Events.EventReplayed(c, RedisOpened(), 0, 0);
    var event := Events.EventSteps(RedisOpened(), 0, 0);
    FollowsIsRun(c, Events.EventStates(c, RedisOpened(), 0, 0), event);
    RunAppended(c, START, steps + open, event);
    var s := Events.Replayed(c, RedisOpened(), 0, 0);
    var over := Work(1, RecordSource(Kafka, 0));
    OneStep(c, s, over);
    assert IsRun(c, Final(c, START, steps + open + event), [over]);
  }

  lemma OneStep(c: Config, s: State, step: Step)
    requires Enabled(c, s, step)
    ensures IsRun(c, s, [step]) && Final(c, s, [step]) == Next(c, s, step)
  {
    Prepend(c, s, step, []);
  }
}
