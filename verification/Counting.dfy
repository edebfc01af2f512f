/**
 One executor at a time: where the job stands in its logs, and that its counters count
 exactly the events at or below the stored checkpoint.  Nothing here depends on what the
 replayer does, so keys may repeat and timed-out attempts may still be running.
 */
module Counting {
  import opened Prelude
  import opened Target
  import opened Jobs
  import opened Windows
  import opened Pipeline
  import opened Soundness
  import KafkaSource

  // ---- Runs ----------------------------------------------------------------

  /** The job is acquired only when no executor of it is left. */
  predicate OneAtATime(s: State, step: Step) {
    step.World? && step.event.Acquire? ==> s.execs == map[]
  }

  predicate IsLoneRun(c: Config, s: State, steps: seq<Step>)
    decreases |steps|
  {
    steps == [] || (Enabled(c, s, steps[0]) && OneAtATime(s, steps[0])
                    && IsLoneRun(c, Next(c, s, steps[0]), steps[1..]))
  }

  /** Where nothing is committed yet, the executor stands at the base of the window. */
  predicate FromBase(c: Config, s: State, x: Executor, p: nat) {
    && x.Streaming? && p < |x.pos| && p < |Logs(s, x.source)|
    && (Front(s.row, p) == 0 ==> x.pos[p] == Base(Logs(s, x.source)[p], c.startMs))
  }

  /** One executor at a time, and the first event committed in a partition is the first of its window. */
  predicate Single(c: Config, s: State, step: Step)
    requires Enabled(c, s, step)
  {
    && OneAtATime(s, step)
    && (step.Work? && step.action.Commit? ==> FromBase(c, s, s.execs[step.exec], s.execs[step.exec].task.part))
  }

  predicate IsSingleRun(c: Config, s: State, steps: seq<Step>)
    decreases |steps|
  {
    steps == [] || (Enabled(c, s, steps[0]) && Single(c, s, steps[0])
                    && IsSingleRun(c, Next(c, s, steps[0]), steps[1..]))
  }

  lemma {:induction false} SingleIsLone(c: Config, s: State, steps: seq<Step>)
    requires IsSingleRun(c, s, steps)
    ensures IsLoneRun(c, s, steps) && IsRun(c, s, steps)
    decreases |steps|
  {
    if steps != [] {
      SingleIsLone(c, Next(c, s, steps[0]), steps[1..]);
    }
  }

  // ---- Where the job stands ------------------------------------------------

  function SourceOf(row: JobRow): Source {
    if row.replaySource.Some? then row.replaySource.value else Redis
  }

  /** The offset after the stored checkpoint of a partition; 0 where there is none. */
  function Front(row: JobRow, p: nat): nat {
    match SourceOf(row)
    case Redis => if row.lastProcessedId.RedisId? then row.lastProcessedId.entry + 1 else 0
    case Kafka => if p in row.checkpoint then row.checkpoint[p] + 1 else 0
  }

  /** The event to replay next in a partition. */
  function NextOff(c: Config, log: Log, row: JobRow, p: nat): nat {
    if Front(row, p) > 0 then Front(row, p) else Base(log, c.startMs)
  }

  function NextRef(c: Config, s: State, p: nat): Ref
    requires p < |Logs(s, SourceOf(s.row))|
  {
    Ref(SourceOf(s.row), p, NextOff(c, Logs(s, SourceOf(s.row))[p], s.row, p))
  }

  /** The events of a partition up to the stored checkpoint. */
  function Handled(c: Config, s: State, p: nat): seq<Record>
    requires p < |Logs(s, SourceOf(s.row))| && Front(s.row, p) <= |Logs(s, SourceOf(s.row))[p]|
  {
    Upto(Logs(s, SourceOf(s.row))[p], c.startMs, Front(s.row, p))
  }

  /** The stored checkpoint has the format of the job's source. */
  predicate Pinned(row: JobRow) {
    match row.replaySource
    case None => row.checkpoint == map[] && (row.lastProcessedId.NoId? || row.lastProcessedId.EmptyId?)
    case Some(Redis) => row.checkpoint == map[] && !row.lastProcessedId.KafkaId?
    case Some(Kafka) =>
      match row.lastProcessedId
      case RedisId(_) => false
      case KafkaId(p, off) => p in row.checkpoint && row.checkpoint[p] == off
      case _ => row.checkpoint == map[]
  }

  /** The stored checkpoint of a partition lies in the window, which is unbroken up to it. */
  predicate FrontOk(c: Config, log: Log, front: nat) {
    && front <= |log|
    && (front > 0 ==> Base(log, c.startMs) < front)
    && forall i | Base(log, c.startMs) <= i < front :: !Above(log[i], c.endMs)
  }

  predicate FrontsOk(c: Config, s: State) {
    forall p | 0 <= p < |Logs(s, SourceOf(s.row))| :: FrontOk(c, Logs(s, SourceOf(s.row))[p], Front(s.row, p))
  }

  /** Every stored checkpoint lies in its log. */
  predicate FrontsWithin(s: State) {
    forall p | 0 <= p < |Logs(s, SourceOf(s.row))| :: Front(s.row, p) <= |Logs(s, SourceOf(s.row))[p]|
  }

  /** How many events of each partition lie at or below the stored checkpoint. */
  function HandledCounts(c: Config, s: State): (counts: seq<nat>)
    requires FrontsWithin(s)
    ensures |counts| == |Logs(s, SourceOf(s.row))|
    ensures forall p | 0 <= p < |counts| :: counts[p] == |Handled(c, s, p)|
  {
    seq(|Logs(s, SourceOf(s.row))|, p requires 0 <= p < |Logs(s, SourceOf(s.row))| => |Handled(c, s, p)|)
  }

  function Sum(counts: seq<nat>): nat {
    if counts == [] then 0 else counts[0] + Sum(counts[1..])
  }

  /** The two success counters add up to those events. */
  predicate Counted(c: Config, s: State)
    requires FrontsWithin(s)
  {
    s.row.eventsProcessed + s.row.eventsSkippedDedup == Sum(HandledCounts(c, s))
  }

  /** The window, as it was when the log had `seen` records, holds nothing. */
  predicate EmptyWindow(c: Config, log: Log, seen: nat) {
    var base := Base(log, c.startMs);
    base >= seen || (base < |log| && Above(log[base], c.endMs))
  }

  /** The executor's next offset follows the stored checkpoint, where there is one. */
  predicate PartitionPlaced(c: Config, s: State, x: Executor, p: nat)
    requires x.Streaming? && p < |x.pos|
  {
    Front(s.row, p) > 0 ==> x.pos[p] == Front(s.row, p)
  }

  /** The executor holds the row's source and its checkpoint. */
  predicate ExecMatches(row: JobRow, x: Executor) {
    match x
    case Fetched(pinned) => pinned == row.replaySource
    case Recorded(source, checkpoint, lastId) =>
      row.replaySource == Some(source) && checkpoint == row.checkpoint && lastId == row.lastProcessedId
    case Streaming(source, _, _, _, lastId, _) => row.replaySource == Some(source) && lastId == row.lastProcessedId
  }

  predicate StreamPlaced(c: Config, s: State, x: Executor)
    requires x.Streaming?
  {
    && ExecMatches(s.row, x)
    && |x.pos| == |x.stop| == |x.seen| == |Logs(s, x.source)|
    && forall p | 0 <= p < |x.pos| :: PartitionPlaced(c, s, x, p)
  }

  predicate ExecPlaced(c: Config, s: State, x: Executor) {
    ExecMatches(s.row, x) && (x.Streaming? ==> StreamPlaced(c, s, x))
  }

  predicate LoneExecutor(s: State) {
    forall x, y | x in s.execs && y in s.execs :: x == y
  }

  /** The row and the one executor agree on where the job stands. */
  predicate Standing(c: Config, s: State) {
    && Pinned(s.row) && FrontsOk(c, s) && LoneExecutor(s)
    && (forall x | x in s.execs :: ExecPlaced(c, s, s.execs[x]))
  }

  ghost predicate CountInv(c: Config, s: State) {
    Inv(c, s) && Standing(c, s) && FrontsWithin(s) && Counted(c, s)
  }

  lemma FrontsFit(c: Config, s: State)
    requires FrontsOk(c, s)
    ensures FrontsWithin(s)
  {
    forall p | 0 <= p < |Logs(s, SourceOf(s.row))| ensures Front(s.row, p) <= |Logs(s, SourceOf(s.row))[p]| {
      assert FrontOk(c, Logs(s, SourceOf(s.row))[p], Front(s.row, p));
    }
  }

  lemma ExecOf(c: Config, s: State, exec: nat)
    requires Inv(c, s) && Standing(c, s) && exec in s.execs
    ensures ExecOk(c, s, s.execs[exec]) && ExecPlaced(c, s, s.execs[exec])
    ensures Pinned(s.row) && FrontsOk(c, s)
  {
  }

  // ---- Steps that leave the job where it stands ----------------------------

  /** Same position and counters, logs at most longer. */
  predicate RowStays(s: State, t: State) {
    && Grows(s, t)
    && t.row.replaySource == s.row.replaySource && t.row.checkpoint == s.row.checkpoint
    && t.row.eventsProcessed == s.row.eventsProcessed && t.row.eventsSkippedDedup == s.row.eventsSkippedDedup
    && (t.row.lastProcessedId == s.row.lastProcessedId
        || (s.row.lastProcessedId.NoId? && t.row.lastProcessedId.EmptyId?))
  }

  lemma PartitionKept(c: Config, s: State, t: State, p: nat)
    requires FrontsOk(c, s) && RowStays(s, t) && p < |Logs(s, SourceOf(s.row))|
    ensures var log, longer := Logs(s, SourceOf(s.row))[p], Logs(t, SourceOf(t.row))[p];
            && Front(t.row, p) == Front(s.row, p) && log <= longer
            && (Base(log, c.startMs) < |log| ==> Base(longer, c.startMs) == Base(log, c.startMs))
            && (Base(log, c.startMs) == |log| ==> Base(longer, c.startMs) >= |log|)
            && FrontOk(c, longer, Front(t.row, p))
            && Front(s.row, p) <= |log| && Handled(c, t, p) == Handled(c, s, p)
  {
    var log, longer := Logs(s, SourceOf(s.row))[p], Logs(t, SourceOf(t.row))[p];
    assert FrontOk(c, log, Front(s.row, p));
    BaseGrows(log, longer, c.startMs);
    UptoGrows(log, longer, c.startMs, Front(s.row, p));
  }

  lemma FrontsKept(c: Config, s: State, t: State)
    requires FrontsOk(c, s) && RowStays(s, t)
    ensures FrontsOk(c, t) && (Pinned(s.row) ==> Pinned(t.row))
  {
    forall p | 0 <= p < |Logs(t, SourceOf(t.row))|
      ensures FrontOk(c, Logs(t, SourceOf(t.row))[p], Front(t.row, p))
    {
      PartitionKept(c, s, t, p);
    }
  }

  lemma CountKept(c: Config, s: State, t: State)
    requires FrontsOk(c, s) && FrontsWithin(s) && Counted(c, s) && RowStays(s, t) && FrontsOk(c, t)
    ensures FrontsWithin(t) && Counted(c, t)
  {
    FrontsFit(c, t);
    forall p | 0 <= p < |HandledCounts(c, s)| ensures HandledCounts(c, t)[p] == HandledCounts(c, s)[p] {
      PartitionKept(c, s, t, p);
    }
    assert HandledCounts(c, t) == HandledCounts(c, s);
  }

  lemma PlacedKept(c: Config, s: State, t: State, x: Executor)
    requires FrontsOk(c, s) && RowStays(s, t) && t.row.lastProcessedId == s.row.lastProcessedId
    requires x.Streaming? && StreamPlaced(c, s, x)
    ensures StreamPlaced(c, t, x)
  {
    forall p | 0 <= p < |x.pos| ensures PartitionPlaced(c, t, x, p) {
      assert PartitionPlaced(c, s, x, p);
      PartitionKept(c, s, t, p);
    }
  }

  lemma ExecKept(c: Config, s: State, t: State, x: Executor)
    requires FrontsOk(c, s) && RowStays(s, t) && t.row.lastProcessedId == s.row.lastProcessedId
    requires ExecPlaced(c, s, x)
    ensures ExecPlaced(c, t, x)
  {
    if x.Streaming? {
      PlacedKept(c, s, t, x);
    }
  }

  // ---- World steps and the replayer ----------------------------------------

  lemma WorldStays(c: Config, s: State, event: WorldStep)
    requires WorldEnabled(s, event)
    ensures var t := WorldNext(c, s, event);
            && RowStays(s, t) && t.row.lastProcessedId == s.row.lastProcessedId && t.target == s.target
            && (t.row.status == Completed <==> s.row.status == Completed)
  {
    WorldGrows(c, s, event);
    if event.Api? {
      ApiFrame(s.row, event.call, s.now);
    }
  }

  /** The executors after a step around them: the same, or none before and a new one now. */
  lemma WorldAcquires(c: Config, s: State, event: WorldStep)
    requires WorldEnabled(s, event) && (event.Acquire? ==> s.execs == map[])
    ensures var t := WorldNext(c, s, event);
            t.execs == s.execs || (s.execs == map[] && t.execs == map[s.nextExec := Fetched(s.row.replaySource)])
  {
    hide ApiResult;
  }

  lemma WorldStanding(c: Config, s: State, t: State)
    requires Inv(c, s) && Standing(c, s) && RowStays(s, t) && t.row.lastProcessedId == s.row.lastProcessedId
    requires t.execs == s.execs || (s.execs == map[] && t.execs == map[s.nextExec := Fetched(s.row.replaySource)])
    ensures Standing(c, t)
  {
    FrontsKept(c, s, t);
    forall x | x in s.execs ensures ExecPlaced(c, t, s.execs[x]) {
      ExecKept(c, s, t, s.execs[x]);
    }
  }

  lemma WorldKeepsCount(c: Config, s: State, event: WorldStep)
    requires CountInv(c, s) && WorldEnabled(s, event) && (event.Acquire? ==> s.execs == map[])
    ensures CountInv(c, WorldNext(c, s, event))
  {
    hide Inv, FrontsOk, Counted, RowStays, WorldNext, ExecPlaced;
    var t := WorldNext(c, s, event);
    WorldKeepsInv(c, s, event);
    WorldStays(c, s, event);
    WorldAcquires(c, s, event);
    WorldStanding(c, s, t);
    CountKept(c, s, t);
  }

  lemma RpcKeepsCount(c: Config, s: State, req: nat, handling: Handling)
    requires CountInv(c, s) && RpcEnabled(c, s, req, handling)
    ensures CountInv(c, RpcNext(c, s, req, handling))
  {
    hide Inv, FrontsOk, Counted, RpcNext, ExecPlaced, Pinned;
    var t := RpcNext(c, s, req, handling);
    RpcKeepsInv(c, s, req, handling);
    RpcGrows(c, s, req, handling);
    RpcFrame(c, s, req, handling);
    WorldStanding(c, s, t);
    CountKept(c, s, t);
  }

  // ---- Steps of the executor -----------------------------------------------

  /** The steps of an executor that neither commit an event nor choose the source. */
  lemma WorkStays(c: Config, s: State, t: State, exec: nat, action: Action)
    requires WorkEnabled(c, s, exec, action) && Worked(c, s, t, exec, action) && ExecPlaced(c, s, s.execs[exec])
    requires !action.Commit? && (action.RecordSource? ==> s.row.replaySource.Some?)
    ensures RowStays(s, t) && (!action.SavePause? ==> t.row.lastProcessedId == s.row.lastProcessedId)
    ensures t.row.status == Completed ==> action.Complete? || s.row.status == Completed
  {
  }

  lemma OpenedPlaced(c: Config, s: State, x: Executor, lookup: seq<nat>, seek: seq<nat>)
    requires Pinned(s.row) && x.Recorded? && ExecPlaced(c, s, x)
    requires ResumeMap(x.source, x.checkpoint, x.lastId).Some?
    requires Moments(Logs(s, x.source), lookup, seek)
    ensures ExecPlaced(c, s, Opened(c, s, x, lookup, seek))
  {
    var y := Opened(c, s, x, lookup, seek);
    forall p | 0 <= p < |y.pos| ensures PartitionPlaced(c, s, y, p) {
      SavedIsFront(s.row, p);
    }
  }

  /** The stream is opened from the stored checkpoint, and from nothing else. */
  lemma SavedIsFront(row: JobRow, p: nat)
    requires Pinned(row) && row.replaySource.Some? && (row.replaySource == Some(Redis) ==> p == 0)
    requires ResumeMap(row.replaySource.value, row.checkpoint, row.lastProcessedId).Some?
    ensures var saved := ResumeMap(row.replaySource.value, row.checkpoint, row.lastProcessedId).value;
            if p in saved then Front(row, p) == saved[p] + 1 else Front(row, p) == 0
  {
  }

  lemma StreamRetasked(c: Config, t: State, x: Executor, task: Task)
    requires x.Streaming? && StreamPlaced(c, t, x)
    ensures StreamPlaced(c, t, x.(task := task))
  {
    forall p | 0 <= p < |x.pos| ensures PartitionPlaced(c, t, x.(task := task), p) {
      assert PartitionPlaced(c, t, x, p);
    }
  }

  lemma RefilledPlaced(c: Config, s: State, exec: nat)
    requires Inv(c, s) && Standing(c, s) && WorkEnabled(c, s, exec, Refill)
    ensures StreamPlaced(c, s, Moved(c, s, s.execs[exec], Refill).value)
  {
    ExecOf(c, s, exec);
    var x := s.execs[exec];
    assert PartitionPlaced(c, s, x, 0) && PartitionOk(c, s, x, 0);
    assert PartitionPlaced(c, s, Moved(c, s, x, Refill).value, 0);
  }

  /** The executor after a step that does not move the job, placed in the state before it. */
  lemma MovedPlacedBefore(c: Config, s: State, exec: nat, action: Action)
    requires Inv(c, s) && Standing(c, s) && WorkEnabled(c, s, exec, action)
    requires action.Open? || action.Refill? || Retasks(action)
    ensures var y := Moved(c, s, s.execs[exec], action);
            y.Some? ==> y.value.Streaming? && StreamPlaced(c, s, y.value)
  {
    hide Inv, PartitionPlaced, FrontsOk, Pinned;
    ExecOf(c, s, exec);
    var x := s.execs[exec];
    if action.Open? {
      OpenedPlaced(c, s, x, action.lookup, action.seek);
    } else if action.Refill? {
      RefilledPlaced(c, s, exec);
    } else if Moved(c, s, x, action).Some? {
      StreamRetasked(c, s, x, Moved(c, s, x, action).value.task);
    }
  }

  lemma WorkStanding(c: Config, s: State, t: State, exec: nat, action: Action)
    requires Inv(c, s) && Standing(c, s) && WorkEnabled(c, s, exec, action) && Worked(c, s, t, exec, action)
    requires !action.Commit? && (action.RecordSource? ==> s.row.replaySource.Some?)
    ensures Standing(c, t) && RowStays(s, t)
    ensures t.row.status == Completed ==> action.Complete? || s.row.status == Completed
  {
    hide Inv, FrontsOk, StreamPlaced, StreamOk, Opened, Pinned, RowNext;
    ExecOf(c, s, exec);
    WorkStays(c, s, t, exec, action);
    FrontsKept(c, s, t);
    assert forall x | x in t.execs :: x == exec;
    if exec in t.execs {
      if action.RecordSource? {
        RecordedPlaced(c, s, t, exec, action);
      } else {
        assert action.Open? || action.Refill? || Retasks(action);
        MovedPlacedBefore(c, s, exec, action);
        PlacedKept(c, s, t, t.execs[exec]);
      }
    }
  }

  lemma RecordedPlaced(c: Config, s: State, t: State, exec: nat, action: Action)
    requires WorkEnabled(c, s, exec, action) && Worked(c, s, t, exec, action) && action.RecordSource?
    requires ExecPlaced(c, s, s.execs[exec])
    requires s.row.replaySource.Some?
    ensures ExecPlaced(c, t, t.execs[exec])
  {
  }

  // ---- Choosing the source -------------------------------------------------

  lemma {:induction false} SumOfZeros(counts: seq<nat>)
    requires forall i | 0 <= i < |counts| :: counts[i] == 0
    ensures Sum(counts) == 0
  {
    if counts != [] {
      SumOfZeros(counts[1..]);
    }
  }

  /** A job without any checkpoint has replayed nothing, from either log. */
  lemma NothingHandled(c: Config, s: State)
    requires s.row.checkpoint == map[] && !s.row.lastProcessedId.RedisId?
    ensures FrontsOk(c, s) && FrontsWithin(s) && Sum(HandledCounts(c, s)) == 0
    ensures forall p | 0 <= p < |Logs(s, SourceOf(s.row))| :: Front(s.row, p) == 0 && Handled(c, s, p) == []
  {
    forall p | 0 <= p < |Logs(s, SourceOf(s.row))| ensures Front(s.row, p) == 0 && Handled(c, s, p) == [] {
    }
    SumOfZeros(HandledCounts(c, s));
  }

  lemma SourceChosenCount(c: Config, s: State, exec: nat, action: Action)
    requires CountInv(c, s) && WorkEnabled(c, s, exec, action)
    requires action.RecordSource? && s.row.replaySource.None?
    ensures CountInv(c, WorkNext(c, s, exec, action))
  {
    hide Inv, HandledCounts;
    var t := WorkNext(c, s, exec, action);
    WorkKeepsInv(c, s, exec, action);
    NothingHandled(c, s);
    NothingHandled(c, t);
    assert forall x | x in t.execs :: x == exec;
  }

  // ---- Committing an event -------------------------------------------------

  /** The row moves past the next event of one partition, which lies in the window. */
  predicate Passed(c: Config, s: State, t: State, source: Source, p: nat, off: nat, duplicate: bool) {
    && s.row.replaySource == Some(source) && p < |Logs(s, source)| && off < |Logs(s, source)[p]|
    && t.row == EventCommitted(s.row, duplicate, source, p, off)
    && t.redis == s.redis && t.kafka == s.kafka
    && NextRef(c, s, p) == Ref(source, p, off)
    && Base(Logs(s, source)[p], c.startMs) <= off
    && forall i | Base(Logs(s, source)[p], c.startMs) <= i <= off :: !Above(Logs(s, source)[p][i], c.endMs)
  }

  lemma FrontAdvanced(row: JobRow, duplicate: bool, source: Source, p: nat, off: nat, q: nat)
    requires row.replaySource == Some(source) && (source.Redis? ==> p == q == 0)
    ensures var next := EventCommitted(row, duplicate, source, p, off);
            && next.replaySource == row.replaySource
            && Front(next, q) == (if q == p then off + 1 else Front(row, q))
            && (Pinned(row) ==> Pinned(next))
  {
  }

  lemma PartitionPassed(
    c: Config, s: State, t: State, source: Source, p: nat, off: nat, duplicate: bool, q: nat)
    requires FrontsOk(c, s) && Passed(c, s, t, source, p, off, duplicate) && q < |Logs(s, source)|
    ensures Front(t.row, q) == if q == p then off + 1 else Front(s.row, q)
    ensures FrontOk(c, Logs(s, source)[q], Front(t.row, q)) && FrontOk(c, Logs(s, source)[q], Front(s.row, q))
    ensures t.row.replaySource == Some(source)
    ensures NextRef(c, t, q) == if q == p then Ref(source, p, off + 1) else NextRef(c, s, q)
    ensures Handled(c, t, q) == if q == p then Handled(c, s, q) + [Logs(s, source)[p][off]] else Handled(c, s, q)
  {
    hide EventCommitted, Pinned, Front;
    FrontAdvanced(s.row, duplicate, source, p, off, q);
    assert FrontOk(c, Logs(s, source)[q], Front(s.row, q));
  }

  lemma FrontsPassed(c: Config, s: State, t: State, source: Source, p: nat, off: nat, duplicate: bool)
    requires FrontsOk(c, s) && Pinned(s.row) && Passed(c, s, t, source, p, off, duplicate)
    ensures FrontsOk(c, t) && Pinned(t.row) && SourceOf(t.row) == source
  {
    hide EventCommitted, Pinned, Front, FrontOk;
    FrontAdvanced(s.row, duplicate, source, p, off, p);
    forall q | 0 <= q < |Logs(t, SourceOf(t.row))|
      ensures FrontOk(c, Logs(t, SourceOf(t.row))[q], Front(t.row, q))
    {
      PartitionPassed(c, s, t, source, p, off, duplicate, q);
    }
  }

  lemma {:induction false} SumBumped(counts: seq<nat>, bumped: seq<nat>, p: nat, more: int)
    requires p < |counts| == |bumped|
    requires forall q | 0 <= q < |counts| :: bumped[q] == counts[q] + if q == p then more else 0
    ensures Sum(bumped) == Sum(counts) + more
  {
    if p > 0 {
      SumBumped(counts[1..], bumped[1..], p - 1, more);
    } else {
      assert bumped[1..] == counts[1..];
    }
  }

  lemma CountPassed(c: Config, s: State, t: State, source: Source, p: nat, off: nat, duplicate: bool)
    requires FrontsOk(c, s) && FrontsWithin(s) && Counted(c, s)
    requires Passed(c, s, t, source, p, off, duplicate) && FrontsOk(c, t)
    ensures FrontsWithin(t) && Counted(c, t)
  {
    FrontsFit(c, t);
    var counts, bumped := HandledCounts(c, s), HandledCounts(c, t);
    forall q | 0 <= q < |counts| ensures bumped[q] == counts[q] + if q == p then 1 else 0 {
      PartitionPassed(c, s, t, source, p, off, duplicate, q);
    }
    SumBumped(counts, bumped, p, 1);
  }

  lemma StreamPassed(c: Config, s: State, t: State, x: Executor, p: nat, duplicate: bool)
    requires FrontsOk(c, s) && x.Streaming? && StreamPlaced(c, s, x) && PartOk(x, p) && p < |x.pos|
    requires Passed(c, s, t, x.source, p, x.pos[p], duplicate)
    ensures StreamPlaced(c, t, x.(pos := x.pos[p := x.pos[p] + 1], lastId := EventIdOf(x.source, p, x.pos[p]),
                                  task := Idle))
  {
    var y := x.(pos := x.pos[p := x.pos[p] + 1], lastId := EventIdOf(x.source, p, x.pos[p]), task := Idle);
    forall q | 0 <= q < |y.pos| ensures PartitionPlaced(c, t, y, q) {
      assert PartitionPlaced(c, s, x, q);
      PartitionPassed(c, s, t, x.source, p, x.pos[p], duplicate, q);
    }
  }

  /** The event at hand is the next one of its partition and lies in the window. */
  lemma CurrentIsNext(c: Config, s: State, exec: nat, p: nat)
    requires Inv(c, s) && Standing(c, s) && exec in s.execs && s.execs[exec].Streaming? && PartOk(s.execs[exec], p)
    requires FromBase(c, s, s.execs[exec], p)
    ensures var x := s.execs[exec];
            && s.row.replaySource == Some(x.source) && p < |Logs(s, x.source)|
            && Current(x, p) == NextRef(c, s, p) && Valid(s, Current(x, p))
            && Base(Logs(s, x.source)[p], c.startMs) <= x.pos[p]
            && forall i | Base(Logs(s, x.source)[p], c.startMs) <= i <= x.pos[p] ::
                 !Above(Logs(s, x.source)[p][i], c.endMs)
  {
    ExecOf(c, s, exec);
    var x := s.execs[exec];
    assert PartitionPlaced(c, s, x, p) && PartitionOk(c, s, x, p);
    assert FrontOk(c, Logs(s, x.source)[p], Front(s.row, p));
  }

  lemma CommitPasses(c: Config, s: State, t: State, exec: nat)
    requires Inv(c, s) && Standing(c, s) && WorkEnabled(c, s, exec, Commit) && Worked(c, s, t, exec, Commit)
    requires FromBase(c, s, s.execs[exec], s.execs[exec].task.part)
    ensures var x := s.execs[exec];
            Passed(c, s, t, x.source, x.task.part, x.pos[x.task.part], x.task.duplicate)
  {
    hide Inv, Standing, EventCommitted, FrontsOk;
    CurrentIsNext(c, s, exec, s.execs[exec].task.part);
  }

  lemma CommitStanding(c: Config, s: State, t: State, exec: nat)
    requires Inv(c, s) && Standing(c, s) && WorkEnabled(c, s, exec, Commit) && Worked(c, s, t, exec, Commit)
    requires FromBase(c, s, s.execs[exec], s.execs[exec].task.part)
    ensures Standing(c, t)
  {
    hide Inv, FrontsOk, EventCommitted, Pinned, Passed, PartitionPlaced;
    ExecOf(c, s, exec);
    var x := s.execs[exec];
    CommitPasses(c, s, t, exec);
    FrontsPassed(c, s, t, x.source, x.task.part, x.pos[x.task.part], x.task.duplicate);
    StreamPassed(c, s, t, x, x.task.part, x.task.duplicate);
    assert forall other | other in t.execs :: other == exec;
  }

  lemma CommitKeepsCount(c: Config, s: State, exec: nat)
    requires CountInv(c, s) && WorkEnabled(c, s, exec, Commit)
    requires FromBase(c, s, s.execs[exec], s.execs[exec].task.part)
    ensures CountInv(c, WorkNext(c, s, exec, Commit))
  {
    hide Inv, Standing, FrontsOk, Counted, Passed, WorkNext;
    var t := WorkNext(c, s, exec, Commit);
    var x := s.execs[exec];
    WorkKeepsInv(c, s, exec, Commit);
    WorkFrame(c, s, exec, Commit);
    CommitPasses(c, s, t, exec);
    CommitStanding(c, s, t, exec);
    StandingFronts(c, s);
    StandingFronts(c, t);
    CountPassed(c, s, t, x.source, x.task.part, x.pos[x.task.part], x.task.duplicate);
  }

  lemma StandingFronts(c: Config, s: State)
    requires Standing(c, s)
    ensures FrontsOk(c, s) && Pinned(s.row)
  {
  }

  lemma WorkKeepsCount(c: Config, s: State, exec: nat, action: Action)
    requires CountInv(c, s) && WorkEnabled(c, s, exec, action) && Single(c, s, Work(exec, action))
    ensures CountInv(c, WorkNext(c, s, exec, action))
  {
    if action.RecordSource? && s.row.replaySource.None? {
      SourceChosenCount(c, s, exec, action);
    } else if action.Commit? {
      CommitKeepsCount(c, s, exec);
    } else {
      hide Inv, Standing, FrontsOk, Counted, WorkNext;
      var t := WorkNext(c, s, exec, action);
      WorkKeepsInv(c, s, exec, action);
      WorkFrame(c, s, exec, action);
      WorkStanding(c, s, t, exec, action);
      StandingFronts(c, s);
      StandingFronts(c, t);
      CountKept(c, s, t);
    }
  }

  // ---- Whole runs ----------------------------------------------------------

  lemma StepKeepsCount(c: Config, s: State, step: Step)
    requires CountInv(c, s) && Enabled(c, s, step) && Single(c, s, step)
    ensures CountInv(c, Next(c, s, step))
  {
    hide CountInv;
    match step
    case World(event) => WorldKeepsCount(c, s, event);
    case Work(exec, action) => WorkKeepsCount(c, s, exec, action);
    case Rpc(req, handling) => RpcKeepsCount(c, s, req, handling);
  }

  lemma InitialCount(c: Config, s: State)
    requires Initial(s)
    ensures CountInv(c, s)
  {
    InitialInv(c, s);
    NothingHandled(c, s);
  }

  lemma {:induction false} RunKeepsCount(c: Config, s: State, steps: seq<Step>)
    requires CountInv(c, s) && IsSingleRun(c, s, steps)
    ensures IsRun(c, s, steps) && CountInv(c, Final(c, s, steps))
    decreases |steps|
  {
    if steps != [] {
      hide CountInv;
      StepKeepsCount(c, s, steps[0]);
      RunKeepsCount(c, Next(c, s, steps[0]), steps[1..]);
    }
  }

  /** Conservation: with one executor at a time, if every partition's first commit is at the base of its
      window, the two success counters add up to the events at or below the stored checkpoint, however
      streams were opened and whatever was retried, repeated, lost or is still running. */
  lemma Conservation(c: Config, s: State, steps: seq<Step>)
    requires Initial(s) && IsSingleRun(c, s, steps)
    ensures IsRun(c, s, steps) && FrontsWithin(Final(c, s, steps)) && Counted(c, Final(c, s, steps))
  {
    hide Inv, Final, IsSingleRun, Counted;
    InitialCount(c, s);
    RunKeepsCount(c, s, steps);
  }

  // ---- ... and only then ---------------------------------------------------

  lemma InvWithin(c: Config, s: State)
    requires Inv(c, s)
    ensures FrontsWithin(s)
  {
  }

  /** What a first commit at another offset than the base does to the number of handled events. */
  lemma HandledElsewhere(
    c: Config, s: State, t: State, source: Source, p: nat, off: nat, duplicate: bool, q: nat)
    requires s.row.replaySource == Some(source) && t.row == EventCommitted(s.row, duplicate, source, p, off)
    requires t.redis == s.redis && t.kafka == s.kafka && FrontsWithin(s) && FrontsWithin(t)
    requires p < |Logs(s, source)| && q < |Logs(s, source)|
    requires Front(s.row, p) == 0 && off != Base(Logs(s, source)[p], c.startMs)
    ensures SourceOf(t.row) == source
    ensures q != p ==> |Handled(c, t, q)| == |Handled(c, s, q)|
    ensures q == p ==> |Handled(c, s, q)| == 0 && |Handled(c, t, q)| != 1
  {
    hide EventCommitted, Front, Pinned;
    FrontAdvanced(s.row, duplicate, source, p, off, q);
  }

  /** A first commit at any other offset than the base unbalances the counters. */
  lemma CommitElsewhere(c: Config, s: State, t: State, exec: nat)
    requires Inv(c, s) && Standing(c, s) && FrontsWithin(s) && Counted(c, s)
    requires WorkEnabled(c, s, exec, Commit) && Worked(c, s, t, exec, Commit)
    requires !FromBase(c, s, s.execs[exec], s.execs[exec].task.part) && FrontsWithin(t)
    ensures !Counted(c, t)
  {
    hide Inv, Standing, Handled, EventCommitted, Front, Sum;
    var x := s.execs[exec];
    var p, off := x.task.part, x.pos[x.task.part];
    PlacedAt(c, s, exec);
    HandledElsewhere(c, s, t, x.source, p, off, x.task.duplicate, p);
    var more := |Handled(c, t, p)|;
    var counts, bumped := HandledCounts(c, s), HandledCounts(c, t);
    forall q | 0 <= q < |counts| ensures bumped[q] == counts[q] + if q == p then more else 0 {
      HandledElsewhere(c, s, t, x.source, p, off, x.task.duplicate, q);
    }
    SumBumped(counts, bumped, p, more);
    OneMoreCounted(s.row, x.task.duplicate, x.source, p, off);
  }

  lemma PlacedAt(c: Config, s: State, exec: nat)
    requires Inv(c, s) && Standing(c, s) && exec in s.execs && s.execs[exec].Streaming?
    ensures var x := s.execs[exec];
            s.row.replaySource == Some(x.source) && SourceOf(s.row) == x.source && |x.pos| == |Logs(s, x.source)|
  {
    ExecOf(c, s, exec);
  }

  lemma OneMoreCounted(row: JobRow, duplicate: bool, source: Source, p: nat, off: nat)
    ensures var next := EventCommitted(row, duplicate, source, p, off);
            next.eventsProcessed + next.eventsSkippedDedup == row.eventsProcessed + row.eventsSkippedDedup + 1
  {
  }

  /** The counters are right in every state of the run. */
  predicate CountedThroughout(c: Config, s: State, steps: seq<Step>)
    requires IsRun(c, s, steps)
    decreases |steps|
  {
    && FrontsWithin(s) && Counted(c, s)
    && (steps == [] || CountedThroughout(c, Next(c, s, steps[0]), steps[1..]))
  }

  lemma LoneNotSingle(c: Config, s: State, step: Step)
    requires CountInv(c, s) && Enabled(c, s, step) && OneAtATime(s, step) && !Single(c, s, step)
    ensures FrontsWithin(Next(c, s, step)) ==> !Counted(c, Next(c, s, step))
  {
    hide Inv, Standing, Counted;
    WorkFrame(c, s, step.exec, step.action);
    if FrontsWithin(Next(c, s, step)) {
      CommitElsewhere(c, s, Next(c, s, step), step.exec);
    }
  }

  lemma {:induction false} RunCountedIff(c: Config, s: State, steps: seq<Step>)
    requires CountInv(c, s) && IsLoneRun(c, s, steps) && IsRun(c, s, steps)
    ensures CountedThroughout(c, s, steps) <==> IsSingleRun(c, s, steps)
    decreases |steps|
  {
    if steps != [] {
      hide Inv, Standing, Counted, Enabled, Next, Single;
      var t := Next(c, s, steps[0]);
      if Single(c, s, steps[0]) {
        StepKeepsCount(c, s, steps[0]);
        RunCountedIff(c, t, steps[1..]);
      } else {
        LoneNotSingle(c, s, steps[0]);
      }
    }
  }

  /** With one executor at a time, the counters are right in every state of a run if and only if the first
      commit in each partition was at the base of its window. */
  lemma ConservationIff(c: Config, s: State, steps: seq<Step>)
    requires Initial(s) && IsLoneRun(c, s, steps) && IsRun(c, s, steps)
    ensures CountedThroughout(c, s, steps) <==> IsSingleRun(c, s, steps)
  {
    InitialCount(c, s);
    RunCountedIff(c, s, steps);
  }

  /** A stream that was opened exactly stands at the base of every partition it hands an event of. */
  lemma ExactOpeningSuffices(
    c: Config, s: State, x: Executor, lookup: seq<nat>, seek: seq<nat>, p: nat)
    requires x.Recorded? && ResumeMap(x.source, x.checkpoint, x.lastId).Some?
    requires Moments(Logs(s, x.source), lookup, seek) && p < |Logs(s, x.source)|
    requires p !in ResumeMap(x.source, x.checkpoint, x.lastId).value
    requires KafkaSource.OpensExactly(Logs(s, x.source)[p], lookup[p], seek[p], c.startMs, c.endMs)
    ensures var y, log := Opened(c, s, x, lookup, seek), Logs(s, x.source)[p];
            if y.pos[p] < y.stop[p] then y.pos[p] == Base(log, c.startMs) else EmptyWindow(c, log, y.seen[p])
  {
    var log, saved := Logs(s, x.source)[p], ResumeMap(x.source, x.checkpoint, x.lastId).value;
    KafkaSource.ExactStart(log, saved, p, lookup[p], seek[p], c.startMs, c.endMs);
  }
}
