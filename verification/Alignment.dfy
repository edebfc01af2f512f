/**
 One executor at a time, and one attempt at a time: what reached the target, the requests
 under way and the executor's task all agree with where the row says the job stands.  Keys
 play no part here.
 */
module Alignment {
  import opened Prelude
  import opened Target
  import opened Jobs
  import opened Windows
  import opened Pipeline
  import opened Soundness
  import opened Counting

  /** One executor at a time, no attempt begins while an earlier one is still under way, and the first
      event sent of a partition without a checkpoint is the first of its window. */
  predicate Orderly(c: Config, s: State, step: Step)
    requires Enabled(c, s, step)
  {
    match step
    case World(Acquire(_)) => s.execs == map[] && s.reqs == map[]
    case Work(exec, Send) => s.reqs == map[] && FromBase(c, s, s.execs[exec], s.execs[exec].task.part)
    case _ => true
  }

  // ---- The invariant -------------------------------------------------------

  /** A next event that already reached the target is one the executor will still come to. */
  predicate Ahead(c: Config, s: State, x: Executor, p: nat)
    requires x.Streaming? && p < |x.stop| && p < |Logs(s, SourceOf(s.row))|
  {
    NextRef(c, s, p) in s.applied ==> NextRef(c, s, p).off < x.stop[p]
  }

  predicate StreamAhead(c: Config, s: State, x: Executor)
    requires x.Streaming?
  {
    |x.stop| == |Logs(s, SourceOf(s.row))| && forall p | 0 <= p < |x.stop| :: Ahead(c, s, x, p)
  }

  predicate TaskAligned(c: Config, s: State, x: Executor)
    requires x.Streaming?
  {
    match x.task
    case Sending(p, _) => PartOk(x, p) && forall r | r in s.reqs :: s.reqs[r].ref == Current(x, p)
    case Waiting(p, _, q) =>
      PartOk(x, p) && FromBase(c, s, x, p) && forall r | r in s.reqs :: r == q && s.reqs[r].ref == Current(x, p)
    case Answered(p, _) => PartOk(x, p) && FromBase(c, s, x, p) && s.reqs == map[]
    case GivingUp(p) => PartOk(x, p) && forall r | r in s.reqs :: s.reqs[r].ref == Current(x, p)
    case _ => s.reqs == map[]
  }

  predicate ExecAligned(c: Config, s: State, x: Executor) {
    match x
    case Fetched(_) => s.reqs == map[]
    case Recorded(_, _, _) => s.reqs == map[]
    case Streaming(_, _, _, _, _, _) => StreamAhead(c, s, x) && TaskAligned(c, s, x)
  }

  /** An in-range event at or before the next one of its partition. */
  predicate Reached(c: Config, s: State, ref: Ref) {
    && s.row.replaySource == Some(ref.source) && Valid(s, ref)
    && var log := Logs(s, ref.source)[ref.part];
    && Base(log, c.startMs) <= ref.off <= NextRef(c, s, ref.part).off
    && !Above(log[ref.off], c.endMs)
  }

  /** No applied event lies beyond the next one of its partition. */
  predicate Placed(c: Config, s: State) {
    FrontsOk(c, s) && forall ref | ref in s.applied :: Reached(c, s, ref)
  }

  predicate RequestsAligned(c: Config, s: State) {
    forall r | r in s.reqs :: Reached(c, s, s.reqs[r].ref) && s.reqs[r].ref == NextRef(c, s, s.reqs[r].ref.part)
  }

  predicate Aligned(c: Config, s: State) {
    && Placed(c, s) && RequestsAligned(c, s)
    && (forall x | x in s.execs :: ExecAligned(c, s, s.execs[x]))
  }

  ghost predicate AlignInv(c: Config, s: State) {
    CountInv(c, s) && Aligned(c, s)
  }

  lemma AlignParts(c: Config, s: State)
    requires AlignInv(c, s)
    ensures CountInv(c, s) && Aligned(c, s) && Inv(c, s) && Standing(c, s) && Placed(c, s)
    ensures FrontsOk(c, s) && FrontsWithin(s) && Pinned(s.row)
  {
  }

  lemma AlignedOf(c: Config, s: State, exec: nat)
    requires Inv(c, s) && Standing(c, s) && Aligned(c, s) && exec in s.execs
    ensures ExecOk(c, s, s.execs[exec]) && ExecPlaced(c, s, s.execs[exec]) && ExecAligned(c, s, s.execs[exec])
  {
  }

  lemma SourceIs(c: Config, s: State, exec: nat)
    requires Inv(c, s) && Standing(c, s) && exec in s.execs && s.execs[exec].Streaming?
    ensures var x := s.execs[exec];
            && s.row.replaySource == Some(x.source) && SourceOf(s.row) == x.source
            && |x.pos| == |x.stop| == |x.seen| == |Logs(s, x.source)|
  {
    ExecOf(c, s, exec);
  }

  // ---- Steps that leave the job where it stands ----------------------------

  /** Same position, same applied events, logs at most longer. */
  predicate Stays(s: State, t: State) {
    RowStays(s, t) && t.applied == s.applied
  }

  lemma PartitionStays(c: Config, s: State, t: State, p: nat)
    requires Placed(c, s) && Stays(s, t) && p < |Logs(s, SourceOf(s.row))|
    ensures var log, longer := Logs(s, SourceOf(s.row))[p], Logs(t, SourceOf(t.row))[p];
            && log <= longer && Front(t.row, p) == Front(s.row, p) <= |log|
            && (Base(log, c.startMs) < |log| ==> Base(longer, c.startMs) == Base(log, c.startMs))
            && Base(log, c.startMs) <= Base(longer, c.startMs)
            && (NextRef(c, t, p) == NextRef(c, s, p) || NextRef(c, t, p).off >= |log| == NextRef(c, s, p).off)
            && Handled(c, t, p) == Handled(c, s, p)
            && (NextRef(c, t, p) in s.applied <==> NextRef(c, s, p) in s.applied)
  {
    PartitionKept(c, s, t, p);
    if NextRef(c, t, p) in s.applied {
      assert Reached(c, s, NextRef(c, t, p));
    }
    if NextRef(c, s, p) in s.applied {
      assert Reached(c, s, NextRef(c, s, p));
    }
  }

  lemma ReachedStays(c: Config, s: State, t: State, ref: Ref)
    requires Placed(c, s) && Stays(s, t) && Reached(c, s, ref)
    ensures Reached(c, t, ref) && (ref == NextRef(c, s, ref.part) ==> ref == NextRef(c, t, ref.part))
  {
    PartitionStays(c, s, t, ref.part);
  }

  lemma AppliedStay(c: Config, s: State, t: State)
    requires Placed(c, s) && Stays(s, t) && FrontsOk(c, t)
    ensures Placed(c, t)
  {
    forall ref | ref in t.applied ensures Reached(c, t, ref) {
      ReachedStays(c, s, t, ref);
    }
  }

  lemma RequestsStay(c: Config, s: State, t: State)
    requires Placed(c, s) && Stays(s, t) && RequestsAligned(c, s)
    requires forall r | r in t.reqs :: r in s.reqs && t.reqs[r].ref == s.reqs[r].ref
    ensures RequestsAligned(c, t)
  {
    forall r | r in t.reqs ensures Reached(c, t, t.reqs[r].ref) && t.reqs[r].ref == NextRef(c, t, t.reqs[r].ref.part) {
      ReachedStays(c, s, t, s.reqs[r].ref);
    }
  }

  lemma StreamStays(c: Config, s: State, t: State, x: Executor)
    requires Placed(c, s) && Stays(s, t) && x.Streaming? && StreamAhead(c, s, x)
    ensures StreamAhead(c, t, x)
  {
    forall p | 0 <= p < |x.stop| ensures Ahead(c, t, x, p) {
      assert Ahead(c, s, x, p);
      PartitionStays(c, s, t, p);
      if NextRef(c, t, p) in t.applied {
        assert Reached(c, s, NextRef(c, t, p));
      }
    }
  }

  /** An executor at the base of a window that has a record stays at the base. */
  lemma FromBaseStays(c: Config, s: State, t: State, x: Executor, p: nat)
    requires Placed(c, s) && Stays(s, t) && FromBase(c, s, x, p) && s.row.replaySource == Some(x.source)
    requires x.pos[p] < |Logs(s, x.source)[p]|
    ensures FromBase(c, t, x, p)
  {
    PartitionStays(c, s, t, p);
  }

  /** A task whose event stays at hand survives a step that leaves the requests alone. */
  lemma TaskStays(c: Config, s: State, t: State, x: Executor)
    requires Placed(c, s) && Stays(s, t) && x.Streaming? && StreamOk(c, s, x) && TaskAligned(c, s, x)
    requires s.row.replaySource == Some(x.source)
    requires forall r | r in t.reqs :: r in s.reqs && t.reqs[r].ref == s.reqs[r].ref
    ensures TaskAligned(c, t, x)
  {
    if x.task.Waiting? || x.task.Answered? {
      assert PartitionOk(c, s, x, x.task.part);
      FromBaseStays(c, s, t, x, x.task.part);
    }
  }

  lemma ExecStays(c: Config, s: State, t: State, x: Executor)
    requires Placed(c, s) && Stays(s, t) && ExecOk(c, s, x) && ExecPlaced(c, s, x) && ExecAligned(c, s, x)
    requires forall r | r in t.reqs :: r in s.reqs && t.reqs[r].ref == s.reqs[r].ref
    ensures ExecAligned(c, t, x)
  {
    hide StreamAhead, TaskAligned, StreamOk, TaskOk, Placed, Stays;
    if x.Streaming? {
      StreamStays(c, s, t, x);
      TaskStays(c, s, t, x);
    }
  }

  // ---- World steps and quiet requests ---------------------------------------

  lemma AroundAligned(c: Config, s: State, t: State)
    requires Inv(c, s) && Standing(c, s) && Aligned(c, s) && Stays(s, t) && FrontsOk(c, t)
    requires forall r | r in t.reqs :: r in s.reqs && t.reqs[r].ref == s.reqs[r].ref
    requires || t.execs == s.execs
             || (s.execs == map[] && s.reqs == map[]
                 && t.execs == map[s.nextExec := Fetched(s.row.replaySource)])
    ensures Aligned(c, t)
  {
    AppliedStay(c, s, t);
    RequestsStay(c, s, t);
    hide Inv, Standing, Placed, Stays, RequestsAligned, ExecAligned;
    forall x | x in s.execs ensures ExecAligned(c, t, s.execs[x]) {
      AlignedOf(c, s, x);
      ExecStays(c, s, t, s.execs[x]);
    }
    if t.execs != s.execs {
      NoRequests(c, s, t);
    }
  }

  lemma NoRequests(c: Config, s: State, t: State)
    requires s.reqs == map[] && t.execs == map[s.nextExec := Fetched(s.row.replaySource)]
    requires forall r | r in t.reqs :: r in s.reqs
    ensures forall x | x in t.execs :: ExecAligned(c, t, t.execs[x])
  {
  }

  lemma WorldKeepsAlign(c: Config, s: State, event: WorldStep)
    requires AlignInv(c, s) && Enabled(c, s, World(event)) && Orderly(c, s, World(event))
    ensures AlignInv(c, WorldNext(c, s, event)) && Stays(s, WorldNext(c, s, event))
  {
    hide CountInv, Aligned, Placed, FrontsOk, RowStays, Inv, Standing, WorldNext;
    var t := WorldNext(c, s, event);
    AlignParts(c, s);
    WorldKeepsCount(c, s, event);
    CountParts(c, t);
    WorldStays(c, s, event);
    WorldFrame(c, s, event);
    WorldAcquires(c, s, event);
    OnlyAcquireAdds(c, s, event);
    AroundAligned(c, s, t);
  }

  lemma OnlyAcquireAdds(c: Config, s: State, event: WorldStep)
    requires WorldEnabled(s, event)
    ensures event.Acquire? || WorldNext(c, s, event).execs == s.execs
    ensures WorldNext(c, s, event).row.status == Completed ==> WorldNext(c, s, event).execs == s.execs
  {
    hide ApiResult;
  }

  lemma CountParts(c: Config, s: State)
    requires CountInv(c, s)
    ensures Inv(c, s) && Standing(c, s) && FrontsOk(c, s) && FrontsWithin(s) && Pinned(s.row)
  {
  }

  lemma RpcStays(c: Config, s: State, req: nat, handling: Handling)
    requires RpcEnabled(c, s, req, handling) && !(handling.Write? && handling.outcome != Refused)
    ensures var t := RpcNext(c, s, req, handling);
            Stays(s, t) && t.row == s.row && t.target == s.target && t.finish == s.finish
  {
  }

  lemma RpcKeepsAlign(c: Config, s: State, req: nat, handling: Handling)
    requires AlignInv(c, s) && RpcEnabled(c, s, req, handling)
    requires !(handling.Write? && handling.outcome != Refused)
    ensures AlignInv(c, RpcNext(c, s, req, handling)) && Stays(s, RpcNext(c, s, req, handling))
  {
    hide CountInv, Aligned, Placed, FrontsOk, RowStays, Inv, Standing, RpcNext, RpcEnabled;
    var t := RpcNext(c, s, req, handling);
    AlignParts(c, s);
    RpcKeepsCount(c, s, req, handling);
    CountParts(c, t);
    RpcFrame(c, s, req, handling);
    RpcStays(c, s, req, handling);
    AroundAligned(c, s, t);
  }

  // ---- Steps of the executor -----------------------------------------------

  /** The executor that opens a stream will still come to an event that already reached the target. */
  lemma OpenedAhead(c: Config, s: State, y: Executor)
    requires Placed(c, s) && y.Streaming? && StreamPlaced(c, s, y)
    requires forall p | 0 <= p < |y.stop| ::
               y.stop[p] == Stop(Logs(s, y.source)[p], y.pos[p], |Logs(s, y.source)[p]|, c.endMs)
    ensures StreamAhead(c, s, y)
  {
    forall p | 0 <= p < |y.stop| ensures Ahead(c, s, y, p) {
      assert PartitionPlaced(c, s, y, p);
      if NextRef(c, s, p) in s.applied {
        assert Reached(c, s, NextRef(c, s, p));
        var log := Logs(s, y.source)[p];
        assert FrontOk(c, log, Front(s.row, p));
        StopsBeyond(c, log, y.pos[p], NextRef(c, s, p).off);
      }
    }
  }

  /** From any offset up to it, a stream comes to a record of the window. */
  lemma StopsBeyond(c: Config, log: Log, pos: nat, off: nat)
    requires Base(log, c.startMs) <= off < |log| && !Above(log[off], c.endMs)
    requires pos == off || off == Base(log, c.startMs)
    ensures off < Stop(log, pos, |log|, c.endMs)
  {
  }

  lemma RetaskedAhead(c: Config, t: State, x: Executor, task: Task)
    requires x.Streaming? && StreamAhead(c, t, x)
    ensures StreamAhead(c, t, x.(task := task))
  {
    forall p | 0 <= p < |x.stop| ensures Ahead(c, t, x.(task := task), p) {
      assert Ahead(c, t, x, p);
    }
  }

  lemma StopsAt(c: Config, s: State, exec: nat, action: Action)
    requires Inv(c, s) && Standing(c, s) && WorkEnabled(c, s, exec, action) && (action.Open? || action.Refill?)
    ensures var y := Moved(c, s, s.execs[exec], action).value;
            && y.Streaming? && y.task.Idle? && |y.stop| == |Logs(s, y.source)| && |y.pos| == |y.stop|
            && forall p | 0 <= p < |y.stop| ::
                 y.stop[p] == Stop(Logs(s, y.source)[p], y.pos[p], |Logs(s, y.source)[p]|, c.endMs)
  {
    hide Inv, Standing;
  }

  lemma OpenAligned(c: Config, s: State, t: State, exec: nat, action: Action)
    requires Inv(c, s) && Standing(c, s) && Aligned(c, s)
    requires WorkEnabled(c, s, exec, action) && Worked(c, s, t, exec, action)
    requires action.Open? || action.Refill?
    requires Stays(s, t)
    ensures exec in t.execs && ExecAligned(c, t, t.execs[exec])
  {
    hide Inv, Standing, Reached, FrontsOk, StreamAhead, StreamOk, StreamPlaced, Opened, RowStays;
    var y := t.execs[exec];
    AlignedOf(c, s, exec);
    MovedPlacedBefore(c, s, exec, action);
    StopsAt(c, s, exec, action);
    OpenedAhead(c, s, y);
    StreamStays(c, s, t, y);
  }

  /** The executor's new task, for the steps that only change that. */
  lemma NewTaskAligned(c: Config, s: State, t: State, exec: nat, action: Action)
    requires Inv(c, s) && Standing(c, s) && Aligned(c, s)
    requires WorkEnabled(c, s, exec, action) && Worked(c, s, t, exec, action)
    requires Stays(s, t) && exec in t.execs && Retasks(action)
    requires action.Send? ==> s.reqs == map[] && FromBase(c, s, s.execs[exec], s.execs[exec].task.part)
    ensures TaskAligned(c, t, t.execs[exec])
  {
    hide Inv, Standing, Reached, FrontsOk, StreamAhead, RowStays, Grows, RowNext, RequestsAligned, FromBase, Stays;
    hide StreamOk, Placed;
    var x, y := s.execs[exec], t.execs[exec];
    AlignedOf(c, s, exec);
    SourceIs(c, s, exec);
    AlignedPlaced(c, s);
    if action.Send? || action.Receive? {
      AtHand(c, s, x, x.task.part);
      FromBaseStays(c, s, t, x, x.task.part);
      SamePlace(c, t, x, y.task, x.task.part);
    }
  }

  lemma AlignedPlaced(c: Config, s: State)
    requires Aligned(c, s)
    ensures Placed(c, s) && FrontsOk(c, s)
  {
  }

  lemma AtHand(c: Config, s: State, x: Executor, p: nat)
    requires x.Streaming? && StreamOk(c, s, x) && PartOk(x, p)
    ensures p < |Logs(s, x.source)| && x.pos[p] < |Logs(s, x.source)[p]|
  {
    assert PartitionOk(c, s, x, p);
  }

  lemma SamePlace(c: Config, t: State, x: Executor, task: Task, p: nat)
    requires FromBase(c, t, x, p)
    ensures FromBase(c, t, x.(task := task), p)
  {
  }

  lemma RetaskAligned(c: Config, s: State, t: State, exec: nat, action: Action)
    requires Inv(c, s) && Standing(c, s) && Aligned(c, s)
    requires WorkEnabled(c, s, exec, action) && Worked(c, s, t, exec, action)
    requires Stays(s, t) && exec in t.execs && Retasks(action)
    requires action.Send? ==> s.reqs == map[] && FromBase(c, s, s.execs[exec], s.execs[exec].task.part)
    ensures ExecAligned(c, t, t.execs[exec])
  {
    hide Inv, Standing, Reached, FrontsOk, StreamAhead, RowStays, Grows, RowNext, RequestsAligned, FromBase;
    hide TaskAligned;
    var x, y := s.execs[exec], t.execs[exec];
    assert ExecAligned(c, s, x);
    StreamStays(c, s, t, x);
    RetaskedAhead(c, t, x, y.task);
    NewTaskAligned(c, s, t, exec, action);
  }

  /** The executor after a step that does not move the job is aligned with the state after it. */
  lemma MovedAligned(c: Config, s: State, t: State, exec: nat, action: Action)
    requires Inv(c, s) && Standing(c, s) && Aligned(c, s)
    requires WorkEnabled(c, s, exec, action) && Worked(c, s, t, exec, action)
    requires Stays(s, t) && exec in t.execs && !action.Commit?
    requires action.Send? ==> s.reqs == map[] && FromBase(c, s, s.execs[exec], s.execs[exec].task.part)
    ensures ExecAligned(c, t, t.execs[exec])
  {
    hide Inv, Standing, RowStays, Opened, FromBase, StreamAhead, TaskAligned;
    if action.Open? || action.Refill? {
      OpenAligned(c, s, t, exec, action);
    } else if Retasks(action) {
      RetaskAligned(c, s, t, exec, action);
    } else {
      assert ExecAligned(c, s, s.execs[exec]);
    }
  }

  /** The event at hand is in range and is the next one of its partition. */
  lemma CurrentReached(c: Config, s: State, exec: nat, p: nat)
    requires Inv(c, s) && Standing(c, s) && exec in s.execs && s.execs[exec].Streaming? && PartOk(s.execs[exec], p)
    requires FromBase(c, s, s.execs[exec], p)
    ensures p < |Logs(s, SourceOf(s.row))| && Current(s.execs[exec], p) == NextRef(c, s, p)
    ensures Reached(c, s, Current(s.execs[exec], p))
  {
    hide Inv, Standing;
    CurrentIsNext(c, s, exec, p);
  }

  lemma WorkRequests(c: Config, s: State, t: State, exec: nat, action: Action)
    requires Inv(c, s) && Standing(c, s) && Aligned(c, s)
    requires WorkEnabled(c, s, exec, action) && Worked(c, s, t, exec, action)
    requires Stays(s, t)
    requires action.Send? ==> FromBase(c, s, s.execs[exec], s.execs[exec].task.part)
    ensures RequestsAligned(c, t)
  {
    hide Inv, Standing, RowStays, Opened, FromBase;
    if action.Send? {
      CurrentReached(c, s, exec, s.execs[exec].task.part);
    }
    forall r | r in t.reqs ensures Reached(c, t, t.reqs[r].ref) && t.reqs[r].ref == NextRef(c, t, t.reqs[r].ref.part) {
      ReachedStays(c, s, t, t.reqs[r].ref);
    }
  }

  /** Every step of the executor that does not move the job keeps the executor, the row and the requests aligned. */
  lemma WorkAligned(c: Config, s: State, t: State, exec: nat, action: Action)
    requires Inv(c, s) && Standing(c, s) && Aligned(c, s)
    requires WorkEnabled(c, s, exec, action) && Worked(c, s, t, exec, action)
    requires !action.Commit? && FrontsOk(c, t) && Stays(s, t)
    requires action.Send? ==> s.reqs == map[] && FromBase(c, s, s.execs[exec], s.execs[exec].task.part)
    ensures Aligned(c, t)
  {
    hide Inv, FrontsOk, ExecAligned, Opened, RowStays, ExecPlaced, FromBase;
    AlignedPlaced(c, s);
    AppliedStay(c, s, t);
    WorkRequests(c, s, t, exec, action);
    assert forall x | x in t.execs :: x == exec;
    if exec in t.execs {
      MovedAligned(c, s, t, exec, action);
    }
  }

  // ---- Choosing the source -------------------------------------------------

  lemma NothingApplied(c: Config, s: State)
    requires s.row.checkpoint == map[] && !s.row.lastProcessedId.RedisId? && s.applied == {}
    ensures Placed(c, s)
  {
    NothingHandled(c, s);
  }

  lemma SourceChosenAligned(c: Config, s: State, exec: nat, action: Action)
    requires AlignInv(c, s) && WorkEnabled(c, s, exec, action)
    requires action.RecordSource? && s.row.replaySource.None?
    ensures AlignInv(c, WorkNext(c, s, exec, action))
    ensures s.applied == {} && s.reqs == map[]
  {
    hide Inv, Counted;
    var t := WorkNext(c, s, exec, action);
    SourceChosenCount(c, s, exec, action);
    assert s.applied == {};
    assert ExecAligned(c, s, s.execs[exec]);
    assert s.reqs == map[] && t.reqs == map[];
    assert forall x | x in t.execs :: x == exec;
    NothingApplied(c, t);
  }

  // ---- Committing an event -------------------------------------------------

  lemma PlacedPassed(c: Config, s: State, t: State, source: Source, p: nat, off: nat, duplicate: bool)
    requires Placed(c, s) && Passed(c, s, t, source, p, off, duplicate) && t.applied == s.applied && FrontsOk(c, t)
    ensures Placed(c, t) && NextRef(c, t, p) !in t.applied
  {
    hide EventCommitted, Front;
    forall ref | ref in t.applied ensures Reached(c, t, ref) {
      assert Reached(c, s, ref);
      PartitionPassed(c, s, t, source, p, off, duplicate, ref.part);
    }
    PartitionPassed(c, s, t, source, p, off, duplicate, p);
    assert !Reached(c, s, NextRef(c, t, p));
  }

  lemma AheadPassed(c: Config, s: State, t: State, x: Executor, y: Executor, p: nat, off: nat, duplicate: bool)
    requires FrontsOk(c, s) && x.Streaming? && y.Streaming? && y.stop == x.stop && StreamAhead(c, s, x)
    requires Passed(c, s, t, x.source, p, off, duplicate) && t.applied == s.applied
    requires NextRef(c, t, p) !in t.applied
    ensures StreamAhead(c, t, y)
  {
    hide EventCommitted, Front;
    PartitionPassed(c, s, t, x.source, p, off, duplicate, p);
    forall q | 0 <= q < |y.stop| ensures Ahead(c, t, y, q) {
      assert Ahead(c, s, x, q);
      PartitionPassed(c, s, t, x.source, p, off, duplicate, q);
    }
  }

  lemma AnsweredFromBase(c: Config, s: State, exec: nat)
    requires Aligned(c, s) && WorkEnabled(c, s, exec, Commit)
    ensures FromBase(c, s, s.execs[exec], s.execs[exec].task.part) && s.reqs == map[]
  {
    assert ExecAligned(c, s, s.execs[exec]);
  }

  lemma CommitAligned(c: Config, s: State, t: State, exec: nat)
    requires Inv(c, s) && Standing(c, s) && Aligned(c, s) && FrontsOk(c, t)
    requires WorkEnabled(c, s, exec, Commit) && Worked(c, s, t, exec, Commit)
    ensures Aligned(c, t)
  {
    hide Inv, Placed, EventCommitted, Pinned, Reached, FrontsOk, Passed, StreamAhead, ExecPlaced, FromBase;
    var x := s.execs[exec];
    assert ExecAligned(c, s, x);
    AnsweredFromBase(c, s, exec);
    CommitPasses(c, s, t, exec);
    AlignedPlaced(c, s);
    PlacedPassed(c, s, t, x.source, x.task.part, x.pos[x.task.part], x.task.duplicate);
    assert forall other | other in t.execs :: other == exec;
    PassedAt(c, s, t, x.source, x.task.part, x.pos[x.task.part], x.task.duplicate);
    AheadPassed(c, s, t, x, t.execs[exec], x.task.part, x.pos[x.task.part], x.task.duplicate);
  }

  lemma PassedAt(c: Config, s: State, t: State, source: Source, p: nat, off: nat, duplicate: bool)
    requires Passed(c, s, t, source, p, off, duplicate)
    ensures p < |Logs(t, SourceOf(t.row))| && SourceOf(t.row) == source
  {
  }

  lemma CommitKeepsAlign(c: Config, s: State, exec: nat)
    requires AlignInv(c, s) && WorkEnabled(c, s, exec, Commit)
    ensures AlignInv(c, WorkNext(c, s, exec, Commit))
  {
    hide CountInv, Aligned, Placed, FrontsOk, WorkNext, Inv, Standing;
    var t := WorkNext(c, s, exec, Commit);
    AlignParts(c, s);
    AnsweredFromBase(c, s, exec);
    CommitKeepsCount(c, s, exec);
    WorkFrame(c, s, exec, Commit);
    CountParts(c, t);
    CommitAligned(c, s, t, exec);
  }

  lemma WorkKeepsAlign(c: Config, s: State, exec: nat, action: Action)
    requires AlignInv(c, s) && Enabled(c, s, Work(exec, action)) && Orderly(c, s, Work(exec, action))
    requires !action.Commit? && (action.RecordSource? ==> s.row.replaySource.Some?)
    ensures AlignInv(c, WorkNext(c, s, exec, action)) && Stays(s, WorkNext(c, s, exec, action))
    ensures WorkNext(c, s, exec, action).row.status == Completed ==> action.Complete? || s.row.status == Completed
  {
    hide CountInv, Aligned, Placed, FrontsOk, RowStays, WorkNext, Standing, Inv, FromBase;
    var t := WorkNext(c, s, exec, action);
    AlignParts(c, s);
    WorkKeepsCount(c, s, exec, action);
    WorkFrame(c, s, exec, action);
    CountParts(c, t);
    WorkStanding(c, s, t, exec, action);
    WorkAligned(c, s, t, exec, action);
  }

  // ---- Writing to the target -----------------------------------------------

  /** One event was written to the target; everything else the invariant looks at is unchanged. */
  predicate Wrote(c: Config, s: State, t: State, ref: Ref) {
    && t.row == s.row && t.execs == s.execs && t.redis == s.redis && t.kafka == s.kafka
    && ref.part < |Logs(s, SourceOf(s.row))| && ref == NextRef(c, s, ref.part) && Reached(c, s, ref)
    && t.applied == s.applied + {ref}
  }

  lemma StreamWritten(c: Config, s: State, t: State, x: Executor, ref: Ref)
    requires Wrote(c, s, t, ref) && x.Streaming? && StreamAhead(c, s, x)
    requires PartOk(x, ref.part) && ref == Current(x, ref.part)
    ensures StreamAhead(c, t, x)
  {
    forall p | 0 <= p < |x.stop| ensures Ahead(c, t, x, p) {
      assert Ahead(c, s, x, p);
    }
  }

  lemma PlacedWritten(c: Config, s: State, t: State, ref: Ref)
    requires Placed(c, s) && Wrote(c, s, t, ref)
    ensures Placed(c, t)
  {
    forall other | other in t.applied ensures Reached(c, t, other) {
      assert Reached(c, s, other);
    }
  }

  /** An executor with a request under way is working on that request's event. */
  lemma RequestIsCurrent(c: Config, s: State, req: nat, x: nat)
    requires Aligned(c, s) && req in s.reqs && x in s.execs
    ensures s.execs[x].Streaming? && PartOk(s.execs[x], s.reqs[req].ref.part)
    ensures s.reqs[req].ref == Current(s.execs[x], s.reqs[req].ref.part)
  {
    assert ExecAligned(c, s, s.execs[x]);
  }

  lemma AlignedWritten(c: Config, s: State, t: State, req: nat)
    requires Aligned(c, s) && req in s.reqs && Wrote(c, s, t, s.reqs[req].ref)
    requires t.reqs.Keys == s.reqs.Keys && forall r | r in t.reqs :: t.reqs[r].ref == s.reqs[r].ref
    ensures Aligned(c, t)
  {
    hide Reached, Placed, Wrote, ExecAligned, RequestsAligned;
    PlacedWritten(c, s, t, s.reqs[req].ref);
    RequestsWritten(c, s, t, s.reqs[req].ref);
    SameExecs(c, s, t, s.reqs[req].ref);
    forall x | x in t.execs ensures ExecAligned(c, t, t.execs[x]) {
      ExecWritten(c, s, t, req, x);
    }
  }

  lemma SameExecs(c: Config, s: State, t: State, ref: Ref)
    requires Wrote(c, s, t, ref)
    ensures t.execs == s.execs
  {
  }

  lemma RequestsWritten(c: Config, s: State, t: State, ref: Ref)
    requires RequestsAligned(c, s) && Wrote(c, s, t, ref)
    requires t.reqs.Keys == s.reqs.Keys && forall r | r in t.reqs :: t.reqs[r].ref == s.reqs[r].ref
    ensures RequestsAligned(c, t)
  {
    forall r | r in t.reqs ensures Reached(c, t, t.reqs[r].ref) && t.reqs[r].ref == NextRef(c, t, t.reqs[r].ref.part) {
      assert Reached(c, s, s.reqs[r].ref);
    }
  }

  lemma ExecWritten(c: Config, s: State, t: State, req: nat, x: nat)
    requires Aligned(c, s) && req in s.reqs && x in s.execs && Wrote(c, s, t, s.reqs[req].ref)
    requires t.reqs.Keys == s.reqs.Keys && forall r | r in t.reqs :: t.reqs[r].ref == s.reqs[r].ref
    ensures ExecAligned(c, t, t.execs[x])
  {
    hide Reached, StreamAhead, Placed, RequestsAligned;
    assert ExecAligned(c, s, s.execs[x]);
    RequestIsCurrent(c, s, req, x);
    StreamWritten(c, s, t, s.execs[x], s.reqs[req].ref);
  }

  lemma RequestNext(c: Config, s: State, req: nat)
    requires Aligned(c, s) && req in s.reqs
    ensures var ref := s.reqs[req].ref;
            && s.row.replaySource == Some(ref.source) && Valid(s, ref)
            && Reached(c, s, ref) && ref == NextRef(c, s, ref.part)
  {
    assert Reached(c, s, s.reqs[req].ref);
  }

  lemma WriteFrame(c: Config, s: State, req: nat, outcome: Outcome)
    requires RpcEnabled(c, s, req, Write(outcome)) && outcome != Refused
    requires Reached(c, s, s.reqs[req].ref) && s.reqs[req].ref == NextRef(c, s, s.reqs[req].ref.part)
    ensures var t, ref := RpcNext(c, s, req, Write(outcome)), s.reqs[req].ref;
            && Wrote(c, s, t, ref) && t.target == Apply(c.schema, s.target, RecordAt(s, ref))
            && t.reqs.Keys == s.reqs.Keys && (forall r | r in t.reqs :: t.reqs[r].ref == s.reqs[r].ref)
            && t.finish == s.finish && t.marks == s.marks && t.now == s.now && s.reqs[req].phase.Fresh?
            && (t.reqs[req].phase.Written? || t.reqs[req].phase == Replied(false, false))
  {
    hide Succeeds, Effect, Apply, Base, Above;
  }

  lemma WriteKeepsAlign(c: Config, s: State, req: nat, outcome: Outcome)
    requires AlignInv(c, s) && RpcEnabled(c, s, req, Write(outcome)) && outcome != Refused
    ensures AlignInv(c, RpcNext(c, s, req, Write(outcome)))
    ensures Wrote(c, s, RpcNext(c, s, req, Write(outcome)), s.reqs[req].ref)
  {
    hide CountInv, Aligned, Placed, FrontsOk, Wrote, Reached, RpcNext, Apply, Succeeds, Inv, Standing, Pinned;
    AlignParts(c, s);
    RpcKeepsCount(c, s, req, Write(outcome));
    RequestNext(c, s, req);
    WriteFrame(c, s, req, outcome);
    AlignedWritten(c, s, RpcNext(c, s, req, Write(outcome)), req);
  }

  lemma InitialAlign(c: Config, s: State)
    requires Initial(s)
    ensures AlignInv(c, s)
  {
    InitialCount(c, s);
    NothingApplied(c, s);
  }
}
