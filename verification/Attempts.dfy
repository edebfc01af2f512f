/**
 The attempts an executor makes at one event, and what comes of them: on every run, with
 any number of executors, the first attempt that succeeds is the one committed, an event is
 given up exactly when all its attempts failed, the two success counters are the replies so
 committed, and a job that is paused or cancelled is sent no further event.
 */
module Attempts {
  import opened Prelude
  import opened Jobs
  import opened Windows
  import opened Pipeline
  import opened Soundness
  import opened Counting
  import opened Worker

  /** What came of the attempts at the event each executor is working on, oldest first; an answer that was
      lost is one of failure. */
  type Trails = map<nat, seq<Answer>>

  function TrailOf(trails: Trails, exec: nat): seq<Answer> {
    if exec in trails then trails[exec] else []
  }

  function TrailsNext(c: Config, s: State, step: Step, trails: Trails): Trails
    requires Enabled(c, s, step)
  {
    match step
    case Work(exec, Deliver(_)) => trails[exec := []]
    case Work(exec, Receive) =>
      var reply := s.reqs[s.execs[exec].task.req].phase;
      trails[exec := TrailOf(trails, exec) + [Answer(reply.success, reply.duplicate)]]
    case Work(exec, Lose) => trails[exec := TrailOf(trails, exec) + [Answer(false, false)]]
    case _ => trails
  }

  predicate AllFailed(trail: seq<Answer>) {
    forall i | 0 <= i < |trail| :: !trail[i].Ok()
  }

  /** All attempts but the last failed, and the last succeeded. */
  predicate LastSucceeded(trail: seq<Answer>) {
    trail != [] && trail[|trail| - 1].Ok() && AllFailed(trail[..|trail| - 1])
  }

  /** The executor's task is where its attempts have led. */
  predicate TaskFits(c: Config, x: Executor, trail: seq<Answer>) {
    x.Streaming? ==>
      match x.task
      case Sending(_, attempt) => |trail| == attempt <= c.maxAttempts && AllFailed(trail)
      case Waiting(_, attempt, _) => |trail| == attempt < c.maxAttempts && AllFailed(trail)
      case Answered(_, duplicate) =>
        |trail| <= c.maxAttempts && LastSucceeded(trail) && trail[|trail| - 1].duplicate == duplicate
      case GivingUp(_) => |trail| == c.maxAttempts && AllFailed(trail)
      case _ => true
  }

  predicate TrailsFit(c: Config, s: State, trails: Trails) {
    forall exec | exec in s.execs :: TaskFits(c, s.execs[exec], TrailOf(trails, exec))
  }

  lemma TrailSnoc(trail: seq<Answer>, answer: Answer)
    ensures (trail + [answer])[..|trail|] == trail
    ensures AllFailed(trail) && !answer.Ok() ==> AllFailed(trail + [answer])
    ensures AllFailed(trail) && answer.Ok() ==> LastSucceeded(trail + [answer])
  {
  }

  lemma MovedFits(c: Config, s: State, exec: nat, action: Action, trails: Trails)
    requires WorkEnabled(c, s, exec, action) && TaskFits(c, s.execs[exec], TrailOf(trails, exec))
    ensures var y := Moved(c, s, s.execs[exec], action);
            y.Some? ==> TaskFits(c, y.value, TrailOf(TrailsNext(c, s, Work(exec, action), trails), exec))
  {
    hide PartOk, Moments, ResumeMap, Seeks, Stops;
    var trail := TrailOf(trails, exec);
    TrailSnoc(trail, Answer(false, false));
    if action.Receive? {
      var reply := s.reqs[s.execs[exec].task.req].phase;
      TrailSnoc(trail, Answer(reply.success, reply.duplicate));
    }
  }

  lemma WorkFits(c: Config, s: State, exec: nat, action: Action, trails: Trails)
    requires WorkEnabled(c, s, exec, action) && TrailsFit(c, s, trails)
    ensures TrailsFit(c, WorkNext(c, s, exec, action), TrailsNext(c, s, Work(exec, action), trails))
  {
    hide WorkNext, Moved, RowNext, TaskFits, ActionEnabled, Grows;
    WorkFrame(c, s, exec, action);
    MovedFits(c, s, exec, action, trails);
  }

  lemma JustFetched(c: Config, pinned: Option<Source>, trail: seq<Answer>)
    ensures TaskFits(c, Fetched(pinned), trail)
  {
  }

  lemma StepFits(c: Config, s: State, step: Step, trails: Trails)
    requires Enabled(c, s, step) && TrailsFit(c, s, trails)
    ensures TrailsFit(c, Next(c, s, step), TrailsNext(c, s, step, trails))
  {
    hide WorkNext, RpcNext, WorldNext, TaskFits, RpcEnabled, ActionEnabled, Acquirable;
    match step
    case World(event) =>
      WorldFrame(c, s, event);
      JustFetched(c, s.row.replaySource, TrailOf(trails, s.nextExec));
    case Work(exec, action) => WorkFits(c, s, exec, action, trails);
    case Rpc(req, handling) => RpcFrame(c, s, req, handling);
  }

  // ---- Whole runs ----------------------------------------------------------

  function TrailsAfter(c: Config, s: State, steps: seq<Step>, trails: Trails): Trails
    requires IsRun(c, s, steps)
    decreases |steps|
  {
    if steps == [] then trails
    else TrailsAfter(c, Next(c, s, steps[0]), steps[1..], TrailsNext(c, s, steps[0], trails))
  }

  /** The step commits an event whose last answer is of this kind. */
  predicate Commits(step: Step, trails: Trails, duplicate: bool) {
    && step.Work? && step.action.Commit?
    && var trail := TrailOf(trails, step.exec);
    trail != [] && trail[|trail| - 1].Ok() && trail[|trail| - 1].duplicate == duplicate
  }

  /** How many successful answers of a kind were committed. */
  function Committed(c: Config, s: State, steps: seq<Step>, trails: Trails, duplicate: bool): nat
    requires IsRun(c, s, steps)
    decreases |steps|
  {
    if steps == [] then 0
    else Committed(c, Next(c, s, steps[0]), steps[1..], TrailsNext(c, s, steps[0], trails), duplicate)
         + if Commits(steps[0], trails, duplicate) then 1 else 0
  }

  lemma WorkCounts(c: Config, s: State, exec: nat, action: Action, trails: Trails)
    requires WorkEnabled(c, s, exec, action) && TaskFits(c, s.execs[exec], TrailOf(trails, exec))
    ensures var row, next, step := s.row, RowNext(c, s, s.execs[exec], action), Work(exec, action);
            && next.eventsProcessed == row.eventsProcessed + (if Commits(step, trails, false) then 1 else 0)
            && next.eventsSkippedDedup == row.eventsSkippedDedup + (if Commits(step, trails, true) then 1 else 0)
  {
    hide Moments, ResumeMap, AllFailed;
  }

  lemma StepCounts(c: Config, s: State, step: Step, trails: Trails)
    requires Enabled(c, s, step) && TrailsFit(c, s, trails)
    ensures var row, next := s.row, Next(c, s, step).row;
            && next.eventsProcessed == row.eventsProcessed + (if Commits(step, trails, false) then 1 else 0)
            && next.eventsSkippedDedup == row.eventsSkippedDedup + (if Commits(step, trails, true) then 1 else 0)
  {
    hide WorkNext, WorldNext, RpcNext, RpcEnabled, ActionEnabled, Grows, Moved, RowNext, TaskFits;
    match step
    case World(event) => WorldStays(c, s, event);
    case Work(exec, action) =>
      WorkFrame(c, s, exec, action);
      WorkCounts(c, s, exec, action, trails);
    case Rpc(req, handling) => RpcFrame(c, s, req, handling);
  }

  lemma {:induction false} RunCounts(c: Config, s: State, steps: seq<Step>, trails: Trails)
    requires IsRun(c, s, steps) && TrailsFit(c, s, trails)
    ensures var t := Final(c, s, steps);
            && TrailsFit(c, t, TrailsAfter(c, s, steps, trails))
            && t.row.eventsProcessed == s.row.eventsProcessed + Committed(c, s, steps, trails, false)
            && t.row.eventsSkippedDedup == s.row.eventsSkippedDedup + Committed(c, s, steps, trails, true)
    decreases |steps|
  {
    if steps != [] {
      hide TrailsFit, Next, Enabled, TrailsNext, Commits;
      StepFits(c, s, steps[0], trails);
      StepCounts(c, s, steps[0], trails);
      RunCounts(c, Next(c, s, steps[0]), steps[1..], TrailsNext(c, s, steps[0], trails));
    }
  }

  /** The two success counters are the replies committed: on every run, events processed are those whose reply
      was no duplicate, events skipped those whose reply was one. */
  lemma CountersAreReplies(c: Config, s: State, steps: seq<Step>)
    requires Initial(s) && IsRun(c, s, steps)
    ensures var t := Final(c, s, steps);
            && t.row.eventsProcessed == Committed(c, s, steps, map[], false)
            && t.row.eventsSkippedDedup == Committed(c, s, steps, map[], true)
  {
    hide Final, IsRun, Committed, TrailsAfter;
    RunCounts(c, s, steps, map[]);
  }

  /** Conservation, counter by counter: with one executor at a time and first commits at the base of the window,
      the replies that were no duplicates and those that were make up the events at or below the checkpoint. */
  lemma ConservationByReply(c: Config, s: State, steps: seq<Step>)
    requires Initial(s) && IsSingleRun(c, s, steps)
    ensures IsRun(c, s, steps) && FrontsWithin(Final(c, s, steps))
    ensures var t := Final(c, s, steps);
            var applied, duplicates := Committed(c, s, steps, map[], false), Committed(c, s, steps, map[], true);
            && t.row.eventsProcessed == applied && t.row.eventsSkippedDedup == duplicates
            && applied + duplicates == Sum(HandledCounts(c, t))
  {
    hide Final, IsRun, IsSingleRun, Committed, HandledCounts;
    Conservation(c, s, steps);
    CountersAreReplies(c, s, steps);
  }

  /** On every run, an event is committed on its first successful attempt, within the attempts allowed; it is
      attempted again exactly while all attempts failed and some are left, and given up exactly when as many
      as allowed have failed. */
  lemma FirstSuccessCommitted(c: Config, s: State, steps: seq<Step>, exec: nat)
    requires Initial(s) && IsRun(c, s, steps)
    ensures var t, trail := Final(c, s, steps), TrailOf(TrailsAfter(c, s, steps, map[]), exec);
            && (WorkEnabled(c, t, exec, Commit) ==> LastSucceeded(trail) && |trail| <= c.maxAttempts)
            && (exec in t.execs && t.execs[exec].Streaming? && t.execs[exec].task.Sending?
                && PartOk(t.execs[exec], t.execs[exec].task.part) ==>
                  && AllFailed(trail)
                  && (WorkEnabled(c, t, exec, Send) <==> |trail| < c.maxAttempts)
                  && (WorkEnabled(c, t, exec, CountFailure) <==> |trail| == c.maxAttempts))
  {
    hide Final, IsRun, TrailsAfter, Committed, PartOk, AllFailed, LastSucceeded;
    RunCounts(c, s, steps, map[]);
    var t := Final(c, s, steps);
    if exec in t.execs {
      assert TaskFits(c, t.execs[exec], TrailOf(TrailsAfter(c, s, steps, map[]), exec));
    }
  }

  // ---- Told to stop --------------------------------------------------------

  /** The job is paused or cancelled in every state of the run. */
  predicate StoppedThroughout(c: Config, s: State, steps: seq<Step>)
    requires IsRun(c, s, steps)
    decreases |steps|
  {
    && s.row.status in {Paused, Cancelled}
    && (steps == [] || StoppedThroughout(c, Next(c, s, steps[0]), steps[1..]))
  }

  /** The executor has an event in hand that it may still send, or commit. */
  predicate InHand(s: State, exec: nat) {
    && exec in s.execs && s.execs[exec].Streaming?
    && (s.execs[exec].task.Sending? || s.execs[exec].task.Waiting? || s.execs[exec].task.Answered?)
  }

  predicate Deals(step: Step, exec: nat) {
    step == Work(exec, Commit) || step == Work(exec, CountFailure)
  }

  /** How many events an executor commits or gives up. */
  function Dealt(steps: seq<Step>, exec: nat): nat {
    if steps == [] then 0 else Dealt(steps[1..], exec) + if Deals(steps[0], exec) then 1 else 0
  }

  lemma StoppedStep(c: Config, s: State, step: Step, exec: nat)
    requires Enabled(c, s, step) && s.row.status in {Paused, Cancelled}
    ensures InHand(Next(c, s, step), exec) ==> InHand(s, exec) && !Deals(step, exec)
    ensures Deals(step, exec) || step == Work(exec, Send) ==> InHand(s, exec)
  {
    hide WorkNext, RpcNext, WorldNext, RpcEnabled, Grows, RowNext, PartOk, Seeks, Stops, Moments, ResumeMap;
    match step
    case World(event) => WorldFrame(c, s, event);
    case Work(x, action) => WorkFrame(c, s, x, action);
    case Rpc(req, handling) => RpcFrame(c, s, req, handling);
  }

  /** While a job is paused or cancelled, an executor without an event in hand sends nothing and commits nothing,
      and one with an event in hand deals with that event at most. */
  lemma {:induction false} StopsWhenTold(c: Config, s: State, steps: seq<Step>, exec: nat)
    requires IsRun(c, s, steps) && StoppedThroughout(c, s, steps)
    ensures Dealt(steps, exec) <= if InHand(s, exec) then 1 else 0
    ensures !InHand(s, exec) ==> forall i | 0 <= i < |steps| :: steps[i] != Work(exec, Send)
    decreases |steps|
  {
    if steps != [] {
      hide Next, Enabled, InHand, Deals;
      StoppedStep(c, s, steps[0], exec);
      StopsWhenTold(c, Next(c, s, steps[0]), steps[1..], exec);
      assert forall i | 0 < i < |steps| :: steps[i] == steps[1..][i - 1];
    }
  }
}
