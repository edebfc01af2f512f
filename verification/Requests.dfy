/**
 Requests inside the replayer, run concurrently by the steps of the pipeline.
 */
module Requests {
  import opened Prelude
  import opened Target
  import opened Jobs
  import opened Pipeline
  import opened Soundness
  import Dedup
  import Replayer

  // ---- One request alone ---------------------------------------------------

  function StepsOf(c: Config, s: State, req: nat, faults: Replayer.Faults): seq<Handling>
    requires req in s.reqs && Valid(s, s.reqs[req].ref)
  {
    var e := RecordAt(s, s.reqs[req].ref);
    if faults.checkFails then [CheckError]
    else if Dedup.Exists(s.marks, e.key, s.now) then [Check]
    else if faults.write.Refused? || !CanWrite(c, s, e) then [Check, Write(Refused)]
    else if faults.write.DoneUnreported? then [Check, Write(DoneUnreported)]
    else [Check, Write(Done), Mark(faults.markStored, faults.markStored && faults.markReported)]
  }

  /** A request's steps taken in a row. */
  predicate CanHandle(c: Config, s: State, req: nat, steps: seq<Handling>)
    decreases |steps|
  {
    steps == [] || (RpcEnabled(c, s, req, steps[0]) && CanHandle(c, RpcNext(c, s, req, steps[0]), req, steps[1..]))
  }

  function AfterHandling(c: Config, s: State, req: nat, steps: seq<Handling>): State
    requires CanHandle(c, s, req, steps)
    decreases |steps|
  {
    if steps == [] then s else AfterHandling(c, RpcNext(c, s, req, steps[0]), req, steps[1..])
  }

  lemma OneMore(c: Config, s: State, req: nat, step: Handling, rest: seq<Handling>)
    requires RpcEnabled(c, s, req, step) && CanHandle(c, RpcNext(c, s, req, step), req, rest)
    ensures CanHandle(c, s, req, [step] + rest)
    ensures AfterHandling(c, s, req, [step] + rest) == AfterHandling(c, RpcNext(c, s, req, step), req, rest)
  {
    assert ([step] + rest)[1..] == rest;
  }

  /** The request was answered with this reply, leaving these marks and this target. */
  predicate Answers(c: Config, s: State, req: nat, steps: seq<Handling>, reply: Replayer.Reply,
                    marks: Dedup.Marks, target: Database)
  {
    && CanHandle(c, s, req, steps)
    && var t := AfterHandling(c, s, req, steps);
    && req in t.reqs && t.reqs[req].phase == Replied(reply.success, reply.duplicate)
    && t.marks == marks && t.target == target
  }

  lemma AnsweredAtOnce(c: Config, s: State, req: nat, step: Handling)
    requires req in s.reqs && s.reqs[req].phase.Arrived? && Valid(s, s.reqs[req].ref)
    requires step.CheckError? || (step.Check? && Dedup.Exists(s.marks, RecordAt(s, s.reqs[req].ref).key, s.now))
    ensures Answers(c, s, req, [step], Replayer.Reply(step.Check?, step.Check?), s.marks, s.target)
  {
    OneMore(c, s, req, step, []);
  }

  lemma NotMarked(c: Config, s: State, req: nat, outcome: Outcome)
    requires req in s.reqs && s.reqs[req].phase.Arrived? && Valid(s, s.reqs[req].ref)
    requires !Dedup.Exists(s.marks, RecordAt(s, s.reqs[req].ref).key, s.now)
    requires !outcome.Done? && (outcome.DoneUnreported? ==> CanWrite(c, s, RecordAt(s, s.reqs[req].ref)))
    ensures Answers(c, s, req, [Check, Write(outcome)], Replayer.Reply(false, false), s.marks,
                    if outcome.Refused? then s.target
                    else Apply(c.schema, s.target, RecordAt(s, s.reqs[req].ref)))
  {
    hide Succeeds, Apply;
    var s1 := RpcNext(c, s, req, Check);
    OneMore(c, s1, req, Write(outcome), []);
    OneMore(c, s, req, Check, [Write(outcome)]);
  }

  lemma WrittenAndMarked(c: Config, s: State, req: nat, stored: bool, reported: bool)
    requires req in s.reqs && s.reqs[req].phase.Arrived? && Valid(s, s.reqs[req].ref)
    requires !Dedup.Exists(s.marks, RecordAt(s, s.reqs[req].ref).key, s.now)
    requires CanWrite(c, s, RecordAt(s, s.reqs[req].ref)) && (reported ==> stored)
    ensures var e := RecordAt(s, s.reqs[req].ref);
            Answers(c, s, req, [Check, Write(Done), Mark(stored, reported)], Replayer.Reply(reported, false),
                    if stored then s.marks[e.key := s.now + c.ttl] else s.marks, Apply(c.schema, s.target, e))
  {
    hide Succeeds, Apply;
    var mark := Mark(stored, reported);
    var s1 := RpcNext(c, s, req, Check);
    var s2 := RpcNext(c, s1, req, Write(Done));
    OneMore(c, s2, req, mark, []);
    OneMore(c, s1, req, Write(Done), [mark]);
    OneMore(c, s, req, Check, [Write(Done), mark]);
  }

  /** Left undisturbed, the steps of a request are `ReplayEvent`: same answer, same marks, same target. */
  lemma StepsAreReplayEvent(c: Config, s: State, req: nat, faults: Replayer.Faults)
    requires req in s.reqs && s.reqs[req].phase.Arrived? && Valid(s, s.reqs[req].ref)
    ensures var (after, reply) := Replayer.Handled(c.schema, c.ttl, Replayer.State(s.marks, s.target),
                                                   RecordAt(s, s.reqs[req].ref), s.now, faults);
            Answers(c, s, req, StepsOf(c, s, req, faults), reply, after.marks, after.db)
  {
    hide Succeeds, Apply, Answers;
    var e := RecordAt(s, s.reqs[req].ref);
    if faults.checkFails {
      AnsweredAtOnce(c, s, req, CheckError);
    } else if Dedup.Exists(s.marks, e.key, s.now) {
      AnsweredAtOnce(c, s, req, Check);
    } else if faults.write.Refused? || !CanWrite(c, s, e) {
      NotMarked(c, s, req, Refused);
    } else if faults.write.DoneUnreported? {
      NotMarked(c, s, req, DoneUnreported);
    } else {
      WrittenAndMarked(c, s, req, faults.markStored, faults.markStored && faults.markReported);
    }
  }

  // ---- Concurrent requests with one key ------------------------------------

  /** A request that has passed its existence check and may still write or has just written. */
  predicate PastCheck(s: State, req: nat) {
    req in s.reqs && (s.reqs[req].phase.Fresh? || s.reqs[req].phase.Written?)
  }

  predicate ForKey(s: State, req: nat, key: string) {
    req in s.reqs && Valid(s, s.reqs[req].ref) && RecordAt(s, s.reqs[req].ref).key == key
  }

  /** The key is marked until `until` at least, or that moment has passed. */
  predicate MarkedUntil(s: State, key: string, until: int) {
    s.now < until ==> key in s.marks && s.marks[key] >= until
  }

  /** Since `first`, no other request for this key got past its check. */
  ghost predicate OnlyOlder(first: State, s: State, key: string) {
    forall r | PastCheck(s, r) && ForKey(s, r, key) :: PastCheck(first, r)
  }

  lemma WorkClock(c: Config, s: State, exec: nat, action: Action)
    requires WorkEnabled(c, s, exec, action)
    ensures WorkNext(c, s, exec, action).now == s.now && WorkNext(c, s, exec, action).marks == s.marks
  {
    hide Moved, RowNext;
  }

  lemma WorldClock(c: Config, s: State, event: WorldStep)
    requires WorldEnabled(s, event)
    ensures var t := WorldNext(c, s, event);
            s.now <= t.now && (t.marks == s.marks || (t.marks == Dedup.Cleaned(s.marks, s.now) && t.now == s.now))
  {
    hide ApiResult, Acquired, Renewed, Acquirable, Dedup.Cleaned;
  }

  lemma RpcClock(c: Config, s: State, req: nat, handling: Handling)
    requires RpcEnabled(c, s, req, handling)
    ensures var t := RpcNext(c, s, req, handling);
            t.now == s.now
            && (t.marks == s.marks
                || (Valid(s, s.reqs[req].ref)
                    && t.marks == s.marks[RecordAt(s, s.reqs[req].ref).key := s.now + c.ttl]))
  {
    hide Apply, CanWrite;
  }

  lemma StepKeepsMark(c: Config, s: State, step: Step, key: string, until: int)
    requires Enabled(c, s, step) && MarkedUntil(s, key, until) && until <= s.now + c.ttl
    ensures MarkedUntil(Next(c, s, step), key, until) && s.now <= Next(c, s, step).now
  {
    hide WorldNext, WorkNext, RpcNext, WorldEnabled, WorkEnabled, RpcEnabled;
    match step
    case World(event) => WorldClock(c, s, event);
    case Work(exec, action) => WorkClock(c, s, exec, action);
    case Rpc(req, handling) => RpcClock(c, s, req, handling);
  }

  /** While the key is marked, a step lets no further request for it past the check. */
  lemma StepKeepsOlder(c: Config, first: State, s: State, step: Step, key: string, until: int)
    requires Inv(c, s) && Enabled(c, s, step) && MarkedUntil(s, key, until) && s.now < until
    requires OnlyOlder(first, s, key)
    ensures OnlyOlder(first, Next(c, s, step), key)
  {
    hide Inv, Next, Enabled, Grows;
    var t := Next(c, s, step);
    forall r | PastCheck(t, r) && ForKey(t, r, key) ensures PastCheck(first, r) {
      PastCheckOnlyByChecking(c, s, step, r);
      SameKey(c, s, t, r, key);
    }
  }

  lemma SameKey(c: Config, s: State, t: State, r: nat, key: string)
    requires Inv(c, s) && Grows(s, t) && r in s.reqs && r in t.reqs && t.reqs[r].ref == s.reqs[r].ref
    requires ForKey(t, r, key)
    ensures ForKey(s, r, key)
  {
    assert ReqOk(s, s.reqs[r]);
  }

  lemma PastCheckOnlyByChecking(c: Config, s: State, step: Step, r: nat)
    requires Inv(c, s) && Enabled(c, s, step) && PastCheck(Next(c, s, step), r)
    ensures r in s.reqs && Next(c, s, step).reqs[r].ref == s.reqs[r].ref && Grows(s, Next(c, s, step))
    ensures PastCheck(s, r) || (step == Rpc(r, Check) && !Dedup.Exists(s.marks, RecordAt(s, s.reqs[r].ref).key, s.now))
  {
    hide Inv, Succeeds, Apply, ApiResult, RowNext, Moved;
    match step
    case World(event) => WorldGrows(c, s, event); WorldFrame(c, s, event);
    case Work(exec, action) => WorkFrame(c, s, exec, action);
    case Rpc(req, handling) => RpcGrows(c, s, req, handling); RpcFrame(c, s, req, handling);
  }

  /** Once a mark for a key is stored, and for as long as the TTL runs, only requests that had
      passed their existence check before can still write an event with that key. */
  lemma {:induction false} OnlyEarlierChecksWrite(
    c: Config, first: State, s: State, steps: seq<Step>, key: string, until: int)
    requires Inv(c, s) && IsRun(c, s, steps) && MarkedUntil(s, key, until) && until <= s.now + c.ttl
    requires OnlyOlder(first, s, key)
    ensures Final(c, s, steps).now < until ==> OnlyOlder(first, Final(c, s, steps), key)
    ensures s.now <= Final(c, s, steps).now
    decreases |steps|
  {
    if steps != [] {
      var t := Next(c, s, steps[0]);
      StepKeepsMark(c, s, steps[0], key, until);
      RunKeepsInv(c, s, [steps[0]]);
      assert Final(c, s, [steps[0]]) == t;
      if s.now < until {
        StepKeepsOlder(c, first, s, steps[0], key, until);
        OnlyEarlierChecksWrite(c, first, t, steps[1..], key, until);
      } else {
        ClockAdvances(c, t, steps[1..]);
      }
    }
  }

  lemma {:induction false} ClockAdvances(c: Config, s: State, steps: seq<Step>)
    requires IsRun(c, s, steps)
    ensures s.now <= Final(c, s, steps).now
    decreases |steps|
  {
    if steps != [] {
      StepClock(c, s, steps[0]);
      ClockAdvances(c, Next(c, s, steps[0]), steps[1..]);
    }
  }

  lemma StepClock(c: Config, s: State, step: Step)
    requires Enabled(c, s, step)
    ensures s.now <= Next(c, s, step).now
  {
    hide WorldNext, WorkNext, RpcNext, WorldEnabled, WorkEnabled, RpcEnabled;
    match step
    case World(event) => WorldClock(c, s, event);
    case Work(exec, action) => WorkClock(c, s, exec, action);
    case Rpc(req, handling) => RpcClock(c, s, req, handling);
  }

  /** Dedup under concurrency: after a mark is stored, and until it expires, whatever can still
      write an event with that key had passed its existence check when the mark was stored. */
  lemma MarkBlocksLaterRequests(
    c: Config, s: State, req: nat, reported: bool, steps: seq<Step>, r: nat)
    requires Inv(c, s) && RpcEnabled(c, s, req, Mark(true, reported))
    requires IsRun(c, RpcNext(c, s, req, Mark(true, reported)), steps)
    requires var t := Final(c, RpcNext(c, s, req, Mark(true, reported)), steps);
             && t.now < s.now + c.ttl && PastCheck(t, r)
             && ForKey(t, r, RecordAt(s, s.reqs[req].ref).key)
    ensures PastCheck(s, r)
  {
    hide Inv, IsRun, Final, Grows;
    var marked := RpcNext(c, s, req, Mark(true, reported));
    var key := RecordAt(s, s.reqs[req].ref).key;
    RpcKeepsInv(c, s, req, Mark(true, reported));
    OnlyEarlierChecksWrite(c, marked, marked, steps, key, s.now + c.ttl);
    PastCheckOnlyByChecking(c, s, Rpc(req, Mark(true, reported)), r);
  }
}
