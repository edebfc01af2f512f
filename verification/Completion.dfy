/**
 Serial runs do reach COMPLETED: from any fresh job with well-formed logs whose window the
 target can take in order, there is a run that replays all of it.
 */
module Completion {
  import opened Prelude
  import opened Target
  import opened Jobs
  import opened Windows
  import opened Pipeline
  import opened Soundness
  import opened Counting
  import opened Alignment
  import opened ExactlyOnce
  import Events
  import Replayer
  import KafkaSource

  /** Every record of the window succeeds on what the records before it leave of its table. */
  predicate Replayable(c: Config, before: Database, log: Log) {
    forall i: nat | i < |log| && InWindow(log, c.startMs, c.endMs, i) ::
      Succeeds(Uniques(c.schema, log[i].table),
               TableAfter(c.schema, TableAt(before, log[i].table), log[i].table, log[Base(log, c.startMs)..i]), log[i])
  }

  // ---- Serial runs ---------------------------------------------------------

  lemma {:induction false} SerialAppended(
    c: Config, g: Given, s: State, steps: seq<Step>, more: seq<Step>)
    requires IsSerialRun(c, g, s, steps) && IsRun(c, s, steps) && IsSerialRun(c, g, Final(c, s, steps), more)
    ensures IsSerialRun(c, g, s, steps + more) && IsRun(c, s, steps + more)
    ensures IsRun(c, Final(c, s, steps), more)
    ensures Final(c, s, steps + more) == Final(c, Final(c, s, steps), more)
    decreases |steps|
  {
    SerialRunIsRun(c, g, Final(c, s, steps), more);
    if steps == [] {
      assert steps + more == more;
    } else {
      hide Serial, Next, Enabled;
      assert (steps + more)[1..] == steps[1..] + more;
      SerialAppended(c, g, Next(c, s, steps[0]), steps[1..], more);
    }
  }

  lemma {:induction false} FollowsIsSerial(
    c: Config, g: Given, states: seq<State>, steps: seq<Step>)
    requires Follows(c, states, steps) && forall i | 0 <= i < |steps| :: Serial(c, g, states[i], steps[i])
    ensures IsSerialRun(c, g, states[0], steps)
    ensures IsRun(c, states[0], steps) && Final(c, states[0], steps) == states[|steps|]
    decreases |steps|
  {
    FollowsIsRun(c, states, steps);
    if steps != [] {
      hide Next, Enabled, Serial;
      FollowsIsSerial(c, g, states[1..], steps[1..]);
    }
  }

  lemma EventIsSerial(c: Config, g: Given, s: State, exec: nat, p: nat)
    requires Events.CanReplay(c, s, exec, p) && FromBase(c, s, s.execs[exec], p)
    ensures var steps := Events.EventSteps(s, exec, p);
            && IsSerialRun(c, g, s, steps) && IsRun(c, s, steps)
            && Final(c, s, steps) == Events.Replayed(c, s, exec, p)
  {
    var states, steps := Events.EventStates(c, s, exec, p), Events.EventSteps(s, exec, p);
    Events.EventReplayed(c, s, exec, p);
    SentFromBase(c, s, exec, p);
    hide Events.CanReplay, Enabled, Next, Events.EventStates, LogsOk, FromBase;
    forall i | 0 <= i < |steps| ensures Serial(c, g, states[i], steps[i]) {
      EventStepSerial(c, g, s, exec, p, i);
    }
    FollowsIsSerial(c, g, states, steps);
    EventEnds(c, s, exec, p);
  }

  lemma EventEnds(c: Config, s: State, exec: nat, p: nat)
    requires Events.CanReplay(c, s, exec, p)
    ensures Events.EventStates(c, s, exec, p)[0] == s
    ensures Events.EventStates(c, s, exec, p)[7] == Events.Replayed(c, s, exec, p)
  {
  }

  lemma SentFromBase(c: Config, s: State, exec: nat, p: nat)
    requires Events.CanReplay(c, s, exec, p) && FromBase(c, s, s.execs[exec], p)
    ensures var t := Events.EventStates(c, s, exec, p)[1];
            && t.reqs == map[] && exec in t.execs && t.execs[exec].Streaming? && t.execs[exec].task == Sending(p, 0)
            && FromBase(c, t, t.execs[exec], p)
  {
  }

  lemma EventStepSerial(c: Config, g: Given, s: State, exec: nat, p: nat, i: nat)
    requires Events.CanReplay(c, s, exec, p) && i < 7
    requires var t := Events.EventStates(c, s, exec, p)[1];
             && t.reqs == map[] && exec in t.execs && t.execs[exec].Streaming? && t.execs[exec].task == Sending(p, 0)
             && FromBase(c, t, t.execs[exec], p)
    requires Enabled(c, Events.EventStates(c, s, exec, p)[i], Events.EventSteps(s, exec, p)[i])
    ensures Serial(c, g, Events.EventStates(c, s, exec, p)[i], Events.EventSteps(s, exec, p)[i])
  {
    hide Events.EventStates, Events.CanReplay, Enabled, Next, FromBase;
  }

  // ---- Draining a stream ---------------------------------------------------

  /** Nothing of the partition is applied beyond the checkpoint, and nothing left of it is marked. */
  predicate Clean(c: Config, s: State, x: Executor, p: nat)
    requires x.Streaming? && p < |x.pos| && p < |x.stop| && p < |Logs(s, SourceOf(s.row))|
  {
    && NextRef(c, s, p) !in s.applied
    && forall off: nat | x.pos[p] <= off < x.stop[p] && off < |Logs(s, SourceOf(s.row))[p]| ::
         Logs(s, SourceOf(s.row))[p][off].key !in s.marks
  }

  /** Where nothing is committed yet, the executor is at the base of the window, or the window is empty. */
  predicate Staged(c: Config, s: State, x: Executor, p: nat)
    requires x.Streaming? && p < |x.pos| && p < |x.stop| && p < |x.seen| && p < |Logs(s, SourceOf(s.row))|
  {
    Front(s.row, p) == 0 ==>
      if x.pos[p] < x.stop[p] then x.pos[p] == Base(Logs(s, SourceOf(s.row))[p], c.startMs)
      else EmptyWindow(c, Logs(s, SourceOf(s.row))[p], x.seen[p])
  }

  /** The one executor is idle in its stream, and everything left of the window can be replayed. */
  ghost predicate Ready(c: Config, g: Given, s: State, exec: nat) {
    && SerialInv(c, g, s) && c.maxAttempts > 0 && DistinctKeys(Logs(s, SourceOf(s.row)))
    && exec in s.execs && s.execs[exec].Streaming? && s.execs[exec].task.Idle?
    && s.row.status == Running && s.reqs == map[]
    && |s.execs[exec].pos| == |s.execs[exec].stop| == |s.execs[exec].seen| == |Logs(s, SourceOf(s.row))|
    && forall p | 0 <= p < |s.execs[exec].pos| ::
         && Clean(c, s, s.execs[exec], p) && Staged(c, s, s.execs[exec], p)
         && Replayable(c, g.before, Logs(s, SourceOf(s.row))[p])
  }

  lemma ReadySource(c: Config, g: Given, s: State, exec: nat)
    requires Ready(c, g, s, exec)
    ensures s.row.replaySource == Some(s.execs[exec].source) && SourceOf(s.row) == s.execs[exec].source
    ensures Inv(c, s) && Standing(c, s) && Placed(c, s) && FrontsOk(c, s) && FrontsWithin(s) && TargetOk(c, g, s)
    ensures LogOk(c, g.part, Logs(s, SourceOf(s.row)), SourceOf(s.row))
  {
    hide LogOk, TargetOk, Standing, Inv, Memory, DoneOk, KeysOk, Clean, Staged, Replayable, DistinctKeys, Placed;
    SerialParts(c, g, s);
    SourceIs(c, s, exec);
    AlignParts(c, s);
  }

  lemma ReadyFromBase(c: Config, g: Given, s: State, exec: nat, p: nat)
    requires Ready(c, g, s, exec) && PartOk(s.execs[exec], p)
    ensures FromBase(c, s, s.execs[exec], p)
  {
    hide SerialInv, Replayable, DistinctKeys, Clean;
    assert Staged(c, s, s.execs[exec], p);
    ReadySource(c, g, s, exec);
  }

  lemma SliceDistinct(logs: seq<Log>, p: nat, from: nat, to: nat)
    requires DistinctKeys(logs) && p < |logs| && from <= to <= |logs[p]|
    ensures Replayer.FirstOccurrences(logs[p][from..to]) == logs[p][from..to]
  {
    var w := logs[p][from..to];
    forall i, j | 0 <= i < j < |w| ensures w[i].key != w[j].key {
      OtherKey(logs, p, from + i, p, from + j);
    }
    FirstsOfDistinct(w);
  }

  /** What the target holds of the table of the next event is the fold of the window before it. */
  lemma TableAtNext(c: Config, g: Given, s: State, exec: nat, p: nat)
    requires Ready(c, g, s, exec) && PartOk(s.execs[exec], p)
    ensures var log, pos := Logs(s, SourceOf(s.row))[p], s.execs[exec].pos[p];
            && pos < |log| && InWindow(log, c.startMs, c.endMs, pos)
            && TableAt(s.target, log[pos].table)
               == TableAfter(c.schema, TableAt(g.before, log[pos].table), log[pos].table,
                             log[Base(log, c.startMs)..pos])
  {
    hide Inv, Standing, LogOk, SerialInv, TableAfter, Succeeds, DistinctKeys, Staged, Replayable;
    ReadySource(c, g, s, exec);
    ReadyFromBase(c, g, s, exec, p);
    CurrentIsNext(c, s, exec, p);
    var log, pos := Logs(s, SourceOf(s.row))[p], s.execs[exec].pos[p];
    PlacedByTable(c, g.part, Logs(s, SourceOf(s.row)), SourceOf(s.row), p, pos);
    assert Clean(c, s, s.execs[exec], p);
    assert FrontOk(c, log, Front(s.row, p));
    assert Handled(c, s, p) == log[Base(log, c.startMs)..pos];
    SliceDistinct(Logs(s, SourceOf(s.row)), p, Base(log, c.startMs), pos);
  }

  lemma ReadyCanReplay(c: Config, g: Given, s: State, exec: nat, p: nat)
    requires Ready(c, g, s, exec) && PartOk(s.execs[exec], p)
    ensures Events.CanReplay(c, s, exec, p)
  {
    hide SerialInv, TableAfter, Succeeds, LogOk, DistinctKeys, Staged;
    ReadySource(c, g, s, exec);
    TableAtNext(c, g, s, exec, p);
    hide Inv, Standing, Placed, FrontsOk, TargetOk, InWindow;
    assert Clean(c, s, s.execs[exec], p) && Replayable(c, g.before, Logs(s, SourceOf(s.row))[p]);
  }

  /** What replaying one event changes, of what the rest of this proof looks at. */
  predicate ReplayedTo(s: State, exec: nat, p: nat, t: State)
    requires exec in s.execs && s.execs[exec].Streaming? && PartOk(s.execs[exec], p)
  {
    var x := s.execs[exec];
    && t.redis == s.redis && t.kafka == s.kafka && t.reqs == map[] && exec in t.execs
    && t.row == EventCommitted(s.row, false, x.source, p, x.pos[p])
    && t.execs[exec] == Events.Past(x, p) && t.applied == s.applied + {Current(x, p)}
    && Valid(s, Current(x, p)) && t.marks.Keys == s.marks.Keys + {RecordAt(s, Current(x, p)).key}
  }

  lemma ReplayedShape(c: Config, s: State, exec: nat, p: nat)
    requires Events.CanReplay(c, s, exec, p)
    ensures ReplayedTo(s, exec, p, Events.Replayed(c, s, exec, p))
  {
    hide EventCommitted, CanWrite, Apply;
  }

  lemma PassedHere(c: Config, s: State, exec: nat, p: nat, t: State)
    requires Inv(c, s) && Standing(c, s) && exec in s.execs && s.execs[exec].Streaming? && PartOk(s.execs[exec], p)
    requires ReplayedTo(s, exec, p, t) && FromBase(c, s, s.execs[exec], p)
    ensures Passed(c, s, t, s.execs[exec].source, p, s.execs[exec].pos[p], false)
  {
    hide Inv, Standing, EventCommitted;
    CurrentIsNext(c, s, exec, p);
  }

  /** Replaying an event leaves the other events unmarked and unapplied. */
  lemma CleanAfter(c: Config, s: State, exec: nat, p: nat, q: nat, t: State)
    requires Inv(c, s) && Standing(c, s) && Placed(c, s)
    requires exec in s.execs && s.execs[exec].Streaming? && PartOk(s.execs[exec], p)
    requires ReplayedTo(s, exec, p, t) && FromBase(c, s, s.execs[exec], p)
    requires DistinctKeys(Logs(s, SourceOf(s.row)))
    requires q < |s.execs[exec].pos| == |s.execs[exec].stop| == |s.execs[exec].seen| == |Logs(s, SourceOf(s.row))|
    requires Clean(c, s, s.execs[exec], q) && Staged(c, s, s.execs[exec], q)
    ensures SourceOf(t.row) == SourceOf(s.row) && Clean(c, t, t.execs[exec], q) && Staged(c, t, t.execs[exec], q)
  {
    hide Inv, Standing, FrontsOk, FrontOk, EventCommitted, Front, DistinctKeys, Passed, Handled;
    SourceIs(c, s, exec);
    var x := s.execs[exec];
    PassedHere(c, s, exec, p, t);
    StandingFronts(c, s);
    PartitionPassed(c, s, t, x.source, p, x.pos[p], false, q);
    NextUnapplied(c, s, exec, p, q, t);
    forall off: nat | t.execs[exec].pos[q] <= off < t.execs[exec].stop[q] && off < |Logs(s, x.source)[q]|
      ensures Logs(s, x.source)[q][off].key !in t.marks
    {
      OtherKey(Logs(s, x.source), p, x.pos[p], q, off);
    }
  }

  lemma NextUnapplied(c: Config, s: State, exec: nat, p: nat, q: nat, t: State)
    requires Inv(c, s) && Standing(c, s) && Placed(c, s)
    requires exec in s.execs && s.execs[exec].Streaming? && PartOk(s.execs[exec], p)
    requires q < |Logs(s, SourceOf(s.row))| && NextRef(c, s, q) !in s.applied && ReplayedTo(s, exec, p, t)
    requires FromBase(c, s, s.execs[exec], p)
    ensures q < |Logs(t, SourceOf(t.row))| && NextRef(c, t, q) !in t.applied
  {
    hide Inv, Standing, FrontsOk, FrontOk, EventCommitted, Front, Passed, Handled;
    SourceIs(c, s, exec);
    CurrentIsNext(c, s, exec, p);
    PassedHere(c, s, exec, p, t);
    StandingFronts(c, s);
    PartitionPassed(c, s, t, s.execs[exec].source, p, s.execs[exec].pos[p], false, q);
    assert q == p ==> !Reached(c, s, NextRef(c, t, p));
  }

  lemma ReadyAfter(c: Config, g: Given, s: State, exec: nat, p: nat)
    requires Ready(c, g, s, exec) && Events.CanReplay(c, s, exec, p)
    ensures Ready(c, g, Events.Replayed(c, s, exec, p), exec)
  {
    hide SerialInv, LogOk, IsRun, Final, IsSerialRun, Events.Replayed, Clean, Staged, Replayable, FromBase;
    var t := Events.Replayed(c, s, exec, p);
    ReplayedShape(c, s, exec, p);
    ReadyFromBase(c, g, s, exec, p);
    EventIsSerial(c, g, s, exec, p);
    SerialRunKeepsInv(c, g, s, Events.EventSteps(s, exec, p));
    hide Events.CanReplay;
    ReadySource(c, g, s, exec);
    hide Inv, Standing, Placed, FrontsOk, TargetOk, DistinctKeys, EventCommitted;
    StatusKept(s.row, s.execs[exec].source, p, s.execs[exec].pos[p]);
    CleanAfter(c, s, exec, p, p, t);
    forall q | 0 <= q < |t.execs[exec].pos|
      ensures Clean(c, t, t.execs[exec], q) && Staged(c, t, t.execs[exec], q)
      ensures Replayable(c, g.before, Logs(t, SourceOf(t.row))[q])
    {
      CleanAfter(c, s, exec, p, q, t);
    }
  }

  lemma StatusKept(row: JobRow, source: Source, p: nat, off: nat)
    ensures EventCommitted(row, false, source, p, off).status == row.status
  {
  }

  /** How many events are left in the first `n` partitions. */
  function Left(pos: seq<nat>, stop: seq<nat>, n: nat): nat
    requires n <= |pos| && n <= |stop|
  {
    if n == 0 then 0 else Left(pos, stop, n - 1) + if pos[n - 1] < stop[n - 1] then stop[n - 1] - pos[n - 1] else 0
  }

  lemma {:induction false} LeftDrops(pos: seq<nat>, stop: seq<nat>, p: nat, n: nat)
    requires n <= |pos| && n <= |stop| && p < |pos| && p < |stop| && pos[p] < stop[p]
    ensures Left(pos[p := pos[p] + 1], stop, n) + (if p < n then 1 else 0) == Left(pos, stop, n)
  {
    if n > 0 {
      LeftDrops(pos, stop, p, n - 1);
    }
  }

  predicate Drained(x: Executor) {
    x.Streaming? && |x.pos| == |x.stop| && forall p | 0 <= p < |x.pos| :: x.pos[p] >= x.stop[p]
  }

  /** One event more is replayed, and the rest can still be. */
  lemma NextReplayed(c: Config, g: Given, s: State, exec: nat, p: nat)
    returns (t: State)
    requires Ready(c, g, s, exec) && PartOk(s.execs[exec], p)
    ensures IsSerialRun(c, g, s, Events.EventSteps(s, exec, p)) && IsRun(c, s, Events.EventSteps(s, exec, p))
    ensures t == Final(c, s, Events.EventSteps(s, exec, p)) && Ready(c, g, t, exec)
    ensures t.execs[exec] == Events.Past(s.execs[exec], p)
  {
    hide SerialInv, Clean, Replayable, IsSerialRun, IsRun, Final, Ready, Events.CanReplay;
    ReadyCanReplay(c, g, s, exec, p);
    ReadyAfter(c, g, s, exec, p);
    ReadyFromBase(c, g, s, exec, p);
    EventIsSerial(c, g, s, exec, p);
    t := Events.Replayed(c, s, exec, p);
  }

  lemma {:induction false} Drain(c: Config, g: Given, s: State, exec: nat)
    returns (steps: seq<Step>)
    requires Ready(c, g, s, exec)
    ensures IsSerialRun(c, g, s, steps) && IsRun(c, s, steps)
    ensures var t := Final(c, s, steps);
            && Ready(c, g, t, exec) && Drained(t.execs[exec])
            && t.execs[exec].source == s.execs[exec].source && t.execs[exec].seen == s.execs[exec].seen
    decreases Left(s.execs[exec].pos, s.execs[exec].stop, |s.execs[exec].pos|)
  {
    hide SerialInv, Clean, Replayable, IsSerialRun, IsRun, Final, LogOk;
    var x := s.execs[exec];
    if p: nat :| p < |x.pos| && x.pos[p] < x.stop[p] {
      var t := NextReplayed(c, g, s, exec, p);
      LeftDrops(x.pos, x.stop, p, |x.pos|);
      hide Ready;
      var more := Drain(c, g, t, exec);
      steps := Events.EventSteps(s, exec, p) + more;
      SerialAppended(c, g, s, Events.EventSteps(s, exec, p), more);
    } else {
      steps := [];
      NoSteps(c, g, s);
    }
  }

  lemma NoSteps(c: Config, g: Given, s: State)
    ensures IsSerialRun(c, g, s, []) && IsRun(c, s, []) && Final(c, s, []) == s
  {
  }

  lemma Completes(c: Config, g: Given, s: State, exec: nat)
    requires Ready(c, g, s, exec) && Drained(s.execs[exec])
    ensures var done := Work(exec, Complete);
            && IsSerialRun(c, g, s, [done]) && IsRun(c, s, [done])
            && Final(c, s, [done]).row.status == Completed
            && Final(c, s, [done]).finish == Some(Finish(s.execs[exec].source, s.execs[exec].seen))
  {
    hide SerialInv, Clean, Replayable, DistinctKeys;
    ReadySource(c, g, s, exec);
    hide Inv, Standing, Placed, FrontsOk, TargetOk, LogOk;
    assert Enabled(c, s, Work(exec, Complete));
    forall p | 0 <= p < |s.execs[exec].seen| && Front(s.row, p) == 0
      ensures EmptyWindow(c, Logs(s, s.execs[exec].source)[p], s.execs[exec].seen[p])
    {
      assert Staged(c, s, s.execs[exec], p);
    }
    Prepend(c, s, Work(exec, Complete), []);
    NoSteps(c, g, Next(c, s, Work(exec, Complete)));
  }

  // ---- From a fresh job ----------------------------------------------------

  /** The stream of the chosen source, as an executor opens it when nothing is arriving. */
  function FirstStream(c: Config, s: State, choice: Source): Executor {
    var logs := Logs(s, choice);
    var pos := Seeks(logs, map[], c.startMs, KafkaSource.Ends(logs), KafkaSource.Ends(logs));
    Streaming(choice, pos, Stops(logs, pos, c.endMs), KafkaSource.Ends(logs), NoId, Idle)
  }

  function Started(c: Config, s: State, choice: Source): State {
    s.(row := SourceRecorded(Acquired(NEW_JOB.(status := Queued), "w", s.now, c.lease), choice, 0),
       execs := map[s.nextExec := FirstStream(c, s, choice)], nextExec := s.nextExec + 1)
  }

  function StartStates(c: Config, s: State, choice: Source): (states: seq<State>)
    ensures |states| == 5
  {
    var s1 := s.(row := NEW_JOB.(status := Queued));
    var s2 := s1.(row := Acquired(s1.row, "w", s.now, c.lease), execs := map[s.nextExec := Fetched(None)],
                  nextExec := s.nextExec + 1);
    var s3 := s2.(row := SourceRecorded(s2.row, choice, 0), execs := map[s.nextExec := Recorded(choice, map[], NoId)]);
    [s, s1, s2, s3, Started(c, s, choice)]
  }

  function StartSteps(s: State, choice: Source): seq<Step> {
    var ends := KafkaSource.Ends(Logs(s, choice));
    [World(Api(Start)), World(Acquire("w")), Work(s.nextExec, RecordSource(choice, 0)),
     Work(s.nextExec, Open(ends, ends))]
  }

  lemma QuietOpening(c: Config, log: Log)
    ensures KafkaSource.SeekOffset(map[], 0, log[..|log|], log[..|log|], c.startMs) == Base(log, c.startMs)
    ensures var base := Base(log, c.startMs);
            base < Stop(log, base, |log|, c.endMs) || EmptyWindow(c, log, |log|)
  {
    assert log[..|log|] == log;
  }

  lemma StartFollows(c: Config, s: State, choice: Source, i: nat)
    requires Initial(s) && i < 3
    ensures var states, steps := StartStates(c, s, choice), StartSteps(s, choice);
            Enabled(c, states[i], steps[i]) && states[i + 1] == Next(c, states[i], steps[i])
  {
    hide FirstStream;
    var states, steps := StartStates(c, s, choice), StartSteps(s, choice);
    assert Next(c, states[i], steps[i]).execs == states[i + 1].execs;
  }

  lemma OpensQuietly(c: Config, s: State, x: Executor)
    requires x.Recorded? && ResumeMap(x.source, x.checkpoint, x.lastId) == Some(map[])
    ensures var ends := KafkaSource.Ends(Logs(s, x.source));
            Moments(Logs(s, x.source), ends, ends) && Skipped(c, s, x, ends, ends) == {}
  {
    var logs, ends := Logs(s, x.source), KafkaSource.Ends(Logs(s, x.source));
    forall p | 0 <= p < |logs| ensures Seeks(logs, map[], c.startMs, ends, ends)[p] == Base(logs[p], c.startMs) {
      QuietOpening(c, logs[p]);
    }
  }

  lemma OpenFollows(c: Config, s: State, choice: Source)
    requires Initial(s)
    ensures var states, steps := StartStates(c, s, choice), StartSteps(s, choice);
            Enabled(c, states[3], steps[3]) && states[4] == Next(c, states[3], steps[3])
  {
    hide Skipped, Seeks, Stops;
    var s3, open := StartStates(c, s, choice)[3], StartSteps(s, choice)[3];
    assert Logs(s3, choice) == Logs(s, choice);
    OpensQuietly(c, s3, s3.execs[s.nextExec]);
    assert Enabled(c, s3, open);
    assert Next(c, s3, open).execs == map[s.nextExec := FirstStream(c, s, choice)];
  }

  lemma FirstStaged(c: Config, s: State, choice: Source, p: nat)
    requires Initial(s) && p < |Logs(s, choice)|
    ensures var t := Started(c, s, choice);
            && Logs(t, SourceOf(t.row)) == Logs(s, choice)
            && Staged(c, t, t.execs[s.nextExec], p) && Clean(c, t, t.execs[s.nextExec], p)
  {
    QuietOpening(c, Logs(s, choice)[p]);
  }

  lemma StartIsSerial(c: Config, g: Given, s: State, choice: Source)
    requires Initial(s)
    ensures IsSerialRun(c, g, s, StartSteps(s, choice)) && IsRun(c, s, StartSteps(s, choice))
    ensures Final(c, s, StartSteps(s, choice)) == Started(c, s, choice)
  {
    hide Enabled, Next, LogsOk;
    var states, steps := StartStates(c, s, choice), StartSteps(s, choice);
    OpenFollows(c, s, choice);
    forall i | 0 <= i < |steps|
      ensures Enabled(c, states[i], steps[i]) && states[i + 1] == Next(c, states[i], steps[i])
    {
      if i < 3 {
        StartFollows(c, s, choice, i);
      }
    }
    forall i | 0 <= i < |steps| ensures Serial(c, g, states[i], steps[i]) {
      StartSerial(c, g, s, choice, i);
    }
    FollowsIsSerial(c, g, states, steps);
  }

  lemma StartSerial(c: Config, g: Given, s: State, choice: Source, i: nat)
    requires Initial(s) && i < 4
    requires Enabled(c, StartStates(c, s, choice)[i], StartSteps(s, choice)[i])
    ensures Serial(c, g, StartStates(c, s, choice)[i], StartSteps(s, choice)[i])
  {
    hide Enabled, FirstStream;
  }

  lemma StartedReady(c: Config, g: Given, s: State, choice: Source)
    requires Begins(c, g, s) && DistinctKeys(Logs(s, choice)) && c.maxAttempts > 0
    requires forall p | 0 <= p < |Logs(s, choice)| :: Replayable(c, s.target, Logs(s, choice)[p])
    ensures Ready(c, g, Started(c, s, choice), s.nextExec)
  {
    hide SerialInv, LogsOk, KeysOk, Replayable, IsSerialRun, IsRun, Final, DistinctKeys, Clean, Staged;
    hide Begins, Started, FirstStream, StartSteps, Initial;
    BeginsFresh(c, g, s);
    InitialSerial(c, g, s);
    var t := Started(c, s, choice);
    StartIsSerial(c, g, s, choice);
    SerialRunKeepsInv(c, g, s, StartSteps(s, choice));
    StartedShape(c, s, choice);
    forall p | 0 <= p < |Logs(s, choice)|
      ensures Clean(c, t, t.execs[s.nextExec], p) && Staged(c, t, t.execs[s.nextExec], p)
    {
      FirstStaged(c, s, choice, p);
    }
  }

  lemma BeginsFresh(c: Config, g: Given, s: State)
    requires Begins(c, g, s)
    ensures Initial(s) && g.before == s.target
  {
  }

  lemma StartedShape(c: Config, s: State, choice: Source)
    requires Initial(s)
    ensures var t := Started(c, s, choice);
            && Logs(t, SourceOf(t.row)) == Logs(s, choice) && t.row.status == Running && t.reqs == map[]
            && s.nextExec in t.execs && t.execs[s.nextExec] == FirstStream(c, s, choice)
            && t.execs[s.nextExec].Streaming? && t.execs[s.nextExec].task.Idle?
            && t.execs[s.nextExec].source == choice && t.execs[s.nextExec].seen == KafkaSource.Ends(Logs(s, choice))
            && |t.execs[s.nextExec].pos| == |t.execs[s.nextExec].stop| == |t.execs[s.nextExec].seen|
            && |t.execs[s.nextExec].seen| == |Logs(s, choice)|
  {
  }

  /** From a fresh job with distinct keys: if every record of the window succeeds on what those before it
      leave of its table, some serial run replays the whole window of the chosen source and completes. */
  lemma CanComplete(c: Config, g: Given, s: State, choice: Source)
    requires Begins(c, g, s) && DistinctKeys(Logs(s, choice)) && c.maxAttempts > 0
    requires forall p | 0 <= p < |Logs(s, choice)| :: Replayable(c, s.target, Logs(s, choice)[p])
    ensures exists steps | IsSerialRun(c, g, s, steps) && IsRun(c, s, steps) ::
              && Final(c, s, steps).row.status == Completed
              && Final(c, s, steps).finish == Some(Finish(choice, KafkaSource.Ends(Logs(s, choice))))
  {
    hide IsSerialRun, IsRun, Final, Ready, Replayable, LogsOk, KeysOk, Drained, DistinctKeys;
    hide Begins, Started, FirstStream, StartSteps, Initial;
    BeginsFresh(c, g, s);
    StartedReady(c, g, s, choice);
    StartIsSerial(c, g, s, choice);
    StartedShape(c, s, choice);
    var t := Started(c, s, choice);
    var drain := Drain(c, g, t, s.nextExec);
    var done := [Work(s.nextExec, Complete)];
    SerialAppended(c, g, s, StartSteps(s, choice), drain);
    Completes(c, g, Final(c, t, drain), s.nextExec);
    SerialAppended(c, g, s, StartSteps(s, choice) + drain, done);
  }
}
