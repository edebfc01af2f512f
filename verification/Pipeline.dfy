/**
 The durable replay pipeline as a step machine: one job row, any number of
 executors of that job (a lost lease, or a pause followed by a resume, leaves an
 old executor running), the two source logs, the requests inside the replayer,
 the dedup marks and the target.  Every database transaction is one step, and
 every way in which the environment can fail is a step or a step's parameter.
 `applied`, `acked`, `writes`, `failures`, `finish` and `skipped` only record history.
 */
module Pipeline {
  import opened Prelude
  import opened Target
  import opened Jobs
  import opened Windows
  import Dedup
  import KafkaSource

  datatype Config = Config(
    startMs: int, endMs: int, lease: int, ttl: int, maxAttempts: nat, schema: Schema)

  /** An event: the record at one offset of one partition of one source. */
  datatype Ref = Ref(source: Source, part: nat, off: nat)

  /** What the executor is doing between two rounds of its event loop. */
  datatype Task =
    | Idle
    | Sending(part: nat, attempt: nat)
    | Waiting(part: nat, attempt: nat, req: nat)
    | Answered(part: nat, duplicate: bool)
    | GivingUp(part: nat)
    | Pausing

  /** `pos` is the next offset to hand out per partition, `stop` where the stream ends,
      `seen` the length of the log when that end was fixed. */
  datatype Executor =
    | Fetched(pinned: Option<Source>)
    | Recorded(source: Source, checkpoint: map<nat, nat>, lastId: EventId)
    | Streaming(source: Source, pos: seq<nat>, stop: seq<nat>, seen: seq<nat>, lastId: EventId, task: Task)

  /** A ReplayEvent call inside the replayer, between its database accesses. */
  datatype Phase = Arrived | Fresh | Written | Replied(success: bool, duplicate: bool)
  datatype Request = Request(ref: Ref, phase: Phase)

  datatype Finish = Finish(source: Source, seen: seq<nat>)

  datatype State = State(
    now: int, redis: Log, kafka: seq<Log>,
    row: JobRow, execs: map<nat, Executor>, nextExec: nat,
    reqs: map<nat, Request>, nextReq: nat, marks: Dedup.Marks, target: Database,
    applied: set<Ref>, acked: set<Ref>,
    writes: set<(nat, Ref)>, failures: map<nat, Ref>, finish: Option<Finish>, skipped: set<Ref>)

  function Logs(s: State, source: Source): seq<Log> {
    if source.Redis? then [s.redis] else s.kafka
  }

  predicate Valid(s: State, ref: Ref) {
    ref.part < |Logs(s, ref.source)| && ref.off < |Logs(s, ref.source)[ref.part]|
  }

  function RecordAt(s: State, ref: Ref): Record
    requires Valid(s, ref)
  {
    Logs(s, ref.source)[ref.part][ref.off]
  }

  // ---- Opening the stream --------------------------------------------------

  /** The checkpoint handed to `stream_events`, as offsets; `None` when parsing it would fail. */
  function ResumeMap(source: Source, checkpoint: map<nat, nat>, lastId: EventId): Option<map<nat, nat>> {
    match source
    case Redis =>
      (match lastId
       case RedisId(entry) => Some(map[0 := entry])
       case KafkaId(_, _) => None
       case _ => Some(map[]))
    case Kafka =>
      if checkpoint != map[] then Some(checkpoint)
      else match lastId
        case KafkaId(partition, offset) => Some(map[partition := offset])
        case RedisId(_) => None
        case _ => Some(map[])
  }

  /** A commit is read back as progress in its own partition and nothing else: always for a Redis job, and for a
      Kafka job exactly when the map holds something or no other partition's progress is in the flat id alone. */
  lemma ReadBackIff(row: JobRow, duplicate: bool, source: Source, p: nat, off: nat)
    requires ResumeMap(source, row.checkpoint, row.lastProcessedId).Some? && (source.Redis? ==> p == 0)
    ensures var before := ResumeMap(source, row.checkpoint, row.lastProcessedId).value;
            var next := EventCommitted(row, duplicate, source, p, off);
            && ResumeMap(source, next.checkpoint, next.lastProcessedId).Some?
            && (ResumeMap(source, next.checkpoint, next.lastProcessedId).value == before[p := off]
                <==> source.Redis? || row.checkpoint != map[] || before.Keys <= {p})
  {
    var before := ResumeMap(source, row.checkpoint, row.lastProcessedId).value;
    var next := EventCommitted(row, duplicate, source, p, off);
    var after := ResumeMap(source, next.checkpoint, next.lastProcessedId).value;
    if source.Kafka? && row.checkpoint == map[] && !(before.Keys <= {p}) {
      var q :| q in before.Keys && q !in {p};
      assert q in before[p := off] && q !in after;
    }
  }

  /** Otherwise progress is lost: here that of partition 0, known by the flat id alone. */
  lemma FallbackLost()
    ensures var row := NEW_JOB.(lastProcessedId := KafkaId(0, 5));
            var next := EventCommitted(row, false, Kafka, 1, 3);
            && ResumeMap(Kafka, row.checkpoint, row.lastProcessedId) == Some(map[0 := 5])
            && ResumeMap(Kafka, next.checkpoint, next.lastProcessedId) == Some(map[1 := 3])
  {
  }

  /** A flat id alone is read by its own source, and an error for the other. */
  lemma FlatIdRead(source: Source, other: Source, p: nat, off: nat)
    requires source.Redis? ==> p == 0
    ensures ResumeMap(other, map[], EventIdOf(source, p, off))
         == if other == source then Some(map[p := off]) else None
  {
  }

  /** Opening a Kafka stream asks the broker three times; `lookup` and `seek` are the lengths of the
      logs at the first two, and the step itself is the third, the snapshot of the end offsets. */
  predicate Moments(logs: seq<Log>, lookup: seq<nat>, seek: seq<nat>) {
    && |lookup| == |seek| == |logs|
    && forall p | 0 <= p < |logs| :: lookup[p] <= seek[p] <= |logs[p]|
  }

  function Seeks(
    logs: seq<Log>, saved: map<nat, nat>, startMs: int, lookup: seq<nat>, seek: seq<nat>): (pos: seq<nat>)
    requires Moments(logs, lookup, seek)
    ensures |pos| == |logs|
    ensures forall p | 0 <= p < |logs| ::
              pos[p] == KafkaSource.SeekOffset(saved, p, logs[p][..lookup[p]], logs[p][..seek[p]], startMs)
  {
    seq(|logs|, p requires 0 <= p < |logs| =>
      KafkaSource.SeekOffset(saved, p, logs[p][..lookup[p]], logs[p][..seek[p]], startMs))
  }

  /** The records of the window that an opening passes over: those below the offset that a partition
      without a checkpoint is sought to. */
  function Skipped(c: Config, s: State, x: Executor, lookup: seq<nat>, seek: seq<nat>): set<Ref>
    requires x.Recorded? && ResumeMap(x.source, x.checkpoint, x.lastId).Some?
    requires Moments(Logs(s, x.source), lookup, seek)
  {
    var logs, saved := Logs(s, x.source), ResumeMap(x.source, x.checkpoint, x.lastId).value;
    var pos := Seeks(logs, saved, c.startMs, lookup, seek);
    set p: nat, off: nat
      | p < |logs| && p !in saved && off < pos[p] && InWindow(logs[p], c.startMs, c.endMs, off)
      :: Ref(x.source, p, off)
  }

  /** An opening passes over a record of a partition exactly when it misses one there. */
  lemma SkipsIff(c: Config, s: State, x: Executor, lookup: seq<nat>, seek: seq<nat>, p: nat)
    requires x.Recorded? && ResumeMap(x.source, x.checkpoint, x.lastId).Some?
    requires Moments(Logs(s, x.source), lookup, seek)
    requires p < |Logs(s, x.source)| && p !in ResumeMap(x.source, x.checkpoint, x.lastId).value
    ensures (exists off :: Ref(x.source, p, off) in Skipped(c, s, x, lookup, seek))
       <==> KafkaSource.Misses(Logs(s, x.source)[p], lookup[p], seek[p], c.startMs, c.endMs)
  {
    var log, saved := Logs(s, x.source)[p], ResumeMap(x.source, x.checkpoint, x.lastId).value;
    var base := Base(log, c.startMs);
    KafkaSource.SoughtTo(log, saved, p, lookup[p], seek[p], c.startMs);
    if KafkaSource.Misses(log, lookup[p], seek[p], c.startMs, c.endMs) {
      assert InWindow(log, c.startMs, c.endMs, base);
      assert Ref(x.source, p, base) in Skipped(c, s, x, lookup, seek);
    } else if off :| Ref(x.source, p, off) in Skipped(c, s, x, lookup, seek) {
      KafkaSource.NotMissed(log, saved, p, lookup[p], seek[p], c.startMs, c.endMs, off);
      assert false;
    }
  }

  function Stops(logs: seq<Log>, pos: seq<nat>, endMs: int): (stop: seq<nat>)
    requires |pos| == |logs|
    ensures |stop| == |logs|
    ensures forall p | 0 <= p < |logs| :: stop[p] == Stop(logs[p], pos[p], |logs[p]|, endMs)
  {
    seq(|logs|, p requires 0 <= p < |logs| => Stop(logs[p], pos[p], |logs[p]|, endMs))
  }

  function Opened(c: Config, s: State, x: Executor, lookup: seq<nat>, seek: seq<nat>): Executor
    requires x.Recorded? && ResumeMap(x.source, x.checkpoint, x.lastId).Some?
    requires Moments(Logs(s, x.source), lookup, seek)
  {
    var logs := Logs(s, x.source);
    var pos := Seeks(logs, ResumeMap(x.source, x.checkpoint, x.lastId).value, c.startMs, lookup, seek);
    Streaming(x.source, pos, Stops(logs, pos, c.endMs), KafkaSource.Ends(logs), x.lastId, Idle)
  }

  // ---- Steps ---------------------------------------------------------------

  /** What happens around the executors: time, the logs, the dedup cleanup, and the row
      transactions that need no executor (the API, acquisition, lease renewal). */
  datatype WorldStep =
    | Tick(to: int)
    | AppendRedis(e: Record)
    | AppendKafka(part: nat, e: Record)
    | Cleanup
    | Api(call: ApiCall)
    | Acquire(worker: string)
    | Renew(worker: string)

  /** One step of an executor of the job. */
  datatype Action =
    | RecordSource(choice: Source, total: nat)
    | Open(lookup: seq<nat>, seek: seq<nat>)
    | Refill
    | Deliver(part: nat)
    | Shutdown
    | Send
    | Receive
    | Lose
    | Commit
    | CountFailure
    | SavePause
    | Complete
    | Fail
    | Crash

  /** One step of a request inside the replayer. */
  datatype Handling =
    | Check
    | CheckError
    | Write(outcome: Outcome)
    | Mark(stored: bool, reported: bool)
    | Drop

  datatype Step = World(event: WorldStep) | Work(exec: nat, action: Action) | Rpc(req: nat, handling: Handling)

  predicate PartOk(x: Executor, p: nat)
    requires x.Streaming?
  {
    p < |x.pos| && p < |x.stop| && x.pos[p] < x.stop[p]
  }

  /** The event the executor is working on in partition `p`. */
  function Current(x: Executor, p: nat): Ref
    requires x.Streaming? && p < |x.pos|
  {
    Ref(x.source, p, x.pos[p])
  }

  predicate WorldEnabled(s: State, event: WorldStep) {
    match event
    case Tick(to) => s.now <= to
    case AppendKafka(p, _) => p < |s.kafka|
    case Api(call) => ApiResult(s.row, call, s.now).Some?
    case Acquire(_) => Acquirable(s.row, s.now)
    case _ => true
  }

  function WorldNext(c: Config, s: State, event: WorldStep): State
    requires WorldEnabled(s, event)
  {
    match event
    case Tick(to) => s.(now := to)
    case AppendRedis(e) => s.(redis := s.redis + [e])
    case AppendKafka(p, e) => s.(kafka := s.kafka[p := s.kafka[p] + [e]])
    case Cleanup => s.(marks := Dedup.Cleaned(s.marks, s.now))
    case Api(call) => s.(row := ApiResult(s.row, call, s.now).value)
    case Acquire(worker) =>
      s.(row := Acquired(s.row, worker, s.now, c.lease),
         execs := s.execs[s.nextExec := Fetched(s.row.replaySource)], nextExec := s.nextExec + 1)
    case Renew(worker) => s.(row := Renewed(s.row, worker, s.now, c.lease))
  }

  predicate ActionEnabled(c: Config, s: State, x: Executor, action: Action) {
    match action
    case RecordSource(choice, _) => x.Fetched? && (x.pinned.Some? ==> choice == x.pinned.value)
    case Open(lookup, seek) =>
      && x.Recorded? && ResumeMap(x.source, x.checkpoint, x.lastId).Some?
      && Moments(Logs(s, x.source), lookup, seek)
      && (x.source.Redis? ==> lookup == [|s.redis|])
    case Refill =>
      && x.Streaming? && x.task.Idle? && x.source.Redis?
      && x.lastId.RedisId? && x.pos == [x.lastId.entry + 1]
    case Deliver(p) => x.Streaming? && x.task.Idle? && PartOk(x, p)
    case Shutdown => x.Streaming? && x.task.Idle?
    case Send => x.Streaming? && x.task.Sending? && PartOk(x, x.task.part) && x.task.attempt < c.maxAttempts
    case Receive =>
      && x.Streaming? && x.task.Waiting? && PartOk(x, x.task.part)
      && x.task.req in s.reqs && s.reqs[x.task.req].phase.Replied?
    case Lose => x.Streaming? && x.task.Waiting?
    case Commit => x.Streaming? && x.task.Answered? && PartOk(x, x.task.part)
    case CountFailure =>
      x.Streaming? && x.task.Sending? && PartOk(x, x.task.part) && x.task.attempt >= c.maxAttempts
    case SavePause => x.Streaming? && x.task.Pausing?
    case Complete =>
      && x.Streaming? && x.task.Idle? && |x.pos| == |x.stop|
      && forall p | 0 <= p < |x.pos| :: x.pos[p] >= x.stop[p]
    case Fail => true
    case Crash => true
  }

  /** The executor after its step; `None` when the step ends it. */
  function Moved(c: Config, s: State, x: Executor, action: Action): Option<Executor>
    requires ActionEnabled(c, s, x, action)
  {
    match action
    case RecordSource(choice, _) => Some(Recorded(choice, s.row.checkpoint, s.row.lastProcessedId))
    case Open(lookup, seek) => Some(Opened(c, s, x, lookup, seek))
    case Refill => Some(x.(stop := [Stop(s.redis, x.pos[0], |s.redis|, c.endMs)], seen := [|s.redis|]))
    case Deliver(p) =>
      if s.row.status == Cancelled then None
      else Some(x.(task := if s.row.status == Paused then Pausing else Sending(p, 0)))
    case Shutdown => Some(x.(task := Pausing))
    case Send => Some(x.(task := Waiting(x.task.part, x.task.attempt, s.nextReq)))
    case Receive =>
      var reply := s.reqs[x.task.req].phase;
      Some(x.(task := if reply.success || reply.duplicate then Answered(x.task.part, reply.duplicate)
                      else Sending(x.task.part, x.task.attempt + 1)))
    case Lose => Some(x.(task := Sending(x.task.part, x.task.attempt + 1)))
    case Commit =>
      var p := x.task.part;
      Some(x.(pos := x.pos[p := x.pos[p] + 1], lastId := EventIdOf(x.source, p, x.pos[p]), task := Idle))
    case CountFailure => Some(x.(task := GivingUp(x.task.part)))
    case _ => None
  }

  /** What the executor's step does to the job row, in one transaction. */
  function RowNext(c: Config, s: State, x: Executor, action: Action): JobRow
    requires ActionEnabled(c, s, x, action)
  {
    match action
    case RecordSource(choice, total) => SourceRecorded(s.row, choice, total)
    case Commit => EventCommitted(s.row, x.task.duplicate, x.source, x.task.part, x.pos[x.task.part])
    case CountFailure => FailureCounted(s.row)
    case SavePause => PauseSaved(s.row, x.lastId)
    case Complete => CompletedRow(s.row, s.now)
    case Fail => FailedRow(s.row)
    case _ => s.row
  }

  predicate WorkEnabled(c: Config, s: State, exec: nat, action: Action) {
    exec in s.execs && ActionEnabled(c, s, s.execs[exec], action)
  }

  function WorkNext(c: Config, s: State, exec: nat, action: Action): State
    requires WorkEnabled(c, s, exec, action)
  {
    var x := s.execs[exec];
    var moved := Moved(c, s, x, action);
    var next := s.(row := RowNext(c, s, x, action),
                   execs := if moved.Some? then s.execs[exec := moved.value] else s.execs - {exec});
    match action
    case Open(lookup, seek) => next.(skipped := s.skipped + Skipped(c, s, x, lookup, seek))
    case Send => next.(reqs := s.reqs[s.nextReq := Request(Current(x, x.task.part), Arrived)], nextReq := s.nextReq + 1)
    case Receive => next.(reqs := s.reqs - {x.task.req})
    case Commit =>
      var ref := Current(x, x.task.part);
      next.(acked := s.acked + {ref}, writes := s.writes + {(exec, ref)})
    case CountFailure => next.(failures := s.failures[exec := Current(x, x.task.part)])
    case Complete => next.(finish := Some(Finish(x.source, x.seen)))
    case _ => next
  }

  predicate CanWrite(c: Config, s: State, e: Record) {
    Succeeds(Uniques(c.schema, e.table), TableAt(s.target, e.table), e)
  }

  predicate RpcEnabled(c: Config, s: State, req: nat, handling: Handling) {
    && req in s.reqs
    && var q := s.reqs[req];
    match handling
    case Drop => true
    case Check => Valid(s, q.ref) && q.phase.Arrived?
    case CheckError => q.phase.Arrived?
    case Write(outcome) =>
      Valid(s, q.ref) && q.phase.Fresh? && (outcome != Refused ==> CanWrite(c, s, RecordAt(s, q.ref)))
    case Mark(stored, reported) => Valid(s, q.ref) && q.phase.Written? && (reported ==> stored)
  }

  function RpcNext(c: Config, s: State, req: nat, handling: Handling): State
    requires RpcEnabled(c, s, req, handling)
  {
    var q := s.reqs[req];
    match handling
    case Drop => s.(reqs := s.reqs - {req})
    case Check =>
      var known := Dedup.Exists(s.marks, RecordAt(s, q.ref).key, s.now);
      s.(reqs := s.reqs[req := q.(phase := if known then Replied(true, true) else Fresh)])
    case CheckError => s.(reqs := s.reqs[req := q.(phase := Replied(false, false))])
    case Write(outcome) =>
      if outcome.Refused? then s.(reqs := s.reqs[req := q.(phase := Replied(false, false))])
      else s.(reqs := s.reqs[req := q.(phase := if outcome.Done? then Written else Replied(false, false))],
              target := Apply(c.schema, s.target, RecordAt(s, q.ref)), applied := s.applied + {q.ref})
    case Mark(stored, reported) =>
      s.(reqs := s.reqs[req := q.(phase := Replied(reported, false))],
         marks := if stored then s.marks[RecordAt(s, q.ref).key := s.now + c.ttl] else s.marks)
  }

  predicate Enabled(c: Config, s: State, step: Step) {
    match step
    case World(event) => WorldEnabled(s, event)
    case Work(exec, action) => WorkEnabled(c, s, exec, action)
    case Rpc(req, handling) => RpcEnabled(c, s, req, handling)
  }

  function Next(c: Config, s: State, step: Step): State
    requires Enabled(c, s, step)
  {
    match step
    case World(event) => WorldNext(c, s, event)
    case Work(exec, action) => WorkNext(c, s, exec, action)
    case Rpc(req, handling) => RpcNext(c, s, req, handling)
  }

  // ---- Runs ----------------------------------------------------------------

  predicate Initial(s: State) {
    && s.row == NEW_JOB && s.execs == map[] && s.reqs == map[] && s.marks == map[]
    && s.applied == {} && s.acked == {} && s.writes == {} && s.failures == map[] && s.finish == None
    && s.skipped == {}
  }

  predicate IsRun(c: Config, s: State, steps: seq<Step>)
    decreases |steps|
  {
    steps == [] || (Enabled(c, s, steps[0]) && IsRun(c, Next(c, s, steps[0]), steps[1..]))
  }

  function Final(c: Config, s: State, steps: seq<Step>): State
    requires IsRun(c, s, steps)
    decreases |steps|
  {
    if steps == [] then s else Final(c, Next(c, s, steps[0]), steps[1..])
  }

  lemma Prepend(c: Config, s: State, step: Step, rest: seq<Step>)
    requires Enabled(c, s, step) && IsRun(c, Next(c, s, step), rest)
    ensures IsRun(c, s, [step] + rest)
    ensures Final(c, s, [step] + rest) == Final(c, Next(c, s, step), rest)
  {
    assert ([step] + rest)[1..] == rest;
  }

  lemma {:induction false} RunAppended(c: Config, s: State, steps: seq<Step>, more: seq<Step>)
    requires IsRun(c, s, steps) && IsRun(c, Final(c, s, steps), more)
    ensures IsRun(c, s, steps + more)
    ensures Final(c, s, steps + more) == Final(c, Final(c, s, steps), more)
    decreases |steps|
  {
    if steps == [] {
      assert steps + more == more;
    } else {
      assert (steps + more)[1..] == steps[1..] + more;
      RunAppended(c, Next(c, s, steps[0]), steps[1..], more);
    }
  }

  /** These states follow one another by these steps. */
  predicate Follows(c: Config, states: seq<State>, steps: seq<Step>) {
    && |states| == |steps| + 1
    && forall i | 0 <= i < |steps| :: Enabled(c, states[i], steps[i]) && states[i + 1] == Next(c, states[i], steps[i])
  }

  lemma {:induction false} FollowsIsRun(c: Config, states: seq<State>, steps: seq<Step>)
    requires Follows(c, states, steps)
    ensures IsRun(c, states[0], steps) && Final(c, states[0], steps) == states[|steps|]
    decreases |steps|
  {
    if steps != [] {
      hide Next, Enabled;
      FollowsIsRun(c, states[1..], steps[1..]);
    }
  }
}
