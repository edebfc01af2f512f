/**
 What the target holds: with one executor and one attempt at a time, the target of a
 COMPLETED job is, table by table, the in-order fold of the first occurrences in its window,
 whatever crashed, was lost or was retried on the way.  Keys may repeat while the dedup marks
 last; where they are distinct, marks may expire and the fold is that of the whole window.
 */
module ExactlyOnce {
  import opened Prelude
  import opened Target
  import opened Jobs
  import opened Windows
  import opened Pipeline
  import opened Soundness
  import opened Counting
  import opened Alignment
  import Dedup
  import Replayer

  // ---- Hypotheses ----------------------------------------------------------

  /** What a serial run starts from: where each table's records are kept, the target before it, and how
      long every mark made in it lasts at least. */
  datatype Given = Given(part: string -> nat, before: Database, until: int)

  /** The partition of a table in the log of the given source. */
  function Home(part: string -> nat, source: Source, table: string): nat {
    if source.Redis? then 0 else part(table)
  }

  ghost predicate DistinctKeys(logs: seq<Log>) {
    forall p, i, q, j | 0 <= p < |logs| && 0 <= i < |logs[p]| && 0 <= q < |logs| && 0 <= j < |logs[q]| ::
      logs[p][i].key == logs[q][j].key ==> p == q && i == j
  }

  /** Records with one key, an event and its redeliveries, are in one partition. */
  ghost predicate KeysTogether(logs: seq<Log>) {
    forall p, i, q, j | 0 <= p < |logs| && 0 <= i < |logs[p]| && 0 <= q < |logs| && 0 <= j < |logs[q]| ::
      logs[p][i].key == logs[q][j].key ==> p == q
  }

  /** Inserts carry a unique key, and a table's records share its partition, as do those of one key. */
  ghost predicate LogOk(c: Config, part: string -> nat, logs: seq<Log>, source: Source) {
    && (forall table :: Home(part, source, table) < |logs|)
    && (forall p, i | 0 <= p < |logs| && 0 <= i < |logs[p]| ::
          Home(part, source, logs[p][i].table) == p && Repeatable(Uniques(c.schema, logs[p][i].table), logs[p][i]))
    && KeysTogether(logs)
  }

  ghost predicate LogsOk(c: Config, g: Given, s: State) {
    LogOk(c, g.part, Logs(s, Redis), Redis) && LogOk(c, g.part, Logs(s, Kafka), Kafka)
  }

  /** Keys are distinct, or no mark can have expired yet. */
  ghost predicate KeysOk(g: Given, s: State) {
    s.now < g.until || (DistinctKeys(Logs(s, Redis)) && DistinctKeys(Logs(s, Kafka)))
  }

  /** Where nothing was committed, there was nothing to replay. */
  predicate WindowsEnded(c: Config, s: State, x: Executor) {
    x.Streaming? ==>
      forall p | 0 <= p < |x.seen| && p < |Logs(s, x.source)| && Front(s.row, p) == 0 ::
        EmptyWindow(c, Logs(s, x.source)[p], x.seen[p])
  }

  /** Orderly, with well-formed logs; and a job completes only if every partition nothing was committed
      in had an empty window. */
  ghost predicate Serial(c: Config, g: Given, s: State, step: Step)
    requires Enabled(c, s, step)
  {
    && Orderly(c, s, step)
    && match step
       case World(Tick(_)) => KeysOk(g, Next(c, s, step))
       case World(AppendRedis(_)) => LogsOk(c, g, Next(c, s, step)) && KeysOk(g, Next(c, s, step))
       case World(AppendKafka(_, _)) => LogsOk(c, g, Next(c, s, step)) && KeysOk(g, Next(c, s, step))
       case Work(exec, Complete) => WindowsEnded(c, s, s.execs[exec])
       case _ => true
  }

  ghost predicate IsSerialRun(c: Config, g: Given, s: State, steps: seq<Step>)
    decreases |steps|
  {
    steps == [] || (Enabled(c, s, steps[0]) && Serial(c, g, s, steps[0])
                    && IsSerialRun(c, g, Next(c, s, steps[0]), steps[1..]))
  }

  lemma {:induction false} SerialRunIsRun(c: Config, g: Given, s: State, steps: seq<Step>)
    requires IsSerialRun(c, g, s, steps)
    ensures IsRun(c, s, steps)
    decreases |steps|
  {
    if steps != [] {
      SerialRunIsRun(c, g, Next(c, s, steps[0]), steps[1..]);
    }
  }

  // ---- What is remembered ---------------------------------------------------

  /** An event with this key is at or below the stored checkpoint of the partition. */
  predicate Known(c: Config, s: State, p: nat, key: string) {
    && p < |Logs(s, SourceOf(s.row))| && Front(s.row, p) <= |Logs(s, SourceOf(s.row))[p]|
    && Replayer.HasKey(Handled(c, s, p), key)
  }

  predicate MarksHold(c: Config, g: Given, s: State) {
    s.now + c.ttl >= g.until && forall k | k in s.marks :: s.marks[k] >= g.until
  }

  /** While no mark can have expired, the keys of all handled events are marked. */
  ghost predicate KnownMarked(c: Config, g: Given, s: State) {
    s.now < g.until ==> forall p: nat, key | Known(c, s, p, key) :: key in s.marks
  }

  /** A next event that reached the target did so under a key not handled before. */
  predicate AppliedNew(c: Config, s: State) {
    forall p | 0 <= p < |Logs(s, SourceOf(s.row))| && NextRef(c, s, p) in s.applied ::
      Valid(s, NextRef(c, s, p)) && !Known(c, s, p, RecordAt(s, NextRef(c, s, p)).key)
  }

  predicate ReqMemory(c: Config, g: Given, s: State, q: Request) {
    && Valid(s, q.ref)
    && (q.phase.Fresh? || q.phase.Written? ==> !Known(c, s, q.ref.part, RecordAt(s, q.ref).key))
    && (q.phase.Replied? && (q.phase.success || q.phase.duplicate) && s.now < g.until ==>
          RecordAt(s, q.ref).key in s.marks)
  }

  predicate ExecMemory(g: Given, s: State, x: Executor) {
    x.Streaming? && x.task.Answered? && x.task.part < |x.pos| && Valid(s, Current(x, x.task.part)) && s.now < g.until
    ==> RecordAt(s, Current(x, x.task.part)).key in s.marks
  }

  ghost predicate Memory(c: Config, g: Given, s: State) {
    && MarksHold(c, g, s) && KnownMarked(c, g, s) && AppliedNew(c, s)
    && (forall r | r in s.reqs :: ReqMemory(c, g, s, s.reqs[r]))
    && (forall x | x in s.execs :: ExecMemory(g, s, s.execs[x]))
  }

  // ---- What was achieved ----------------------------------------------------

  /** The first occurrences among the handled events of a partition, and the next event too if it
      already reached the target. */
  function Progress(c: Config, s: State, p: nat): seq<Record>
    requires p < |Logs(s, SourceOf(s.row))| && Front(s.row, p) <= |Logs(s, SourceOf(s.row))[p]|
  {
    var log := Logs(s, SourceOf(s.row))[p];
    var done := Replayer.FirstOccurrences(Handled(c, s, p));
    var next := NextOff(c, log, s.row, p);
    if Ref(SourceOf(s.row), p, next) in s.applied && next < |log| then done + [log[next]] else done
  }

  ghost predicate TargetOk(c: Config, g: Given, s: State)
    requires FrontsWithin(s)
  {
    forall table | Home(g.part, SourceOf(s.row), table) < |Logs(s, SourceOf(s.row))| ::
      TableAt(s.target, table)
      == TableAfter(c.schema, TableAt(g.before, table), table, Progress(c, s, Home(g.part, SourceOf(s.row), table)))
  }

  predicate DoneOk(c: Config, s: State)
    requires FrontsWithin(s)
  {
    s.row.status == Completed ==>
      && s.execs == map[] && s.reqs == map[]
      && s.finish.Some? && s.row.replaySource == Some(s.finish.value.source)
      && |s.finish.value.seen| == |Logs(s, s.finish.value.source)|
      && forall p | 0 <= p < |s.finish.value.seen| ::
           && s.finish.value.seen[p] <= |Logs(s, s.finish.value.source)[p]|
           && Progress(c, s, p)
              == Replayer.FirstOccurrences(
                   Window(Logs(s, s.finish.value.source)[p], c.startMs, c.endMs, s.finish.value.seen[p]))
  }

  ghost predicate SerialInv(c: Config, g: Given, s: State) {
    && AlignInv(c, s) && FrontsWithin(s) && LogsOk(c, g, s) && KeysOk(g, s)
    && Memory(c, g, s) && TargetOk(c, g, s) && DoneOk(c, s)
  }

  lemma FirstsSnoc(events: seq<Record>, e: Record)
    ensures var firsts := Replayer.FirstOccurrences(events);
            Replayer.FirstOccurrences(events + [e])
            == if Replayer.HasKey(events, e.key) then firsts else firsts + [e]
  {
    assert (events + [e])[..|events|] == events;
  }

  // ---- Steps that leave the job where it stands ----------------------------

  /** The marks still hold, and while no mark can have expired none was lost. */
  predicate Remembers(c: Config, g: Given, s: State, t: State) {
    MarksHold(c, g, t) && (t.now < g.until ==> s.now < g.until && s.marks.Keys <= t.marks.Keys)
  }

  lemma KnownStays(c: Config, s: State, t: State, p: nat, key: string)
    requires Placed(c, s) && Stays(s, t)
    ensures Known(c, t, p, key) <==> Known(c, s, p, key)
  {
    if p < |Logs(s, SourceOf(s.row))| {
      PartitionStays(c, s, t, p);
    }
  }

  lemma ReqStays(c: Config, g: Given, s: State, t: State, q: Request)
    requires Placed(c, s) && Stays(s, t) && Remembers(c, g, s, t) && ReqMemory(c, g, s, q)
    ensures ReqMemory(c, g, t, q)
  {
    KnownStays(c, s, t, q.ref.part, RecordAt(s, q.ref).key);
  }

  lemma ExecRemembers(c: Config, g: Given, s: State, t: State, x: Executor)
    requires Stays(s, t) && Remembers(c, g, s, t) && ExecMemory(g, s, x)
    requires x.Streaming? && x.task.Answered? && x.task.part < |x.pos| ==> Valid(s, Current(x, x.task.part))
    ensures ExecMemory(g, t, x)
  {
  }

  lemma MemoryStays(c: Config, g: Given, s: State, t: State)
    requires Placed(c, s) && Memory(c, g, s) && Stays(s, t) && Remembers(c, g, s, t)
    requires forall r | r in t.reqs :: ReqMemory(c, g, t, t.reqs[r])
    requires forall x | x in t.execs :: ExecMemory(g, t, t.execs[x])
    ensures Memory(c, g, t)
  {
    hide Placed, Known, ReqMemory, ExecMemory;
    forall p: nat, key ensures Known(c, t, p, key) <==> Known(c, s, p, key) {
      KnownStays(c, s, t, p, key);
    }
    AppliedNewStays(c, s, t);
  }

  lemma AppliedNewStays(c: Config, s: State, t: State)
    requires Placed(c, s) && AppliedNew(c, s) && Stays(s, t)
    ensures AppliedNew(c, t)
  {
    forall p | 0 <= p < |Logs(t, SourceOf(t.row))| && NextRef(c, t, p) in t.applied
      ensures Valid(t, NextRef(c, t, p)) && !Known(c, t, p, RecordAt(t, NextRef(c, t, p)).key)
    {
      PartitionStays(c, s, t, p);
      assert Reached(c, s, NextRef(c, t, p));
      KnownStays(c, s, t, p, RecordAt(t, NextRef(c, t, p)).key);
    }
  }

  lemma ProgressStays(c: Config, s: State, t: State, p: nat)
    requires Placed(c, s) && Stays(s, t) && p < |Logs(s, SourceOf(s.row))|
    ensures Front(t.row, p) == Front(s.row, p) <= |Logs(s, SourceOf(s.row))[p]| <= |Logs(t, SourceOf(t.row))[p]|
    ensures Progress(c, t, p) == Progress(c, s, p)
  {
    PartitionStays(c, s, t, p);
    if NextRef(c, t, p) in s.applied {
      assert Reached(c, s, NextRef(c, t, p));
    }
  }

  lemma WindowGrows(c: Config, log: Log, longer: Log, seen: nat)
    requires log <= longer && seen <= |log|
    ensures Window(longer, c.startMs, c.endMs, seen) == Window(log, c.startMs, c.endMs, seen)
  {
    BaseGrows(log, longer, c.startMs);
    var base := Base(log, c.startMs);
    if base < |log| {
      var stop := Stop(log, base, seen, c.endMs);
      if base <= seen {
        StopUnique(longer, base, seen, c.endMs, stop);
      }
    }
  }

  lemma TargetStays(c: Config, g: Given, s: State, t: State)
    requires Placed(c, s) && FrontsWithin(s) && TargetOk(c, g, s)
    requires Stays(s, t) && FrontsWithin(t) && t.target == s.target
    ensures TargetOk(c, g, t)
  {
    forall table | Home(g.part, SourceOf(t.row), table) < |Logs(t, SourceOf(t.row))|
      ensures TableAt(t.target, table)
           == TableAfter(c.schema, TableAt(g.before, table), table,
                         Progress(c, t, Home(g.part, SourceOf(t.row), table)))
    {
      ProgressStays(c, s, t, Home(g.part, SourceOf(s.row), table));
    }
  }

  lemma DoneStays(c: Config, s: State, t: State)
    requires Placed(c, s) && FrontsWithin(s) && DoneOk(c, s) && Stays(s, t) && FrontsWithin(t)
    requires t.row.status == Completed ==> s.row.status == Completed
    requires t.row.status == Completed ==> t.execs.Keys <= s.execs.Keys
    requires t.reqs.Keys <= s.reqs.Keys && t.finish == s.finish
    ensures DoneOk(c, t)
  {
    if t.row.status != Completed {
      return;
    }
    forall p | 0 <= p < |t.finish.value.seen|
      ensures t.finish.value.seen[p] <= |Logs(t, t.finish.value.source)[p]|
      ensures Progress(c, t, p)
           == Replayer.FirstOccurrences(
                Window(Logs(t, t.finish.value.source)[p], c.startMs, c.endMs, t.finish.value.seen[p]))
    {
      ProgressStays(c, s, t, p);
      WindowGrows(c, Logs(s, s.finish.value.source)[p], Logs(t, s.finish.value.source)[p], s.finish.value.seen[p]);
    }
  }

  lemma LogsKept(c: Config, g: Given, s: State, t: State)
    requires LogsOk(c, g, s) && KeysOk(g, s) && t.redis == s.redis && t.kafka == s.kafka && t.now == s.now
    ensures LogsOk(c, g, t) && KeysOk(g, t)
  {
  }

  lemma SerialParts(c: Config, g: Given, s: State)
    requires SerialInv(c, g, s)
    ensures AlignInv(c, s) && FrontsWithin(s) && Placed(c, s) && LogsOk(c, g, s) && KeysOk(g, s)
    ensures Inv(c, s) && Standing(c, s) && Aligned(c, s)
    ensures Memory(c, g, s) && TargetOk(c, g, s) && DoneOk(c, s)
  {
    hide LogsOk, KeysOk, Memory, TargetOk, DoneOk;
    AlignParts(c, s);
  }

  /** A step that leaves the job where it stands and the target as it is keeps the rest of the invariant. */
  lemma StaysSerial(c: Config, g: Given, s: State, t: State)
    requires SerialInv(c, g, s) && AlignInv(c, t) && Stays(s, t) && t.target == s.target
    requires LogsOk(c, g, t) && KeysOk(g, t) && Memory(c, g, t)
    requires FrontsWithin(t) ==> DoneOk(c, t)
    ensures SerialInv(c, g, t)
  {
    hide LogsOk, KeysOk, Memory, TargetOk, DoneOk, Stays;
    SerialParts(c, g, s);
    AlignParts(c, t);
    TargetStays(c, g, s, t);
  }

  // ---- World steps ---------------------------------------------------------

  lemma WorldLogs(c: Config, g: Given, s: State, event: WorldStep)
    requires LogsOk(c, g, s) && KeysOk(g, s) && Enabled(c, s, World(event)) && Serial(c, g, s, World(event))
    ensures LogsOk(c, g, WorldNext(c, s, event)) && KeysOk(g, WorldNext(c, s, event))
  {
    hide LogOk, DistinctKeys, ApiResult;
  }

  lemma WorldRemembers(c: Config, g: Given, s: State, event: WorldStep)
    requires WorldEnabled(s, event) && MarksHold(c, g, s)
    ensures Remembers(c, g, s, WorldNext(c, s, event))
  {
    hide ApiResult;
  }

  lemma ValidAnswered(c: Config, s: State, x: nat)
    requires Inv(c, s) && x in s.execs
    ensures var e := s.execs[x];
            e.Streaming? && e.task.Answered? && e.task.part < |e.pos| ==> Valid(s, Current(e, e.task.part))
  {
    assert ExecOk(c, s, s.execs[x]);
  }

  /** Steps around the executor, and replies that vanish: the requests and the executors are the old ones. */
  lemma AroundMemory(c: Config, g: Given, s: State, t: State)
    requires Inv(c, s) && Placed(c, s) && Memory(c, g, s) && Stays(s, t) && Remembers(c, g, s, t)
    requires forall r | r in t.reqs :: r in s.reqs && t.reqs[r] == s.reqs[r]
    requires forall x | x in t.execs :: (x in s.execs && t.execs[x] == s.execs[x]) || !t.execs[x].Streaming?
    ensures Memory(c, g, t)
  {
    hide Inv, Placed, Stays, Remembers, ReqMemory, KnownMarked, AppliedNew, MarksHold;
    forall r | r in t.reqs ensures ReqMemory(c, g, t, t.reqs[r]) {
      ReqStays(c, g, s, t, s.reqs[r]);
    }
    forall x | x in t.execs ensures ExecMemory(g, t, t.execs[x]) {
      if x in s.execs && t.execs[x] == s.execs[x] {
        ValidAnswered(c, s, x);
        ExecRemembers(c, g, s, t, s.execs[x]);
      }
    }
    MemoryStays(c, g, s, t);
  }

  lemma WorldKeepsSerial(c: Config, g: Given, s: State, event: WorldStep)
    requires SerialInv(c, g, s) && Enabled(c, s, World(event)) && Serial(c, g, s, World(event))
    ensures SerialInv(c, g, WorldNext(c, s, event))
  {
    var t := WorldNext(c, s, event);
    WorldKeepsAlign(c, s, event);
    WorldStays(c, s, event);
    WorldFrame(c, s, event);
    WorldLogs(c, g, s, event);
    OnlyAcquireAdds(c, s, event);
    hide SerialInv, AlignInv, LogsOk, KeysOk, Memory, TargetOk, DoneOk, Stays, RowStays, WorldNext, Serial, Remembers;
    hide Inv, Standing, Aligned, Placed;
    SerialParts(c, g, s);
    MemoryMarks(c, g, s);
    WorldRemembers(c, g, s, event);
    AroundMemory(c, g, s, t);
    AlignParts(c, t);
    DoneStays(c, s, t);
    StaysSerial(c, g, s, t);
  }

  lemma MemoryMarks(c: Config, g: Given, s: State)
    requires Memory(c, g, s)
    ensures MarksHold(c, g, s)
  {
  }

  // ---- Steps of the executor -----------------------------------------------

  /** The executor's answer is remembered: it is that of a request that replied. */
  lemma WorkMemory(c: Config, g: Given, s: State, t: State, exec: nat, action: Action)
    requires Inv(c, s) && Standing(c, s) && Aligned(c, s) && Memory(c, g, s)
    requires WorkEnabled(c, s, exec, action) && Worked(c, s, t, exec, action) && t.now == s.now
    requires !action.Commit? && Stays(s, t)
    ensures Memory(c, g, t)
  {
    hide Inv, Standing, Aligned, ReqMemory, KnownMarked, AppliedNew, Stays, RowNext, Opened, Skipped, ExecMemory;
    AlignedPlaced(c, s);
    assert Remembers(c, g, s, t);
    hide Remembers, MarksHold;
    forall r | r in t.reqs ensures ReqMemory(c, g, t, t.reqs[r]) {
      if r in s.reqs && t.reqs[r] == s.reqs[r] {
        ReqStays(c, g, s, t, s.reqs[r]);
      } else {
        SentMemory(c, g, s, t, exec, action);
      }
    }
    forall x | x in t.execs ensures ExecMemory(g, t, t.execs[x]) {
      if x != exec {
        ValidAnswered(c, s, x);
        ExecRemembers(c, g, s, t, s.execs[x]);
      } else {
        MovedMemory(c, g, s, t, exec, action);
      }
    }
    MemoryStays(c, g, s, t);
  }

  lemma SentMemory(c: Config, g: Given, s: State, t: State, exec: nat, action: Action)
    requires Inv(c, s) && WorkEnabled(c, s, exec, action) && Worked(c, s, t, exec, action) && action.Send?
    ensures s.nextReq in t.reqs && ReqMemory(c, g, t, t.reqs[s.nextReq])
  {
    assert ExecOk(c, s, s.execs[exec]);
    assert PartitionOk(c, s, s.execs[exec], s.execs[exec].task.part);
  }

  lemma MovedMemory(c: Config, g: Given, s: State, t: State, exec: nat, action: Action)
    requires Inv(c, s) && Memory(c, g, s) && WorkEnabled(c, s, exec, action) && Worked(c, s, t, exec, action)
    requires t.now == s.now && !action.Commit? && exec in t.execs
    ensures ExecMemory(g, t, t.execs[exec])
  {
    hide KnownMarked, AppliedNew, MarksHold, RowNext, StreamOk, MapOk, IdOk, HistoryOk, FinishOk, KeyApplied, Known;
    if action.Receive? {
      var x := s.execs[exec];
      assert ExecOk(c, s, x) && ReqMemory(c, g, s, s.reqs[x.task.req]);
    }
  }

  // ---- Completion ----------------------------------------------------------

  lemma PartitionDone(c: Config, s: State, x: Executor, p: nat)
    requires Placed(c, s) && x.Streaming? && StreamOk(c, s, x) && StreamPlaced(c, s, x) && StreamAhead(c, s, x)
    requires WindowsEnded(c, s, x)
    requires p < |x.pos| && x.pos[p] >= x.stop[p]
    ensures x.seen[p] <= |Logs(s, x.source)[p]|
    ensures Front(s.row, p) <= |Logs(s, x.source)[p]| && NextRef(c, s, p) !in s.applied
    ensures Handled(c, s, p) == Window(Logs(s, x.source)[p], c.startMs, c.endMs, x.seen[p])
  {
    var log := Logs(s, x.source)[p];
    var base, stop := Base(log, c.startMs), x.stop[p];
    assert PartitionOk(c, s, x, p) && PartitionPlaced(c, s, x, p) && Ahead(c, s, x, p);
    assert FrontOk(c, log, Front(s.row, p));
    if Front(s.row, p) > 0 {
      assert NextRef(c, s, p) !in s.applied;
      StopUnique(log, base, x.seen[p], c.endMs, stop);
    } else {
      assert EmptyWindow(c, log, x.seen[p]);
      assert Handled(c, s, p) == [] && NextRef(c, s, p) !in s.applied;
    }
  }

  lemma CompleteDone(c: Config, s: State, t: State, exec: nat)
    requires Inv(c, s) && Standing(c, s) && Aligned(c, s)
    requires WorkEnabled(c, s, exec, Complete) && Worked(c, s, t, exec, Complete)
    requires Stays(s, t) && FrontsWithin(t) && WindowsEnded(c, s, s.execs[exec])
    ensures DoneOk(c, t)
  {
    hide Inv, StreamOk, StreamAhead, Reached, RowStays, PartitionPlaced, Window, WindowsEnded;
    var x := s.execs[exec];
    AlignedOf(c, s, exec);
    AlignedPlaced(c, s);
    assert t.execs == map[];
    SameLengths(s, t, x);
    forall p | 0 <= p < |x.seen|
      ensures x.seen[p] <= |Logs(t, x.source)[p]|
      ensures Progress(c, t, p)
           == Replayer.FirstOccurrences(Window(Logs(t, x.source)[p], c.startMs, c.endMs, x.seen[p]))
    {
      PartitionDone(c, s, x, p);
      ProgressStays(c, s, t, p);
    }
  }

  lemma SameLengths(s: State, t: State, x: Executor)
    requires x.Streaming? && Stays(s, t)
    ensures |Logs(t, x.source)| == |Logs(s, x.source)| && t.row.replaySource == s.row.replaySource
  {
  }

  lemma WorkNotDone(c: Config, s: State, t: State, exec: nat, action: Action)
    requires FrontsWithin(s) && FrontsWithin(t) && DoneOk(c, s) && WorkEnabled(c, s, exec, action)
    requires t.row.status == Completed ==> s.row.status == Completed
    ensures DoneOk(c, t)
  {
  }

  lemma QuietWorkKeepsSerial(c: Config, g: Given, s: State, exec: nat, action: Action)
    requires SerialInv(c, g, s) && Enabled(c, s, Work(exec, action)) && Serial(c, g, s, Work(exec, action))
    requires !action.Commit? && (action.RecordSource? ==> s.row.replaySource.Some?)
    ensures SerialInv(c, g, WorkNext(c, s, exec, action))
  {
    hide SerialInv, AlignInv, LogsOk, KeysOk, Memory, TargetOk, DoneOk, Stays, RowStays, WorkNext;
    hide Inv, Standing, Aligned, Placed, WindowsEnded;
    var t := WorkNext(c, s, exec, action);
    SerialParts(c, g, s);
    WorkKeepsAlign(c, s, exec, action);
    WorkFrame(c, s, exec, action);
    WorkTime(c, s, exec, action);
    LogsKept(c, g, s, t);
    WorkMemory(c, g, s, t, exec, action);
    AlignParts(c, t);
    if action.Complete? {
      CompleteDone(c, s, t, exec);
    } else {
      WorkNotDone(c, s, t, exec, action);
    }
    StaysSerial(c, g, s, t);
  }

  lemma WorkTime(c: Config, s: State, exec: nat, action: Action)
    requires WorkEnabled(c, s, exec, action)
    ensures WorkNext(c, s, exec, action).now == s.now
  {
    hide Moved, RowNext;
  }

  // ---- Choosing the source -------------------------------------------------

  lemma SourceChosen(c: Config, g: Given, s: State, exec: nat, action: Action)
    requires SerialInv(c, g, s) && WorkEnabled(c, s, exec, action)
    requires action.RecordSource? && s.row.replaySource.None?
    ensures SerialInv(c, g, WorkNext(c, s, exec, action))
  {
    hide AlignInv, LogOk, TableAfter, Inv, Standing, Aligned, DistinctKeys, Placed;
    var t := WorkNext(c, s, exec, action);
    SourceChosenAligned(c, s, exec, action);
    SerialParts(c, g, s);
    AlignParts(c, t);
    Untouched(c, s);
    NothingYet(c, s);
    NothingYet(c, t);
    forall table | Home(g.part, SourceOf(t.row), table) < |Logs(t, SourceOf(t.row))|
      ensures TableAt(t.target, table)
           == TableAfter(c.schema, TableAt(g.before, table), table,
                         Progress(c, t, Home(g.part, SourceOf(t.row), table)))
    {
      assert Home(g.part, SourceOf(s.row), table) == 0;
    }
  }

  lemma Untouched(c: Config, s: State)
    requires Standing(c, s) && s.row.replaySource.None?
    ensures s.row.checkpoint == map[] && !s.row.lastProcessedId.RedisId?
    ensures forall x | x in s.execs :: s.execs[x] == Fetched(None)
  {
    forall x | x in s.execs ensures s.execs[x] == Fetched(None) {
      assert ExecPlaced(c, s, s.execs[x]);
    }
  }

  lemma NothingYet(c: Config, s: State)
    requires s.row.checkpoint == map[] && !s.row.lastProcessedId.RedisId? && s.applied == {}
    ensures forall p | 0 <= p < |Logs(s, SourceOf(s.row))| :: Front(s.row, p) == 0 && Progress(c, s, p) == []
    ensures forall p: nat, key :: !Known(c, s, p, key)
  {
    NothingHandled(c, s);
  }

  // ---- Committing an event -------------------------------------------------

  /** An event of the window below the next one is handled. */
  lemma EarlierKnown(c: Config, s: State, p: nat, off: nat)
    requires FrontsWithin(s) && p < |Logs(s, SourceOf(s.row))|
    requires Base(Logs(s, SourceOf(s.row))[p], c.startMs) <= off < NextRef(c, s, p).off
    requires off < |Logs(s, SourceOf(s.row))[p]|
    ensures Known(c, s, p, Logs(s, SourceOf(s.row))[p][off].key)
  {
    hide Front;
    var log := Logs(s, SourceOf(s.row))[p];
    assert Handled(c, s, p)[off - Base(log, c.startMs)] == log[off];
  }

  lemma SamePartition(logs: seq<Log>, p: nat, i: nat, q: nat, j: nat)
    requires KeysTogether(logs) && p < |logs| && i < |logs[p]| && q < |logs| && j < |logs[q]|
    requires logs[p][i].key == logs[q][j].key
    ensures p == q
  {
  }

  /** An acknowledged key belongs to the event itself, which was applied, or to one handled before. */
  lemma AppliedOrKnown(c: Config, s: State, ref: Ref)
    requires Placed(c, s) && FrontsWithin(s)
    requires KeysTogether(Logs(s, ref.source)) && s.row.replaySource == Some(ref.source)
    requires Valid(s, ref) && ref == NextRef(c, s, ref.part) && KeyApplied(s, RecordAt(s, ref).key)
    ensures ref in s.applied || Known(c, s, ref.part, RecordAt(s, ref).key)
  {
    hide KeysTogether, FrontsWithin, FrontsOk, Front, Known;
    var other :| other in s.applied && Valid(s, other) && RecordAt(s, other).key == RecordAt(s, ref).key;
    assert Reached(c, s, other);
    SamePartition(Logs(s, ref.source), other.part, other.off, ref.part, ref.off);
    if other != ref {
      EarlierKnown(c, s, ref.part, other.off);
    }
  }

  /** The row moves past an event that reached the target, or one whose key was handled before. */
  predicate Advanced(c: Config, s: State, t: State, source: Source, p: nat, off: nat, duplicate: bool) {
    && Passed(c, s, t, source, p, off, duplicate) && t.applied == s.applied
    && (Ref(source, p, off) in s.applied || Known(c, s, p, Logs(s, source)[p][off].key))
  }

  lemma PartitionAdvanced(
    c: Config, s: State, t: State, source: Source, p: nat, off: nat, duplicate: bool, q: nat)
    requires FrontsOk(c, s) && AppliedNew(c, s) && Advanced(c, s, t, source, p, off, duplicate) && q < |Logs(s, source)|
    requires NextRef(c, t, p) !in t.applied
    ensures SourceOf(s.row) == SourceOf(t.row) == source
    ensures Front(t.row, q) <= |Logs(s, source)[q]| && Front(s.row, q) <= |Logs(s, source)[q]|
    ensures Progress(c, t, q) == Progress(c, s, q)
  {
    hide EventCommitted, Front;
    PartitionPassed(c, s, t, source, p, off, duplicate, q);
    PassedAt(c, s, t, source, p, off, duplicate);
    if q == p {
      FirstsSnoc(Handled(c, s, p), Logs(s, source)[p][off]);
    }
  }

  lemma TargetAdvanced(c: Config, g: Given, s: State, t: State, source: Source, p: nat, off: nat, duplicate: bool)
    requires FrontsOk(c, s) && FrontsWithin(s) && AppliedNew(c, s) && TargetOk(c, g, s) && t.target == s.target
    requires Advanced(c, s, t, source, p, off, duplicate) && FrontsWithin(t) && SourceOf(t.row) == source
    requires p < |Logs(t, SourceOf(t.row))| && NextRef(c, t, p) !in t.applied
    ensures TargetOk(c, g, t)
  {
    hide EventCommitted, Front, AppliedNew, Known, Progress;
    forall table | Home(g.part, SourceOf(t.row), table) < |Logs(t, SourceOf(t.row))|
      ensures TableAt(t.target, table)
           == TableAfter(c.schema, TableAt(g.before, table), table,
                         Progress(c, t, Home(g.part, SourceOf(t.row), table)))
    {
      PartitionAdvanced(c, s, t, source, p, off, duplicate, Home(g.part, source, table));
    }
  }

  lemma CommitAdvances(c: Config, s: State, t: State, exec: nat)
    requires Inv(c, s) && Standing(c, s) && Aligned(c, s) && FrontsWithin(s)
    requires KeysTogether(Logs(s, SourceOf(s.row)))
    requires WorkEnabled(c, s, exec, Commit) && Worked(c, s, t, exec, Commit)
    ensures var x := s.execs[exec];
            Advanced(c, s, t, x.source, x.task.part, x.pos[x.task.part], x.task.duplicate)
  {
    hide Inv, Standing, FrontsOk, Passed, StreamAhead, StreamOk, KeysTogether, EventCommitted, Reached, NextRef;
    hide FromBase, Known;
    var x := s.execs[exec];
    AlignedOf(c, s, exec);
    AnsweredFromBase(c, s, exec);
    CommitPasses(c, s, t, exec);
    CurrentReached(c, s, exec, x.task.part);
    SourceIs(c, s, exec);
    AlignedPlaced(c, s);
    AppliedOrKnown(c, s, Current(x, x.task.part));
  }

  lemma KnownPassed(
    c: Config, s: State, t: State, source: Source, p: nat, off: nat, duplicate: bool, q: nat, key: string)
    requires FrontsOk(c, s) && Passed(c, s, t, source, p, off, duplicate) && Known(c, t, q, key)
    ensures Known(c, s, q, key) || (q == p && key == Logs(s, source)[p][off].key)
  {
    hide EventCommitted, Front, Handled, FrontOk;
    PassedAt(c, s, t, source, p, off, duplicate);
    PartitionPassed(c, s, t, source, p, off, duplicate, q);
    FrontsFit(c, s);
    if q == p {
      Replayer.HasKeySnoc(Handled(c, s, p), Logs(s, source)[p][off], key);
    }
  }

  lemma AppliedNewPassed(
    c: Config, s: State, t: State, source: Source, p: nat, off: nat, duplicate: bool)
    requires FrontsOk(c, s) && AppliedNew(c, s) && Passed(c, s, t, source, p, off, duplicate)
    requires t.applied == s.applied && p < |Logs(t, SourceOf(t.row))| && NextRef(c, t, p) !in t.applied
    ensures AppliedNew(c, t)
  {
    hide EventCommitted, Front, Handled, FrontOk;
    PassedAt(c, s, t, source, p, off, duplicate);
    forall q | 0 <= q < |Logs(t, SourceOf(t.row))| && NextRef(c, t, q) in t.applied
      ensures Valid(t, NextRef(c, t, q)) && !Known(c, t, q, RecordAt(t, NextRef(c, t, q)).key)
    {
      PartitionPassed(c, s, t, source, p, off, duplicate, q);
    }
  }

  lemma CommitMemory(c: Config, g: Given, s: State, t: State, exec: nat)
    requires Inv(c, s) && Standing(c, s) && Aligned(c, s) && Memory(c, g, s)
    requires WorkEnabled(c, s, exec, Commit) && Worked(c, s, t, exec, Commit) && t.now == s.now
    requires s.execs[exec].task.part < |Logs(t, SourceOf(t.row))|
    requires NextRef(c, t, s.execs[exec].task.part) !in t.applied
    ensures Memory(c, g, t)
  {
    hide Inv, Standing, Aligned, EventCommitted, Known, Passed, FromBase, AppliedNew;
    var x := s.execs[exec];
    var p, off := x.task.part, x.pos[x.task.part];
    AnsweredFromBase(c, s, exec);
    CommitPasses(c, s, t, exec);
    AlignedPlaced(c, s);
    CurrentReached(c, s, exec, p);
    SourceIs(c, s, exec);
    AppliedNewPassed(c, s, t, x.source, p, off, x.task.duplicate);
    assert ExecMemory(g, s, x);
    assert Valid(s, Current(x, p));
    forall q: nat, key | Known(c, t, q, key) && t.now < g.until ensures key in t.marks {
      KnownPassed(c, s, t, x.source, p, off, x.task.duplicate, q, key);
    }
    assert t.reqs == map[];
    OnlyIdle(c, s, t, exec);
  }

  lemma OnlyIdle(c: Config, s: State, t: State, exec: nat)
    requires Standing(c, s) && WorkEnabled(c, s, exec, Commit) && Worked(c, s, t, exec, Commit)
    ensures forall x | x in t.execs :: t.execs[x].Streaming? && t.execs[x].task.Idle?
  {
    assert forall other | other in t.execs :: other == exec;
  }

  lemma CommitKeepsSerial(c: Config, g: Given, s: State, exec: nat)
    requires SerialInv(c, g, s) && WorkEnabled(c, s, exec, Commit)
    ensures SerialInv(c, g, WorkNext(c, s, exec, Commit))
  {
    hide AlignInv, Aligned, Placed, FrontsOk, FrontsWithin, TargetOk, DoneOk, Advanced, WorkNext, LogOk, Inv, Standing;
    hide Memory, KeysOk;
    var t := WorkNext(c, s, exec, Commit);
    var x := s.execs[exec];
    var p := x.task.part;
    SerialParts(c, g, s);
    AlignParts(c, s);
    CommitKeepsAlign(c, s, exec);
    AlignParts(c, t);
    WorkFrame(c, s, exec, Commit);
    WorkTime(c, s, exec, Commit);
    LogsKept(c, g, s, t);
    KeysAreTogether(c, g, s);
    CommitAdvances(c, s, t, exec);
    NextUnapplied(c, s, t, exec);
    CommitMemory(c, g, s, t, exec);
    MemoryNew(c, g, s);
    TargetAdvanced(c, g, s, t, x.source, p, x.pos[p], x.task.duplicate);
    WorkNotDone(c, s, t, exec, Commit);
  }

  lemma MemoryNew(c: Config, g: Given, s: State)
    requires Memory(c, g, s)
    ensures AppliedNew(c, s)
  {
  }

  lemma KeysAreTogether(c: Config, g: Given, s: State)
    requires LogsOk(c, g, s)
    ensures KeysTogether(Logs(s, SourceOf(s.row)))
  {
  }

  lemma NextUnapplied(c: Config, s: State, t: State, exec: nat)
    requires Inv(c, s) && Standing(c, s) && Aligned(c, s) && FrontsOk(c, t)
    requires WorkEnabled(c, s, exec, Commit) && Worked(c, s, t, exec, Commit)
    ensures var x := s.execs[exec];
            && SourceOf(t.row) == x.source && x.task.part < |Logs(t, SourceOf(t.row))|
            && NextRef(c, t, x.task.part) !in t.applied && t.row.status == s.row.status
  {
    hide Inv, Standing, Aligned, Passed, FromBase, Front;
    var x := s.execs[exec];
    AnsweredFromBase(c, s, exec);
    AlignedPlaced(c, s);
    CommitPasses(c, s, t, exec);
    SourceIs(c, s, exec);
    PassedAt(c, s, t, x.source, x.task.part, x.pos[x.task.part], x.task.duplicate);
    PlacedPassed(c, s, t, x.source, x.task.part, x.pos[x.task.part], x.task.duplicate);
  }

  lemma WorkKeepsSerial(c: Config, g: Given, s: State, exec: nat, action: Action)
    requires SerialInv(c, g, s) && Enabled(c, s, Work(exec, action)) && Serial(c, g, s, Work(exec, action))
    ensures SerialInv(c, g, WorkNext(c, s, exec, action))
  {
    hide SerialInv;
    if action.RecordSource? && s.row.replaySource.None? {
      SourceChosen(c, g, s, exec, action);
    } else if action.Commit? {
      CommitKeepsSerial(c, g, s, exec);
    } else {
      QuietWorkKeepsSerial(c, g, s, exec, action);
    }
  }

  // ---- Requests that write nothing -----------------------------------------

  /** Two records of one partition with one key are one, where keys are distinct. */
  lemma NotKnownWhenDistinct(c: Config, s: State, ref: Ref)
    requires DistinctKeys(Logs(s, SourceOf(s.row))) && Valid(s, ref) && ref.source == SourceOf(s.row)
    requires ref.off >= Front(s.row, ref.part)
    ensures !Known(c, s, ref.part, RecordAt(s, ref).key)
  {
    var log := Logs(s, ref.source)[ref.part];
    if Front(s.row, ref.part) <= |log| {
      var handled := Handled(c, s, ref.part);
      forall i | 0 <= i < |handled| ensures handled[i].key != log[ref.off].key {
        OtherKey(Logs(s, ref.source), ref.part, Base(log, c.startMs) + i, ref.part, ref.off);
      }
    }
  }

  lemma OtherKey(logs: seq<Log>, p: nat, i: nat, q: nat, j: nat)
    requires DistinctKeys(logs) && p < |logs| && i < |logs[p]| && q < |logs| && j < |logs[q]| && (p != q || i != j)
    ensures logs[p][i].key != logs[q][j].key
  {
  }

  /** A check that finds no mark found an event whose key was not handled before. */
  lemma UnmarkedIsNew(c: Config, g: Given, s: State, ref: Ref)
    requires KeysOk(g, s) && Memory(c, g, s) && Valid(s, ref) && ref.source == SourceOf(s.row)
    requires ref == NextRef(c, s, ref.part) && !Dedup.Exists(s.marks, RecordAt(s, ref).key, s.now)
    ensures !Known(c, s, ref.part, RecordAt(s, ref).key)
  {
    hide Known, AppliedNew;
    if s.now >= g.until {
      NotKnownWhenDistinct(c, s, ref);
    }
  }

  lemma RpcRemembers(c: Config, g: Given, s: State, req: nat, handling: Handling)
    requires RpcEnabled(c, s, req, handling) && MarksHold(c, g, s)
    ensures Remembers(c, g, s, RpcNext(c, s, req, handling))
  {
    hide CanWrite, Apply;
  }

  lemma HandledMemory(c: Config, g: Given, s: State, req: nat, handling: Handling)
    requires Memory(c, g, s) && RpcEnabled(c, s, req, handling)
    requires !(handling.Write? && handling.outcome != Refused)
    requires Valid(s, s.reqs[req].ref) && s.reqs[req].ref.source == SourceOf(s.row)
    requires s.reqs[req].ref == NextRef(c, s, s.reqs[req].ref.part) && KeysOk(g, s)
    ensures var t := RpcNext(c, s, req, handling);
            req in t.reqs ==> ReqMemory(c, g, t, t.reqs[req])
  {
    hide Known, KnownMarked, AppliedNew, KeysOk, CanWrite, MarksHold;
    var t := RpcNext(c, s, req, handling);
    var ref := s.reqs[req].ref;
    assert ReqMemory(c, g, s, s.reqs[req]);
    KnownWritten(c, s, t, ref.part, RecordAt(s, ref).key);
    if handling.Check? && !Dedup.Exists(s.marks, RecordAt(s, ref).key, s.now) {
      UnmarkedIsNew(c, g, s, ref);
    }
  }

  lemma RpcMemory(c: Config, g: Given, s: State, req: nat, handling: Handling)
    requires Inv(c, s) && Aligned(c, s) && Memory(c, g, s) && KeysOk(g, s) && RpcEnabled(c, s, req, handling)
    requires !(handling.Write? && handling.outcome != Refused)
    requires Stays(s, RpcNext(c, s, req, handling))
    ensures Memory(c, g, RpcNext(c, s, req, handling))
  {
    hide Inv, Known, KnownMarked, AppliedNew, KeysOk, Reached, Stays, RpcNext, CanWrite, Remembers, MarksHold;
    hide ReqMemory, ExecMemory, Aligned;
    var t := RpcNext(c, s, req, handling);
    MemoryMarks(c, g, s);
    RpcRemembers(c, g, s, req, handling);
    RequestNext(c, s, req);
    HandledMemory(c, g, s, req, handling);
    RpcFrame(c, s, req, handling);
    AlignedPlaced(c, s);
    forall r | r in t.reqs ensures ReqMemory(c, g, t, t.reqs[r]) {
      if r != req {
        ReqStays(c, g, s, t, s.reqs[r]);
      }
    }
    forall x | x in t.execs ensures ExecMemory(g, t, t.execs[x]) {
      ValidAnswered(c, s, x);
      ExecRemembers(c, g, s, t, s.execs[x]);
    }
    MemoryStays(c, g, s, t);
  }

  lemma RpcQuiet(c: Config, g: Given, s: State, req: nat, handling: Handling)
    requires SerialInv(c, g, s) && RpcEnabled(c, s, req, handling)
    requires !(handling.Write? && handling.outcome != Refused)
    ensures SerialInv(c, g, RpcNext(c, s, req, handling))
  {
    hide SerialInv, AlignInv, LogsOk, KeysOk, Memory, TargetOk, DoneOk, Stays, RowStays, RpcNext, RpcEnabled;
    hide Inv, Standing, Aligned, Placed;
    var t := RpcNext(c, s, req, handling);
    SerialParts(c, g, s);
    RpcKeepsAlign(c, s, req, handling);
    RpcFrame(c, s, req, handling);
    RpcStays(c, s, req, handling);
    RpcTime(c, s, req, handling);
    LogsKept(c, g, s, t);
    RpcMemory(c, g, s, req, handling);
    AlignParts(c, t);
    DoneStays(c, s, t);
    StaysSerial(c, g, s, t);
  }

  lemma RpcTime(c: Config, s: State, req: nat, handling: Handling)
    requires RpcEnabled(c, s, req, handling)
    ensures RpcNext(c, s, req, handling).now == s.now
  {
    hide CanWrite, Apply;
  }

  // ---- Writing to the target -----------------------------------------------

  /** The next event of a partition reaches the target: for the first time, or once more. */
  lemma ProgressWritten(c: Config, s: State, t: State, ref: Ref, p: nat)
    requires Placed(c, s) && FrontsWithin(s) && Wrote(c, s, t, ref) && p < |Logs(s, SourceOf(s.row))|
    ensures var firsts := Replayer.FirstOccurrences(Handled(c, s, p));
            && (p != ref.part || ref in s.applied ==> Progress(c, t, p) == Progress(c, s, p))
            && (p == ref.part ==> Progress(c, t, p) == firsts + [RecordAt(s, ref)])
            && (ref !in s.applied && p == ref.part ==> Progress(c, s, p) == firsts)
  {
  }

  lemma TableWritten(c: Config, was: Table, table: string, s: State, t: State, ref: Ref, p: nat)
    requires Placed(c, s) && FrontsWithin(s) && Wrote(c, s, t, ref) && p < |Logs(s, SourceOf(s.row))|
    requires RecordAt(s, ref).table == table ==> p == ref.part
    requires Repeatable(Uniques(c.schema, RecordAt(s, ref).table), RecordAt(s, ref))
    ensures var e, now := RecordAt(s, ref), TableAfter(c.schema, was, table, Progress(c, s, p));
            TableAfter(c.schema, was, table, Progress(c, t, p))
            == if e.table == table then Effect(Uniques(c.schema, table), now, e) else now
  {
    var e, firsts := RecordAt(s, ref), Replayer.FirstOccurrences(Handled(c, s, p));
    ProgressWritten(c, s, t, ref, p);
    if p == ref.part {
      TableAfterSnoc(c.schema, was, table, firsts, e);
      if table == e.table && ref in s.applied {
        EffectTwice(Uniques(c.schema, table), TableAfter(c.schema, was, table, firsts), e);
      }
    }
  }

  lemma TargetWritten(c: Config, g: Given, s: State, t: State, ref: Ref)
    requires Placed(c, s) && FrontsWithin(s) && TargetOk(c, g, s) && Wrote(c, s, t, ref) && FrontsWithin(t)
    requires Home(g.part, ref.source, RecordAt(s, ref).table) == ref.part
    requires Repeatable(Uniques(c.schema, RecordAt(s, ref).table), RecordAt(s, ref))
    requires t.target == Apply(c.schema, s.target, RecordAt(s, ref))
    ensures TargetOk(c, g, t)
  {
    hide Effect, Repeatable, TableAfter, Progress;
    forall table | Home(g.part, SourceOf(t.row), table) < |Logs(t, SourceOf(t.row))|
      ensures TableAt(t.target, table)
           == TableAfter(c.schema, TableAt(g.before, table), table,
                         Progress(c, t, Home(g.part, SourceOf(t.row), table)))
    {
      TableWritten(c, TableAt(g.before, table), table, s, t, ref, Home(g.part, ref.source, table));
    }
  }

  /** Where a request's event lives, and that writing it twice is harmless. */
  lemma PlacedByTable(c: Config, part: string -> nat, logs: seq<Log>, source: Source, p: nat, i: nat)
    requires LogOk(c, part, logs, source) && p < |logs| && i < |logs[p]|
    ensures Home(part, source, logs[p][i].table) == p && Repeatable(Uniques(c.schema, logs[p][i].table), logs[p][i])
  {
  }

  lemma WrittenNotDone(c: Config, s: State, t: State, req: nat)
    requires FrontsWithin(s) && DoneOk(c, s) && req in s.reqs && t.row == s.row && FrontsWithin(t)
    ensures DoneOk(c, t)
  {
  }

  lemma KnownWritten(c: Config, s: State, t: State, p: nat, key: string)
    requires t.row == s.row && t.redis == s.redis && t.kafka == s.kafka
    ensures Known(c, t, p, key) <==> Known(c, s, p, key)
  {
  }

  lemma AppliedNewWritten(c: Config, s: State, t: State, ref: Ref)
    requires AppliedNew(c, s) && Wrote(c, s, t, ref)
    requires Valid(s, ref) && !Known(c, s, ref.part, RecordAt(s, ref).key)
    ensures AppliedNew(c, t)
  {
    hide Reached;
    forall p | 0 <= p < |Logs(t, SourceOf(t.row))| && NextRef(c, t, p) in t.applied
      ensures Valid(t, NextRef(c, t, p)) && !Known(c, t, p, RecordAt(t, NextRef(c, t, p)).key)
    {
      assert NextRef(c, t, p) == NextRef(c, s, p);
      KnownWritten(c, s, t, p, RecordAt(s, NextRef(c, s, p)).key);
    }
  }

  lemma KnownMarkedWritten(c: Config, g: Given, s: State, t: State)
    requires KnownMarked(c, g, s) && t.marks == s.marks && t.now == s.now
    requires t.row == s.row && t.redis == s.redis && t.kafka == s.kafka
    ensures KnownMarked(c, g, t)
  {
    hide Known;
    forall p: nat, key ensures Known(c, t, p, key) <==> Known(c, s, p, key) {
      KnownWritten(c, s, t, p, key);
    }
  }

  lemma ReqWritten(c: Config, g: Given, s: State, t: State, q: Request)
    requires ReqMemory(c, g, s, q) && t.marks == s.marks && t.now == s.now
    requires t.row == s.row && t.redis == s.redis && t.kafka == s.kafka
    ensures ReqMemory(c, g, t, q)
  {
    hide Known;
    KnownWritten(c, s, t, q.ref.part, RecordAt(s, q.ref).key);
  }

  lemma WriteMemory(c: Config, g: Given, s: State, t: State, req: nat)
    requires Memory(c, g, s) && req in s.reqs && s.reqs[req].phase.Fresh? && Wrote(c, s, t, s.reqs[req].ref)
    requires t.marks == s.marks && t.now == s.now && t.reqs.Keys == s.reqs.Keys
    requires forall r | r in t.reqs && r != req :: t.reqs[r] == s.reqs[r]
    requires t.reqs[req].ref == s.reqs[req].ref
    requires t.reqs[req].phase.Written? || t.reqs[req].phase == Replied(false, false)
    ensures Memory(c, g, t)
  {
    hide Known, Reached, KnownMarked, AppliedNew, NextRef;
    assert ReqMemory(c, g, s, s.reqs[req]);
    KnownMarkedWritten(c, g, s, t);
    AppliedNewWritten(c, s, t, s.reqs[req].ref);
    forall r | r in t.reqs ensures ReqMemory(c, g, t, t.reqs[r]) {
      ReqWritten(c, g, s, t, s.reqs[r]);
    }
    hide ReqMemory, Wrote;
    ExecsWritten(g, s, t);
  }

  lemma ExecsWritten(g: Given, s: State, t: State)
    requires forall x | x in s.execs :: ExecMemory(g, s, s.execs[x])
    requires t.execs == s.execs && t.redis == s.redis && t.kafka == s.kafka && t.marks == s.marks && t.now == s.now
    ensures forall x | x in t.execs :: ExecMemory(g, t, t.execs[x])
  {
    forall x | x in t.execs ensures ExecMemory(g, t, t.execs[x]) {
      assert ExecMemory(g, s, s.execs[x]);
    }
  }

  lemma RpcWrites(c: Config, g: Given, s: State, req: nat, outcome: Outcome)
    requires SerialInv(c, g, s) && RpcEnabled(c, s, req, Write(outcome)) && outcome != Refused
    ensures SerialInv(c, g, RpcNext(c, s, req, Write(outcome)))
  {
    hide AlignInv, LogOk, Aligned, Placed, FrontsOk, TargetOk, DoneOk, Wrote, Reached, RpcNext, Repeatable, Apply;
    hide Succeeds, Inv, Standing, Memory, KeysOk, FrontsWithin;
    var t := RpcNext(c, s, req, Write(outcome));
    var ref := s.reqs[req].ref;
    SerialParts(c, g, s);
    WriteKeepsAlign(c, s, req, outcome);
    AlignParts(c, t);
    RequestNext(c, s, req);
    RpcFrame(c, s, req, Write(outcome));
    WriteFrame(c, s, req, outcome);
    PlacedByTable(c, g.part, Logs(s, ref.source), ref.source, ref.part, ref.off);
    TargetWritten(c, g, s, t, ref);
    LogsKept(c, g, s, t);
    WriteMemory(c, g, s, t, req);
    WrittenNotDone(c, s, t, req);
  }

  // ---- Whole runs ----------------------------------------------------------

  lemma StepKeepsSerial(c: Config, g: Given, s: State, step: Step)
    requires SerialInv(c, g, s) && Enabled(c, s, step) && Serial(c, g, s, step)
    ensures SerialInv(c, g, Next(c, s, step))
  {
    hide SerialInv;
    match step
    case World(event) => WorldKeepsSerial(c, g, s, event);
    case Work(exec, action) => WorkKeepsSerial(c, g, s, exec, action);
    case Rpc(req, handling) =>
      if handling.Write? && handling.outcome != Refused {
        RpcWrites(c, g, s, req, handling.outcome);
      } else {
        RpcQuiet(c, g, s, req, handling);
      }
  }

  /** A fresh job with well-formed logs, and marks that will last until `g.until` at least. */
  ghost predicate Begins(c: Config, g: Given, s: State) {
    Initial(s) && LogsOk(c, g, s) && KeysOk(g, s) && g.before == s.target && g.until <= s.now + c.ttl
  }

  lemma InitialSerial(c: Config, g: Given, s: State)
    requires Begins(c, g, s)
    ensures SerialInv(c, g, s)
  {
    hide Inv, Standing, LogsOk, KeysOk;
    InitialAlign(c, s);
    AlignParts(c, s);
    NothingYet(c, s);
  }

  lemma {:induction false} SerialRunKeepsInv(c: Config, g: Given, s: State, steps: seq<Step>)
    requires SerialInv(c, g, s) && IsSerialRun(c, g, s, steps)
    ensures IsRun(c, s, steps) && SerialInv(c, g, Final(c, s, steps))
    decreases |steps|
  {
    if steps != [] {
      hide SerialInv, Serial;
      StepKeepsSerial(c, g, s, steps[0]);
      SerialRunKeepsInv(c, g, Next(c, s, steps[0]), steps[1..]);
    }
  }

  /** What the finishing executor saw of the log of the job's source. */
  predicate Finished(s: State) {
    && s.finish.Some? && |s.finish.value.seen| == |Logs(s, s.finish.value.source)|
    && forall p | 0 <= p < |s.finish.value.seen| :: s.finish.value.seen[p] <= |Logs(s, s.finish.value.source)[p]|
  }

  /** The in-range records of one partition, in the finishing executor's snapshot. */
  function FinalWindow(c: Config, s: State, p: nat): seq<Record>
    requires Finished(s) && p < |s.finish.value.seen|
  {
    Window(Logs(s, s.finish.value.source)[p], c.startMs, c.endMs, s.finish.value.seen[p])
  }

  lemma DoneTarget(c: Config, g: Given, t: State, table: string)
    requires FrontsWithin(t) && DoneOk(c, t) && TargetOk(c, g, t) && t.row.status == Completed
    requires LogsOk(c, g, t)
    ensures Finished(t) && Home(g.part, t.finish.value.source, table) < |t.finish.value.seen|
    ensures TableAt(t.target, table)
         == TableAfter(c.schema, TableAt(g.before, table), table,
                       Replayer.FirstOccurrences(FinalWindow(c, t, Home(g.part, t.finish.value.source, table))))
  {
  }

  /** Exactly-once effect: the target of a COMPLETED job is, table by table, the in-order fold of the first
      occurrences in its window, keys repeated or not, as long as no mark expires or keys are distinct. */
  lemma ExactlyOnceEffect(c: Config, g: Given, s: State, steps: seq<Step>, table: string)
    requires Begins(c, g, s) && IsSerialRun(c, g, s, steps)
    ensures IsRun(c, s, steps)
    ensures var t := Final(c, s, steps);
            t.row.status == Completed ==>
            && Finished(t) && Home(g.part, t.finish.value.source, table) < |t.finish.value.seen|
            && TableAt(t.target, table)
               == TableAfter(c.schema, TableAt(s.target, table), table,
                             Replayer.FirstOccurrences(FinalWindow(c, t, Home(g.part, t.finish.value.source, table))))
  {
    InitialSerial(c, g, s);
    SerialRunKeepsInv(c, g, s, steps);
    hide Inv, Standing, Aligned, AlignInv, FrontsOk, TargetOk, DoneOk, Memory, KeysOk, LogsOk;
    hide IsSerialRun, Final, IsRun;
    var t := Final(c, s, steps);
    if t.row.status == Completed {
      SerialParts(c, g, t);
      DoneTarget(c, g, t, table);
    }
  }

  lemma {:induction false} FirstsOfDistinct(events: seq<Record>)
    requires forall i, j | 0 <= i < j < |events| :: events[i].key != events[j].key
    ensures Replayer.FirstOccurrences(events) == events
  {
    if events != [] {
      var n := |events| - 1;
      FirstsOfDistinct(events[..n]);
      assert events[..n] + [events[n]] == events;
    }
  }

  lemma WindowDistinct(c: Config, logs: seq<Log>, p: nat, seen: nat)
    requires DistinctKeys(logs) && p < |logs| && seen <= |logs[p]|
    ensures var w := Window(logs[p], c.startMs, c.endMs, seen);
            Replayer.FirstOccurrences(w) == w
  {
    var base := Base(logs[p], c.startMs);
    var w := Window(logs[p], c.startMs, c.endMs, seen);
    forall i, j | 0 <= i < j < |w| ensures w[i].key != w[j].key {
      assert logs[p][base + i].key != logs[p][base + j].key;
    }
    FirstsOfDistinct(w);
  }

  /** Where keys are distinct, the target is the fold of the whole window. */
  lemma DistinctEffect(c: Config, g: Given, s: State, steps: seq<Step>, table: string)
    requires Begins(c, g, s) && IsSerialRun(c, g, s, steps) && IsRun(c, s, steps)
    requires var t := Final(c, s, steps);
             t.row.status == Completed && Finished(t) && DistinctKeys(Logs(t, t.finish.value.source))
    ensures var t := Final(c, s, steps);
            && Home(g.part, t.finish.value.source, table) < |t.finish.value.seen|
            && TableAt(t.target, table)
               == TableAfter(c.schema, TableAt(s.target, table), table,
                             FinalWindow(c, t, Home(g.part, t.finish.value.source, table)))
  {
    hide IsSerialRun, Final, IsRun, Begins, DistinctKeys;
    ExactlyOnceEffect(c, g, s, steps, table);
    var t := Final(c, s, steps);
    var p := Home(g.part, t.finish.value.source, table);
    WindowDistinct(c, Logs(t, t.finish.value.source), p, t.finish.value.seen[p]);
  }

  /** ... and so it equals the replay of any single order of the events that keeps each partition's order. */
  lemma AnyGlobalOrder(c: Config, g: Given, s: State, steps: seq<Step>, order: seq<Record>, table: string)
    requires Begins(c, g, s) && IsSerialRun(c, g, s, steps)
    requires IsRun(c, s, steps) && Final(c, s, steps).row.status == Completed && Finished(Final(c, s, steps))
    requires var t := Final(c, s, steps);
             forall p: nat | p < |t.finish.value.seen| ::
               Partition(tbl => Home(g.part, t.finish.value.source, tbl), order, p)
               == Replayer.FirstOccurrences(FinalWindow(c, t, p))
    ensures TableAt(Final(c, s, steps).target, table) == TableAt(Replay(c.schema, s.target, order), table)
  {
    var t := Final(c, s, steps);
    var home := tbl => Home(g.part, t.finish.value.source, tbl);
    ExactlyOnceEffect(c, g, s, steps, table);
    ReplayByTable(c.schema, s.target, order, table);
    OwnPartitionSuffices(c.schema, home, TableAt(s.target, table), table, order);
  }
}
