/**
 What the pipeline keeps with any number of executors at once: every checkpoint
 has all earlier in-range events acknowledged, every acknowledged event was
 applied, a COMPLETED job covers its window, and no executor passes an event it
 gave up on.
 */
module Soundness {
  import opened Prelude
  import opened Target
  import opened Jobs
  import opened Windows
  import opened Pipeline
  import KafkaSource

  // ---- The invariant -------------------------------------------------------

  /** Every in-range event of the partition below `upTo` is acknowledged, or some opening passed over it. */
  predicate Covered(c: Config, s: State, source: Source, p: nat, upTo: nat) {
    && p < |Logs(s, source)| && upTo <= |Logs(s, source)[p]|
    && forall off: nat | off < upTo && InWindow(Logs(s, source)[p], c.startMs, c.endMs, off) ::
         Ref(source, p, off) in s.acked + s.skipped
  }

  /** Some event with this idempotency key was applied to the target. */
  ghost predicate KeyApplied(s: State, key: string) {
    exists ref | ref in s.applied :: Valid(s, ref) && RecordAt(s, ref).key == key
  }

  predicate MapOk(c: Config, s: State, checkpoint: map<nat, nat>) {
    forall p | p in checkpoint :: Covered(c, s, Kafka, p, checkpoint[p] + 1)
  }

  predicate IdOk(c: Config, s: State, id: EventId) {
    match id
    case RedisId(entry) => Covered(c, s, Redis, 0, entry + 1)
    case KafkaId(p, off) => Covered(c, s, Kafka, p, off + 1)
    case _ => true
  }

  predicate PartitionOk(c: Config, s: State, x: Executor, p: nat)
    requires x.Streaming? && p < |x.pos| && p < |x.stop| && p < |x.seen| && p < |Logs(s, x.source)|
  {
    var log := Logs(s, x.source)[p];
    && x.pos[p] <= x.stop[p] <= x.seen[p] <= |log|
    && Covered(c, s, x.source, p, x.pos[p])
    && (x.stop[p] < x.seen[p] ==> Above(log[x.stop[p]], c.endMs))
    && forall i | x.pos[p] <= i < x.stop[p] :: !Above(log[i], c.endMs)
  }

  predicate StreamOk(c: Config, s: State, x: Executor)
    requires x.Streaming?
  {
    && |x.pos| == |x.stop| == |x.seen| == |Logs(s, x.source)|
    && IdOk(c, s, x.lastId)
    && forall p | 0 <= p < |x.pos| :: PartitionOk(c, s, x, p)
  }

  ghost predicate TaskOk(s: State, x: Executor)
    requires x.Streaming?
  {
    match x.task
    case Waiting(p, _, r) => PartOk(x, p) && r < s.nextReq && (r in s.reqs ==> s.reqs[r].ref == Current(x, p))
    case Answered(p, _) => PartOk(x, p) && Valid(s, Current(x, p)) && KeyApplied(s, RecordAt(s, Current(x, p)).key)
    case _ => true
  }

  ghost predicate ExecOk(c: Config, s: State, x: Executor) {
    match x
    case Fetched(_) => true
    case Recorded(_, checkpoint, lastId) => MapOk(c, s, checkpoint) && IdOk(c, s, lastId)
    case Streaming(_, _, _, _, _, _) => StreamOk(c, s, x) && TaskOk(s, x)
  }

  ghost predicate ReqOk(s: State, q: Request) {
    && Valid(s, q.ref)
    && (q.phase.Written? || (q.phase.Replied? && (q.phase.success || q.phase.duplicate)) ==>
          KeyApplied(s, RecordAt(s, q.ref).key))
  }

  predicate FinishOk(c: Config, s: State, f: Finish) {
    && |f.seen| == |Logs(s, f.source)|
    && forall p | 0 <= p < |f.seen| ::
         && f.seen[p] <= |Logs(s, f.source)[p]|
         && forall off: nat | off < f.seen[p] && InWindow(Logs(s, f.source)[p], c.startMs, c.endMs, off) ::
              Ref(f.source, p, off) in s.acked + s.skipped
  }

  /** An executor's commits stay behind its position, and behind the event it gave up on. */
  predicate HistoryOk(s: State) {
    && (forall w | w in s.writes && w.0 in s.execs ::
          var x := s.execs[w.0];
          x.Streaming? && w.1.source == x.source && w.1.part < |x.pos| && w.1.off < x.pos[w.1.part])
    && (forall x | x in s.failures && x in s.execs :: s.execs[x].Streaming? && s.execs[x].task.GivingUp?)
    && (forall w | w in s.writes && w.0 in s.failures ::
          w.1.source == s.failures[w.0].source
          && (w.1.part == s.failures[w.0].part ==> w.1.off < s.failures[w.0].off))
    && (forall w | w in s.writes :: w.0 < s.nextExec)
    && (forall x | x in s.failures :: x < s.nextExec)
    && (forall x | x in s.execs :: x < s.nextExec)
  }

  ghost predicate Inv(c: Config, s: State) {
    && MapOk(c, s, s.row.checkpoint) && IdOk(c, s, s.row.lastProcessedId)
    && (forall x | x in s.execs :: ExecOk(c, s, s.execs[x]))
    && (forall r | r in s.reqs :: r < s.nextReq && ReqOk(s, s.reqs[r]))
    && (forall k | k in s.marks :: KeyApplied(s, k))
    && (forall ref | ref in s.applied :: Valid(s, ref))
    && (forall ref | ref in s.acked :: Valid(s, ref) && KeyApplied(s, RecordAt(s, ref).key))
    && (s.finish.Some? ==> FinishOk(c, s, s.finish.value))
    && (s.row.status == Completed ==> s.finish.Some?)
    && HistoryOk(s)
  }

  // ---- What no step takes back ---------------------------------------------

  predicate Grows(s: State, t: State) {
    && s.redis <= t.redis
    && |s.kafka| == |t.kafka| && (forall p | 0 <= p < |s.kafka| :: s.kafka[p] <= t.kafka[p])
    && s.acked <= t.acked && s.applied <= t.applied
    && s.nextReq <= t.nextReq && s.skipped <= t.skipped
  }

  lemma WorldGrows(c: Config, s: State, event: WorldStep)
    requires WorldEnabled(s, event)
    ensures Grows(s, WorldNext(c, s, event))
  {
  }

  lemma RpcGrows(c: Config, s: State, req: nat, handling: Handling)
    requires RpcEnabled(c, s, req, handling)
    ensures Grows(s, RpcNext(c, s, req, handling))
  {
  }

  lemma CoveredGrows(c: Config, s: State, t: State, source: Source, p: nat, upTo: nat)
    requires Grows(s, t) && Covered(c, s, source, p, upTo)
    ensures Covered(c, t, source, p, upTo)
  {
    var log, longer := Logs(s, source)[p], Logs(t, source)[p];
    BaseGrows(log, longer, c.startMs);
    forall off: nat | off < upTo && InWindow(longer, c.startMs, c.endMs, off)
      ensures InWindow(log, c.startMs, c.endMs, off)
    {
      assert forall j | 0 <= j < |log| :: longer[j] == log[j];
    }
  }

  lemma KeyAppliedGrows(s: State, t: State, key: string)
    requires Grows(s, t) && KeyApplied(s, key)
    ensures KeyApplied(t, key)
  {
    var ref :| ref in s.applied && Valid(s, ref) && RecordAt(s, ref).key == key;
    assert RecordAt(t, ref) == RecordAt(s, ref);
  }

  lemma MapOkGrows(c: Config, s: State, t: State, checkpoint: map<nat, nat>)
    requires Grows(s, t) && MapOk(c, s, checkpoint)
    ensures MapOk(c, t, checkpoint)
  {
    forall p | p in checkpoint ensures Covered(c, t, Kafka, p, checkpoint[p] + 1) {
      CoveredGrows(c, s, t, Kafka, p, checkpoint[p] + 1);
    }
  }

  lemma IdOkGrows(c: Config, s: State, t: State, id: EventId)
    requires Grows(s, t) && IdOk(c, s, id)
    ensures IdOk(c, t, id)
  {
    match id
    case RedisId(entry) => CoveredGrows(c, s, t, Redis, 0, entry + 1);
    case KafkaId(p, off) => CoveredGrows(c, s, t, Kafka, p, off + 1);
    case _ =>
  }

  lemma StreamOkGrows(c: Config, s: State, t: State, x: Executor)
    requires x.Streaming? && Grows(s, t) && StreamOk(c, s, x)
    ensures StreamOk(c, t, x)
  {
    IdOkGrows(c, s, t, x.lastId);
    forall p | 0 <= p < |x.pos| ensures PartitionOk(c, t, x, p) {
      assert PartitionOk(c, s, x, p);
      CoveredGrows(c, s, t, x.source, p, x.pos[p]);
    }
  }

  lemma ExecOkGrows(c: Config, s: State, t: State, x: Executor)
    requires Grows(s, t) && ExecOk(c, s, x)
    requires forall r | r in t.reqs && r < s.nextReq :: r in s.reqs && t.reqs[r].ref == s.reqs[r].ref
    ensures ExecOk(c, t, x)
  {
    match x
    case Fetched(_) =>
    case Recorded(_, checkpoint, lastId) => MapOkGrows(c, s, t, checkpoint); IdOkGrows(c, s, t, lastId);
    case Streaming(_, _, _, _, _, _) =>
      StreamOkGrows(c, s, t, x);
      if x.task.Answered? {
        KeyAppliedGrows(s, t, RecordAt(s, Current(x, x.task.part)).key);
      }
  }

  lemma ReqOkGrows(s: State, t: State, q: Request)
    requires Grows(s, t) && ReqOk(s, q)
    ensures ReqOk(t, q)
  {
    if KeyApplied(s, RecordAt(s, q.ref).key) {
      KeyAppliedGrows(s, t, RecordAt(s, q.ref).key);
    }
  }

  lemma FinishOkGrows(c: Config, s: State, t: State, f: Finish)
    requires Grows(s, t) && FinishOk(c, s, f)
    ensures FinishOk(c, t, f)
  {
    forall p, off: nat | 0 <= p < |f.seen| && off < f.seen[p] && InWindow(Logs(t, f.source)[p], c.startMs, c.endMs, off)
      ensures Ref(f.source, p, off) in t.acked + t.skipped
    {
      BaseGrows(Logs(s, f.source)[p], Logs(t, f.source)[p], c.startMs);
      assert InWindow(Logs(s, f.source)[p], c.startMs, c.endMs, off);
    }
  }

  /** Everything the invariant says of the pieces of `s` still holds of them in `t`. */
  lemma PiecesKept(c: Config, s: State, t: State)
    requires Inv(c, s) && Grows(s, t)
    ensures MapOk(c, t, s.row.checkpoint) && IdOk(c, t, s.row.lastProcessedId)
    ensures forall r | r in s.reqs :: ReqOk(t, s.reqs[r])
    ensures forall k | k in s.marks :: KeyApplied(t, k)
    ensures forall ref | ref in s.applied :: Valid(t, ref)
    ensures forall ref | ref in s.acked :: Valid(t, ref) && KeyApplied(t, RecordAt(t, ref).key)
    ensures s.finish.Some? ==> FinishOk(c, t, s.finish.value)
  {
    MapOkGrows(c, s, t, s.row.checkpoint);
    IdOkGrows(c, s, t, s.row.lastProcessedId);
    forall r | r in s.reqs ensures ReqOk(t, s.reqs[r]) {
      ReqOkGrows(s, t, s.reqs[r]);
    }
    forall k | k in s.marks ensures KeyApplied(t, k) {
      KeyAppliedGrows(s, t, k);
    }
    forall ref | ref in s.acked ensures Valid(t, ref) && KeyApplied(t, RecordAt(t, ref).key) {
      KeyAppliedGrows(s, t, RecordAt(s, ref).key);
    }
    if s.finish.Some? {
      FinishOkGrows(c, s, t, s.finish.value);
    }
  }

  lemma ExecutorsKept(c: Config, s: State, t: State)
    requires Inv(c, s) && Grows(s, t)
    requires forall r | r in t.reqs && r < s.nextReq :: r in s.reqs && t.reqs[r].ref == s.reqs[r].ref
    ensures forall x | x in s.execs :: ExecOk(c, t, s.execs[x])
  {
    forall x | x in s.execs ensures ExecOk(c, t, s.execs[x]) {
      ExecOkGrows(c, s, t, s.execs[x]);
    }
  }

  // ---- World steps ---------------------------------------------------------

  lemma ApiFrame(row: JobRow, call: ApiCall, now: int)
    requires ApiResult(row, call, now).Some?
    ensures var next := ApiResult(row, call, now).value;
            && next.checkpoint == row.checkpoint && next.lastProcessedId == row.lastProcessedId
            && next.replaySource == row.replaySource && next.eventsProcessed == row.eventsProcessed
            && next.eventsSkippedDedup == row.eventsSkippedDedup
            && (next.status == Completed <==> row.status == Completed)
  {
  }

  lemma WorldFrame(c: Config, s: State, event: WorldStep)
    requires WorldEnabled(s, event)
    ensures var t := WorldNext(c, s, event);
            && t.row.checkpoint == s.row.checkpoint && t.row.lastProcessedId == s.row.lastProcessedId
            && (t.row.status == Completed ==> s.row.status == Completed)
            && t.reqs == s.reqs && t.nextReq == s.nextReq && t.marks.Keys <= s.marks.Keys
            && t.applied == s.applied && t.acked == s.acked && t.writes == s.writes
            && t.failures == s.failures && t.finish == s.finish && t.skipped == s.skipped
            && ((t.execs == s.execs && t.nextExec == s.nextExec)
                || (t.execs == s.execs[s.nextExec := Fetched(s.row.replaySource)] && t.nextExec == s.nextExec + 1))
  {
    if event.Api? {
      ApiFrame(s.row, event.call, s.now);
    }
  }

  /** A step that commits nothing, with at most one executor more, keeps the history. */
  lemma SameHistory(s: State, t: State)
    requires HistoryOk(s) && t.writes == s.writes && t.failures == s.failures
    requires (t.execs == s.execs && t.nextExec == s.nextExec)
          || (t.execs == s.execs[s.nextExec := Fetched(s.row.replaySource)] && t.nextExec == s.nextExec + 1)
    ensures HistoryOk(t)
  {
  }

  lemma WorldKeepsInv(c: Config, s: State, event: WorldStep)
    requires Inv(c, s) && WorldEnabled(s, event)
    ensures Inv(c, WorldNext(c, s, event))
  {
    hide WorldNext, Grows, MapOk, IdOk, FinishOk, ReqOk, KeyApplied, Valid, RecordAt, HistoryOk, ApiResult;
    var t := WorldNext(c, s, event);
    WorldGrows(c, s, event);
    WorldFrame(c, s, event);
    PiecesKept(c, s, t);
    ExecutorsKept(c, s, t);
    SameHistory(s, t);
  }

  // ---- Steps of an executor ------------------------------------------------

  /** The checkpoint map that a stream is opened with is sound, whichever column it came from. */
  lemma ResumeMapOk(c: Config, s: State, x: Executor, p: nat)
    requires x.Recorded? && MapOk(c, s, x.checkpoint) && IdOk(c, s, x.lastId)
    requires ResumeMap(x.source, x.checkpoint, x.lastId).Some?
    requires p in ResumeMap(x.source, x.checkpoint, x.lastId).value
    ensures Covered(c, s, x.source, p, ResumeMap(x.source, x.checkpoint, x.lastId).value[p] + 1)
  {
  }

  lemma OpenedOk(c: Config, s: State, x: Executor, lookup: seq<nat>, seek: seq<nat>)
    requires x.Recorded? && MapOk(c, s, x.checkpoint) && IdOk(c, s, x.lastId)
    requires ResumeMap(x.source, x.checkpoint, x.lastId).Some? && Moments(Logs(s, x.source), lookup, seek)
    requires Skipped(c, s, x, lookup, seek) <= s.skipped
    ensures ExecOk(c, s, Opened(c, s, x, lookup, seek))
  {
    var y := Opened(c, s, x, lookup, seek);
    var saved := ResumeMap(x.source, x.checkpoint, x.lastId).value;
    forall p | 0 <= p < |y.pos| ensures PartitionOk(c, s, y, p) {
      var log := Logs(s, x.source)[p];
      assert y.pos[p] == KafkaSource.SeekOffset(saved, p, log[..lookup[p]], log[..seek[p]], c.startMs);
      if p in saved {
        ResumeMapOk(c, s, x, p);
      } else {
        forall off: nat | off < y.pos[p] && InWindow(log, c.startMs, c.endMs, off)
          ensures Ref(x.source, p, off) in s.skipped
        {
          assert Ref(x.source, p, off) in Skipped(c, s, x, lookup, seek);
        }
      }
    }
  }

  /** How a step of an executor changes the state, field by field. */
  predicate Worked(c: Config, s: State, t: State, exec: nat, action: Action)
    requires WorkEnabled(c, s, exec, action)
  {
    var x := s.execs[exec];
    && Grows(s, t)
    && t.row == RowNext(c, s, x, action)
    && t.marks == s.marks && t.applied == s.applied && t.target == s.target && t.nextExec == s.nextExec
    && t.redis == s.redis && t.kafka == s.kafka
    && (forall other | other in t.execs && other != exec :: other in s.execs && t.execs[other] == s.execs[other])
    && (exec in t.execs <==> Moved(c, s, x, action).Some?)
    && (exec in t.execs ==> t.execs[exec] == Moved(c, s, x, action).value)
    && (if action.Commit?
        then t.acked == s.acked + {Current(x, x.task.part)} && t.writes == s.writes + {(exec, Current(x, x.task.part))}
        else t.acked == s.acked && t.writes == s.writes)
    && (if action.CountFailure? then t.failures == s.failures[exec := Current(x, x.task.part)]
        else t.failures == s.failures)
    && t.skipped == s.skipped + (if action.Open? then Skipped(c, s, x, action.lookup, action.seek) else {})
    && (if action.Complete? then t.finish == Some(Finish(x.source, x.seen)) else t.finish == s.finish)
    && (if action.Send?
        then t.reqs == s.reqs[s.nextReq := Request(Current(x, x.task.part), Arrived)] && t.nextReq == s.nextReq + 1
        else t.nextReq == s.nextReq)
    && (action.Receive? ==> t.reqs == s.reqs - {x.task.req})
    && (!action.Send? && !action.Receive? ==> t.reqs == s.reqs)
  }

  lemma WorkFrame(c: Config, s: State, exec: nat, action: Action)
    requires WorkEnabled(c, s, exec, action)
    ensures Worked(c, s, WorkNext(c, s, exec, action), exec, action)
  {
    hide Moved, RowNext, Opened, Skipped, ResumeMap, Moments;
  }

  /** The steps that only move an executor to another task. */
  predicate Retasks(action: Action) {
    action.Deliver? || action.Shutdown? || action.Send? || action.Receive? || action.Lose? || action.CountFailure?
  }

  lemma RetaskedOk(c: Config, t: State, x: Executor, task: Task)
    requires x.Streaming? && StreamOk(c, t, x) && TaskOk(t, x.(task := task))
    ensures ExecOk(c, t, x.(task := task))
  {
    forall p | 0 <= p < |x.pos| ensures PartitionOk(c, t, x.(task := task), p) {
      assert PartitionOk(c, t, x, p);
    }
  }

  lemma AnsweredOk(c: Config, s: State, exec: nat)
    requires Inv(c, s) && WorkEnabled(c, s, exec, Receive)
    ensures TaskOk(s, Moved(c, s, s.execs[exec], Receive).value)
  {
    var x := s.execs[exec];
    assert ExecOk(c, s, x) && ReqOk(s, s.reqs[x.task.req]);
  }

  lemma AdvancedOk(c: Config, t: State, x: Executor, p: nat)
    requires x.Streaming? && StreamOk(c, t, x) && PartOk(x, p) && Current(x, p) in t.acked
    ensures Covered(c, t, x.source, p, x.pos[p] + 1)
    ensures ExecOk(c, t, x.(pos := x.pos[p := x.pos[p] + 1], lastId := EventIdOf(x.source, p, x.pos[p]), task := Idle))
  {
    var y := x.(pos := x.pos[p := x.pos[p] + 1], lastId := EventIdOf(x.source, p, x.pos[p]), task := Idle);
    assert PartitionOk(c, t, x, p);
    assert Covered(c, t, x.source, p, x.pos[p] + 1);
    forall q | 0 <= q < |y.pos| ensures PartitionOk(c, t, y, q) {
      assert PartitionOk(c, t, x, q);
    }
  }

  lemma RefilledOk(c: Config, t: State, x: Executor)
    requires x.Streaming? && x.source.Redis? && StreamOk(c, t, x) && x.task.Idle?
    ensures ExecOk(c, t, x.(stop := [Stop(t.redis, x.pos[0], |t.redis|, c.endMs)], seen := [|t.redis|]))
  {
    assert PartitionOk(c, t, x, 0);
  }

  lemma RetaskingOk(c: Config, s: State, t: State, exec: nat, action: Action)
    requires Inv(c, s) && WorkEnabled(c, s, exec, action) && Worked(c, s, t, exec, action)
    requires Retasks(action) && exec in t.execs
    ensures ExecOk(c, t, t.execs[exec])
  {
    hide StreamOk, MapOk, IdOk, HistoryOk, FinishOk, RowNext;
    var x, y := s.execs[exec], t.execs[exec];
    assert ExecOk(c, s, x);
    StreamOkGrows(c, s, t, x);
    if action.Receive? {
      AnsweredOk(c, s, exec);
      if y.task.Answered? {
        KeyAppliedGrows(s, t, RecordAt(s, Current(x, x.task.part)).key);
      }
    }
    RetaskedOk(c, t, x, y.task);
  }

  /** The executor's new local state is sound in the new state. */
  lemma MovedOk(c: Config, s: State, t: State, exec: nat, action: Action)
    requires Inv(c, s) && WorkEnabled(c, s, exec, action) && Worked(c, s, t, exec, action)
    ensures exec in t.execs ==> ExecOk(c, t, t.execs[exec])
  {
    hide StreamOk, TaskOk, MapOk, IdOk, HistoryOk, FinishOk;
    var x := s.execs[exec];
    if Retasks(action) {
      if exec in t.execs {
        RetaskingOk(c, s, t, exec, action);
      }
    } else if action.RecordSource? {
      MapOkGrows(c, s, t, s.row.checkpoint);
      IdOkGrows(c, s, t, s.row.lastProcessedId);
    } else if action.Open? {
      assert ExecOk(c, s, x);
      MapOkGrows(c, s, t, x.checkpoint);
      IdOkGrows(c, s, t, x.lastId);
      OpenedOk(c, t, x, action.lookup, action.seek);
    } else if action.Refill? {
      assert ExecOk(c, s, x);
      StreamOkGrows(c, s, t, x);
      RefilledOk(c, t, x);
    } else if action.Commit? {
      assert ExecOk(c, s, x);
      StreamOkGrows(c, s, t, x);
      AdvancedOk(c, t, x, x.task.part);
    }
  }

  /** When a stream has ended, its window lies behind the position. */
  lemma WindowBehind(c: Config, log: Log, pos: nat, stop: nat, seen: nat, off: nat)
    requires stop <= pos && stop <= seen <= |log| && (stop < seen ==> Above(log[stop], c.endMs))
    requires off < seen && InWindow(log, c.startMs, c.endMs, off)
    ensures off < pos
  {
  }

  lemma CompletionCovers(c: Config, s: State, x: Executor)
    requires ExecOk(c, s, x) && ActionEnabled(c, s, x, Complete)
    ensures FinishOk(c, s, Finish(x.source, x.seen))
  {
    var logs := Logs(s, x.source);
    forall p | 0 <= p < |x.seen| ensures x.seen[p] <= |logs[p]| {
      assert PartitionOk(c, s, x, p);
    }
    forall p, off: nat | 0 <= p < |x.seen| && off < x.seen[p] && InWindow(logs[p], c.startMs, c.endMs, off)
      ensures Ref(x.source, p, off) in s.acked + s.skipped
    {
      assert PartitionOk(c, s, x, p);
      WindowBehind(c, logs[p], x.pos[p], x.stop[p], x.seen[p], off);
    }
  }

  lemma QuietHistory(s: State, t: State, exec: nat)
    requires HistoryOk(s) && t.writes == s.writes && t.failures == s.failures && t.nextExec == s.nextExec
    requires forall x | x in t.execs && x != exec :: x in s.execs && t.execs[x] == s.execs[x]
    requires exec in s.execs
    requires exec in t.execs ==>
               && exec !in s.failures
               && (s.execs[exec].Streaming? ==>
                   && t.execs[exec].Streaming?
                   && t.execs[exec].source == s.execs[exec].source && t.execs[exec].pos == s.execs[exec].pos)
    ensures HistoryOk(t)
  {
  }

  lemma CommitHistory(s: State, t: State, exec: nat, p: nat)
    requires HistoryOk(s) && t.failures == s.failures && t.nextExec == s.nextExec
    requires forall x | x in t.execs && x != exec :: x in s.execs && t.execs[x] == s.execs[x]
    requires exec in s.execs && exec in t.execs && exec !in s.failures
    requires s.execs[exec].Streaming? && t.execs[exec].Streaming? && p < |s.execs[exec].pos|
    requires t.execs[exec].source == s.execs[exec].source
    requires t.execs[exec].pos == s.execs[exec].pos[p := s.execs[exec].pos[p] + 1]
    requires t.writes == s.writes + {(exec, Current(s.execs[exec], p))}
    ensures HistoryOk(t)
  {
  }

  lemma FailureHistory(s: State, t: State, exec: nat, p: nat)
    requires HistoryOk(s) && t.writes == s.writes && t.nextExec == s.nextExec
    requires forall x | x in t.execs && x != exec :: x in s.execs && t.execs[x] == s.execs[x]
    requires exec in s.execs && exec in t.execs
    requires s.execs[exec].Streaming? && p < |s.execs[exec].pos|
    requires t.execs[exec] == s.execs[exec].(task := GivingUp(p))
    requires t.failures == s.failures[exec := Current(s.execs[exec], p)]
    ensures HistoryOk(t)
  {
  }

  lemma HistoryKept(c: Config, s: State, t: State, exec: nat, action: Action)
    requires Inv(c, s) && WorkEnabled(c, s, exec, action) && Worked(c, s, t, exec, action)
    ensures HistoryOk(t)
  {
    hide ExecOk, MapOk, IdOk, FinishOk, RowNext, Grows, ReqOk;
    if action.Commit? {
      CommitHistory(s, t, exec, s.execs[exec].task.part);
    } else if action.CountFailure? {
      FailureHistory(s, t, exec, s.execs[exec].task.part);
    } else {
      QuietHistory(s, t, exec);
    }
  }

  lemma RequestsKept(c: Config, s: State, t: State, exec: nat, action: Action)
    requires Inv(c, s) && WorkEnabled(c, s, exec, action) && Worked(c, s, t, exec, action)
    ensures forall r | r in t.reqs :: r < t.nextReq && ReqOk(t, t.reqs[r])
  {
    var x := s.execs[exec];
    forall r | r in s.reqs ensures ReqOk(t, s.reqs[r]) {
      ReqOkGrows(s, t, s.reqs[r]);
    }
    if action.Send? {
      assert ExecOk(c, s, x);
      assert PartitionOk(c, s, x, x.task.part);
    }
  }

  lemma CommittedRowOk(c: Config, t: State, row: JobRow, duplicate: bool, source: Source, p: nat, off: nat)
    requires MapOk(c, t, row.checkpoint) && Covered(c, t, source, p, off + 1) && (source.Redis? ==> p == 0)
    ensures var next := EventCommitted(row, duplicate, source, p, off);
            MapOk(c, t, next.checkpoint) && IdOk(c, t, next.lastProcessedId)
  {
  }

  lemma RowNextProgress(c: Config, s: State, x: Executor, action: Action)
    requires ActionEnabled(c, s, x, action) && !action.Commit?
    ensures var next := RowNext(c, s, x, action);
            && next.checkpoint == s.row.checkpoint
            && (next.lastProcessedId == s.row.lastProcessedId
                || (action.SavePause? && (next.lastProcessedId == x.lastId || next.lastProcessedId.EmptyId?)))
  {
  }

  lemma CheckpointKept(c: Config, s: State, t: State, exec: nat, action: Action)
    requires MapOk(c, s, s.row.checkpoint) && IdOk(c, s, s.row.lastProcessedId)
    requires WorkEnabled(c, s, exec, action) && Worked(c, s, t, exec, action) && ExecOk(c, s, s.execs[exec])
    ensures MapOk(c, t, t.row.checkpoint) && IdOk(c, t, t.row.lastProcessedId)
  {
    hide RowNext, Moved;
    var x := s.execs[exec];
    MapOkGrows(c, s, t, s.row.checkpoint);
    IdOkGrows(c, s, t, s.row.lastProcessedId);
    if action.Commit? {
      CommitRowKept(c, s, t, exec);
    } else {
      RowNextProgress(c, s, x, action);
      if action.SavePause? {
        IdOkGrows(c, s, t, x.lastId);
      }
    }
  }

  lemma CommitRowKept(c: Config, s: State, t: State, exec: nat)
    requires WorkEnabled(c, s, exec, Commit) && Worked(c, s, t, exec, Commit) && ExecOk(c, s, s.execs[exec])
    requires MapOk(c, t, s.row.checkpoint)
    ensures MapOk(c, t, t.row.checkpoint) && IdOk(c, t, t.row.lastProcessedId)
  {
    hide MapOk, IdOk, Moved, EventCommitted;
    var x := s.execs[exec];
    var p := x.task.part;
    assert PartitionOk(c, s, x, p);
    CoveredGrows(c, s, t, x.source, p, x.pos[p]);
    CommittedRowOk(c, t, s.row, x.task.duplicate, x.source, p, x.pos[p]);
  }

  lemma FinishKept(c: Config, s: State, t: State, exec: nat, action: Action)
    requires Inv(c, s) && WorkEnabled(c, s, exec, action) && Worked(c, s, t, exec, action)
    ensures t.finish.Some? ==> FinishOk(c, t, t.finish.value)
    ensures t.row.status == Completed ==> t.finish.Some?
  {
    var x := s.execs[exec];
    if action.Complete? {
      assert ExecOk(c, s, x);
      CompletionCovers(c, s, x);
      FinishOkGrows(c, s, t, Finish(x.source, x.seen));
    } else if s.finish.Some? {
      FinishOkGrows(c, s, t, s.finish.value);
    }
  }

  lemma AckedKept(c: Config, s: State, t: State, exec: nat, action: Action)
    requires Inv(c, s) && WorkEnabled(c, s, exec, action) && Worked(c, s, t, exec, action)
    ensures forall ref | ref in t.acked :: Valid(t, ref) && KeyApplied(t, RecordAt(t, ref).key)
  {
    hide MapOk, IdOk, StreamOk, FinishOk, HistoryOk, Moved, RowNext, Skipped;
    var x := s.execs[exec];
    forall ref | ref in t.acked ensures Valid(t, ref) && KeyApplied(t, RecordAt(t, ref).key) {
      if ref !in s.acked {
        assert ExecOk(c, s, x) && ref == Current(x, x.task.part);
      }
      KeyAppliedGrows(s, t, RecordAt(s, ref).key);
    }
  }

  lemma OthersKept(c: Config, s: State, t: State, exec: nat, action: Action)
    requires Inv(c, s) && WorkEnabled(c, s, exec, action) && Worked(c, s, t, exec, action)
    ensures forall x | x in t.execs :: ExecOk(c, t, t.execs[x])
  {
    ExecutorsKept(c, s, t);
    MovedOk(c, s, t, exec, action);
  }

  lemma WorkKeepsInv(c: Config, s: State, exec: nat, action: Action)
    requires Inv(c, s) && WorkEnabled(c, s, exec, action)
    ensures Inv(c, WorkNext(c, s, exec, action))
  {
    var t := WorkNext(c, s, exec, action);
    WorkFrame(c, s, exec, action);
    PiecesKept(c, s, t);
    CheckpointKept(c, s, t, exec, action);
    FinishKept(c, s, t, exec, action);
    AckedKept(c, s, t, exec, action);
    OthersKept(c, s, t, exec, action);
    RequestsKept(c, s, t, exec, action);
    HistoryKept(c, s, t, exec, action);
  }

  // ---- Steps inside the replayer -------------------------------------------

  lemma RpcFrame(c: Config, s: State, req: nat, handling: Handling)
    requires RpcEnabled(c, s, req, handling)
    ensures var t := RpcNext(c, s, req, handling);
            && t.row == s.row && t.execs == s.execs && t.nextExec == s.nextExec && t.nextReq == s.nextReq
            && t.redis == s.redis && t.kafka == s.kafka && t.acked == s.acked
            && t.writes == s.writes && t.failures == s.failures && t.finish == s.finish && t.skipped == s.skipped
            && t.reqs.Keys <= s.reqs.Keys
            && (forall r | r in t.reqs :: t.reqs[r].ref == s.reqs[r].ref && (r != req ==> t.reqs[r] == s.reqs[r]))
            && t.applied <= s.applied + {s.reqs[req].ref}
            && (t.applied == s.applied || Valid(s, s.reqs[req].ref))
  {
    hide Apply, CanWrite, Dedup.Exists, RecordAt;
  }

  /** What the handled request now claims about its event is true. */
  lemma HandledOk(c: Config, s: State, req: nat, handling: Handling)
    requires Inv(c, s) && RpcEnabled(c, s, req, handling)
    ensures var t := RpcNext(c, s, req, handling);
            && (req in t.reqs ==> ReqOk(t, t.reqs[req]))
            && forall k | k in t.marks :: KeyApplied(t, k)
  {
    var t := RpcNext(c, s, req, handling);
    var q := s.reqs[req];
    RpcGrows(c, s, req, handling);
    PiecesKept(c, s, t);
    if handling.Write? && handling.outcome != Refused {
      assert q.ref in t.applied && RecordAt(t, q.ref) == RecordAt(s, q.ref);
    }
  }

  lemma AppliedValid(c: Config, s: State, req: nat, handling: Handling)
    requires Inv(c, s) && RpcEnabled(c, s, req, handling)
    ensures var t := RpcNext(c, s, req, handling);
            forall ref | ref in t.applied :: Valid(t, ref)
  {
    hide RpcNext, ExecOk, MapOk, IdOk, FinishOk, HistoryOk, KeyApplied, RecordAt, RpcEnabled;
    RpcFrame(c, s, req, handling);
  }

  lemma RpcKeepsInv(c: Config, s: State, req: nat, handling: Handling)
    requires Inv(c, s) && RpcEnabled(c, s, req, handling)
    ensures Inv(c, RpcNext(c, s, req, handling))
  {
    hide RpcNext, RpcEnabled, Grows, MapOk, IdOk, FinishOk, ExecOk, ReqOk, KeyApplied, Valid, RecordAt, HistoryOk;
    var t := RpcNext(c, s, req, handling);
    RpcGrows(c, s, req, handling);
    RpcFrame(c, s, req, handling);
    PiecesKept(c, s, t);
    ExecutorsKept(c, s, t);
    HandledOk(c, s, req, handling);
    AppliedValid(c, s, req, handling);
    SameHistory(s, t);
  }

  // ---- Whole runs ----------------------------------------------------------

  lemma InitialInv(c: Config, s: State)
    requires Initial(s)
    ensures Inv(c, s)
  {
  }

  lemma {:induction false} RunKeepsInv(c: Config, s: State, steps: seq<Step>)
    requires Inv(c, s) && IsRun(c, s, steps)
    ensures Inv(c, Final(c, s, steps))
    decreases |steps|
  {
    if steps != [] {
      match steps[0] {
        case World(event) => WorldKeepsInv(c, s, event);
        case Work(exec, action) => WorkKeepsInv(c, s, exec, action);
        case Rpc(req, handling) => RpcKeepsInv(c, s, req, handling);
      }
      RunKeepsInv(c, Next(c, s, steps[0]), steps[1..]);
    }
  }

  /** On every run: each in-range event at or below any stored checkpoint of its partition, flat or per
      partition, is acknowledged or was passed over by an opening, and what is acknowledged was applied. */
  lemma CheckpointSoundness(c: Config, s: State, steps: seq<Step>)
    requires Initial(s) && IsRun(c, s, steps)
    ensures var t := Final(c, s, steps);
            && (forall p | p in t.row.checkpoint :: Covered(c, t, Kafka, p, t.row.checkpoint[p] + 1))
            && IdOk(c, t, t.row.lastProcessedId)
            && (forall ref | ref in t.acked :: Valid(t, ref) && KeyApplied(t, RecordAt(t, ref).key))
  {
    hide Final, IsRun, HistoryOk, ExecOk, FinishOk, ReqOk;
    InitialInv(c, s);
    RunKeepsInv(c, s, steps);
  }

  /** An in-range record of the snapshot that the finishing executor saw. */
  predicate InSnapshot(c: Config, s: State, ref: Ref) {
    && s.finish.Some? && ref.source == s.finish.value.source && Valid(s, ref)
    && ref.part < |s.finish.value.seen| && ref.off < s.finish.value.seen[ref.part]
    && InWindow(Logs(s, ref.source)[ref.part], c.startMs, c.endMs, ref.off)
  }

  /** On every run that ends COMPLETED, each in-range event of the finishing executor's snapshot was applied
      or was passed over by an opening; so the whole of it was applied exactly when every record of it that
      an opening passed over was applied all the same. */
  lemma CompletedCoversWindow(c: Config, s: State, steps: seq<Step>)
    requires Initial(s) && IsRun(c, s, steps) && Final(c, s, steps).row.status == Completed
    ensures var t := Final(c, s, steps);
            && t.finish.Some? && |t.finish.value.seen| == |Logs(t, t.finish.value.source)|
            && (forall ref | InSnapshot(c, t, ref) :: KeyApplied(t, RecordAt(t, ref).key) || ref in t.skipped)
            && ((forall ref | InSnapshot(c, t, ref) :: KeyApplied(t, RecordAt(t, ref).key))
                <==> (forall ref | InSnapshot(c, t, ref) && ref in t.skipped :: KeyApplied(t, RecordAt(t, ref).key)))
  {
    hide Final, IsRun, HistoryOk, ExecOk, ReqOk, MapOk, IdOk, InWindow;
    InitialInv(c, s);
    RunKeepsInv(c, s, steps);
    var t := Final(c, s, steps);
    forall ref | InSnapshot(c, t, ref) ensures KeyApplied(t, RecordAt(t, ref).key) || ref in t.skipped {
      assert Ref(ref.source, ref.part, ref.off) in t.acked + t.skipped;
    }
  }

  /** Fail-fast: whatever an executor committed lies before the event it gave up on, and it commits no more. */
  lemma NeverPastFailedEvent(c: Config, s: State, steps: seq<Step>, exec: nat, ref: Ref)
    requires Initial(s) && IsRun(c, s, steps)
    requires exec in Final(c, s, steps).failures && (exec, ref) in Final(c, s, steps).writes
    requires ref.part == Final(c, s, steps).failures[exec].part
    ensures ref.source == Final(c, s, steps).failures[exec].source && ref.off < Final(c, s, steps).failures[exec].off
  {
    InitialInv(c, s);
    RunKeepsInv(c, s, steps);
    var w := (exec, ref);
    assert w in Final(c, s, steps).writes;
  }
}
