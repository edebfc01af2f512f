/**
 The replayer service (replayer/server.py): the PostgreSQL target applier and the
 exists -> apply -> mark_processed sequence of `ReplayEvent`.
 */
module Replayer {
  import opened Prelude
  import opened Target
  import Dedup

  /** What the environment does to one request. */
  datatype Faults = Faults(checkFails: bool, write: Outcome, markStored: bool, markReported: bool)

  const NO_FAULTS := Faults(false, Done, true, true)

  datatype Reply = Reply(success: bool, duplicate: bool)

  class PostgreSQLTargetApplier {
    var db: Database
    const schema: Schema

    constructor (schema: Schema, db: Database)
      ensures this.schema == schema && this.db == db
    {
      this.schema := schema;
      this.db := db;
    }

    /** `apply`: one statement on the event's table; false for an unknown operation or any failure. */
    method Apply(e: Record, outcome: Outcome) returns (ok: bool)
      modifies this
      ensures var can := Succeeds(Uniques(schema, e.table), TableAt(old(db), e.table), e);
              && ok == (can && outcome.Done?)
              && db == if can && !outcome.Refused? then Target.Apply(schema, old(db), e) else old(db)
      ensures e.operation in {Insert, Delete, Truncate} ==> ok == outcome.Done?
      ensures e.operation.Other? ==> !ok && db == old(db)
      ensures forall table | table != e.table :: TableAt(db, table) == TableAt(old(db), table)
    {
      if outcome.Refused? {
        return false;
      }
      match e.operation {
        case Insert => ApplyInsert(e); ok := true;
        case Update => ok := ApplyUpdate(e);
        case Delete => ApplyDelete(e); ok := true;
        case Truncate => ApplyTruncate(e); ok := true;
        case Other(_) => ok := false;
      }
      ok := ok && outcome.Done?;
    }

    /** INSERT ... ON CONFLICT DO NOTHING */
    method ApplyInsert(e: Record)
      requires e.operation == Insert
      modifies this
      ensures db == Target.Apply(schema, old(db), e)
      ensures var before, after := TableAt(old(db), e.table), TableAt(db, e.table);
              after == before || (after == before + [e.newRow] && e.newRow != map[])
    {
      var table := TableAt(db, e.table);
      if e.newRow != map[] && !Conflicts(Uniques(schema, e.table), table, e.newRow) {
        table := table + [e.newRow];
      }
      db := db[e.table := table];
    }

    /** UPDATE ... SET new WHERE old; an error when a constraint would break. */
    method ApplyUpdate(e: Record) returns (ok: bool)
      requires e.operation == Update
      modifies this
      ensures ok == Succeeds(Uniques(schema, e.table), TableAt(old(db), e.table), e)
      ensures db == if ok then Target.Apply(schema, old(db), e) else old(db)
      ensures var before, after := TableAt(old(db), e.table), TableAt(db, e.table);
              && |after| == |before|
              && (ok ==> forall i | 0 <= i < |after| ::
                    after[i] == if Names(e, before[i]) then before[i] + e.newRow else before[i])
    {
      var table := TableAt(db, e.table);
      if e.newRow != map[] && e.oldRow != map[] {
        var rows := table;
        for i := 0 to |table|
          invariant |rows| == |table|
          invariant forall j | 0 <= j < i :: rows[j] == Updated(table, e.oldRow, e.newRow)[j]
          invariant forall j | i <= j < |table| :: rows[j] == table[j]
        {
          if Matches(table[i], e.oldRow) {
            rows := rows[i := table[i] + e.newRow];
          }
        }
        assert rows == Updated(table, e.oldRow, e.newRow);
        if !Respects(Uniques(schema, e.table), rows) {
          return false;
        }
        table := rows;
      }
      db := db[e.table := table];
      ok := true;
      NamesAreMatches(e);
    }

    /** DELETE ... WHERE old */
    method ApplyDelete(e: Record)
      requires e.operation == Delete
      modifies this
      ensures db == Target.Apply(schema, old(db), e)
      ensures forall row :: row in TableAt(db, e.table) <==> row in TableAt(old(db), e.table) && !Names(e, row)
    {
      NamesAreMatches(e);
      var table := TableAt(db, e.table);
      if e.oldRow != map[] {
        var rest: Table := [];
        var i := |table|;
        while i > 0
          invariant 0 <= i <= |table|
          invariant rest == Deleted(table[i..], e.oldRow)
        {
          i := i - 1;
          assert table[i..][1..] == table[i + 1..];
          if !Matches(table[i], e.oldRow) {
            rest := [table[i]] + rest;
          }
        }
        assert table[0..] == table;
        table := rest;
      }
      db := db[e.table := table];
    }

    method ApplyTruncate(e: Record)
      requires e.operation == Truncate
      modifies this
      ensures db == Target.Apply(schema, old(db), e)
      ensures TableAt(db, e.table) == []
    {
      db := db[e.table := []];
    }
  }

  lemma NamesAreMatches(e: Record)
    ensures forall row :: Names(e, row) <==> e.oldRow != map[] && Matches(row, e.oldRow)
  {
    forall row ensures Names(e, row) <==> e.oldRow != map[] && Matches(row, e.oldRow) {
      NamesMatch(e, row);
    }
  }

  /** The state a request sees: the dedup rows and the target. */
  datatype State = State(marks: Dedup.Marks, db: Database)

  /** What one request answers and leaves behind. */
  function Handled(schema: Schema, ttl: int, s: State, e: Record, now: int, faults: Faults): (State, Reply) {
    if faults.checkFails then (s, Reply(false, false))
    else if Dedup.Exists(s.marks, e.key, now) then (s, Reply(true, true))
    else if faults.write.Refused? || !Succeeds(Uniques(schema, e.table), TableAt(s.db, e.table), e)
    then (s, Reply(false, false))
    else
      var written := s.(db := Apply(schema, s.db, e));
      if faults.write.DoneUnreported? then (written, Reply(false, false))
      else
        (if faults.markStored then written.(marks := s.marks[e.key := now + ttl]) else written,
         Reply(faults.markStored && faults.markReported, false))
  }

  class ReplayerService {
    const targetApplier: PostgreSQLTargetApplier
    const dedupStore: Dedup.AsyncDedupStore

    constructor (targetApplier: PostgreSQLTargetApplier, dedupStore: Dedup.AsyncDedupStore)
      ensures this.targetApplier == targetApplier && this.dedupStore == dedupStore
    {
      this.targetApplier := targetApplier;
      this.dedupStore := dedupStore;
    }

    method ReplayEvent(e: Record, now: int, faults: Faults) returns (reply: Reply)
      modifies targetApplier, dedupStore
      ensures (State(dedupStore.rows, targetApplier.db), reply)
           == Handled(targetApplier.schema, dedupStore.ttl,
                      State(old(dedupStore.rows), old(targetApplier.db)), e, now, faults)
    {
      if faults.checkFails {
        return Reply(false, false);
      }
      var alreadyProcessed := dedupStore.IsProcessed(e.key, now);
      if alreadyProcessed {
        return Reply(true, true);
      }
      var applied := targetApplier.Apply(e, faults.write);
      if applied {
        if faults.markStored {
          dedupStore.MarkProcessed(e.key, now);
        }
        if !faults.markStored || !faults.markReported {
          return Reply(false, false);
        }
        return Reply(true, false);
      }
      return Reply(false, false);
    }
  }

  /** When each answer is given.  A duplicate is a key already marked, and changes nothing.  Any other success
      is an effect that took place and a mark stored until exactly a TTL from now.  Everything else is a failure. */
  lemma ReplyMeaning(schema: Schema, ttl: int, s: State, e: Record, now: int, faults: Faults)
    requires ttl > 0
    ensures var (after, reply) := Handled(schema, ttl, s, e, now, faults);
            var marked := Dedup.Exists(s.marks, e.key, now);
            var can := Succeeds(Uniques(schema, e.table), TableAt(s.db, e.table), e);
            var writes := !faults.checkFails && !marked && can && !faults.write.Refused?;
            var marks := writes && faults.write.Done? && faults.markStored;
            && (reply.duplicate <==> !faults.checkFails && marked)
            && (reply.success <==> reply.duplicate || (marks && faults.markReported))
            && after.db == (if writes then Apply(schema, s.db, e) else s.db)
            && (!marks ==> after.marks == s.marks)
            && (marks ==> forall key, later ::
                  Dedup.Exists(after.marks, key, later) <==>
                  if key == e.key then later < now + ttl else Dedup.Exists(s.marks, key, later))
            && (reply.success ==> Dedup.Exists(after.marks, e.key, now))
  {
  }

  /** A retry right after a failed attempt never changes the target further, whatever failed. */
  lemma RetryIsHarmless(
    schema: Schema, ttl: int, s: State, e: Record, now: int, faults: Faults, later: int, more: Faults, table: string)
    requires Repeatable(Uniques(schema, e.table), e)
    requires var (after, reply) := Handled(schema, ttl, s, e, now, faults); after.db != s.db
    ensures var (after, reply) := Handled(schema, ttl, s, e, now, faults);
            var (again, second) := Handled(schema, ttl, after, e, later, more);
            TableAt(again.db, table) == TableAt(after.db, table)
  {
    hide Effect, Succeeds, Repeatable, Uniques, Dedup.Exists;
    EffectTwice(Uniques(schema, e.table), TableAt(s.db, e.table), e);
  }

  // ---- Repeated keys -------------------------------------------------------

  /** A sequential replay that stops at the first event the target refuses. */
  datatype Progress = Progress(state: State, handled: nat, failed: bool)

  function Sequential(schema: Schema, ttl: int, s: State, events: seq<Record>, times: seq<int>): Progress
    requires |events| == |times|
  {
    if events == [] then Progress(s, 0, false)
    else
      var n := |events| - 1;
      var prior := Sequential(schema, ttl, s, events[..n], times[..n]);
      if prior.failed then prior
      else
        var (after, reply) := Handled(schema, ttl, prior.state, events[n], times[n], NO_FAULTS);
        if reply.success then Progress(after, n + 1, false) else prior.(failed := true)
  }

  predicate HasKey(events: seq<Record>, key: string) {
    exists i | 0 <= i < |events| :: events[i].key == key
  }

  /** The events whose key did not occur before. */
  function FirstOccurrences(events: seq<Record>): seq<Record> {
    if events == [] then []
    else
      var n := |events| - 1;
      var prior := FirstOccurrences(events[..n]);
      if HasKey(events[..n], events[n].key) then prior else prior + [events[n]]
  }

  /** What a sequential replay has done: the target, and which keys are marked past `horizon`. */
  ghost predicate Replayed(schema: Schema, db: Database, events: seq<Record>, r: Progress, horizon: int) {
    && r.handled <= |events| && (!r.failed ==> r.handled == |events|)
    && r.state.db == Replay(schema, db, FirstOccurrences(events[..r.handled]))
    && (forall key :: key in r.state.marks <==> HasKey(events[..r.handled], key))
    && (forall key | key in r.state.marks :: r.state.marks[key] > horizon)
  }

  lemma HasKeySnoc(events: seq<Record>, e: Record, key: string)
    ensures HasKey(events + [e], key) <==> HasKey(events, key) || e.key == key
  {
    assert (events + [e])[|events|] == e;
    assert forall i | 0 <= i < |events| :: (events + [e])[i] == events[i];
  }

  lemma SequentialStep(
    schema: Schema, ttl: int, db: Database, events: seq<Record>, e: Record, r: Progress, now: int, horizon: int)
    requires Replayed(schema, db, events, r, horizon) && !r.failed && now <= horizon < now + ttl
    ensures var (after, reply) := Handled(schema, ttl, r.state, e, now, NO_FAULTS);
            var next := if reply.success then Progress(after, |events| + 1, false) else r.(failed := true);
            Replayed(schema, db, events + [e], next, horizon)
  {
    hide Succeeds, Effect, Apply, HasKey, Replay, FirstOccurrences;
    assert events[..r.handled] == events && (events + [e])[..|events|] == events;
    assert (events + [e])[..|events| + 1] == events + [e];
    forall key ensures HasKey(events + [e], key) <==> HasKey(events, key) || e.key == key {
      HasKeySnoc(events, e, key);
    }
    FirstsSnoc(schema, db, events, e);
  }

  lemma FirstsSnoc(schema: Schema, db: Database, events: seq<Record>, e: Record)
    ensures Replay(schema, db, FirstOccurrences(events + [e]))
         == if HasKey(events, e.key) then Replay(schema, db, FirstOccurrences(events))
            else Apply(schema, Replay(schema, db, FirstOccurrences(events)), e)
  {
    var firsts := FirstOccurrences(events);
    assert (events + [e])[..|events|] == events && (firsts + [e])[..|firsts|] == firsts;
  }

  /** Within the TTL the handled events leave exactly what their first occurrences alone would leave. */
  lemma {:induction false} FirstOccurrencesSuffice(
    schema: Schema, ttl: int, db: Database, events: seq<Record>, times: seq<int>, horizon: int)
    requires |events| == |times| && forall i | 0 <= i < |times| :: times[i] <= horizon < times[i] + ttl
    ensures Replayed(schema, db, events, Sequential(schema, ttl, State(map[], db), events, times), horizon)
  {
    if events != [] {
      var n := |events| - 1;
      var prior := Sequential(schema, ttl, State(map[], db), events[..n], times[..n]);
      FirstOccurrencesSuffice(schema, ttl, db, events[..n], times[..n], horizon);
      assert events == events[..n] + [events[n]];
      if prior.failed {
        assert events[..n][..prior.handled] == events[..prior.handled];
      } else {
        SequentialStep(schema, ttl, db, events[..n], events[n], prior, times[n], horizon);
      }
    }
  }
}
