/**
 The dedup store of the replayer (`AsyncDedupStore`, replayer/server.py): a table
 of idempotency keys with expiry times.  All times are read from one clock.
 */
module Dedup {
  import opened Prelude

  /** Expiry time per key. */
  type Marks = map<string, int>

  /** `SELECT 1 ... WHERE idempotency_key = $1 AND expires_at > NOW()` */
  predicate Exists(marks: Marks, key: string, now: int) {
    key in marks && marks[key] > now
  }

  /** `DELETE ... WHERE expires_at < NOW()` */
  function Cleaned(marks: Marks, now: int): Marks {
    map k | k in marks && !(marks[k] < now) :: marks[k]
  }

  class AsyncDedupStore {
    var rows: Marks
    const ttl: int

    constructor (ttl: int)
      ensures rows == map[] && this.ttl == ttl
    {
      rows := map[];
      this.ttl := ttl;
    }

    method IsProcessed(key: string, now: int) returns (found: bool)
      ensures found == Exists(rows, key, now)
    {
      found := key in rows && rows[key] > now;
    }

    method MarkProcessed(key: string, now: int)
      modifies this
      ensures rows == old(rows)[key := now + ttl]
    {
      rows := rows[key := now + ttl];
    }

    method CleanupExpired(now: int) returns (deleted: nat)
      modifies this
      ensures rows == Cleaned(old(rows), now)
      ensures deleted == |old(rows)| - |rows|
    {
      var kept := map k | k in rows && !(rows[k] < now) :: rows[k];
      var gone := rows.Keys - kept.Keys;
      assert rows.Keys == kept.Keys + gone && |rows.Keys| == |kept.Keys| + |gone|;
      deleted := |gone|;
      rows := kept;
    }
  }

  // ---- Runs of the store ---------------------------------------------------

  datatype Op = Mark(key: string) | Cleanup
  datatype Entry = Entry(now: int, op: Op)

  predicate Ordered(run: seq<Entry>) {
    forall i, j | 0 <= i < j < |run| :: run[i].now <= run[j].now
  }

  function After(run: seq<Entry>, ttl: int): Marks {
    if run == [] then map[]
    else
      var marks := After(run[..|run| - 1], ttl);
      var last := run[|run| - 1];
      match last.op
      case Mark(key) => marks[key := last.now + ttl]
      case Cleanup => Cleaned(marks, last.now)
  }

  /** When a key was last marked. */
  function LastMark(run: seq<Entry>, key: string): Option<int> {
    if run == [] then None
    else if run[|run| - 1].op == Mark(key) then Some(run[|run| - 1].now)
    else LastMark(run[..|run| - 1], key)
  }

  lemma {:induction false} StoredUntil(run: seq<Entry>, ttl: int, key: string)
    requires Ordered(run)
    ensures var marks, last := After(run, ttl), LastMark(run, key);
            && (key in marks ==> last.Some? && marks[key] == last.value + ttl)
            && (key !in marks && last.Some? ==> last.value + ttl < run[|run| - 1].now)
  {
    if run != [] {
      StoredUntil(run[..|run| - 1], ttl, key);
    }
  }

  /** A cleanup leaves exactly the keys last marked at most a TTL ago, each expiring a TTL after that mark:
      what has expired is removed, and nothing else is. */
  lemma CleanupLeaves(run: seq<Entry>, ttl: int, key: string, now: int)
    requires Ordered(run) && forall i | 0 <= i < |run| :: run[i].now <= now
    ensures var last, left := LastMark(run, key), Cleaned(After(run, ttl), now);
            && (key in left <==> last.Some? && now <= last.value + ttl)
            && (key in left ==> left[key] == last.value + ttl)
  {
    StoredUntil(run, ttl, key);
  }

  /** The store answers exactly "was this key last marked less than a TTL ago". */
  lemma ExistsIffMarkedLately(run: seq<Entry>, ttl: int, key: string, now: int)
    requires Ordered(run) && forall i | 0 <= i < |run| :: run[i].now <= now
    ensures Exists(After(run, ttl), key, now)
       <==> LastMark(run, key).Some? && now < LastMark(run, key).value + ttl
  {
    StoredUntil(run, ttl, key);
  }

  function WithoutCleanups(run: seq<Entry>): seq<Entry> {
    if run == [] then []
    else
      var init := WithoutCleanups(run[..|run| - 1]);
      if run[|run| - 1].op.Cleanup? then init else init + [run[|run| - 1]]
  }

  lemma {:induction false} CleanupsAside(run: seq<Entry>, key: string)
    requires Ordered(run)
    ensures var rest := WithoutCleanups(run);
            && Ordered(rest) && LastMark(rest, key) == LastMark(run, key)
            && forall e | e in rest :: e in run
  {
    if run != [] {
      var init, last := run[..|run| - 1], run[|run| - 1];
      CleanupsAside(init, key);
      var rest := WithoutCleanups(init);
      hide Ordered;
      assert (rest + [last])[..|rest|] == rest;
      OrderedSnoc(run, rest);
    }
  }

  lemma OrderedSnoc(run: seq<Entry>, rest: seq<Entry>)
    requires run != [] && Ordered(run) && Ordered(rest) && forall e | e in rest :: e in run[..|run| - 1]
    ensures Ordered(rest + [run[|run| - 1]])
  {
    var init := run[..|run| - 1];
    forall i | 0 <= i < |rest| ensures rest[i].now <= run[|run| - 1].now {
      assert rest[i] in rest;
      var k :| 0 <= k < |init| && init[k] == rest[i];
    }
  }

  /** Cleaning up at arbitrary moments changes no answer, present or future. */
  lemma {:induction false} CleanupInvisible(run: seq<Entry>, ttl: int, key: string, now: int)
    requires Ordered(run) && forall i | 0 <= i < |run| :: run[i].now <= now
    ensures Exists(After(run, ttl), key, now) == Exists(After(WithoutCleanups(run), ttl), key, now)
  {
    CleanupsAside(run, key);
    ExistsIffMarkedLately(run, ttl, key, now);
    forall i | 0 <= i < |WithoutCleanups(run)| ensures WithoutCleanups(run)[i].now <= now {
      assert WithoutCleanups(run)[i] in run;
    }
    ExistsIffMarkedLately(WithoutCleanups(run), ttl, key, now);
  }
}
