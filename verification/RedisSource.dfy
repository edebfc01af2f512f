/**
 RedisReplaySource.stream_events (control/app/services/replay_router.py): paging
 through a stream with XRANGE, 100 entries at a time, while entries are appended.
 */
module RedisSource {
  import opened Prelude
  import Target
  import Windows

  /** A stream id "ms-seq". */
  datatype Id = Id(ms: nat, sq: nat)

  predicate Less(a: Id, b: Id) {
    a.ms < b.ms || (a.ms == b.ms && a.sq < b.sq)
  }

  /** The stream, oldest entry first, by id; the payloads play no part in paging. */
  type Entries = seq<Id>

  predicate Sorted(log: Entries) {
    forall i, j | 0 <= i < j < |log| :: Less(log[i], log[j])
  }

  /** The lower end of a range: "ms" (from its first id on) or "(id" (after it). */
  datatype Lower = From(ms: nat) | After(id: Id)

  predicate Above(lower: Lower, id: Id) {
    match lower
    case From(ms) => id.ms >= ms
    case After(last) => Less(last, id)
  }

  /** Everything XRANGE selects without a COUNT; "end" alone means up to its last id. */
  function Select(log: Entries, lower: Lower, endMs: nat): seq<Id> {
    if log == [] then []
    else
      var rest := Select(log[1..], lower, endMs);
      if Above(lower, log[0]) && log[0].ms <= endMs then [log[0]] + rest else rest
  }

  const BATCH_SIZE := 100

  function Take(ids: seq<Id>, n: nat): seq<Id> {
    if |ids| <= n then ids else ids[..n]
  }

  /** XRANGE with COUNT. */
  function XRange(log: Entries, lower: Lower, endMs: nat, count: nat): seq<Id> {
    Take(Select(log, lower, endMs), count)
  }

  // ---- Ranges of a sorted stream -------------------------------------------

  lemma {:induction false} SelectAppend(a: Entries, b: Entries, lower: Lower, endMs: nat)
    ensures Select(a + b, lower, endMs) == Select(a, lower, endMs) + Select(b, lower, endMs)
  {
    if a == [] {
      assert a + b == b;
    } else {
      assert (a + b)[1..] == a[1..] + b;
      SelectAppend(a[1..], b, lower, endMs);
    }
  }

  /** Selected entries come from the stream, in range and in its order. */
  lemma {:induction false} SelectSound(log: Entries, lower: Lower, endMs: nat)
    requires Sorted(log)
    ensures var ids := Select(log, lower, endMs);
            && Sorted(ids)
            && forall id :: id in ids <==> id in log && Above(lower, id) && id.ms <= endMs
  {
    if log != [] {
      SelectSound(log[1..], lower, endMs);
      var rest := Select(log[1..], lower, endMs);
      forall j | 0 <= j < |rest| ensures Less(log[0], rest[j]) {
        assert rest[j] in log[1..];
      }
    }
  }

  /** A selection after a later entry passes over the first one. */
  lemma SkipsFirst(log: Entries, last: Id, endMs: nat)
    requires Sorted(log) && log != [] && last in log[1..]
    ensures Select(log, After(last), endMs) == Select(log[1..], After(last), endMs)
  {
    assert !Above(After(last), log[0]);
  }

  /** After the first `k` selected entries, the selection goes on exactly after the last of them. */
  lemma {:induction false} SelectResumes(log: Entries, lower: Lower, endMs: nat, k: nat)
    requires Sorted(log) && 0 < k <= |Select(log, lower, endMs)|
    ensures var ids := Select(log, lower, endMs);
            Select(log, After(ids[k - 1]), endMs) == ids[k..]
    decreases |log|
  {
    var here := if Above(lower, log[0]) && log[0].ms <= endMs then 1 else 0;
    if k == here {
      AllAfter(log[1..], lower, log[0], endMs);
      assert !Less(log[0], log[0]);
    } else {
      LaterResumes(log, lower, endMs, k - here);
    }
  }

  lemma LaterResumes(log: Entries, lower: Lower, endMs: nat, n: nat)
    requires log != [] && Sorted(log) && 0 < n <= |Select(log[1..], lower, endMs)|
    ensures var rest := Select(log[1..], lower, endMs);
            Select(log, After(rest[n - 1]), endMs) == rest[n..]
    decreases |log|, 0
  {
    hide Select, Sorted;
    SortedTail(log);
    SelectResumes(log[1..], lower, endMs, n);
    SelectSound(log[1..], lower, endMs);
    SkipsFirst(log, Select(log[1..], lower, endMs)[n - 1], endMs);
  }

  lemma SortedTail(log: Entries)
    requires log != [] && Sorted(log)
    ensures Sorted(log[1..])
  {
  }

  lemma {:induction false} AllAfter(log: Entries, lower: Lower, id: Id, endMs: nat)
    requires Above(lower, id) && forall i | 0 <= i < |log| :: Less(id, log[i])
    ensures Select(log, After(id), endMs) == Select(log, lower, endMs)
  {
    if log != [] {
      AllAfter(log[1..], lower, id, endMs);
    }
  }

  // ---- Paging --------------------------------------------------------------

  predicate Growing(views: seq<Entries>) {
    && (forall i | 0 <= i < |views| :: Sorted(views[i]))
    && (forall i, j | 0 <= i <= j < |views| :: views[i] <= views[j])
  }

  /** `views[i]` is the stream at the i-th XRANGE; entries may be appended between any two.
      `done` tells that the loop ended by itself before the views ran out. */
  method StreamEvents(views: seq<Entries>, startMs: nat, endMs: nat, checkpoint: Option<Id>)
    returns (yielded: seq<Id>, calls: nat, done: bool)
    requires Growing(views)
    ensures calls <= |views| && (done ==> calls > 0) && (!done ==> calls == |views|)
    ensures var lower := if checkpoint.Some? then After(checkpoint.value) else From(startMs);
            && (done ==> yielded == Select(views[calls - 1], lower, endMs))
            && (!done && calls > 0 ==> yielded <= Select(views[calls - 1], lower, endMs)
                                       && |yielded| == BATCH_SIZE * calls)
  {
    var cursor := checkpoint;
    ghost var lower := if checkpoint.Some? then After(checkpoint.value) else From(startMs);
    yielded, calls, done := [], 0, false;
    while calls < |views| && !done
      invariant calls <= |views| && (done ==> calls > 0)
      invariant calls == 0 ==> yielded == [] && cursor == checkpoint
      invariant done ==> yielded == Select(views[calls - 1], lower, endMs)
      invariant !done ==> |yielded| == BATCH_SIZE * calls
      invariant !done && calls > 0 ==> yielded <= Select(views[calls - 1], lower, endMs)
                                       && cursor == Some(yielded[|yielded| - 1])
      decreases |views| - calls, !done
    {
      var view := views[calls];
      var min := if cursor.Some? then After(cursor.value) else From(startMs);
      var events := XRange(view, min, endMs, BATCH_SIZE);
      Continues(views, calls, lower, endMs, yielded, min);
      calls := calls + 1;
      if events == [] {
        done := true;
      } else {
        yielded := yielded + events;
        if |events| < BATCH_SIZE {
          done := true;
        } else {
          cursor := Some(events[|events| - 1]);
        }
      }
    }
  }

  /** What the next XRANGE can see is what is still missing from the whole selection. */
  lemma Continues(views: seq<Entries>, calls: nat, lower: Lower, endMs: nat, yielded: seq<Id>, min: Lower)
    requires Growing(views) && calls < |views|
    requires if yielded == [] then calls == 0 && min == lower
             else calls > 0 && yielded <= Select(views[calls - 1], lower, endMs) && min == After(yielded[|yielded| - 1])
    ensures Select(views[calls], lower, endMs) == yielded + Select(views[calls], min, endMs)
  {
    if yielded != [] {
      var last, view := views[calls - 1], views[calls];
      assert view == last + view[|last|..];
      SelectAppend(last, view[|last|..], lower, endMs);
      SelectResumes(view, lower, endMs, |yielded|);
    }
  }

  /** Cut anywhere and resume from the last id handled: what was handled and what follows is the whole range. */
  lemma CutAndResume(log: Entries, longer: Entries, startMs: nat, endMs: nat, k: nat)
    requires Sorted(longer) && log <= longer && 0 < k <= |Select(log, From(startMs), endMs)|
    ensures var handled := Select(log, From(startMs), endMs)[..k];
            handled + Select(longer, After(handled[k - 1]), endMs) == Select(longer, From(startMs), endMs)
  {
    hide Select;
    assert longer == log + longer[|log|..];
    SelectAppend(log, longer[|log|..], From(startMs), endMs);
    SelectResumes(longer, From(startMs), endMs, k);
    assert Select(log, From(startMs), endMs)[..k] == Select(longer, From(startMs), endMs)[..k];
  }

  // ---- Ids and positions ---------------------------------------------------

  lemma {:induction false} SelectNone(log: Entries, lower: Lower, endMs: nat)
    requires forall i | 0 <= i < |log| :: !(Above(lower, log[i]) && log[i].ms <= endMs)
    ensures Select(log, lower, endMs) == []
  {
    if log != [] {
      SelectNone(log[1..], lower, endMs);
    }
  }

  lemma {:induction false} SelectAll(log: Entries, lower: Lower, endMs: nat)
    requires forall i | 0 <= i < |log| :: Above(lower, log[i]) && log[i].ms <= endMs
    ensures Select(log, lower, endMs) == log
  {
    if log != [] {
      SelectAll(log[1..], lower, endMs);
    }
  }

  lemma SelectSlice(log: Entries, lower: Lower, endMs: nat, a: nat, b: nat)
    requires a <= b <= |log|
    requires forall i | 0 <= i < a :: !Above(lower, log[i])
    requires forall i | a <= i < b :: Above(lower, log[i]) && log[i].ms <= endMs
    requires forall i | b <= i < |log| :: log[i].ms > endMs
    ensures Select(log, lower, endMs) == log[a..b]
  {
    assert log == log[..a] + log[a..] && log[a..] == log[a..b] + log[b..];
    SelectAppend(log[..a], log[a..], lower, endMs);
    SelectAppend(log[a..b], log[b..], lower, endMs);
    SelectNone(log[..a], lower, endMs);
    SelectAll(log[a..b], lower, endMs);
    SelectNone(log[b..], lower, endMs);
  }

  /** The records stand for the entries, stamped with the time in their ids. */
  predicate Stamped(log: Entries, records: Windows.Log) {
    |log| == |records| && forall i | 0 <= i < |log| :: records[i].timestamp == Some(log[i].ms)
  }

  /** The selection by id is the window by position: from the start of the range ... */
  lemma SelectIsWindow(log: Entries, records: Windows.Log, startMs: nat, endMs: nat)
    requires Sorted(log) && Stamped(log, records)
    ensures var base := Windows.Base(records, startMs);
            Select(log, From(startMs), endMs) == log[base..Windows.Stop(records, base, |records|, endMs)]
  {
    var base := Windows.Base(records, startMs);
    var stop := Windows.Stop(records, base, |records|, endMs);
    BelowBase(log, records, startMs);
    Beyond(log, records, stop, endMs);
    SelectSlice(log, From(startMs), endMs, base, stop);
  }

  /** ... or after an entry of the range. */
  lemma SelectAfterIsWindow(log: Entries, records: Windows.Log, endMs: nat, k: nat)
    requires Sorted(log) && Stamped(log, records) && k < |log| && log[k].ms <= endMs
    ensures Select(log, After(log[k]), endMs) == log[k + 1..Windows.Stop(records, k + 1, |records|, endMs)]
  {
    var stop := Windows.Stop(records, k + 1, |records|, endMs);
    Beyond(log, records, stop, endMs);
    SelectSlice(log, After(log[k]), endMs, k + 1, stop);
  }

  lemma BelowBase(log: Entries, records: Windows.Log, startMs: nat)
    requires Sorted(log) && Stamped(log, records)
    ensures forall i | 0 <= i < |log| :: i < Windows.Base(records, startMs) <==> log[i].ms < startMs
  {
    var base := Windows.Base(records, startMs);
    forall i | 0 <= i < |log| ensures i < base <==> log[i].ms < startMs {
      if base < i {
        assert Less(log[base], log[i]);
      }
    }
  }

  lemma Beyond(log: Entries, records: Windows.Log, stop: nat, endMs: nat)
    requires Sorted(log) && Stamped(log, records)
    requires stop < |log| ==> Windows.Above(records[stop], endMs)
    ensures forall i | stop <= i < |log| :: log[i].ms > endMs
  {
    forall i | stop <= i < |log| ensures log[i].ms > endMs {
      if stop < i {
        assert Less(log[stop], log[i]);
      }
    }
  }
}
