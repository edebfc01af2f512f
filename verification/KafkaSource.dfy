/**
 KafkaReplaySource.stream_events (control/app/services/replay_router.py): seeking,
 the snapshot of end offsets, and the per-partition completion of a bounded,
 resumable stream over whatever interleaving the consumer delivers.
 */
module KafkaSource {
  import opened Prelude
  import opened Target
  import opened Windows

  datatype Event = Event(part: nat, off: nat)

  /** `position` is the consumer's next offset per partition. */
  datatype Stream = Stream(position: seq<nat>, completed: set<nat>, yielded: seq<Event>)

  // ---- Seeking -------------------------------------------------------------

  /** Where one partition is sought to.  The timestamp lookup saw the log `atLookup`; when it
      found nothing, the end offset is asked for, at a moment the log is `atSeek`. */
  function SeekOffset(checkpoint: map<nat, nat>, p: nat, atLookup: Log, atSeek: Log, startMs: int): nat {
    if p in checkpoint then checkpoint[p] + 1
    else if Base(atLookup, startMs) < |atLookup| then Base(atLookup, startMs)
    else |atSeek|
  }

  // ---- One record at a time ------------------------------------------------

  /** `mark_completed_if_at_end`. */
  function Marked(s: Stream, ends: seq<nat>, p: nat): Stream
    requires p < |s.position| == |ends|
  {
    if s.position[p] >= ends[p] then s.(completed := s.completed + {p}) else s
  }

  predicate Finished(s: Stream) {
    forall p | 0 <= p < |s.position| :: p in s.completed
  }

  /** The consumer delivers the next record of partition `p`, if the log has one. */
  function Delivered(s: Stream, logs: seq<Log>, ends: seq<nat>, endMs: int, p: nat): Stream
    requires |s.position| == |logs| == |ends|
  {
    if p >= |logs| || s.position[p] >= |logs[p]| then s
    else
      var off := s.position[p];
      var moved := s.(position := s.position[p := off + 1]);
      if p in s.completed then moved
      else if Above(logs[p][off], endMs) then Marked(moved.(completed := s.completed + {p}), ends, p)
      else Marked(moved.(yielded := s.yielded + [Event(p, off)]), ends, p)
  }

  function Begun(seeks: seq<nat>, ends: seq<nat>): Stream
    requires |seeks| == |ends|
  {
    Stream(seeks, set p | 0 <= p < |seeks| && seeks[p] >= ends[p], [])
  }

  /** The loop of `stream_events` over the records the consumer delivers. */
  function Driven(s: Stream, logs: seq<Log>, ends: seq<nat>, endMs: int, arrivals: seq<nat>): (r: Stream)
    requires |s.position| == |logs| == |ends|
    ensures |r.position| == |logs|
  {
    if arrivals == [] then s
    else
      var prior := Driven(s, logs, ends, endMs, arrivals[..|arrivals| - 1]);
      if Finished(prior) then prior else Delivered(prior, logs, ends, endMs, arrivals[|arrivals| - 1])
  }

  lemma DrivenNone(s: Stream, logs: seq<Log>, ends: seq<nat>, endMs: int)
    requires |s.position| == |logs| == |ends|
    ensures Driven(s, logs, ends, endMs, []) == s
  {
  }

  lemma DrivenSnoc(s: Stream, logs: seq<Log>, ends: seq<nat>, endMs: int, arrivals: seq<nat>, k: nat)
    requires |s.position| == |logs| == |ends| && k < |arrivals|
    ensures var prior := Driven(s, logs, ends, endMs, arrivals[..k]);
            Driven(s, logs, ends, endMs, arrivals[..k + 1])
            == if Finished(prior) then prior else Delivered(prior, logs, ends, endMs, arrivals[k])
  {
    assert arrivals[..k + 1][..k] == arrivals[..k];
  }

  /** The seeks of all partitions, checkpointed or not. */
  method SeekAll(checkpoint: map<nat, nat>, atLookup: seq<Log>, atSeek: seq<Log>, startMs: int)
    returns (seeks: seq<nat>)
    requires |atLookup| == |atSeek|
    ensures |seeks| == |atLookup|
    ensures forall p | 0 <= p < |seeks| :: seeks[p] == SeekOffset(checkpoint, p, atLookup[p], atSeek[p], startMs)
  {
    seeks := [];
    for p := 0 to |atLookup|
      invariant |seeks| == p
      invariant forall q | 0 <= q < p :: seeks[q] == SeekOffset(checkpoint, q, atLookup[q], atSeek[q], startMs)
    {
      if p in checkpoint {
        seeks := seeks + [checkpoint[p] + 1];
      } else {
        var found := Base(atLookup[p], startMs);
        seeks := seeks + [if found < |atLookup[p]| then found else |atSeek[p]|];
      }
    }
  }

  /** One message of partition `p` handled by the loop body. */
  method HandleMessage(s: Stream, logs: seq<Log>, ends: seq<nat>, endMs: int, p: nat) returns (r: Stream)
    requires |s.position| == |logs| == |ends|
    ensures r == Delivered(s, logs, ends, endMs, p)
  {
    var position, completed, yielded := s.position, s.completed, s.yielded;
    if p < |logs| && position[p] < |logs[p]| {
      var off := position[p];
      position := position[p := off + 1];
      if p !in completed {
        if Above(logs[p][off], endMs) {
          completed := completed + {p};
        } else {
          yielded := yielded + [Event(p, off)];
        }
        if position[p] >= ends[p] {
          completed := completed + {p};
        }
      }
    }
    r := Stream(position, completed, yielded);
  }

  /** The stream as the code runs it, where `later` is the log the consumer reads from. */
  method StreamEvents(seeks: seq<nat>, atSnapshot: seq<Log>, later: seq<Log>, endMs: int, arrivals: seq<nat>)
    returns (yielded: seq<Event>, finished: bool)
    requires |seeks| == |atSnapshot| == |later|
    requires forall p | 0 <= p < |later| :: atSnapshot[p] <= later[p]
    ensures var s := Driven(Begun(seeks, Ends(atSnapshot)), later, Ends(atSnapshot), endMs, arrivals);
            yielded == s.yielded && finished == Finished(s)
    ensures forall p: nat | p < |later| ::
              var run := Range(seeks[p], RunEnd(later[p], seeks[p], |atSnapshot[p]|, endMs));
              OffsetsOf(yielded, p) <= run && (finished ==> OffsetsOf(yielded, p) == run)
  {
    hide Driven, Delivered, Finished;
    var n := |later|;
    var ends := Ends(atSnapshot);
    var s := Begun(seeks, ends);
    var k := 0;
    DrivenNone(s, later, ends, endMs);
    assert arrivals[..0] == [];
    finished := AllCompleted(s);
    while k < |arrivals| && !finished
      invariant k <= |arrivals| && |s.position| == n
      invariant s == Driven(Begun(seeks, ends), later, ends, endMs, arrivals[..k])
      invariant finished == Finished(s)
    {
      DrivenSnoc(Begun(seeks, ends), later, ends, endMs, arrivals, k);
      s := HandleMessage(s, later, ends, endMs, arrivals[k]);
      finished := AllCompleted(s);
      k := k + 1;
    }
    if finished {
      FinishedStays(Begun(seeks, ends), later, ends, endMs, arrivals, k);
    }
    assert arrivals[..|arrivals|] == arrivals;
    yielded := s.yielded;
    forall p: nat | p < |later|
      ensures var run := Range(seeks[p], RunEnd(later[p], seeks[p], |atSnapshot[p]|, endMs));
              OffsetsOf(yielded, p) <= run && (finished ==> OffsetsOf(yielded, p) == run)
    {
      BoundedStream(seeks, later, ends, endMs, arrivals, p);
    }
  }

  /** `len(completed_partitions) == len(partitions)`, the partitions completed being some of all. */
  method AllCompleted(s: Stream) returns (all: bool)
    ensures all == Finished(s)
  {
    var n := |s.position|;
    var completed := set p | p in s.completed && p < n;
    CompletedCount(n, completed);
    all := |completed| == n;
    assert forall p: nat | p < n :: p in completed <==> p in s.completed;
    if Finished(s) {
      assert forall p: nat | p < n :: p in s.completed;
    }
  }

  function Ends(logs: seq<Log>): (ends: seq<nat>)
    ensures |ends| == |logs| && forall p | 0 <= p < |logs| :: ends[p] == |logs[p]|
  {
    seq(|logs|, p requires 0 <= p < |logs| => |logs[p]|)
  }

  function Numbers(n: nat): (all: set<nat>)
    ensures |all| == n && forall p: nat :: p in all <==> p < n
  {
    if n == 0 then {} else Numbers(n - 1) + {n - 1}
  }

  lemma CompletedCount(n: nat, completed: set<nat>)
    requires forall q | q in completed :: q < n
    ensures |completed| == n <==> forall p: nat | p < n :: p in completed
  {
    var all := Numbers(n);
    assert completed <= all;
    if |completed| == n {
      if p: nat :| p < n && p !in completed {
        assert completed <= all - {p};
        SubsetCount(completed, all - {p});
      }
    }
    assert (forall p: nat | p < n :: p in completed) ==> completed == all;
  }

  lemma {:induction false} SubsetCount(a: set<nat>, b: set<nat>)
    requires a <= b
    ensures |a| <= |b|
  {
    if a != {} {
      var x :| x in a;
      SubsetCount(a - {x}, b - {x});
    }
  }

  lemma {:induction false} FinishedStays(
    s: Stream, logs: seq<Log>, ends: seq<nat>, endMs: int, arrivals: seq<nat>, k: nat)
    requires |s.position| == |logs| == |ends| && k <= |arrivals|
    requires Finished(Driven(s, logs, ends, endMs, arrivals[..k]))
    ensures Driven(s, logs, ends, endMs, arrivals) == Driven(s, logs, ends, endMs, arrivals[..k])
    decreases |arrivals|
  {
    if k < |arrivals| {
      assert arrivals[..|arrivals| - 1][..k] == arrivals[..k];
      FinishedStays(s, logs, ends, endMs, arrivals[..|arrivals| - 1], k);
    } else {
      assert arrivals[..k] == arrivals;
    }
  }

  // ---- What the stream yields ----------------------------------------------

  /** The offsets yielded for one partition, in order. */
  function OffsetsOf(events: seq<Event>, p: nat): seq<nat> {
    if events == [] then []
    else
      var e := events[|events| - 1];
      var prior := OffsetsOf(events[..|events| - 1], p);
      if e.part == p then prior + [e.off] else prior
  }

  lemma OffsetsSnoc(events: seq<Event>, e: Event, p: nat)
    ensures OffsetsOf(events + [e], p) == if e.part == p then OffsetsOf(events, p) + [e.off] else OffsetsOf(events, p)
  {
    assert (events + [e])[..|events|] == events;
  }

  /** from, from + 1, ..., to - 1 */
  function Range(from: nat, to: nat): (r: seq<nat>)
    requires from <= to
    ensures |r| == to - from && forall i | 0 <= i < |r| :: r[i] == from + i
  {
    seq(to - from, i requires 0 <= i < to - from => from + i)
  }

  /** The run of one partition: from its seek offset to the first record above `endMs` or the snapshot's end. */
  function RunEnd(log: Log, seek: nat, end: nat, endMs: int): nat
    requires end <= |log|
  {
    Stop(log, seek, end, endMs)
  }

  predicate Shaped(seeks: seq<nat>, logs: seq<Log>, ends: seq<nat>) {
    && |seeks| == |logs| == |ends|
    && forall p | 0 <= p < |logs| :: ends[p] <= |logs[p]|
  }

  /** How far one partition got: exactly its run once complete, a prefix of it before. */
  predicate PartitionExact(s: Stream, seeks: seq<nat>, logs: seq<Log>, ends: seq<nat>, endMs: int, p: nat)
    requires Shaped(seeks, logs, ends) && p < |logs| == |s.position|
  {
    var stop := RunEnd(logs[p], seeks[p], ends[p], endMs);
    if p in s.completed then OffsetsOf(s.yielded, p) == Range(seeks[p], stop)
    else seeks[p] <= s.position[p] <= stop && s.position[p] < ends[p]
         && OffsetsOf(s.yielded, p) == Range(seeks[p], s.position[p])
  }

  predicate StreamExact(s: Stream, seeks: seq<nat>, logs: seq<Log>, ends: seq<nat>, endMs: int)
    requires Shaped(seeks, logs, ends) && |s.position| == |logs|
  {
    forall p | 0 <= p < |logs| :: PartitionExact(s, seeks, logs, ends, endMs, p)
  }

  lemma OtherExact(
    s: Stream, seeks: seq<nat>, logs: seq<Log>, ends: seq<nat>, endMs: int, p: nat, q: nat)
    requires Shaped(seeks, logs, ends) && q < |logs| == |s.position| && q != p
    requires PartitionExact(s, seeks, logs, ends, endMs, q)
    ensures PartitionExact(Delivered(s, logs, ends, endMs, p), seeks, logs, ends, endMs, q)
  {
    if p < |logs| {
      OffsetsSnoc(s.yielded, Event(p, s.position[p]), q);
    }
  }

  lemma OwnExact(s: Stream, seeks: seq<nat>, logs: seq<Log>, ends: seq<nat>, endMs: int, p: nat)
    requires Shaped(seeks, logs, ends) && p < |logs| == |s.position| && p !in s.completed
    requires PartitionExact(s, seeks, logs, ends, endMs, p)
    ensures PartitionExact(Delivered(s, logs, ends, endMs, p), seeks, logs, ends, endMs, p)
  {
    var off := s.position[p];
    var stop := RunEnd(logs[p], seeks[p], ends[p], endMs);
    OffsetsSnoc(s.yielded, Event(p, off), p);
    if Above(logs[p][off], endMs) {
      assert off == stop;
    } else {
      assert off + 1 <= stop;
      assert Range(seeks[p], off + 1) == Range(seeks[p], off) + [off];
    }
  }

  lemma {:induction false} DrivenExact(
    seeks: seq<nat>, logs: seq<Log>, ends: seq<nat>, endMs: int, arrivals: seq<nat>)
    requires Shaped(seeks, logs, ends)
    ensures StreamExact(Driven(Begun(seeks, ends), logs, ends, endMs, arrivals), seeks, logs, ends, endMs)
  {
    if arrivals != [] {
      var prior := Driven(Begun(seeks, ends), logs, ends, endMs, arrivals[..|arrivals| - 1]);
      DrivenExact(seeks, logs, ends, endMs, arrivals[..|arrivals| - 1]);
      var p := arrivals[|arrivals| - 1];
      var next := Delivered(prior, logs, ends, endMs, p);
      forall q | 0 <= q < |logs| ensures PartitionExact(next, seeks, logs, ends, endMs, q) {
        assert PartitionExact(prior, seeks, logs, ends, endMs, q);
        if q != p {
          OtherExact(prior, seeks, logs, ends, endMs, p, q);
        } else if p !in prior.completed {
          OwnExact(prior, seeks, logs, ends, endMs, p);
        }
      }
    }
  }

  /** For every interleaving, a finished stream yields exactly each partition's run, and an
      unfinished one a prefix of it: no partition cuts another short. */
  lemma BoundedStream(
    seeks: seq<nat>, logs: seq<Log>, ends: seq<nat>, endMs: int, arrivals: seq<nat>, p: nat)
    requires Shaped(seeks, logs, ends) && p < |logs|
    ensures var s := Driven(Begun(seeks, ends), logs, ends, endMs, arrivals);
            var run := Range(seeks[p], RunEnd(logs[p], seeks[p], ends[p], endMs));
            && OffsetsOf(s.yielded, p) <= run
            && (Finished(s) ==> OffsetsOf(s.yielded, p) == run)
  {
    DrivenExact(seeks, logs, ends, endMs, arrivals);
    var s := Driven(Begun(seeks, ends), logs, ends, endMs, arrivals);
    assert PartitionExact(s, seeks, logs, ends, endMs, p);
  }

  // ---- Termination ---------------------------------------------------------

  /** Records that uncompleted partitions may still take. */
  function Remaining(s: Stream, ends: seq<nat>, n: nat): nat
    requires n <= |s.position| == |ends|
  {
    if n == 0 then 0
    else Remaining(s, ends, n - 1)
         + if n - 1 in s.completed || s.position[n - 1] >= ends[n - 1] then 0 else ends[n - 1] - s.position[n - 1]
  }

  lemma {:induction false} RemainingDrops(s: Stream, logs: seq<Log>, ends: seq<nat>, endMs: int, p: nat, n: nat)
    requires n <= |s.position| == |logs| == |ends|
    requires p < |logs| && p !in s.completed && s.position[p] < ends[p] <= |logs[p]|
    ensures var t := Delivered(s, logs, ends, endMs, p);
            Remaining(t, ends, n) + (if p < n then 1 else 0) <= Remaining(s, ends, n)
  {
    if n > 0 {
      RemainingDrops(s, logs, ends, endMs, p, n - 1);
    }
  }

  /** Whatever producers append, every record taken from an uncompleted partition lowers the measure. */
  lemma Progresses(s: Stream, seeks: seq<nat>, logs: seq<Log>, ends: seq<nat>, endMs: int, p: nat)
    requires Shaped(seeks, logs, ends) && |s.position| == |logs| && StreamExact(s, seeks, logs, ends, endMs)
    requires p < |logs| && p !in s.completed
    ensures Remaining(Delivered(s, logs, ends, endMs, p), ends, |ends|) < Remaining(s, ends, |ends|)
  {
    assert PartitionExact(s, seeks, logs, ends, endMs, p);
    RemainingDrops(s, logs, ends, endMs, p, |ends|);
  }

  lemma {:induction false} NothingRemains(s: Stream, ends: seq<nat>, n: nat)
    requires n <= |s.position| == |ends|
    ensures Remaining(s, ends, n) == 0 <==> forall p | 0 <= p < n :: p in s.completed || s.position[p] >= ends[p]
  {
    if n > 0 {
      NothingRemains(s, ends, n - 1);
    }
  }

  /** In every state the loop reaches, the measure is zero exactly when every partition is complete. */
  lemma ZeroMeansFinished(seeks: seq<nat>, logs: seq<Log>, ends: seq<nat>, endMs: int, arrivals: seq<nat>)
    requires Shaped(seeks, logs, ends)
    ensures var s := Driven(Begun(seeks, ends), logs, ends, endMs, arrivals);
            Remaining(s, ends, |ends|) == 0 <==> Finished(s)
  {
    var s := Driven(Begun(seeks, ends), logs, ends, endMs, arrivals);
    DrivenExact(seeks, logs, ends, endMs, arrivals);
    NothingRemains(s, ends, |ends|);
    forall p | 0 <= p < |ends| ensures p in s.completed || s.position[p] < ends[p] {
      assert PartitionExact(s, seeks, logs, ends, endMs, p);
    }
  }

  // ---- Which records the stream covers -------------------------------------

  predicate InRange(e: Record, startMs: int, endMs: int) {
    AtOrAfter(e, startMs) && !Above(e, endMs)
  }

  /** The two ways a race between lookup and snapshot shows: an in-range record is passed
      over, and a record from before the range is replayed. */
  lemma OpeningRaces()
    ensures var e := Record(Some(5), "t", Truncate, map[], map[], "k");
            && InRange(e, 0, 10) && SeekOffset(map[], 0, [], [e], 0) == RunEnd([e], 1, 1, 10) == 1
            && !InRange(e, 8, 10) && SeekOffset(map[], 0, [], [], 8) == 0 && RunEnd([e], 0, 1, 10) == 1
  {
  }

  // ---- Opening and the window ----------------------------------------------

  /** The lookup found nothing, and of what arrived before the end offset was read, the first
      record from `startMs` on lies in range: it is passed over. */
  predicate Misses(log: Log, lookup: nat, seek: nat, startMs: int, endMs: int)
    requires lookup <= seek <= |log|
  {
    && Base(log[..lookup], startMs) == lookup
    && Base(log, startMs) < seek && !Above(log[Base(log, startMs)], endMs)
  }

  /** The lookup found a record; or what arrived before the end offset was read lies before the range
      and what follows does not; or both the first record from `startMs` on and the first one after
      the end offset lie above the range, so that there is nothing to replay. */
  predicate OpensExactly(log: Log, lookup: nat, seek: nat, startMs: int, endMs: int)
    requires lookup <= seek <= |log|
  {
    || Base(log[..lookup], startMs) < lookup
    || (if Base(log, startMs) < seek
        then Above(log[Base(log, startMs)], endMs) && (seek < |log| ==> Above(log[seek], endMs))
        else seek < |log| ==> AtOrAfter(log[seek], startMs))
  }

  /** Where a partition without a checkpoint starts, seen from the log at the snapshot. */
  lemma SoughtTo(log: Log, saved: map<nat, nat>, p: nat, lookup: nat, seek: nat, startMs: int)
    requires lookup <= seek <= |log| && p !in saved
    ensures var base, pos := Base(log, startMs), SeekOffset(saved, p, log[..lookup], log[..seek], startMs);
            if Base(log[..lookup], startMs) < lookup then pos == base else pos == seek && lookup <= base
  {
    BaseGrows(log[..lookup], log, startMs);
  }

  /** Any opening that does not miss a record starts at or before the window, or the window is empty. */
  lemma NotMissed(log: Log, saved: map<nat, nat>, p: nat, lookup: nat, seek: nat, startMs: int, endMs: int, i: nat)
    requires lookup <= seek <= |log| && p !in saved && !Misses(log, lookup, seek, startMs, endMs)
    requires InWindow(log, startMs, endMs, i)
    ensures SeekOffset(saved, p, log[..lookup], log[..seek], startMs) <= Base(log, startMs)
  {
    SoughtTo(log, saved, p, lookup, seek, startMs);
    assert !Above(log[Base(log, startMs)], endMs);
  }

  /** The stream contains the snapshot's window if and only if the opening misses nothing. */
  lemma CoverageIff(log: Log, lookup: nat, seek: nat, startMs: int, endMs: int)
    requires lookup <= seek <= |log|
    ensures var pos := SeekOffset(map[], 0, log[..lookup], log[..seek], startMs);
            (forall i: nat | InWindow(log, startMs, endMs, i) :: pos <= i < RunEnd(log, pos, |log|, endMs))
            <==> !Misses(log, lookup, seek, startMs, endMs)
  {
    var base, pos := Base(log, startMs), SeekOffset(map[], 0, log[..lookup], log[..seek], startMs);
    SoughtTo(log, map[], 0, lookup, seek, startMs);
    if Misses(log, lookup, seek, startMs, endMs) {
      assert InWindow(log, startMs, endMs, base);
    } else {
      forall i: nat | InWindow(log, startMs, endMs, i) ensures pos <= i < RunEnd(log, pos, |log|, endMs) {
        NotMissed(log, map[], 0, lookup, seek, startMs, endMs, i);
        WindowInRun(log, pos, startMs, endMs, i);
      }
    }
  }

  lemma WindowInRun(log: Log, pos: nat, startMs: int, endMs: int, i: nat)
    requires InWindow(log, startMs, endMs, i) && pos <= Base(log, startMs)
    ensures i < RunEnd(log, pos, |log|, endMs)
  {
  }

  /** What an exact opening gives: it starts at the base, or neither the window nor the run holds anything. */
  lemma ExactStart(log: Log, saved: map<nat, nat>, p: nat, lookup: nat, seek: nat, startMs: int, endMs: int)
    requires lookup <= seek <= |log| && p !in saved && OpensExactly(log, lookup, seek, startMs, endMs)
    ensures var base, pos := Base(log, startMs), SeekOffset(saved, p, log[..lookup], log[..seek], startMs);
            pos == base || (pos == RunEnd(log, pos, |log|, endMs) && base < |log| && Above(log[base], endMs))
  {
    SoughtTo(log, saved, p, lookup, seek, startMs);
  }

  /** The stream is exactly the snapshot's window if and only if it was opened exactly. */
  lemma WindowIff(log: Log, lookup: nat, seek: nat, startMs: int, endMs: int)
    requires startMs <= endMs && lookup <= seek <= |log|
    ensures var pos := SeekOffset(map[], 0, log[..lookup], log[..seek], startMs);
            (forall i: nat :: pos <= i < RunEnd(log, pos, |log|, endMs) <==> InWindow(log, startMs, endMs, i))
            <==> OpensExactly(log, lookup, seek, startMs, endMs)
  {
    var base, pos := Base(log, startMs), SeekOffset(map[], 0, log[..lookup], log[..seek], startMs);
    var end := RunEnd(log, pos, |log|, endMs);
    SoughtTo(log, map[], 0, lookup, seek, startMs);
    if OpensExactly(log, lookup, seek, startMs, endMs) {
      ExactStart(log, map[], 0, lookup, seek, startMs, endMs);
      forall i: nat ensures pos <= i < end <==> InWindow(log, startMs, endMs, i) {
        if InWindow(log, startMs, endMs, i) {
          assert !Above(log[base], endMs);
          WindowInRun(log, pos, startMs, endMs, i);
        }
      }
    } else if base < seek && !Above(log[base], endMs) {
      assert InWindow(log, startMs, endMs, base) && base < pos;
    } else {
      assert pos <= seek < end && !InWindow(log, startMs, endMs, seek);
    }
  }

  /** With stamps that never decrease: the stream is exactly the snapshot's records in
      [startMs, endMs] if and only if it was opened exactly. */
  lemma OpeningExactIff(log: Log, lookup: nat, seek: nat, startMs: int, endMs: int)
    requires startMs <= endMs && lookup <= seek <= |log| && Monotone(log)
    ensures var pos := SeekOffset(map[], 0, log[..lookup], log[..seek], startMs);
            (forall i: nat | i < |log| ::
               pos <= i < RunEnd(log, pos, |log|, endMs) <==> InRange(log[i], startMs, endMs))
            <==> OpensExactly(log, lookup, seek, startMs, endMs)
  {
    hide OpensExactly, Monotone, SeekOffset, InWindow;
    var pos := SeekOffset(map[], 0, log[..lookup], log[..seek], startMs);
    SoughtWithin(log, lookup, seek, startMs);
    WindowIff(log, lookup, seek, startMs, endMs);
    forall i: nat ensures InWindow(log, startMs, endMs, i) <==> i < |log| && InRange(log[i], startMs, endMs) {
      if i < |log| {
        WindowIsTimeRange(log, startMs, endMs, i);
        StampedAt(log, i);
      } else {
        NotBeyond(log, startMs, endMs, i);
      }
    }
  }

  lemma SoughtWithin(log: Log, lookup: nat, seek: nat, startMs: int)
    requires lookup <= seek <= |log|
    ensures SeekOffset(map[], 0, log[..lookup], log[..seek], startMs) <= |log|
  {
  }

  lemma StampedAt(log: Log, i: nat)
    requires Monotone(log) && i < |log|
    ensures log[i].timestamp.Some?
  {
  }

  lemma NotBeyond(log: Log, startMs: int, endMs: int, i: nat)
    requires i >= |log|
    ensures !InWindow(log, startMs, endMs, i)
  {
  }

  // ---- Resuming ------------------------------------------------------------

  /** The checkpoint map after committing the given events, one by one. */
  function Saved(checkpoint: map<nat, nat>, events: seq<Event>): map<nat, nat> {
    if events == [] then checkpoint
    else
      var e := events[|events| - 1];
      Saved(checkpoint, events[..|events| - 1])[e.part := e.off]
  }

  lemma {:induction false} SavedPartition(checkpoint: map<nat, nat>, events: seq<Event>, p: nat)
    ensures var offsets, saved := OffsetsOf(events, p), Saved(checkpoint, events);
            if offsets == [] then (p in saved <==> p in checkpoint) && (p in saved ==> saved[p] == checkpoint[p])
            else p in saved && saved[p] == offsets[|offsets| - 1]
  {
    if events != [] {
      SavedPartition(checkpoint, events[..|events| - 1], p);
    }
  }

  lemma {:induction false} OffsetsOfPrefix(events: seq<Event>, k: nat, p: nat)
    requires k <= |events|
    ensures OffsetsOf(events[..k], p) <= OffsetsOf(events, p)
    decreases |events|
  {
    if k < |events| {
      assert events[..|events| - 1][..k] == events[..k];
      OffsetsOfPrefix(events[..|events| - 1], k, p);
    } else {
      assert events[..k] == events;
    }
  }

  /** Nothing is streamed from this offset. */
  predicate Barren(log: Log, off: nat, end: nat, endMs: int)
    requires end <= |log|
  {
    off >= end || Above(log[off], endMs)
  }

  lemma SameRunIff(log: Log, a: nat, b: nat, end: nat, endMs: int)
    requires end <= |log|
    ensures Range(a, RunEnd(log, a, end, endMs)) == Range(b, RunEnd(log, b, end, endMs))
       <==> a == b || (Barren(log, a, end, endMs) && Barren(log, b, end, endMs))
  {
    var ra, rb := Range(a, RunEnd(log, a, end, endMs)), Range(b, RunEnd(log, b, end, endMs));
    assert ra != [] ==> ra[0] == a;
    assert rb != [] ==> rb[0] == b;
  }

  /** Cut the stream after any `k` events and resume from the checkpoint they leave, with a later
      snapshot.  In every partition what was handled, followed by what is streamed, is the
      uninterrupted run up to the later snapshot: always where something was handled or a
      checkpoint existed or the first lookup had found a record, and otherwise exactly when the
      partition is sought to the same offset again or neither offset has anything to stream. */
  lemma ResumeContinues(
    checkpoint: map<nat, nat>, firstLookup: Log, firstSeek: Log, seeks: seq<nat>, logs: seq<Log>, ends: seq<nat>,
    startMs: int, endMs: int, arrivals: seq<nat>, k: nat, p: nat,
    atLookup: Log, atSeek: Log, later: Log, laterEnd: nat)
    requires Shaped(seeks, logs, ends) && p < |logs| && seeks[p] <= ends[p]
    requires firstLookup <= firstSeek && |firstSeek| <= ends[p] && firstSeek <= logs[p]
    requires seeks[p] == SeekOffset(checkpoint, p, firstLookup, firstSeek, startMs)
    requires k <= |Driven(Begun(seeks, ends), logs, ends, endMs, arrivals).yielded|
    requires firstLookup <= atLookup <= atSeek <= later && logs[p] <= later && ends[p] <= laterEnd <= |later|
    ensures var handled := Driven(Begun(seeks, ends), logs, ends, endMs, arrivals).yielded[..k];
            var resumed := SeekOffset(Saved(checkpoint, handled), p, atLookup, atSeek, startMs);
            OffsetsOf(handled, p) + Range(resumed, RunEnd(later, resumed, laterEnd, endMs))
            == Range(seeks[p], RunEnd(later, seeks[p], laterEnd, endMs))
            <==>
            || p in Saved(checkpoint, handled)
            || Base(firstLookup, startMs) < |firstLookup|
            || resumed == seeks[p]
            || (Barren(later, seeks[p], laterEnd, endMs) && Barren(later, resumed, laterEnd, endMs))
  {
    hide Driven, Saved, OffsetsOf, RunEnd, Base, Barren;
    var s := Driven(Begun(seeks, ends), logs, ends, endMs, arrivals);
    var handled := s.yielded[..k];
    var offsets := OffsetsOf(handled, p);
    BoundedStream(seeks, logs, ends, endMs, arrivals, p);
    OffsetsOfPrefix(s.yielded, k, p);
    SavedPartition(checkpoint, handled, p);
    RunPrefix(logs[p], seeks[p], ends[p], endMs, offsets);
    var resumed := SeekOffset(Saved(checkpoint, handled), p, atLookup, atSeek, startMs);
    if p in Saved(checkpoint, handled) {
      assert later[..|logs[p]|] == logs[p];
      RunSplits(later, seeks[p], seeks[p] + |offsets|, laterEnd, endMs);
    } else {
      BaseGrows(firstLookup, atLookup, startMs);
      SameRunIff(later, resumed, seeks[p], laterEnd, endMs);
      var streamed := Range(resumed, RunEnd(later, resumed, laterEnd, endMs));
      assert offsets == [] && offsets + streamed == streamed;
    }
  }

  /** Where the first lookup found nothing, a resumed partition can differ: here the first opening passed over
      a record, nothing was handled before the cut, and the second opening finds it. */
  lemma ResumeDiffers()
    ensures var e := Record(Some(5), "t", Truncate, map[], map[], "k");
            var first, resumed := SeekOffset(map[], 0, [], [e], 0), SeekOffset(Saved(map[], []), 0, [e], [e], 0);
            && first == 1 && resumed == 0
            && Range(first, RunEnd([e], first, 1, 10)) == [] && Range(resumed, RunEnd([e], resumed, 1, 10)) == [0]
  {
    var e := Record(Some(5), "t", Truncate, map[], map[], "k");
    assert AtOrAfter([e][0], 0) && !Above([e][0], 10);
    assert Base([e], 0) == 0 && RunEnd([e], 0, 1, 10) == 1;
  }

  /** A prefix of a run is a range, and nothing in it lies above the time range. */
  lemma RunPrefix(log: Log, seek: nat, end: nat, endMs: int, offsets: seq<nat>)
    requires seek <= end <= |log| && offsets <= Range(seek, RunEnd(log, seek, end, endMs))
    ensures offsets == Range(seek, seek + |offsets|) && seek + |offsets| <= end
    ensures forall i | seek <= i < seek + |offsets| :: !Above(log[i], endMs)
    ensures offsets != [] ==> offsets[|offsets| - 1] == seek + |offsets| - 1
  {
  }

  lemma RunSplits(log: Log, from: nat, cut: nat, end: nat, endMs: int)
    requires from <= cut <= end <= |log| && forall i | from <= i < cut :: !Above(log[i], endMs)
    ensures RunEnd(log, from, end, endMs) == RunEnd(log, cut, end, endMs)
    ensures Range(from, cut) + Range(cut, RunEnd(log, cut, end, endMs)) == Range(from, RunEnd(log, from, end, endMs))
  {
    StopUnique(log, from, end, endMs, RunEnd(log, cut, end, endMs));
  }
}
