/**
 The part of one partition's log that a replay of [startMs, endMs] covers: it
 starts at the first record stamped at or after `startMs` and runs, unbroken, to
 the first one stamped after `endMs` or to the end offset seen.
 */
module Windows {
  import opened Prelude
  import opened Target

  type Log = seq<Record>

  predicate AtOrAfter(e: Record, startMs: int) {
    e.timestamp.Some? && e.timestamp.value >= startMs
  }

  predicate Above(e: Record, endMs: int) {
    e.timestamp.Some? && e.timestamp.value > endMs
  }

  /** `offsets_for_times`, with the length of the log where the broker answers None. */
  function Base(log: Log, startMs: int): (b: nat)
    ensures b <= |log|
    ensures forall i | 0 <= i < b :: !AtOrAfter(log[i], startMs)
    ensures b < |log| ==> AtOrAfter(log[b], startMs)
  {
    if log == [] then 0
    else if AtOrAfter(log[0], startMs) then 0
    else 1 + Base(log[1..], startMs)
  }

  /** The first offset from `from` on that is at `end` or holds a record above `endMs`. */
  function Stop(log: Log, from: nat, end: nat, endMs: int): (s: nat)
    requires end <= |log|
    ensures from <= s && (from <= end ==> s <= end)
    ensures forall i | from <= i < s :: i < end && !Above(log[i], endMs)
    ensures s < end ==> Above(log[s], endMs)
    decreases end - from
  {
    if from >= end || Above(log[from], endMs) then from else Stop(log, from + 1, end, endMs)
  }

  /** The records of the window, seen when the log had `seen` records. */
  function Window(log: Log, startMs: int, endMs: int, seen: nat): (w: seq<Record>)
    requires seen <= |log|
  {
    var base := Base(log, startMs);
    log[base..Stop(log, base, seen, endMs)]
  }

  /** The records of the window that lie below `upTo`. */
  function Upto(log: Log, startMs: int, upTo: nat): seq<Record>
    requires upTo <= |log|
  {
    if Base(log, startMs) <= upTo then log[Base(log, startMs)..upTo] else []
  }

  predicate InWindow(log: Log, startMs: int, endMs: int, i: nat) {
    && Base(log, startMs) <= i < |log|
    && forall j | Base(log, startMs) <= j <= i :: !Above(log[j], endMs)
  }

  predicate Monotone(log: Log) {
    && (forall i | 0 <= i < |log| :: log[i].timestamp.Some?)
    && (forall i, j | 0 <= i < j < |log| :: log[i].timestamp.value <= log[j].timestamp.value)
  }

  /** With stamps that never decrease, the window is exactly the records in the time range. */
  lemma WindowIsTimeRange(log: Log, startMs: int, endMs: int, i: nat)
    requires Monotone(log) && i < |log|
    ensures InWindow(log, startMs, endMs, i) <==> startMs <= log[i].timestamp.value <= endMs
  {
    var b := Base(log, startMs);
    if InWindow(log, startMs, endMs, i) {
      assert b == i || log[b].timestamp.value <= log[i].timestamp.value;
      assert !Above(log[i], endMs);
    }
  }

  /** A base that exists does not move when the log grows; one that does not moves past the old end. */
  lemma BaseGrows(log: Log, longer: Log, startMs: int)
    requires log <= longer
    ensures Base(log, startMs) < |log| ==> Base(longer, startMs) == Base(log, startMs)
    ensures Base(log, startMs) == |log| ==> Base(longer, startMs) >= |log|
  {
    var b, c := Base(log, startMs), Base(longer, startMs);
    assert forall i | 0 <= i < |log| :: longer[i] == log[i];
    if c < |log| {
      assert AtOrAfter(log[c], startMs);
    }
    if b < |log| {
      assert AtOrAfter(longer[b], startMs);
    }
  }

  lemma UptoGrows(log: Log, longer: Log, startMs: int, upTo: nat)
    requires log <= longer && upTo <= |log|
    ensures Upto(longer, startMs, upTo) == Upto(log, startMs, upTo)
  {
    BaseGrows(log, longer, startMs);
  }

  /** The window of a snapshot, reached position by position. */
  lemma StopUnique(log: Log, from: nat, end: nat, endMs: int, s: nat)
    requires from <= s <= end <= |log|
    requires forall i | from <= i < s :: !Above(log[i], endMs)
    requires s < end ==> Above(log[s], endMs)
    ensures Stop(log, from, end, endMs) == s
  {
  }
}
