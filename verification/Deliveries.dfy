/**
 An executor of the pipeline consumes its Kafka stream as `KafkaSource` delivers it: the
 events it is handed are the records the consumer loop yields, for every interleaving.
 */
module Deliveries {
  import opened Prelude
  import opened Target
  import opened Windows
  import opened Pipeline
  import KafkaSource
  import Events

  /** In one partition: the executor was handed what the loop yielded, and both are at the same record
      while the partition is open. */
  predicate MirrorsAt(x: Executor, d: KafkaSource.Stream, seeks: seq<nat>, logs: seq<Log>, endMs: int, p: nat)
    requires x.Streaming? && |x.pos| == |x.stop| == |x.seen| == |seeks| == |logs| == |d.position| && p < |logs|
  {
    && x.seen[p] <= |logs[p]|
    && seeks[p] <= x.pos[p] <= x.stop[p] == KafkaSource.RunEnd(logs[p], seeks[p], x.seen[p], endMs)
    && KafkaSource.OffsetsOf(d.yielded, p) == KafkaSource.Range(seeks[p], x.pos[p])
    && (if p in d.completed then x.pos[p] == x.stop[p]
        else d.position[p] == x.pos[p] < x.seen[p])
  }

  predicate Mirrors(x: Executor, d: KafkaSource.Stream, seeks: seq<nat>, logs: seq<Log>, endMs: int) {
    && x.Streaming? && |x.pos| == |x.stop| == |x.seen| == |seeks| == |logs| == |d.position|
    && forall p | 0 <= p < |logs| :: MirrorsAt(x, d, seeks, logs, endMs, p)
  }

  /** An executor that opens its stream starts where the consumer loop starts. */
  lemma Begins(c: Config, s: State, x: Executor, lookup: seq<nat>, seek: seq<nat>)
    requires x.Recorded? && ResumeMap(x.source, x.checkpoint, x.lastId).Some?
    requires Moments(Logs(s, x.source), lookup, seek)
    ensures var y := Opened(c, s, x, lookup, seek);
            Mirrors(y, KafkaSource.Begun(y.pos, y.seen), y.pos, Logs(s, x.source), c.endMs)
  {
    var y := Opened(c, s, x, lookup, seek);
    forall p | 0 <= p < |y.pos|
      ensures MirrorsAt(y, KafkaSource.Begun(y.pos, y.seen), y.pos, Logs(s, x.source), c.endMs, p)
    {
      assert KafkaSource.OffsetsOf([], p) == KafkaSource.Range(y.pos[p], y.pos[p]);
    }
  }

  /** The executor after the loop handled one message of partition `p`. */
  function Handed(x: Executor, p: nat): Executor
    requires x.Streaming?
  {
    if PartOk(x, p) then Events.Past(x, p) else x
  }

  lemma OtherPartition(
    x: Executor, d: KafkaSource.Stream, seeks: seq<nat>, logs: seq<Log>, endMs: int, p: nat, q: nat)
    requires Mirrors(x, d, seeks, logs, endMs) && q < |logs| && q != p
    ensures var next := KafkaSource.Delivered(d, logs, x.seen, endMs, p);
            |next.position| == |logs| && MirrorsAt(Handed(x, p), next, seeks, logs, endMs, q)
  {
    hide KafkaSource.Delivered, KafkaSource.OffsetsOf, KafkaSource.RunEnd;
    assert MirrorsAt(x, d, seeks, logs, endMs, q);
    Untouched(d, logs, x.seen, endMs, p, q);
  }

  /** A message of one partition leaves the others alone. */
  lemma Untouched(d: KafkaSource.Stream, logs: seq<Log>, ends: seq<nat>, endMs: int, p: nat, q: nat)
    requires |d.position| == |logs| == |ends| && q < |logs| && q != p
    ensures var next := KafkaSource.Delivered(d, logs, ends, endMs, p);
            && |next.position| == |logs| && next.position[q] == d.position[q]
            && (q in next.completed <==> q in d.completed)
            && KafkaSource.OffsetsOf(next.yielded, q) == KafkaSource.OffsetsOf(d.yielded, q)
  {
    if p < |logs| {
      KafkaSource.OffsetsSnoc(d.yielded, KafkaSource.Event(p, d.position[p]), q);
    }
  }

  lemma OwnPartition(x: Executor, d: KafkaSource.Stream, seeks: seq<nat>, logs: seq<Log>, endMs: int, p: nat)
    requires Mirrors(x, d, seeks, logs, endMs) && p < |logs|
    ensures var next := KafkaSource.Delivered(d, logs, x.seen, endMs, p);
            |next.position| == |logs| && MirrorsAt(Handed(x, p), next, seeks, logs, endMs, p)
    ensures var next := KafkaSource.Delivered(d, logs, x.seen, endMs, p);
            next.yielded == if PartOk(x, p) then d.yielded + [KafkaSource.Event(p, x.pos[p])] else d.yielded
  {
    assert MirrorsAt(x, d, seeks, logs, endMs, p);
    KafkaSource.OffsetsSnoc(d.yielded, KafkaSource.Event(p, d.position[p]), p);
    var from, to := seeks[p], x.pos[p];
    assert KafkaSource.Range(from, to + 1) == KafkaSource.Range(from, to) + [to];
  }

  /** One message: the loop yields exactly when there is an event for the executor, and it is that event. */
  lemma MessageMirrored(x: Executor, d: KafkaSource.Stream, seeks: seq<nat>, logs: seq<Log>, endMs: int, p: nat)
    requires Mirrors(x, d, seeks, logs, endMs)
    ensures var next := KafkaSource.Delivered(d, logs, x.seen, endMs, p);
            && Mirrors(Handed(x, p), next, seeks, logs, endMs)
            && next.yielded == if PartOk(x, p) then d.yielded + [KafkaSource.Event(p, x.pos[p])] else d.yielded
  {
    hide MirrorsAt, KafkaSource.Delivered;
    if p < |logs| {
      OwnPartition(x, d, seeks, logs, endMs, p);
    } else {
      NoPartition(x, d, logs, endMs, p);
    }
    forall q | 0 <= q < |logs| && q != p
      ensures MirrorsAt(Handed(x, p), KafkaSource.Delivered(d, logs, x.seen, endMs, p), seeks, logs, endMs, q)
    {
      OtherPartition(x, d, seeks, logs, endMs, p, q);
    }
  }

  lemma NoPartition(x: Executor, d: KafkaSource.Stream, logs: seq<Log>, endMs: int, p: nat)
    requires x.Streaming? && |x.pos| == |x.seen| == |logs| == |d.position| && p >= |logs|
    ensures KafkaSource.Delivered(d, logs, x.seen, endMs, p) == d && Handed(x, p) == x
  {
  }

  /** The executor once it was handed everything the loop yielded over these arrivals. */
  function Carried(x: Executor, arrivals: seq<nat>): (y: Executor)
    requires x.Streaming?
    ensures y.Streaming? && y.seen == x.seen && y.stop == x.stop && |y.pos| == |x.pos|
  {
    if arrivals == [] then x else Handed(Carried(x, arrivals[..|arrivals| - 1]), arrivals[|arrivals| - 1])
  }

  /** Every run of the consumer loop is mirrored by the executor, and when the loop has ended the
      executor has nothing left to do: it can complete. */
  lemma {:induction false} LoopMirrored(
    x: Executor, seeks: seq<nat>, logs: seq<Log>, endMs: int, arrivals: seq<nat>)
    requires x.Streaming? && |seeks| == |x.seen| == |logs|
    requires Mirrors(x, KafkaSource.Begun(seeks, x.seen), seeks, logs, endMs)
    ensures var d := KafkaSource.Driven(KafkaSource.Begun(seeks, x.seen), logs, x.seen, endMs, arrivals);
            var y := Carried(x, arrivals);
            && Mirrors(y, d, seeks, logs, endMs)
            && (KafkaSource.Finished(d) ==> forall p | 0 <= p < |y.pos| :: y.pos[p] >= y.stop[p])
  {
    hide MirrorsAt, KafkaSource.Delivered, Handed;
    var begun := KafkaSource.Begun(seeks, x.seen);
    if arrivals != [] {
      var init, p := arrivals[..|arrivals| - 1], arrivals[|arrivals| - 1];
      LoopMirrored(x, seeks, logs, endMs, init);
      var d, y := KafkaSource.Driven(begun, logs, x.seen, endMs, init), Carried(x, init);
      if KafkaSource.Finished(d) {
        NothingHanded(y, d, seeks, logs, endMs, p);
      } else {
        MessageMirrored(y, d, seeks, logs, endMs, p);
      }
    }
    EndedDrained(Carried(x, arrivals), KafkaSource.Driven(begun, logs, x.seen, endMs, arrivals), seeks, logs, endMs);
  }

  lemma EndedDrained(x: Executor, d: KafkaSource.Stream, seeks: seq<nat>, logs: seq<Log>, endMs: int)
    requires Mirrors(x, d, seeks, logs, endMs)
    ensures KafkaSource.Finished(d) ==> forall p | 0 <= p < |x.pos| :: x.pos[p] >= x.stop[p]
  {
    if KafkaSource.Finished(d) {
      forall p | 0 <= p < |x.pos| ensures x.pos[p] >= x.stop[p] {
        assert MirrorsAt(x, d, seeks, logs, endMs, p);
      }
    }
  }

  lemma NothingHanded(x: Executor, d: KafkaSource.Stream, seeks: seq<nat>, logs: seq<Log>, endMs: int, p: nat)
    requires Mirrors(x, d, seeks, logs, endMs) && KafkaSource.Finished(d)
    ensures Handed(x, p) == x
  {
    EndedDrained(x, d, seeks, logs, endMs);
  }

  /** Conversely, once the executor has nothing left to do, every partition the loop still holds open
      has a record above the range next, which closes it and yields nothing. */
  lemma OnlyClosingLeft(x: Executor, d: KafkaSource.Stream, seeks: seq<nat>, logs: seq<Log>, endMs: int, p: nat)
    requires Mirrors(x, d, seeks, logs, endMs) && p < |logs| && x.pos[p] >= x.stop[p] && p !in d.completed
    ensures d.position[p] < |logs[p]| && Above(logs[p][d.position[p]], endMs)
    ensures p in KafkaSource.Delivered(d, logs, x.seen, endMs, p).completed
    ensures KafkaSource.Delivered(d, logs, x.seen, endMs, p).yielded == d.yielded
  {
    assert MirrorsAt(x, d, seeks, logs, endMs, p);
  }
}
