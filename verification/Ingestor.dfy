/**
 `publish_to_kafka` (ingestor/ingestor.py): every record goes to the partition of its
 table's name, so the order within a partition fixes the order within a table.
 */
module Ingestor {
  import opened Target
  import opened Windows

  class Ingestor {
    var topic: seq<Log>
    var eventsPublishedKafka: nat
    const part: string -> nat

    constructor (partitions: nat, part: string -> nat)
      ensures topic == Topic(part, [], partitions) && eventsPublishedKafka == 0 && this.part == part
    {
      topic := seq(partitions, _ => []);
      eventsPublishedKafka := 0;
      this.part := part;
      new;
      assert topic == Topic(part, [], partitions);
    }

    /** The producer waits for the broker, so the record is appended when the call returns. */
    method PublishToKafka(record: Record)
      requires part(record.table) < |topic|
      modifies this
      ensures forall published | old(topic) == Topic(part, published, |old(topic)|) ::
                topic == Topic(part, published + [record], |old(topic)|)
      ensures eventsPublishedKafka == old(eventsPublishedKafka) + 1
    {
      var p := part(record.table);
      ghost var before := topic;
      topic := topic[p := topic[p] + [record]];
      eventsPublishedKafka := eventsPublishedKafka + 1;
      forall published | before == Topic(part, published, |before|)
        ensures topic == Topic(part, published + [record], |before|)
      {
        TopicSnoc(part, published, record, |before|);
        assert topic == Topic(part, published + [record], |before|);
      }
    }
  }

  /** The topic that a sequence of publications builds. */
  function Topic(part: string -> nat, published: seq<Record>, n: nat): (logs: seq<Log>)
    ensures |logs| == n && forall p | 0 <= p < n :: logs[p] == Partition(part, published, p)
  {
    seq(n, p requires 0 <= p < n => Partition(part, published, p))
  }

  lemma TopicSnoc(part: string -> nat, published: seq<Record>, record: Record, n: nat)
    requires part(record.table) < n
    ensures var q, before := part(record.table), Topic(part, published, n);
            Topic(part, published + [record], n) == before[q := before[q] + [record]]
  {
    assert (published + [record])[..|published|] == published;
    var q, before := part(record.table), Topic(part, published, n);
    assert forall p: nat | p < n :: Partition(part, published + [record], p)
             == if p == q then Partition(part, published, p) + [record] else Partition(part, published, p);
    assert Topic(part, published + [record], n) == before[q := before[q] + [record]];
  }

  lemma {:induction false} PartitionMembers(part: string -> nat, published: seq<Record>, p: nat)
    ensures forall e :: e in Partition(part, published, p) <==> e in published && part(e.table) == p
  {
    if published != [] {
      var init, last := published[..|published| - 1], published[|published| - 1];
      PartitionMembers(part, init, p);
      assert published == init + [last];
    }
  }

  /** A table's records all lie in one partition, and consuming the partitions in any
      interleaving leaves, table by table, what replaying in publication order leaves. */
  lemma PartitionOrderIsTableOrder(
    schema: Schema, part: string -> nat, published: seq<Record>, n: nat, delivered: seq<Record>,
    db: Database, table: string)
    requires forall t :: part(t) < n
    requires forall p | 0 <= p < n :: Partition(part, delivered, p) == Topic(part, published, n)[p]
    ensures forall p, e | 0 <= p < n && e in Topic(part, published, n)[p] :: part(e.table) == p
    ensures TableAt(Replay(schema, db, delivered), table) == TableAt(Replay(schema, db, published), table)
  {
    forall p, e | 0 <= p < n && e in Topic(part, published, n)[p] ensures part(e.table) == p {
      PartitionMembers(part, published, p);
    }
    ReplayByTable(schema, db, delivered, table);
    ReplayByTable(schema, db, published, table);
    OwnPartitionSuffices(schema, part, TableAt(db, table), table, delivered);
    OwnPartitionSuffices(schema, part, TableAt(db, table), table, published);
  }
}
