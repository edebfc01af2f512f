/**
 Why a COMPLETED job covers its window only as far as no opening passed over it: a whole run, from a fresh
 job, in which a record arrives while the Kafka stream is being opened.
 */
module OpeningRace {
  import opened Prelude
  import opened Target
  import opened Jobs
  import opened Windows
  import opened Pipeline
  import KafkaSource

  const LATE := Record(Some(5), "t", Truncate, map[], map[], "k")
  const CONFIG := Config(0, 10, 300, 7, 4, map[])
  const FRESH := State(0, [], [[]], NEW_JOB, map[], 0, map[], 0, map[], map[], {}, {}, {}, map[], None, {})

  /** The job runs, its source is Kafka, and the one record of the topic has just arrived. */
  function Arrived(): State {
    FRESH.(row := SourceRecorded(Acquired(NEW_JOB, "a", 0, 300), Kafka, 0), kafka := [[LATE]], nextExec := 1,
            execs := map[0 := Recorded(Kafka, map[], NoId)])
  }

  lemma ReachArrived() returns (steps: seq<Step>)
    ensures IsRun(CONFIG, FRESH, steps) && Final(CONFIG, FRESH, steps) == Arrived()
  {
    var c := CONFIG;
    var s1 := Next(c, FRESH, World(Api(Start)));
    var s2 := Next(c, s1, World(Acquire("a")));
    var s3 := Next(c, s2, Work(0, RecordSource(Kafka, 0)));
    var s4 := Next(c, s3, World(AppendKafka(0, LATE)));
    var none: Log := [];
    assert none + [LATE] == [LATE] && s4.kafka == [none][0 := none + [LATE]];
    assert s4.execs == Arrived().execs && s4.kafka == Arrived().kafka && s4.row == Arrived().row;
    assert s4 == Arrived();
    steps := [World(AppendKafka(0, LATE))];
    Prepend(c, s3, World(AppendKafka(0, LATE)), []);
    Prepend(c, s2, Work(0, RecordSource(Kafka, 0)), steps);
    steps := [Work(0, RecordSource(Kafka, 0))] + steps;
    Prepend(c, s1, World(Acquire("a")), steps);
    steps := [World(Acquire("a"))] + steps;
    Prepend(c, FRESH, World(Api(Start)), steps);
    steps := [World(Api(Start))] + steps;
  }

  /** The stream was opened with its one partition at the end. */
  function StreamAtEnd(): State {
    Arrived().(skipped := {Ref(Kafka, 0, 0)}, execs := map[0 := Streaming(Kafka, [1], [1], [1], NoId, Idle)])
  }

  /** The timestamp lookup saw an empty partition, the end offset came after the record: the
      stream ends at once, and the job completes without its one in-range record. */
  lemma CompletedWithoutCoverage()
    ensures Initial(FRESH)
    ensures exists steps | IsRun(CONFIG, FRESH, steps) ::
      var t := Final(CONFIG, FRESH, steps);
      && t.row.status == Completed && t.finish == Some(Finish(Kafka, [1]))
      && t.kafka == [[LATE]] && InWindow(t.kafka[0], CONFIG.startMs, CONFIG.endMs, 0)
      && t.applied == {} && t.skipped == {Ref(Kafka, 0, 0)}
  {
    hide IsRun, Final, Enabled, Next, Arrived, StreamAtEnd, InWindow;
    var c := CONFIG;
    var open, complete := Work(0, Open([0], [1])), Work(0, Complete);
    var before := ReachArrived();
    OpenedLate();
    CompletedLate();
    Nothing(c, Next(c, StreamAtEnd(), complete));
    Prepend(c, StreamAtEnd(), complete, []);
    Prepend(c, Arrived(), open, [complete] + []);
    RunAppended(c, FRESH, before, [open] + ([complete] + []));
    var steps := before + ([open] + ([complete] + []));
    assert IsRun(c, FRESH, steps) && Final(c, FRESH, steps) == Next(c, StreamAtEnd(), complete);
  }

  lemma Nothing(c: Config, s: State)
    ensures IsRun(c, s, []) && Final(c, s, []) == s
  {
  }

  lemma CompletedLate()
    ensures Enabled(CONFIG, StreamAtEnd(), Work(0, Complete))
    ensures var t := Next(CONFIG, StreamAtEnd(), Work(0, Complete));
            && t.row.status == Completed && t.finish == Some(Finish(Kafka, [1]))
            && t.kafka == [[LATE]] && InWindow(t.kafka[0], CONFIG.startMs, CONFIG.endMs, 0)
            && t.applied == {} && t.skipped == {Ref(Kafka, 0, 0)}
  {
  }

  lemma OpenedLate()
    ensures Enabled(CONFIG, Arrived(), Work(0, Open([0], [1])))
    ensures Next(CONFIG, Arrived(), Work(0, Open([0], [1]))) == StreamAtEnd()
  {
    var s, x := Arrived(), Arrived().execs[0];
    assert Base([LATE], 0) == 0 && Base([LATE][..0], 0) == 0;
    assert AtOrAfter([LATE][0], 0) && !Above([LATE][0], 10);
    assert KafkaSource.Misses(s.kafka[0], 0, 1, 0, 10);
    assert Enabled(CONFIG, s, Work(0, Open([0], [1])));
    var t := Next(CONFIG, s, Work(0, Open([0], [1])));
    var y := Opened(CONFIG, s, x, [0], [1]);
    assert y.pos == [1] && y.stop == [1] && y.seen == [1];
    assert t.execs == map[0 := y];
  }
}
