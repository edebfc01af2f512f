/**
 One event replayed without a fault: the seven steps from the stream to the committed
 checkpoint, and the state they lead to.
 */
module Events {
  import opened Prelude
  import opened Target
  import opened Jobs
  import opened Pipeline
  import Dedup

  /** The executor is idle, its next event of the partition is not marked, and the target can take it. */
  predicate CanReplay(c: Config, s: State, exec: nat, p: nat) {
    && exec in s.execs && s.execs[exec].Streaming? && s.execs[exec].task.Idle? && PartOk(s.execs[exec], p)
    && s.row.status != Paused && s.row.status != Cancelled && s.reqs == map[] && c.maxAttempts > 0
    && var ref := Current(s.execs[exec], p);
    && Valid(s, ref) && RecordAt(s, ref).key !in s.marks && CanWrite(c, s, RecordAt(s, ref))
  }

  function EventSteps(s: State, exec: nat, p: nat): seq<Step> {
    [Work(exec, Deliver(p)), Work(exec, Send), Rpc(s.nextReq, Check), Rpc(s.nextReq, Write(Done)),
     Rpc(s.nextReq, Mark(true, true)), Work(exec, Receive), Work(exec, Commit)]
  }

  /** The state with the executor at this task and its request, if any, in this phase. */
  function At(c: Config, s: State, exec: nat, p: nat, task: Task, phase: Option<Phase>): State
    requires CanReplay(c, s, exec, p)
  {
    var x := s.execs[exec];
    s.(execs := s.execs[exec := x.(task := task)],
       reqs := if phase.Some? then map[s.nextReq := Request(Current(x, p), phase.value)] else map[],
       nextReq := if task.Sending? then s.nextReq else s.nextReq + 1)
  }

  function Written(c: Config, s: State, exec: nat, p: nat, t: State): State
    requires CanReplay(c, s, exec, p)
  {
    var ref := Current(s.execs[exec], p);
    t.(target := Apply(c.schema, s.target, RecordAt(s, ref)), applied := s.applied + {ref})
  }

  function Marked(c: Config, s: State, exec: nat, p: nat, t: State): State
    requires CanReplay(c, s, exec, p)
  {
    Written(c, s, exec, p, t).(marks := s.marks[RecordAt(s, Current(s.execs[exec], p)).key := s.now + c.ttl])
  }

  /** The executor once its event is committed. */
  function Past(x: Executor, p: nat): Executor
    requires x.Streaming? && p < |x.pos|
  {
    x.(pos := x.pos[p := x.pos[p] + 1], lastId := EventIdOf(x.source, p, x.pos[p]), task := Idle)
  }

  /** The state once the event is committed. */
  function Replayed(c: Config, s: State, exec: nat, p: nat): State
    requires CanReplay(c, s, exec, p)
  {
    var x := s.execs[exec];
    var ref := Current(x, p);
    Marked(c, s, exec, p, s).(
      row := EventCommitted(s.row, false, x.source, p, x.pos[p]),
      execs := s.execs[exec := Past(x, p)], reqs := map[], nextReq := s.nextReq + 1,
      acked := s.acked + {ref}, writes := s.writes + {(exec, ref)})
  }

  function EventStates(c: Config, s: State, exec: nat, p: nat): (states: seq<State>)
    requires CanReplay(c, s, exec, p)
    ensures |states| == 8
  {
    var n := s.nextReq;
    var waiting := Waiting(p, 0, n);
    [s,
     At(c, s, exec, p, Sending(p, 0), None),
     At(c, s, exec, p, waiting, Some(Arrived)),
     At(c, s, exec, p, waiting, Some(Fresh)),
     Written(c, s, exec, p, At(c, s, exec, p, waiting, Some(Phase.Written))),
     Marked(c, s, exec, p, At(c, s, exec, p, waiting, Some(Replied(true, false)))),
     Marked(c, s, exec, p, At(c, s, exec, p, Answered(p, false), None)),
     Replayed(c, s, exec, p)]
  }

  predicate StepTo(c: Config, s: State, step: Step, t: State) {
    Enabled(c, s, step) && t == Next(c, s, step)
  }

  lemma Delivers(c: Config, s: State, exec: nat, p: nat)
    requires CanReplay(c, s, exec, p)
    ensures StepTo(c, s, Work(exec, Deliver(p)), At(c, s, exec, p, Sending(p, 0), None))
  {
  }

  lemma Sends(c: Config, s: State, exec: nat, p: nat)
    requires CanReplay(c, s, exec, p)
    ensures StepTo(c, At(c, s, exec, p, Sending(p, 0), None), Work(exec, Send),
                   At(c, s, exec, p, Waiting(p, 0, s.nextReq), Some(Arrived)))
  {
    var t := At(c, s, exec, p, Sending(p, 0), None);
    var next := Next(c, t, Work(exec, Send));
    assert next.execs == At(c, s, exec, p, Waiting(p, 0, s.nextReq), Some(Arrived)).execs;
    assert next.reqs == map[s.nextReq := Request(Current(s.execs[exec], p), Arrived)];
  }

  lemma Checks(c: Config, s: State, exec: nat, p: nat)
    requires CanReplay(c, s, exec, p)
    ensures StepTo(c, At(c, s, exec, p, Waiting(p, 0, s.nextReq), Some(Arrived)), Rpc(s.nextReq, Check),
                   At(c, s, exec, p, Waiting(p, 0, s.nextReq), Some(Fresh)))
  {
    hide Succeeds;
    var t := At(c, s, exec, p, Waiting(p, 0, s.nextReq), Some(Arrived));
    assert RpcEnabled(c, t, s.nextReq, Check);
    assert Next(c, t, Rpc(s.nextReq, Check)).reqs == map[s.nextReq := Request(Current(s.execs[exec], p), Fresh)];
  }

  lemma Writes(c: Config, s: State, exec: nat, p: nat)
    requires CanReplay(c, s, exec, p)
    ensures StepTo(c, At(c, s, exec, p, Waiting(p, 0, s.nextReq), Some(Fresh)), Rpc(s.nextReq, Write(Done)),
                   Written(c, s, exec, p, At(c, s, exec, p, Waiting(p, 0, s.nextReq), Some(Phase.Written))))
  {
    hide Succeeds, Apply;
    var t := At(c, s, exec, p, Waiting(p, 0, s.nextReq), Some(Fresh));
    assert RpcEnabled(c, t, s.nextReq, Write(Done));
    assert Next(c, t, Rpc(s.nextReq, Write(Done))).reqs
        == map[s.nextReq := Request(Current(s.execs[exec], p), Phase.Written)];
  }

  lemma Marks(c: Config, s: State, exec: nat, p: nat)
    requires CanReplay(c, s, exec, p)
    ensures StepTo(c, Written(c, s, exec, p, At(c, s, exec, p, Waiting(p, 0, s.nextReq), Some(Phase.Written))),
                   Rpc(s.nextReq, Mark(true, true)),
                   Marked(c, s, exec, p, At(c, s, exec, p, Waiting(p, 0, s.nextReq), Some(Replied(true, false)))))
  {
    hide CanWrite, Apply, Dedup.Exists;
    var t := Written(c, s, exec, p, At(c, s, exec, p, Waiting(p, 0, s.nextReq), Some(Phase.Written)));
    assert RpcEnabled(c, t, s.nextReq, Mark(true, true));
    assert Next(c, t, Rpc(s.nextReq, Mark(true, true))).reqs
        == map[s.nextReq := Request(Current(s.execs[exec], p), Replied(true, false))];
  }

  lemma Receives(c: Config, s: State, exec: nat, p: nat)
    requires CanReplay(c, s, exec, p)
    ensures StepTo(c, Marked(c, s, exec, p, At(c, s, exec, p, Waiting(p, 0, s.nextReq), Some(Replied(true, false)))),
                   Work(exec, Receive), Marked(c, s, exec, p, At(c, s, exec, p, Answered(p, false), None)))
  {
    hide Succeeds, Apply;
    var t := Marked(c, s, exec, p, At(c, s, exec, p, Waiting(p, 0, s.nextReq), Some(Replied(true, false))));
    assert WorkEnabled(c, t, exec, Receive);
    var next := Next(c, t, Work(exec, Receive));
    assert next.reqs == map[];
    assert next.execs == At(c, s, exec, p, Answered(p, false), None).execs;
  }

  /** The state after a commit of the event at hand. */
  function Committed(t: State, exec: nat, p: nat): State
    requires exec in t.execs && t.execs[exec].Streaming? && p < |t.execs[exec].pos|
  {
    var x := t.execs[exec];
    t.(row := EventCommitted(t.row, false, x.source, p, x.pos[p]), execs := t.execs[exec := Past(x, p)],
       acked := t.acked + {Current(x, p)}, writes := t.writes + {(exec, Current(x, p))})
  }

  lemma CommitsTo(c: Config, t: State, exec: nat, p: nat)
    requires exec in t.execs && t.execs[exec].Streaming? && t.execs[exec].task == Answered(p, false)
    requires PartOk(t.execs[exec], p)
    ensures StepTo(c, t, Work(exec, Commit), Committed(t, exec, p))
  {
    hide EventCommitted;
  }

  lemma Commits(c: Config, s: State, exec: nat, p: nat)
    requires CanReplay(c, s, exec, p)
    ensures StepTo(c, Marked(c, s, exec, p, At(c, s, exec, p, Answered(p, false), None)), Work(exec, Commit),
                   Replayed(c, s, exec, p))
  {
    hide CanWrite, Apply, EventCommitted, StepTo;
    var t := Marked(c, s, exec, p, At(c, s, exec, p, Answered(p, false), None));
    CommitsTo(c, t, exec, p);
    assert Committed(t, exec, p).execs == Replayed(c, s, exec, p).execs;
  }

  lemma EventStep(c: Config, s: State, exec: nat, p: nat, i: nat)
    requires CanReplay(c, s, exec, p) && i < 7
    ensures StepTo(c, EventStates(c, s, exec, p)[i], EventSteps(s, exec, p)[i], EventStates(c, s, exec, p)[i + 1])
  {
    hide CanReplay, StepTo, At, Written, Marked, Replayed;
    match i
    case 0 => Delivers(c, s, exec, p);
    case 1 => Sends(c, s, exec, p);
    case 2 => Checks(c, s, exec, p);
    case 3 => Writes(c, s, exec, p);
    case 4 => Marks(c, s, exec, p);
    case 5 => Receives(c, s, exec, p);
    case _ => Commits(c, s, exec, p);
  }

  /** An event that the target can take is replayed and committed in seven steps. */
  lemma EventReplayed(c: Config, s: State, exec: nat, p: nat)
    requires CanReplay(c, s, exec, p)
    ensures Follows(c, EventStates(c, s, exec, p), EventSteps(s, exec, p))
  {
    hide CanReplay, Enabled, Next, EventStates;
    var states, steps := EventStates(c, s, exec, p), EventSteps(s, exec, p);
    forall i | 0 <= i < |steps|
      ensures Enabled(c, states[i], steps[i]) && states[i + 1] == Next(c, states[i], steps[i])
    {
      EventStep(c, s, exec, p, i);
    }
  }
}
