/** The parts of the pipeline are the component models: its queue is a run of the queue and its
    matcher a sequential run of the matcher, so what is proved of those holds end to end. */
module Components {
  import opened Nostr
  import opened Pipeline
  import Queue
  import QueueRuns
  import Matcher

  type JsonReader = Matcher.JsonReader

  /** What an operation of the pipeline does to the queue. */
  function QueueOps(s: State, op: Op): seq<QueueRuns.Op> {
    match op
    case Add(e) => [QueueRuns.Add(s.now, e)]
    case SweepDedupe => [QueueRuns.Sweep(s.now)]
    case Trim => [QueueRuns.Op.Trim(s.now)]
    case CreateProcessor => if s.created then [] else [QueueRuns.Create(s.now, PROCESSOR, 1000)]
    case Read(ready, _) =>
      if s.created && s.current.None? && s.inHand == [] then [QueueRuns.Op.Read(s.now, PROCESSOR, 10, ready)] else []
    case _ => []
  }

  function QueueRun(json: JsonReader, s: State, ops: seq<Op>): seq<QueueRuns.Op>
    requires WellFormed(s)
  {
    if ops == [] then []
    else
      var before := ops[..|ops| - 1];
      QueueRun(json, s, before) + QueueOps(Run(json, s, before), ops[|ops| - 1])
  }

  lemma {:induction false} RunAtMostOne(q: Queue.QueueState, ops: seq<QueueRuns.Op>, more: seq<QueueRuns.Op>)
    requires q.maxSize >= 1 && |more| <= 1
    ensures QueueRuns.Run(q, ops + more) ==
      if more == [] then QueueRuns.Run(q, ops) else QueueRuns.Step(QueueRuns.Run(q, ops), more[0])
  {
    if more == [] {
      assert ops + more == ops;
    } else {
      assert (ops + more)[..|ops|] == ops;
    }
  }

  lemma QueueStepIs(json: JsonReader, s: State, op: Op)
    requires WellFormed(s)
    ensures var more := QueueOps(s, op);
      |more| <= 1 &&
      Step(json, s, op).queue == if more == [] then s.queue else QueueRuns.Step(s.queue, more[0])
  {
    if op.ForwardNext? {
      assert Step(json, s, op) == ForwardStep(s, op.luck);
    } else if op.InjectNext? {
      assert Step(json, s, op) == InjectNextStep(s, op.i, op.luck);
    }
  }

  /** In every run the pipeline's queue is the queue after the operations made on it. */
  lemma {:induction false} QueueIsRun(json: JsonReader, s: State, ops: seq<Op>)
    requires WellFormed(s)
    ensures Run(json, s, ops).queue == QueueRuns.Run(s.queue, QueueRun(json, s, ops))
  {
    if ops == [] {
    } else {
      var before, op := ops[..|ops| - 1], ops[|ops| - 1];
      QueueIsRun(json, s, before);
      QueueStepIs(json, Run(json, s, before), op);
      RunAtMostOne(s.queue, QueueRun(json, s, before), QueueOps(Run(json, s, before), op));
    }
  }

  /** The stored events handled in a run, each with the groups of the relay at that moment. */
  function Moderations(json: JsonReader, s: State, ops: seq<Op>): seq<Matcher.Stored>
    requires WellFormed(s)
  {
    if ops == [] then []
    else
      var before, op := ops[..|ops| - 1], ops[|ops| - 1];
      Moderations(json, s, before)
      + if op.HandleModeration? then [Matcher.Stored(op.event, Run(json, s, before).groups)] else []
  }

  lemma MatcherStepIs(json: JsonReader, s: State, op: Op)
    requires WellFormed(s)
    ensures Step(json, s, op).matcher ==
      if op.HandleModeration? then Matcher.Handled(json, s.matcher, s.groups, op.event) else s.matcher
  {
    if op.ForwardNext? {
      assert Step(json, s, op) == ForwardStep(s, op.luck);
    } else if op.InjectNext? {
      assert Step(json, s, op) == InjectNextStep(s, op.i, op.luck);
    }
  }

  /** In every run from start-up the pipeline's matcher has handled exactly those events. */
  lemma {:induction false} MatcherIsRun(json: JsonReader, s: State, ops: seq<Op>)
    requires WellFormed(s) && s.matcher == Matcher.EMPTY
    ensures Run(json, s, ops).matcher == Matcher.Run(json, Moderations(json, s, ops))
  {
    if ops == [] {
    } else {
      var before, op := ops[..|ops| - 1], ops[|ops| - 1];
      MatcherIsRun(json, s, before);
      MatcherStepIs(json, Run(json, s, before), op);
      if op.HandleModeration? {
        var log, next := Moderations(json, s, before), Matcher.Stored(op.event, Run(json, s, before).groups);
        assert (log + [next])[..|log|] == log;
      } else {
        assert Moderations(json, s, before) + [] == Moderations(json, s, before);
      }
    }
  }
}
