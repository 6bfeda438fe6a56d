/** What becomes of the messages the processor receives from its channel: each is started, in
    order, unless a cancelled read throws it away. */
module Reads {
  import opened Nostr
  import opened Pipeline
  import Queue
  import QueueRuns
  import Matcher

  type GroupId = Matcher.GroupId
  type JsonReader = Matcher.JsonReader

  /** Every message ever received from the processor's channel. */
  function ReadSoFar(s: State): seq<Queue.Message> {
    if PROCESSOR in s.queue.boxes then s.queue.boxes[PROCESSOR].read else []
  }

  /** The read receives something, but is cancelled before it has ten messages. */
  predicate Discards(s: State, op: Op) {
    && op.Read? && s.created && s.current.None? && s.inHand == []
    && !op.end.TimerFires? && op.ready > 0 && Buffer(s) != [] && (op.ready < 10 || |Buffer(s)| < 10)
  }

  predicate NeverDiscards(json: JsonReader, s: State, ops: seq<Op>)
    requires WellFormed(s)
  {
    ops == [] ||
    (var before := ops[..|ops| - 1];
     NeverDiscards(json, s, before) && !Discards(Run(json, s, before), ops[|ops| - 1]))
  }

  /** While nothing is discarded, what was received is what was started and what is in hand;
      afterwards it is more. */
  predicate Ledger(s: State, lossless: bool) {
    && (PROCESSOR in s.queue.boxes <==> s.created)
    && (!s.created ==> s.inHand == [])
    && if lossless then ReadSoFar(s) == s.started + s.inHand else |ReadSoFar(s)| > |s.started| + |s.inHand|
  }

  lemma LedgerRead(s: State, ready: nat, end: Queue.ReadEnd, lossless: bool)
    requires WellFormed(s) && Ledger(s, lossless)
    ensures var keep := Queue.ReadErrorOf(s.queue, PROCESSOR, BATCH, ready, end).None?;
      Ledger(ReadStep(s, ready, keep), lossless && !Discards(s, Read(ready, end)))
  {
    if s.created && s.current.None? && s.inHand == [] {
      var n := Queue.Taken(s.queue.boxes[PROCESSOR], BATCH, ready);
      assert n == |Buffer(s)[..n]|;
    }
  }

  lemma LedgerStart(s: State, order: seq<GroupId>, lossless: bool)
    requires WellFormed(s) && Ledger(s, lossless)
    ensures Ledger(StartStep(s, order), lossless)
  {
    if StartStep(s, order) != s {
      assert s.started + s.inHand == s.started + [s.inHand[0]] + s.inHand[1..];
    }
  }

  lemma LedgerCreate(s: State, lossless: bool)
    requires WellFormed(s) && Ledger(s, lossless)
    ensures Ledger(CreateStep(s), lossless)
  {
    if !s.created {
      QueueRuns.OfferedAllPrefix(Queue.NewMailbox(BUFFER), s.queue.events);
    }
  }

  /** No other operation receives or starts a message. */
  lemma LedgerFrame(json: JsonReader, s: State, op: Op, lossless: bool)
    requires WellFormed(s) && Ledger(s, lossless) && !op.Read? && !op.StartMessage? && !op.CreateProcessor?
    ensures Ledger(Step(json, s, op), lossless)
  {
    var t := Step(json, s, op);
    SameReads(json, s, op);
    assert ReadSoFar(t) == ReadSoFar(s);
  }

  lemma SameReads(json: JsonReader, s: State, op: Op)
    requires WellFormed(s) && !op.Read? && !op.StartMessage? && !op.CreateProcessor?
    ensures var t := Step(json, s, op);
      && t.created == s.created && t.inHand == s.inHand && t.started == s.started
      && t.queue.boxes.Keys == s.queue.boxes.Keys
      && (PROCESSOR in s.queue.boxes ==> t.queue.boxes[PROCESSOR].read == s.queue.boxes[PROCESSOR].read)
  {
    if op.ForwardNext? {
      assert Step(json, s, op) == ForwardStep(s, op.luck);
    } else if op.InjectNext? {
      assert Step(json, s, op) == InjectNextStep(s, op.i, op.luck);
    } else if op.Add? {
      assert Step(json, s, op) == AddStep(s, op.event);
    } else {
      SameBoxes(json, s, op);
    }
  }

  lemma SameBoxes(json: JsonReader, s: State, op: Op)
    requires WellFormed(s) && (Quiet(op) || op.Trim? || op.FinishMessage?)
    ensures var t := Step(json, s, op);
      && t.created == s.created && t.inHand == s.inHand && t.started == s.started
      && t.queue.boxes == s.queue.boxes
  {
  }

  lemma LedgerStep(json: JsonReader, s: State, op: Op, lossless: bool)
    requires WellFormed(s) && Ledger(s, lossless)
    ensures Ledger(Step(json, s, op), lossless && !Discards(s, op))
  {
    match op
    case Read(ready, end) => LedgerRead(s, ready, end, lossless);
    case StartMessage(order) => LedgerStart(s, order, lossless);
    case CreateProcessor => LedgerCreate(s, lossless);
    case _ => LedgerFrame(json, s, op, lossless);
  }

  lemma {:induction false} LedgerRun(json: JsonReader, s: State, ops: seq<Op>)
    requires WellFormed(s) && Ledger(s, true)
    ensures Ledger(Run(json, s, ops), NeverDiscards(json, s, ops))
  {
    if ops == [] {
    } else {
      var before := ops[..|ops| - 1];
      LedgerRun(json, s, before);
      LedgerStep(json, Run(json, s, before), ops[|ops| - 1], NeverDiscards(json, s, before));
    }
  }

  /** Over every run: the messages received from the processor's channel are exactly those
      started and then those still in hand, in that order, if and only if no read that had
      received something was cancelled before it was full. */
  lemma {:induction false} NothingLostIffNeverDiscards(json: JsonReader, maxSize: nat, ttl: Time, now: Time,
          groups: Matcher.Groups, limit: Time, hasServer: bool, ops: seq<Op>)
    requires maxSize >= 1
    ensures var s := Run(json, Start(maxSize, ttl, now, groups, limit, hasServer), ops);
      ReadSoFar(s) == s.started + s.inHand <==>
        NeverDiscards(json, Start(maxSize, ttl, now, groups, limit, hasServer), ops)
  {
    LedgerRun(json, Start(maxSize, ttl, now, groups, limit, hasServer), ops);
  }
}
