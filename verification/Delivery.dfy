/** End-to-end results about the pipeline with atomic operations. */
module Delivery {
  import opened Nostr
  import opened Pipeline
  import Queue
  import Matcher

  type GroupId = Matcher.GroupId
  type Groups = Matcher.Groups
  type JsonReader = Matcher.JsonReader

  lemma StartInvariant(maxSize: nat, ttl: Time, now: Time, groups: Groups, limit: Time, hasServer: bool)
    requires maxSize >= 1
    ensures Invariant(Start(maxSize, ttl, now, groups, limit, hasServer))
    ensures Spaced(Start(maxSize, ttl, now, groups, limit, hasServer))
  {
  }

  lemma {:induction false} InvariantRun(json: JsonReader, s: State, ops: seq<Op>)
    requires Invariant(s)
    ensures Invariant(Run(json, s, ops))
  {
    if ops == [] {
    } else {
      InvariantRun(json, s, ops[..|ops| - 1]);
      InvariantStep(json, Run(json, s, ops[..|ops| - 1]), ops[|ops| - 1]);
    }
  }

  // Acceptances of one ID are spaced ------------------------------------------------------------

  /** Two acceptances of one event ID are more than the TTL apart, and one that is at most
      the TTL ago is still in the cache. */
  predicate Spaced(s: State) {
    && |s.acceptedAt| == |s.queue.accepted|
    && (forall x | 0 <= x < |s.acceptedAt| :: s.acceptedAt[x] <= s.now)
    && (forall x, y | 0 <= x < y < |s.acceptedAt| && s.queue.accepted[x].event.id == s.queue.accepted[y].event.id ::
          s.acceptedAt[y] - s.acceptedAt[x] > s.queue.ttl)
    && (forall x | 0 <= x < |s.acceptedAt| && s.now - s.acceptedAt[x] <= s.queue.ttl ::
          var id := s.queue.accepted[x].event.id;
          id in s.queue.cache && s.queue.cache[id] >= s.acceptedAt[x])
  }

  lemma SpacedAdd(s: State, e: Event)
    requires WellFormed(s) && Spaced(s)
    ensures Spaced(AddStep(s, e))
  {
  }

  lemma SpacedSweep(s: State)
    requires Spaced(s)
    ensures Spaced(s.(queue := s.queue.(cache := Queue.Swept(s.queue.cache, s.now, s.queue.ttl))))
  {
  }

  lemma SpacedFrame(s: State, t: State)
    requires Spaced(s) && SameAcceptances(s, t)
    ensures Spaced(t)
  {
  }

  predicate SameAcceptances(s: State, t: State) {
    && t.queue.accepted == s.queue.accepted && t.acceptedAt == s.acceptedAt && s.now <= t.now
    && t.queue.cache == s.queue.cache && t.queue.ttl == s.queue.ttl
  }

  lemma AcceptancesKept(json: JsonReader, s: State, op: Op)
    requires WellFormed(s) && !op.Add? && !op.SweepDedupe?
    ensures SameAcceptances(s, Step(json, s, op))
  {
    if op.ForwardNext? {
      assert Step(json, s, op) == ForwardStep(s, op.luck);
    } else if op.InjectNext? {
      assert Step(json, s, op) == InjectNextStep(s, op.i, op.luck);
    } else if op.Read? {
      var keep := Queue.ReadErrorOf(s.queue, PROCESSOR, BATCH, op.ready, op.end).None?;
      assert Step(json, s, op) == ReadStep(s, op.ready, keep);
    }
  }

  lemma SpacedStep(json: JsonReader, s: State, op: Op)
    requires WellFormed(s) && Spaced(s)
    ensures Spaced(Step(json, s, op))
  {
    match op
    case Add(e) => SpacedAdd(s, e);
    case SweepDedupe => SpacedSweep(s);
    case _ =>
      AcceptancesKept(json, s, op);
      SpacedFrame(s, Step(json, s, op));
  }

  lemma {:induction false} SpacedRun(json: JsonReader, s: State, ops: seq<Op>)
    requires WellFormed(s) && Spaced(s)
    ensures Spaced(Run(json, s, ops))
  {
    if ops == [] {
    } else {
      SpacedRun(json, s, ops[..|ops| - 1]);
      SpacedStep(json, Run(json, s, ops[..|ops| - 1]), ops[|ops| - 1]);
    }
  }

  // Every message goes to a group at most once ---------------------------------------------------

  predicate SameForward(a: Sent, b: Sent) {
    a.source.Some? && a.source == b.source && a.g == b.g
  }

  /** In every run a queued message is forwarded at most once to each group, as the event
      it was accepted with, and not before its acceptance. */
  lemma {:induction false} MessageForwardedOncePerGroup(json: JsonReader, maxSize: nat, ttl: Time, now: Time,
          groups: Groups, limit: Time, hasServer: bool, ops: seq<Op>)
    requires maxSize >= 1
    ensures var s := Run(json, Start(maxSize, ttl, now, groups, limit, hasServer), ops);
      && (forall k, l | 0 <= k < l < |s.log| :: !SameForward(s.log[k], s.log[l]))
      && (forall k | 0 <= k < |s.log| && s.log[k].source.Some? ::
            var x := s.log[k].source.value;
            x < |s.queue.accepted| == |s.acceptedAt| && s.log[k].event == s.queue.accepted[x].event
                && s.acceptedAt[x] <= s.log[k].at)
  {
    StartInvariant(maxSize, ttl, now, groups, limit, hasServer);
    InvariantRun(json, Start(maxSize, ttl, now, groups, limit, hasServer), ops);
    var s := Run(json, Start(maxSize, ttl, now, groups, limit, hasServer), ops);
    forall k | 0 <= k < |s.log| ensures EntryOk(s, s.log[k]) {}
  }

  // At most once per TTL ---------------------------------------------------------------------------

  /** The messages with a forward still to come: the backlog without a current message that
      has no group left. */
  function Pending(s: State): seq<Queue.Message> {
    if !s.created then s.queue.events
    else (if s.current.Some? && s.todo != [] then [s.current.value] else []) + s.inHand + Buffer(s)
  }

  /** From log position `from` on, copies of the ID that are pending or were forwarded are
      the one with serial `z` or newer than serial `x`. */
  predicate OnlyCopy(s: State, id: EventId, z: nat, x: nat, from: nat) {
    && (forall m | m in Pending(s) && m.event.id == id :: m.serial == z || m.serial > x)
    && from <= |s.log|
    && (forall k | from <= k < |s.log| && s.log[k].source.Some? && s.log[k].event.id == id ::
          s.log[k].source.value == z || s.log[k].source.value > x)
    && x < |s.queue.accepted|
  }

  lemma PendingAfterQuiet(json: JsonReader, s: State, op: Op, m: Queue.Message)
    requires WellFormed(s)
    requires Quiet(op) || op.InjectNext? || op.Trim?
    requires m in Pending(Step(json, s, op))
    ensures m in Pending(s)
  {
    var t := Step(json, s, op);
    if op.Trim? {
      assert t == TrimStep(s);
    } else {
      SameWhilePathIs(json, s, op);
      assert Pending(t) == Pending(s);
    }
  }

  lemma SameWhilePathIs(json: JsonReader, s: State, op: Op)
    requires WellFormed(s) && (Quiet(op) || op.InjectNext?)
    ensures SamePath(s, Step(json, s, op))
  {
    if op.InjectNext? {
      assert Step(json, s, op) == InjectNextStep(s, op.i, op.luck);
    }
  }

  lemma PendingAfterCreate(s: State, m: Queue.Message)
    requires WellFormed(s) && (!s.created ==> s.current.None? && s.inHand == [])
    requires m in Pending(CreateStep(s))
    ensures m in Pending(s)
  {
    if !s.created {
      BacklogAfterCreate(s);
    }
  }

  lemma PendingAfterRead(s: State, ready: nat, keep: bool, m: Queue.Message)
    requires WellFormed(s) && m in Pending(ReadStep(s, ready, keep))
    ensures m in Pending(s)
  {
    if s.created && s.current.None? && s.inHand == [] {
      BufferAfterRead(s, ready, keep);
    }
  }

  lemma PendingAfterForward(json: JsonReader, s: State, op: Op, m: Queue.Message)
    requires WellFormed(s) && (op.StartMessage? || op.ForwardNext? || op.FinishMessage?)
    requires !s.created ==> s.current.None?
    requires m in Pending(Step(json, s, op))
    ensures m in Pending(s)
  {
  }

  lemma PendingAfterAdd(s: State, e: Event, m: Queue.Message)
    requires WellFormed(s) && m in Pending(AddStep(s, e))
    ensures m in Pending(s) || m.serial == |s.queue.accepted|
  {
    if s.created && e.id !in s.queue.cache {
      var box := s.queue.boxes[PROCESSOR];
      assert Buffer(AddStep(s, e)) == Queue.Offered(box, Queue.Message(e, |s.queue.accepted|)).buffer;
    }
  }

  /** Nothing becomes pending again; only a new acceptance adds to what is pending. */
  lemma PendingStep(json: JsonReader, s: State, op: Op, m: Queue.Message)
    requires Invariant(s) && m in Pending(Step(json, s, op))
    ensures m in Pending(s) || (op.Add? && m.serial == |s.queue.accepted|)
  {
    match op
    case Add(e) => PendingAfterAdd(s, e, m);
    case CreateProcessor => PendingAfterCreate(s, m);
    case Read(ready, end) =>
      PendingAfterRead(s, ready, Queue.ReadErrorOf(s.queue, PROCESSOR, BATCH, ready, end).None?, m);
    case StartMessage(_) => PendingAfterForward(json, s, op, m);
    case ForwardNext(_) => PendingAfterForward(json, s, op, m);
    case FinishMessage => PendingAfterForward(json, s, op, m);
    case _ => PendingAfterQuiet(json, s, op, m);
  }

  /** A step logs nothing, an injected forward, or a forward of a pending message. */
  lemma LogStep(json: JsonReader, s: State, op: Op)
    requires Invariant(s)
    ensures var t := Step(json, s, op);
      || t.log == s.log
      || (|t.log| == |s.log| + 1 && t.log[..|s.log|] == s.log &&
          (t.log[|s.log|].source.None? ||
           (s.current.Some? && s.current.value in Pending(s) &&
            t.log[|s.log|].source.value == s.current.value.serial && t.log[|s.log|].event == s.current.value.event)))
  {
    if op.ForwardNext? {
      assert Step(json, s, op) == ForwardStep(s, op.luck);
      assert s.current.Some? && s.todo != [] ==> Pending(s)[0] == s.current.value;
    } else if op.InjectNext? {
      assert Step(json, s, op) == InjectNextStep(s, op.i, op.luck);
    }
  }

  lemma OnlyCopyStep(json: JsonReader, s: State, op: Op, id: EventId, z: nat, x: nat, from: nat)
    requires Invariant(s) && OnlyCopy(s, id, z, x, from)
    ensures OnlyCopy(Step(json, s, op), id, z, x, from)
  {
    var t := Step(json, s, op);
    forall m | m in Pending(t) && m.event.id == id ensures m.serial == z || m.serial > x {
      PendingStep(json, s, op, m);
    }
    LogStep(json, s, op);
    HistoriesGrow(json, s, op);
  }

  lemma {:induction false} OnlyCopyRun(json: JsonReader, s: State, ops: seq<Op>, id: EventId, z: nat, x: nat, from: nat)
    requires Invariant(s) && OnlyCopy(s, id, z, x, from)
    ensures OnlyCopy(Run(json, s, ops), id, z, x, from)
  {
    if ops == [] {
    } else {
      OnlyCopyRun(json, s, ops[..|ops| - 1], id, z, x, from);
      InvariantRun(json, s, ops[..|ops| - 1]);
      OnlyCopyStep(json, Run(json, s, ops[..|ops| - 1]), ops[|ops| - 1], id, z, x, from);
    }
  }

  predicate HistoriesExtend(s: State, t: State) {
    Extends(s.queue.accepted, t.queue.accepted) && Extends(s.acceptedAt, t.acceptedAt) && Extends(s.log, t.log)
  }

  lemma HistoriesGrow(json: JsonReader, s: State, op: Op)
    requires WellFormed(s)
    ensures HistoriesExtend(s, Step(json, s, op))
  {
    if op.ForwardNext? || op.InjectNext? {
      LogGrows(json, s, op);
    }
  }

  lemma LogGrows(json: JsonReader, s: State, op: Op)
    requires WellFormed(s) && (op.ForwardNext? || op.InjectNext?)
    ensures HistoriesExtend(s, Step(json, s, op))
  {
    if op.ForwardNext? {
      assert Step(json, s, op) == ForwardStep(s, op.luck);
    } else {
      assert Step(json, s, op) == InjectNextStep(s, op.i, op.luck);
    }
  }

  lemma {:induction false} HistoriesGrowRun(json: JsonReader, s: State, ops: seq<Op>)
    requires WellFormed(s)
    ensures HistoriesExtend(s, Run(json, s, ops))
  {
    if ops == [] {
    } else {
      HistoriesGrowRun(json, s, ops[..|ops| - 1]);
      HistoriesGrow(json, Run(json, s, ops[..|ops| - 1]), ops[|ops| - 1]);
    }
  }

  /** A forward of the event ID to the group from the queue, at time `until` or before. */
  predicate ForwardsBy(entry: Sent, id: EventId, g: GroupId, until: Time) {
    entry.source.Some? && entry.event.id == id && entry.g == g && entry.at <= until
  }

  lemma ByTtlIsThisCopy(t: State, id: EventId, z: nat, x: nat, from: nat, g: GroupId, k: nat)
    requires Invariant(t) && Spaced(t) && OnlyCopy(t, id, z, x, from) && from <= k < |t.log|
    requires t.queue.accepted[x].event.id == id
    ensures ForwardsBy(t.log[k], id, g, t.acceptedAt[x] + t.queue.ttl) ==> t.log[k].source == Some(z)
  {
    assert EntryOk(t, t.log[k]);
  }

  /** At most one pending message carries this ID. */
  predicate AtMostOneCopy(s: State, id: EventId) {
    forall i, j | 0 <= i < j < |Pending(s)| :: Pending(s)[i].event.id == id ==> Pending(s)[j].event.id != id
  }

  /** Over the continuation `after` of `a`, log entries `k` and `l` are two forwards of the
      ID to one group within the TTL of the acceptance at `s`. */
  predicate TwiceByTtl(json: JsonReader, s: State, a: State, id: EventId, after: seq<Op>, g: GroupId, k: nat, l: nat)
    requires WellFormed(a)
  {
    var log := Run(json, a, after).log;
    && |s.log| <= k < l < |log|
    && ForwardsBy(log[k], id, g, s.now + s.queue.ttl) && ForwardsBy(log[l], id, g, s.now + s.queue.ttl)
  }

  ghost predicate AtMostOnceByTtl(json: JsonReader, s: State, a: State, id: EventId)
    requires WellFormed(a)
  {
    forall after, g, k, l :: !TwiceByTtl(json, s, a, id, after, g, k, l)
  }

  lemma OnlyCopyOnce(t: State, id: EventId, z: nat, x: nat, from: nat, g: GroupId, k: nat, l: nat)
    requires Invariant(t) && Spaced(t) && OnlyCopy(t, id, z, x, from) && from <= k < l < |t.log|
    requires t.queue.accepted[x].event.id == id
    ensures var until := t.acceptedAt[x] + t.queue.ttl;
      !(ForwardsBy(t.log[k], id, g, until) && ForwardsBy(t.log[l], id, g, until))
  {
    ByTtlIsThisCopy(t, id, z, x, from, g, k);
    ByTtlIsThisCopy(t, id, z, x, from, g, l);
  }

  lemma AcceptedState(s: State, e: Event)
    requires Invariant(s) && Spaced(s) && e.id !in s.queue.cache
    ensures var a := AddStep(s, e);
      var x := |s.queue.accepted|;
      && Invariant(a) && Spaced(a) && a.log == s.log && a.now == s.now && a.queue.ttl == s.queue.ttl
      && |a.queue.accepted| == x + 1 && a.queue.accepted[x].event == e && |a.acceptedAt| == x + 1
          && a.acceptedAt[x] == s.now
  {
    AddKeeps(s, e);
    SpacedAdd(s, e);
  }

  /** The serial of a pending copy of the ID, or of the newest message if there is none. */
  lemma TheCopy(a: State, id: EventId) returns (z: nat)
    requires Invariant(a) && a.queue.accepted != [] && AtMostOneCopy(a, id)
    ensures OnlyCopy(a, id, z, |a.queue.accepted| - 1, |a.log|)
  {
    if i :| 0 <= i < |Pending(a)| && Pending(a)[i].event.id == id {
      z := Pending(a)[i].serial;
      forall m | m in Pending(a) && m.event.id == id ensures m.serial == z {
        var j :| 0 <= j < |Pending(a)| && Pending(a)[j] == m;
      }
    } else {
      z := 0;
    }
  }

  lemma OneCopySuffices(json: JsonReader, s: State, e: Event, after: seq<Op>, g: GroupId, k: nat, l: nat)
    requires Invariant(s) && Spaced(s) && e.id !in s.queue.cache && AtMostOneCopy(AddStep(s, e), e.id)
    ensures !TwiceByTtl(json, s, AddStep(s, e), e.id, after, g, k, l)
  {
    var a, x := AddStep(s, e), |s.queue.accepted|;
    AcceptedState(s, e);
    var t := Run(json, a, after);
    InvariantRun(json, a, after);
    if |s.log| <= k < l < |t.log| {
      var z := TheCopy(a, e.id);
      SpacedRun(json, a, after);
      OnlyCopyRun(json, a, after, e.id, z, x, |s.log|);
      HistoriesGrowRun(json, a, after);
      assert t.queue.accepted[x] == a.queue.accepted[x] && t.acceptedAt[x] == a.acceptedAt[x];
      OnlyCopyOnce(t, e.id, z, x, |s.log|, g, k, l);
    }
  }
}
