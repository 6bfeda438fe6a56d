/** The exact condition under which an accepted event is forwarded at most once per group
    until its TTL has passed, whether or not the processor has registered its consumer. */
module EarlyCopies {
  import opened Nostr
  import opened Pipeline
  import opened Delivery
  import opened LateCopies
  import Queue
  import Matcher

  /** The queue holds messages with consecutive serials, up to the newest one. */
  predicate Consecutive(s: State) {
    && |s.queue.events| <= |s.queue.accepted|
    && forall i | 0 <= i < |s.queue.events| :: s.queue.events[i].serial == |s.queue.accepted| - |s.queue.events| + i
  }

  lemma ConsecutiveAdd(s: State, e: Event)
    requires WellFormed(s) && Consecutive(s)
    ensures Consecutive(AddStep(s, e))
  {
  }

  lemma QueueKept(json: JsonReader, s: State, op: Op)
    requires WellFormed(s) && !op.Add? && !op.Trim?
    ensures Step(json, s, op).queue.events == s.queue.events && Step(json, s, op).queue.accepted == s.queue.accepted
  {
  }

  lemma ConsecutiveStep(json: JsonReader, s: State, op: Op)
    requires WellFormed(s) && Consecutive(s)
    ensures Consecutive(Step(json, s, op))
  {
    if op.Add? {
      ConsecutiveAdd(s, op.event);
    } else if !op.Trim? {
      QueueKept(json, s, op);
    }
  }

  lemma {:induction false} ConsecutiveRun(json: JsonReader, s: State, ops: seq<Op>)
    requires WellFormed(s) && Consecutive(s)
    ensures Consecutive(Run(json, s, ops))
  {
    if ops == [] {
    } else {
      ConsecutiveRun(json, s, ops[..|ops| - 1]);
      ConsecutiveStep(json, Run(json, s, ops[..|ops| - 1]), ops[|ops| - 1]);
    }
  }

  // The condition --------------------------------------------------------------------------------------

  /** No two pending copies of the ID can both reach the processor: there are no two, or it
      has not registered and they lie further apart than its channel is long. */
  predicate AtMostOneReaches(s: State, id: EventId) {
    forall i, j | 0 <= i < j < |Pending(s)| && Pending(s)[i].event.id == id && Pending(s)[j].event.id == id ::
      !s.created && j - i >= BUFFER
  }

  // It suffices ------------------------------------------------------------------------------------------

  /** Not registered yet: queued copies of the ID up to serial `x` lie a channel's length
      apart, and nothing queued was forwarded from log position `from` on. */
  predicate FarApart(s: State, id: EventId, x: nat, from: nat) {
    && !s.created && Consecutive(s) && x < |s.queue.accepted|
    && (forall m, n | m in s.queue.events && n in s.queue.events && m.event.id == id && n.event.id == id
        && m.serial < n.serial <= x ::
          n.serial - m.serial >= BUFFER)
    && from <= |s.log| && forall k | from <= k < |s.log| :: s.log[k].source.None?
  }

  /** Either that, or the processor has registered and at most one copy was or will be
      forwarded to any group. */
  ghost predicate OneReaches(s: State, id: EventId, x: nat, from: nat) {
    FarApart(s, id, x, from) || exists z: nat :: OnlyCopy(s, id, z, x, from)
  }

  lemma RegisterWhileFarApart(s: State, id: EventId, x: nat, from: nat) returns (z: nat)
    requires Invariant(s) && FarApart(s, id, x, from)
    ensures OnlyCopy(CreateStep(s), id, z, x, from)
  {
    CreateKeeps(s);
    var t := CreateStep(s);
    assert Pending(t) == Backlog(t);
    if m :| m in Pending(t) && m.event.id == id && m.serial <= x {
      z := m.serial;
      forall n | n in Pending(t) && n.event.id == id && n.serial <= x ensures n.serial == z {
        SameCopy(s, id, x, from, m, n);
      }
    } else {
      z := 0;
    }
  }

  /** Two copies among the first messages that fit the channel are the same. */
  lemma SameCopy(s: State, id: EventId, x: nat, from: nat, m: Queue.Message, n: Queue.Message)
    requires FarApart(s, id, x, from) && m.event.id == id && n.event.id == id && m.serial <= x && n.serial <= x
    requires var first := s.queue.events[..Queue.Min(BUFFER, |s.queue.events|)]; m in first && n in first
    ensures m.serial == n.serial
  {
  }

  lemma FarApartStep(json: JsonReader, s: State, op: Op, id: EventId, x: nat, from: nat)
    requires Invariant(s) && FarApart(s, id, x, from) && !op.CreateProcessor?
    ensures FarApart(Step(json, s, op), id, x, from)
  {
    var t := Step(json, s, op);
    StaysUnregistered(json, s, op);
    ConsecutiveStep(json, s, op);
    HistoriesGrow(json, s, op);
    LogStep(json, s, op);
    forall m | m in t.queue.events ensures m in s.queue.events || m.serial > x {
      PendingStep(json, s, op, m);
    }
    FarApartFrame(s, t, id, x, from);
  }

  lemma FarApartFrame(s: State, t: State, id: EventId, x: nat, from: nat)
    requires FarApart(s, id, x, from) && !t.created && Consecutive(t) && HistoriesExtend(s, t)
    requires forall m | m in t.queue.events :: m in s.queue.events || m.serial > x
    requires forall k | |s.log| <= k < |t.log| :: t.log[k].source.None?
    ensures FarApart(t, id, x, from)
  {
    forall k | from <= k < |t.log| ensures t.log[k].source.None? {
      assert k < |s.log| ==> t.log[k] == s.log[k];
    }
  }

  lemma StaysUnregistered(json: JsonReader, s: State, op: Op)
    requires Invariant(s) && !s.created && !op.CreateProcessor?
    ensures !Step(json, s, op).created
  {
  }

  lemma FarApartReaches(json: JsonReader, s: State, op: Op, id: EventId, x: nat, from: nat)
    requires Invariant(s) && FarApart(s, id, x, from)
    ensures OneReaches(Step(json, s, op), id, x, from)
  {
    if op.CreateProcessor? {
      var z := RegisterWhileFarApart(s, id, x, from);
      assert Step(json, s, op) == CreateStep(s);
    } else {
      FarApartStep(json, s, op, id, x, from);
    }
  }

  lemma OneReachesStep(json: JsonReader, s: State, op: Op, id: EventId, x: nat, from: nat)
    requires Invariant(s) && OneReaches(s, id, x, from)
    ensures OneReaches(Step(json, s, op), id, x, from)
  {
    if FarApart(s, id, x, from) {
      FarApartReaches(json, s, op, id, x, from);
    } else {
      var z: nat :| OnlyCopy(s, id, z, x, from);
      OnlyCopyStep(json, s, op, id, z, x, from);
    }
  }

  lemma {:induction false} OneReachesRun(json: JsonReader, s: State, ops: seq<Op>, id: EventId, x: nat, from: nat)
    requires Invariant(s) && OneReaches(s, id, x, from)
    ensures OneReaches(Run(json, s, ops), id, x, from)
  {
    if ops == [] {
    } else {
      OneReachesRun(json, s, ops[..|ops| - 1], id, x, from);
      InvariantRun(json, s, ops[..|ops| - 1]);
      OneReachesStep(json, Run(json, s, ops[..|ops| - 1]), ops[|ops| - 1], id, x, from);
    }
  }

  lemma FarApartAtFirst(a: State, id: EventId)
    requires Invariant(a) && Consecutive(a) && !a.created && a.queue.accepted != [] && AtMostOneReaches(a, id)
    ensures FarApart(a, id, |a.queue.accepted| - 1, |a.log|)
  {
    forall m, n | m in a.queue.events && n in a.queue.events && m.event.id == id && n.event.id == id
        && m.serial < n.serial
      ensures n.serial - m.serial >= BUFFER
    {
      var i :| 0 <= i < |a.queue.events| && a.queue.events[i] == m;
      var j :| 0 <= j < |a.queue.events| && a.queue.events[j] == n;
      assert Pending(a)[i] == m && Pending(a)[j] == n;
    }
  }

  lemma FarApartSuffices(json: JsonReader, s: State, e: Event, after: seq<Op>, g: Matcher.GroupId, k: nat, l: nat)
    requires Invariant(s) && Spaced(s) && Consecutive(s) && !s.created && e.id !in s.queue.cache
    requires AtMostOneReaches(AddStep(s, e), e.id)
    ensures !TwiceByTtl(json, s, AddStep(s, e), e.id, after, g, k, l)
  {
    var a, x := AddStep(s, e), |s.queue.accepted|;
    AcceptedState(s, e);
    ConsecutiveAdd(s, e);
    FarApartAtFirst(a, e.id);
    InvariantRun(json, a, after);
    SpacedRun(json, a, after);
    OneReachesRun(json, a, after, e.id, x, |s.log|);
    HistoriesGrowRun(json, a, after);
    var t := Run(json, a, after);
    if |s.log| <= k < l < |t.log| && !FarApart(t, e.id, x, |s.log|) {
      var z: nat :| OnlyCopy(t, e.id, z, x, |s.log|);
      OnlyCopyOnce(t, e.id, z, x, |s.log|, g, k, l);
    }
  }

  // It is needed -----------------------------------------------------------------------------------------

  lemma {:induction false} LongerThanAll(ids: set<EventId>) returns (n: nat)
    ensures forall id | id in ids :: |id| < n
    decreases |ids|
  {
    if ids == {} {
      n := 0;
    } else {
      var id :| id in ids;
      var rest := LongerThanAll(ids - {id});
      n := if |id| < rest then rest else |id| + 1;
    }
  }

  lemma UnseenEvent(s: State) returns (e: Event)
    ensures e.id !in s.queue.cache
  {
    var n := LongerThanAll(s.queue.cache.Keys);
    e := Event(seq(n, i => 'x'), "", 0, 0, [], "");
  }

  /** `t` is `s` with other messages queued and cached, and nothing else changed. */
  predicate OnlyQueued(s: State, t: State) {
    && t.now == s.now && t.log == s.log && t.created == s.created && t.current == s.current && t.inHand == s.inHand
    && t.todo == s.todo && t.matcher == s.matcher && t.queue.ttl == s.queue.ttl && t.queue.maxSize == s.queue.maxSize
  }

  /** Messages `i` and `j` of `s` are messages `i'` and `j'` of `t`. */
  predicate At(s: State, i: nat, j: nat, t: State, i': nat, j': nat) {
    && i < j < |s.queue.events| && i' < j' < |t.queue.events|
    && t.queue.events[i'] == s.queue.events[i] && t.queue.events[j'] == s.queue.events[j]
  }

  /** Adding an unseen event moves the queue on by one message if it is full. */
  lemma AddUnseen(json: JsonReader, s: State, i: nat, j: nat) returns (ops: seq<Op>, u: State, i': nat, j': nat)
    requires WellFormed(s) && 0 < i < j < |s.queue.events|
    ensures u == Run(json, s, ops) && WellFormed(u) && OnlyQueued(s, u) && At(s, i, j, u, i', j') && j' - i' == j - i
    ensures i' == i - 1 || (i' == i && |s.queue.events| < |u.queue.events| <= s.queue.maxSize)
  {
    var e := UnseenEvent(s);
    ops, u := [Add(e)], AddStep(s, e);
    var shift := if |s.queue.events| >= s.queue.maxSize then 1 else 0;
    i', j' := i - shift, j - shift;
    RunOne(json, s, Add(e));
  }

  lemma Registered(s: State, k: nat)
    requires Invariant(s) && !s.created && k < |s.queue.events| && k < BUFFER
    ensures var t := CreateStep(s);
      && Invariant(t) && t.created && t.now == s.now && t.log == s.log && t.matcher == s.matcher && t.todo == s.todo
      && k < |Pending(t)| && Pending(t)[0] == s.queue.events[0] && Pending(t)[k] == s.queue.events[k]
  {
    CreateKeeps(s);
    assert Pending(CreateStep(s)) == Backlog(CreateStep(s));
  }

  lemma FrontCopiesForwardTwice(json: JsonReader, s: State, b: State, id: EventId, k: nat)
    requires Invariant(b) && !b.created && NamedGroups(b) && s.now == b.now && s.log == b.log && b.queue.ttl >= 0
    requires s.queue.ttl >= 0 && 0 < k < |b.queue.events| && k < BUFFER
    requires b.queue.events[0].event.id == id && b.queue.events[k].event.id == id
    ensures !AtMostOnceByTtl(json, s, CreateStep(b), id)
  {
    Registered(b, k);
    TwoCopiesForwardTwice(json, s, CreateStep(b), id, 0, k);
  }

  lemma RegisteredForwardsTwice(json: JsonReader, s: State, a: State, id: EventId, k: nat)
    requires Invariant(a) && !a.created && NamedGroups(a) && s.now == a.now && s.log == a.log
    requires s.queue.ttl == a.queue.ttl >= 0
    requires 0 < k < |a.queue.events| && k < BUFFER
    requires a.queue.events[0].event.id == id && a.queue.events[k].event.id == id
    ensures !AtMostOnceByTtl(json, s, a, id)
  {
    RunOne(json, a, CreateProcessor);
    assert Run(json, a, [CreateProcessor]) == CreateStep(a);
    FrontCopiesForwardTwice(json, s, a, id, k);
    TwiceFromEarlier(json, s, a, [CreateProcessor], id);
  }

  /** Adding unseen events brings the first of two queued messages to the front of the queue. */
  lemma {:induction false} NearCopiesForwardTwice(json: JsonReader, s: State, a: State, id: EventId, i: nat, j: nat)
    requires Invariant(a) && !a.created && NamedGroups(a) && s.now == a.now && s.log == a.log
    requires s.queue.ttl == a.queue.ttl >= 0
    requires i < j < |a.queue.events| && j - i < BUFFER
    requires a.queue.events[i].event.id == id && a.queue.events[j].event.id == id
    ensures !AtMostOnceByTtl(json, s, a, id)
    decreases i, a.queue.maxSize - |a.queue.events|
  {
    if i == 0 {
      RegisteredForwardsTwice(json, s, a, id, j);
    } else {
      var ops, u, i', j' := AddUnseen(json, a, i, j);
      InvariantRun(json, a, ops);
      NearCopiesForwardTwice(json, s, u, id, i', j');
      TwiceFromEarlier(json, s, a, ops, id);
    }
  }

  lemma {:induction false} TwiceFromEarlier(json: JsonReader, s: State, a: State, first: seq<Op>, id: EventId)
    requires WellFormed(a) && !AtMostOnceByTtl(json, s, Run(json, a, first), id)
    ensures !AtMostOnceByTtl(json, s, a, id)
  {
    var c := Run(json, a, first);
    var after, g, k, l :| TwiceByTtl(json, s, c, id, after, g, k, l);
    RunConcat(json, a, first, after);
    assert TwiceByTtl(json, s, a, id, first + after, g, k, l);
  }

  // Main result ----------------------------------------------------------------------------------------

  /** An event accepted in any reachable state is forwarded at most once per group until its
      TTL has passed, over every continuation, if and only if, right after its acceptance, no
      two pending copies of its ID can both reach the processor (or the TTL is negative and
      no time is within it). */
  lemma {:induction false} AtMostOnceIffOneReaches(json: JsonReader, maxSize: nat, ttl: Time, now: Time,
          groups: Matcher.Groups, limit: Time, hasServer: bool, before: seq<Op>, e: Event)
    requires maxSize >= 1
    requires e.id !in Run(json, Start(maxSize, ttl, now, groups, limit, hasServer), before).queue.cache
    ensures var s := Run(json, Start(maxSize, ttl, now, groups, limit, hasServer), before);
      AtMostOnceByTtl(json, s, AddStep(s, e), e.id) <==> ttl < 0 || AtMostOneReaches(AddStep(s, e), e.id)
  {
    var start := Start(maxSize, ttl, now, groups, limit, hasServer);
    var s := Run(json, start, before);
    StartInvariant(maxSize, ttl, now, groups, limit, hasServer);
    InvariantRun(json, start, before);
    SpacedRun(json, start, before);
    NamedGroupsRun(json, start, before);
    ConsecutiveRun(json, start, before);
    if s.created {
      AtMostOnceIff(json, s, e);
    } else {
      UnregisteredIff(json, s, e);
    }
  }

  lemma UnregisteredIff(json: JsonReader, s: State, e: Event)
    requires Invariant(s) && Spaced(s) && NamedGroups(s) && Consecutive(s) && !s.created && e.id !in s.queue.cache
    ensures AtMostOnceByTtl(json, s, AddStep(s, e), e.id) <==> s.queue.ttl < 0 || AtMostOneReaches(AddStep(s, e), e.id)
  {
    var a := AddStep(s, e);
    AcceptedState(s, e);
    if AtMostOneReaches(a, e.id) {
      forall after, g, k, l ensures !TwiceByTtl(json, s, a, e.id, after, g, k, l) {
        FarApartSuffices(json, s, e, after, g, k, l);
      }
    } else if s.queue.ttl >= 0 {
      var i, j :| 0 <= i < j < |Pending(a)| && Pending(a)[i].event.id == e.id
          && Pending(a)[j].event.id == e.id && j - i < BUFFER;
      NearCopiesForwardTwice(json, s, a, e.id, i, j);
    } else {
      forall after, g, k, l ensures !TwiceByTtl(json, s, a, e.id, after, g, k, l) {
        NothingWithinNegativeTtl(json, s, a, e.id, after, g, k, l);
      }
    }
  }
}
