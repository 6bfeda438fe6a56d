/** When the processor has registered its consumer: the exact condition under which an
    accepted event is forwarded at most once per group until its TTL has passed, and a
    reachable state in which it fails. */
module LateCopies {
  import opened Nostr
  import opened Pipeline
  import opened Delivery
  import Req
  import Queue
  import Matcher
  import MatcherSteps
  import P = Processor

  const LUCK := P.Luck(true, true, true, true, 0, 0)

  // Group IDs are never empty ------------------------------------------------------------------

  predicate NamedGroups(s: State) {
    "" !in s.matcher.parsed && "" !in s.todo
  }

  lemma NamedGroupsStep(json: JsonReader, s: State, op: Op)
    requires WellFormed(s) && NamedGroups(s)
    ensures NamedGroups(Step(json, s, op))
  {
    if op.StartMessage? && Step(json, s, op) != s {
      assert "" !in MatchingSet(s, s.inHand[0].event);
      InSetOf(op.order, "");
    }
  }

  lemma InSetOf(order: seq<GroupId>, g: GroupId)
    ensures g in order <==> g in (set h | h in order)
  {
  }

  lemma {:induction false} NamedGroupsRun(json: JsonReader, s: State, ops: seq<Op>)
    requires WellFormed(s) && NamedGroups(s)
    ensures NamedGroups(Run(json, s, ops))
  {
    if ops == [] {
    } else {
      NamedGroupsRun(json, s, ops[..|ops| - 1]);
      NamedGroupsStep(json, Run(json, s, ops[..|ops| - 1]), ops[|ops| - 1]);
    }
  }

  // A continuation that forwards everything pending ----------------------------------------------

  lemma {:induction false} RunMore(json: JsonReader, s: State, ops: seq<Op>, op: Op)
    requires WellFormed(s)
    ensures Run(json, s, ops + [op]) == Step(json, Run(json, s, ops), op)
  {
    assert (ops + [op])[..|ops|] == ops;
  }

  lemma {:induction false} RunConcat(json: JsonReader, s: State, a: seq<Op>, b: seq<Op>)
    requires WellFormed(s)
    ensures Run(json, s, a + b) == Run(json, Run(json, s, a), b)
  {
    if b == [] {
      assert a + b == a;
    } else {
      assert (a + b)[..|a + b| - 1] == a + b[..|b| - 1];
      RunConcat(json, s, a, b[..|b| - 1]);
    }
  }

  lemma {:induction false} RunOne(json: JsonReader, s: State, op: Op)
    requires WellFormed(s)
    ensures Run(json, s, [op]) == Step(json, s, op)
  {
    assert [op][..0] == [];
  }

  /** The log holds a forward of this message to the group, now, from position `from` on. */
  predicate Logged(t: State, from: nat, m: Queue.Message, g: GroupId) {
    exists k | from <= k < |t.log| :: IsForward(t, t.log[k], m, g)
  }

  predicate IsForward(t: State, entry: Sent, m: Queue.Message, g: GroupId) {
    entry.source == Some(m.serial) && entry.event == m.event && entry.g == g && entry.at == t.now
  }

  /** `t` is `s` some forwards later, at the same time. */
  predicate Later(s: State, t: State) {
    t.now == s.now && |s.log| <= |t.log| && t.log[..|s.log|] == s.log
  }

  lemma LoggedStays(s: State, t: State, from: nat, m: Queue.Message, g: GroupId)
    requires Later(s, t) && Logged(s, from, m, g)
    ensures Logged(t, from, m, g)
  {
    var k :| from <= k < |s.log| && IsForward(s, s.log[k], m, g);
    assert t.log[k] == t.log[..|s.log|][k];
  }

  lemma LaterTrans(s: State, t: State, u: State)
    requires Later(s, t) && Later(t, u)
    ensures Later(s, u)
  {
    assert u.log[..|s.log|] == u.log[..|t.log|][..|s.log|];
  }

  /** Everything but the log, the limiter, the current message and its groups is the same. */
  predicate SameQueue(s: State, t: State) {
    t.created == s.created && t.inHand == s.inHand && t.queue == s.queue && t.groups == s.groups
        && t.matcher == s.matcher
  }

  lemma ForwardFirst(json: JsonReader, s: State)
    requires Invariant(s) && s.current.Some? && s.todo != []
    ensures var u := Step(json, s, ForwardNext(LUCK));
      && Invariant(u) && Later(s, u) && SameQueue(s, u) && u.current == s.current && u.todo == s.todo[1..]
      && Logged(u, |s.log|, s.current.value, s.todo[0])
  {
    InvariantStep(json, s, ForwardNext(LUCK));
    var u := Step(json, s, ForwardNext(LUCK));
    assert IsForward(u, u.log[|s.log|], s.current.value, s.todo[0]);
  }

  lemma FinishStep(json: JsonReader, s: State)
    requires Invariant(s) && s.current.Some? && s.todo == []
    ensures var t := Step(json, s, FinishMessage);
      Invariant(t) && Later(s, t) && SameQueue(s, t) && t.current.None?
  {
    InvariantStep(json, s, FinishMessage);
  }

  /** Forwards the current message to all its groups and finishes it. */
  lemma {:induction false} FinishCurrent(json: JsonReader, s: State) returns (ops: seq<Op>)
    requires Invariant(s) && s.current.Some?
    ensures var t := Run(json, s, ops);
      && Invariant(t) && Later(s, t) && SameQueue(s, t) && t.current.None?
      && forall g | g in s.todo :: Logged(t, |s.log|, s.current.value, g)
    decreases |s.todo|
  {
    if s.todo == [] {
      ops := [FinishMessage];
      RunOne(json, s, FinishMessage);
      FinishStep(json, s);
    } else {
      var op := ForwardNext(LUCK);
      var u := Step(json, s, op);
      ForwardFirst(json, s);
      var rest := FinishCurrent(json, u);
      ops := [op] + rest;
      RunOne(json, s, op);
      RunConcat(json, s, [op], rest);
      AllLogged(s, u, Run(json, u, rest));
    }
  }

  lemma AllLogged(s: State, u: State, t: State)
    requires s.current.Some? && s.todo != [] && u.todo == s.todo[1..]
    requires Later(s, u) && Later(u, t)
    requires Logged(u, |s.log|, s.current.value, s.todo[0])
    requires forall g | g in u.todo :: Logged(t, |u.log|, s.current.value, g)
    ensures Later(s, t)
    ensures forall g | g in s.todo :: Logged(t, |s.log|, s.current.value, g)
  {
    LaterTrans(s, u, t);
    LoggedStays(u, t, |s.log|, s.current.value, s.todo[0]);
    forall g | g in u.todo ensures Logged(t, |s.log|, s.current.value, g) {
      LoggedEarlier(t, |s.log|, |u.log|, s.current.value, g);
    }
    assert forall g | g in s.todo :: g == s.todo[0] || g in u.todo;
  }

  lemma LoggedEarlier(t: State, from: nat, later: nat, m: Queue.Message, g: GroupId)
    requires from <= later && Logged(t, later, m, g)
    ensures Logged(t, from, m, g)
  {
  }

  /** Only group `g` exists, and it matches exactly the events with this ID. */
  predicate OnlyIdMatches(s: State, id: EventId, g: GroupId) {
    && s.groups.Keys == {g} && g in s.matcher.parsed
    && s.matcher.parsed[g].error.None?
    && s.matcher.parsed[g].filters == [ANYTHING.(ids := Some([id]))]
  }

  lemma MatchesOnlyId(s: State, id: EventId, g: GroupId, e: Event)
    requires OnlyIdMatches(s, id, g)
    ensures MatchingSet(s, e) == if e.id == id then {g} else {}
  {
    var f := ANYTHING.(ids := Some([id]));
    assert FilterMatches(f, e) <==> e.id == id;
    assert FiltersMatch([f], e) <==> FilterMatches([f][0], e);
  }

  const DEVICE := "device"

  function IdRequest(id: EventId): Req.About {
    Req.RequestArray(DEVICE, Req.EncodeFilters([ANYTHING.(ids := Some([id]))]))
  }

  lemma IdRequestParses(id: EventId, g: GroupId)
    ensures Matcher.FreshEntry(map[g := IdRequest(id)], g)
        == Matcher.Entry(DEVICE, [ANYTHING.(ids := Some([id]))], None)
  {
    Req.RequestRoundTrip(DEVICE, [ANYTHING.(ids := Some([id]))]);
  }

  lemma ChangeStep(json: JsonReader, s: State, groups: Groups)
    requires Invariant(s)
    ensures Step(json, s, ChangeGroups(groups)) == s.(groups := groups) && Invariant(s.(groups := groups))
  {
    InvariantStep(json, s, ChangeGroups(groups));
  }

  lemma RefreshStep(json: JsonReader, s: State, g: GroupId)
    requires Invariant(s) && g != ""
    ensures var create := HandleModeration(MatcherSteps.GroupEvent(Matcher.CREATE_GROUP, g));
      var t := s.(matcher := Matcher.Refreshed(s.matcher, s.groups, g));
      Step(json, s, create) == t && Invariant(t)
  {
    MatcherSteps.GroupEventHandler(json, Matcher.CREATE_GROUP, g);
    InvariantStep(json, s, HandleModeration(MatcherSteps.GroupEvent(Matcher.CREATE_GROUP, g)));
  }

  function Subscribed(s: State, id: EventId, g: GroupId): State {
    var groups := map[g := IdRequest(id)];
    s.(groups := groups, matcher := Matcher.Refreshed(s.matcher, groups, g))
  }

  lemma SubscribedMatches(s: State, id: EventId, g: GroupId)
    ensures OnlyIdMatches(Subscribed(s, id, g), id, g) && Later(s, Subscribed(s, id, g))
  {
    IdRequestParses(id, g);
  }

  /** Replaces the relay's groups by one that subscribes to the ID. */
  lemma Subscribe(json: JsonReader, s: State, id: EventId, g: GroupId) returns (ops: seq<Op>)
    requires Invariant(s) && g != ""
    ensures Run(json, s, ops) == Subscribed(s, id, g) && Invariant(Subscribed(s, id, g))
    ensures forall op | op in ops :: !op.Connection?
  {
    var groups := map[g := IdRequest(id)];
    var change, create := ChangeGroups(groups), HandleModeration(MatcherSteps.GroupEvent(Matcher.CREATE_GROUP, g));
    ChangeStep(json, s, groups);
    RefreshStep(json, s.(groups := groups), g);
    RunOne(json, s, change);
    RunMore(json, s, [change], create);
    ops := [change] + [create];
  }

  /** Between messages, with one group subscribed to the ID. */
  predicate Draining(s: State, id: EventId, g: GroupId) {
    Invariant(s) && s.created && s.current.None? && OnlyIdMatches(s, id, g)
  }

  lemma StartHead(json: JsonReader, s: State, id: EventId, g: GroupId) returns (order: seq<GroupId>)
    requires Draining(s, id, g) && s.inHand != []
    ensures order == (if s.inHand[0].event.id == id then [g] else [])
    ensures var u := Step(json, s, StartMessage(order));
      && Invariant(u) && u == s.(current := Some(s.inHand[0]), inHand := s.inHand[1..], todo := order,
                              started := s.started + [s.inHand[0]])
  {
    order := if s.inHand[0].event.id == id then [g] else [];
    MatchesOnlyId(s, id, g, s.inHand[0].event);
    assert (set h | h in order) == MatchingSet(s, s.inHand[0].event);
    InvariantStep(json, s, StartMessage(order));
  }

  lemma DrainHead(json: JsonReader, s: State, id: EventId, g: GroupId) returns (ops: seq<Op>)
    requires Draining(s, id, g) && s.inHand != []
    ensures var t := Run(json, s, ops);
      && Draining(t, id, g) && Later(s, t) && t.inHand == s.inHand[1..] && Buffer(t) == Buffer(s)
      && (s.inHand[0].event.id == id ==> Logged(t, |s.log|, s.inHand[0], g))
  {
    var order := StartHead(json, s, id, g);
    var u := Step(json, s, StartMessage(order));
    var rest := FinishCurrent(json, u);
    ops := [StartMessage(order)] + rest;
    RunOne(json, s, StartMessage(order));
    RunConcat(json, s, [StartMessage(order)], rest);
  }

  lemma ReadSome(s: State)
    requires WellFormed(s) && s.created && s.current.None? && s.inHand == [] && Buffer(s) != []
    ensures var t := ReadStep(s, BATCH, true);
      && t.inHand != [] && t.inHand + Buffer(t) == Buffer(s)
      && t.created && t.current.None? && t.groups == s.groups && t.matcher == s.matcher && t.log == s.log
          && t.now == s.now
  {
    BufferAfterRead(s, BATCH, true);
    var n := Queue.Taken(s.queue.boxes[PROCESSOR], BATCH, BATCH);
    assert Buffer(s) == Buffer(s)[..n] + Buffer(s)[n..];
  }

  lemma DrainingFrame(s: State, t: State, id: EventId, g: GroupId)
    requires Draining(s, id, g) && Invariant(t) && t.created && t.current.None?
    requires t.groups == s.groups && t.matcher == s.matcher
    ensures Draining(t, id, g)
  {
  }

  lemma ReadInvariant(s: State)
    requires Invariant(s)
    ensures Invariant(ReadStep(s, BATCH, true))
  {
    var n := ReadKeeps(s, BATCH, true);
  }

  lemma ReadMore(json: JsonReader, s: State, id: EventId, g: GroupId)
    requires Draining(s, id, g) && s.inHand == [] && Buffer(s) != []
    ensures var t := ReadStep(s, BATCH, true);
      Draining(t, id, g) && Later(s, t) && t.inHand != [] && t.inHand + Buffer(t) == Buffer(s)
  {
    ReadInvariant(s);
    ReadSome(s);
    DrainingFrame(s, ReadStep(s, BATCH, true), id, g);
  }

  predicate DrainedFrom(s: State, t: State, from: nat, id: EventId, g: GroupId) {
    forall m | m in s.inHand + Buffer(s) && m.event.id == id :: Logged(t, from, m, g)
  }

  /** Every waiting copy of the ID still waits or was forwarded. */
  predicate WaitsOrLogged(s: State, u: State, id: EventId, g: GroupId) {
    forall m | m in s.inHand + Buffer(s) && m.event.id == id :: m in u.inHand + Buffer(u) || Logged(u, |s.log|, m, g)
  }

  lemma AllDrained(s: State, u: State, t: State, id: EventId, g: GroupId)
    requires Later(s, u) && Later(u, t) && DrainedFrom(u, t, |u.log|, id, g) && WaitsOrLogged(s, u, id, g)
    ensures DrainedFrom(s, t, |s.log|, id, g)
  {
    forall m | m in s.inHand + Buffer(s) && m.event.id == id ensures Logged(t, |s.log|, m, g) {
      if m in u.inHand + Buffer(u) {
        LoggedEarlier(t, |s.log|, |u.log|, m, g);
      } else {
        LoggedStays(u, t, |s.log|, m, g);
      }
    }
  }

  lemma DrainSome(json: JsonReader, s: State, id: EventId, g: GroupId) returns (ops: seq<Op>)
    requires Draining(s, id, g) && s.inHand + Buffer(s) != []
    ensures var u := Run(json, s, ops);
      && Draining(u, id, g) && Later(s, u) && WaitsOrLogged(s, u, id, g)
      && if s.inHand == [] then u.inHand != [] && u.inHand + Buffer(u) == s.inHand + Buffer(s)
         else |u.inHand + Buffer(u)| < |s.inHand + Buffer(s)|
  {
    if s.inHand == [] {
      ReadMore(json, s, id, g);
      ops := [Read(BATCH, Queue.TimerFires)];
      RunOne(json, s, Read(BATCH, Queue.TimerFires));
      assert Run(json, s, ops) == ReadStep(s, BATCH, true);
    } else {
      ops := DrainHead(json, s, id, g);
      HeadDrained(s, Run(json, s, ops), id, g);
    }
  }

  lemma HeadDrained(s: State, u: State, id: EventId, g: GroupId)
    requires s.inHand != [] && u.inHand == s.inHand[1..] && Buffer(u) == Buffer(s)
    requires s.inHand[0].event.id == id ==> Logged(u, |s.log|, s.inHand[0], g)
    ensures WaitsOrLogged(s, u, id, g) && |u.inHand + Buffer(u)| < |s.inHand + Buffer(s)|
  {
    assert s.inHand + Buffer(s) == [s.inHand[0]] + (u.inHand + Buffer(u));
  }

  lemma {:induction false} DrainAll(json: JsonReader, s: State, id: EventId, g: GroupId) returns (ops: seq<Op>)
    requires Draining(s, id, g)
    ensures Later(s, Run(json, s, ops)) && DrainedFrom(s, Run(json, s, ops), |s.log|, id, g)
    decreases |s.inHand + Buffer(s)|, s.inHand == []
  {
    if s.inHand + Buffer(s) == [] {
      ops := [];
    } else {
      var first := DrainSome(json, s, id, g);
      var u := Run(json, s, first);
      var rest := DrainAll(json, u, id, g);
      ops := first + rest;
      RunConcat(json, s, first, rest);
      var t := Run(json, u, rest);
      LaterTrans(s, u, t);
      AllDrained(s, u, t, id, g);
    }
  }

  lemma PendingInOrder(s: State)
    requires Invariant(s)
    ensures InOrder(Pending(s), s.queue.accepted)
  {
    if s.created && s.current.Some? && s.todo == [] {
      InOrderPart(Backlog(s), 1, |Backlog(s)|, s.queue.accepted);
      assert Pending(s) == Backlog(s)[1..];
    } else {
      assert Pending(s) == Backlog(s);
    }
  }

  /** Finishes the current message, subscribes `g` to the ID, and forwards all that waits. */
  lemma ForwardEverything(json: JsonReader, a: State, id: EventId, g: GroupId) returns (ops: seq<Op>)
    requires Invariant(a) && a.created && g != ""
    ensures var t := Run(json, a, ops);
      && Later(a, t)
      && (a.current.Some? && g in a.todo ==> Logged(t, |a.log|, a.current.value, g))
      && forall m | m in a.inHand + Buffer(a) && m.event.id == id :: Logged(t, |a.log|, m, g)
  {
    var first: seq<Op> := [];
    if a.current.Some? {
      first := FinishCurrent(json, a);
    }
    var u := Run(json, a, first);
    var second := Subscribe(json, u, id, g);
    var v := Run(json, u, second);
    SubscribedMatches(u, id, g);
    var third := DrainAll(json, v, id, g);
    var t := Run(json, v, third);
    ops := first + second + third;
    RunConcat(json, a, first, second);
    RunConcat(json, a, first + second, third);
    LaterTrans(a, u, v);
    LaterTrans(a, v, t);
    LaterTrans(u, v, t);
    if a.current.Some? && g in a.todo {
      LoggedStays(u, t, |a.log|, a.current.value, g);
    }
    forall m | m in a.inHand + Buffer(a) && m.event.id == id ensures Logged(t, |a.log|, m, g) {
      LoggedEarlier(t, |a.log|, |v.log|, m, g);
    }
  }

  lemma TwoCopiesForwardTwice(json: JsonReader, s: State, a: State, id: EventId, i: nat, j: nat)
    requires Invariant(a) && a.created && NamedGroups(a) && s.now == a.now && s.log == a.log && s.queue.ttl >= 0
    requires i < j < |Pending(a)| && Pending(a)[i].event.id == id && Pending(a)[j].event.id == id
    ensures !AtMostOnceByTtl(json, s, a, id)
  {
    var g := if a.current.Some? && a.todo != [] then a.todo[0] else "group";
    var m, n := Pending(a)[i], Pending(a)[j];
    PendingInOrder(a);
    var after := ForwardEverything(json, a, id, g);
    var t := Run(json, a, after);
    OnlyFirstIsCurrent(a, i, j);
    var k, l := TwoEntries(t, |a.log|, g, m, n);
    TwiceLogged(json, s, a, id, after, g, k, l);
  }

  /** Of two pending messages the later one is not the current message. */
  lemma OnlyFirstIsCurrent(a: State, i: nat, j: nat)
    requires a.created && i < j < |Pending(a)|
    ensures Pending(a)[j] in a.inHand + Buffer(a)
    ensures Pending(a)[i] in a.inHand + Buffer(a) || (a.current == Some(Pending(a)[i]) && a.todo != [])
  {
    var head := if a.current.Some? && a.todo != [] then [a.current.value] else [];
    assert Pending(a) == head + (a.inHand + Buffer(a));
    InTail(head, a.inHand + Buffer(a), j);
    if i >= |head| {
      InTail(head, a.inHand + Buffer(a), i);
    }
  }

  lemma InTail<T>(head: seq<T>, tail: seq<T>, k: nat)
    requires |head| <= k < |head + tail|
    ensures (head + tail)[k] in tail
  {
    assert (head + tail)[k] == tail[k - |head|];
  }

  lemma TwoEntries(t: State, from: nat, g: GroupId, m: Queue.Message, n: Queue.Message) returns (k: nat, l: nat)
    requires m.event.id == n.event.id && m.serial != n.serial && Logged(t, from, m, g) && Logged(t, from, n, g)
    ensures from <= k < l < |t.log|
    ensures ForwardsBy(t.log[k], m.event.id, g, t.now) && ForwardsBy(t.log[l], m.event.id, g, t.now)
  {
    k :| from <= k < |t.log| && IsForward(t, t.log[k], m, g);
    l :| from <= l < |t.log| && IsForward(t, t.log[l], n, g);
    if l < k {
      k, l := l, k;
    }
  }

  lemma {:induction false} TwiceLogged(json: JsonReader, s: State, a: State, id: EventId, after: seq<Op>,
          g: GroupId, k: nat, l: nat)
    requires WellFormed(a) && |s.log| <= k < l < |Run(json, a, after).log| && s.queue.ttl >= 0
    requires var log := Run(json, a, after).log;
      ForwardsBy(log[k], id, g, s.now) && ForwardsBy(log[l], id, g, s.now)
    ensures !AtMostOnceByTtl(json, s, a, id)
  {
    assert TwiceByTtl(json, s, a, id, after, g, k, l);
  }

  // Main result ----------------------------------------------------------------------------------------

  /** An event accepted with the processor's consumer in place is forwarded at most once per
      group until its TTL has passed, over every continuation, if and only if, right after its
      acceptance, at most one pending message carries its ID (or the TTL is negative and no
      time is within it). */
  lemma AtMostOnceIff(json: JsonReader, s: State, e: Event)
    requires Invariant(s) && Spaced(s) && NamedGroups(s) && s.created && e.id !in s.queue.cache
    ensures AtMostOnceByTtl(json, s, AddStep(s, e), e.id) <==> s.queue.ttl < 0 || AtMostOneCopy(AddStep(s, e), e.id)
  {
    var a := AddStep(s, e);
    AcceptedState(s, e);
    if AtMostOneCopy(a, e.id) {
      forall after, g, k, l ensures !TwiceByTtl(json, s, a, e.id, after, g, k, l) {
        OneCopySuffices(json, s, e, after, g, k, l);
      }
    } else if s.queue.ttl >= 0 {
      var i, j :| 0 <= i < j < |Pending(a)| && Pending(a)[i].event.id == e.id && Pending(a)[j].event.id == e.id;
      TwoCopiesForwardTwice(json, s, a, e.id, i, j);
    } else {
      forall after, g, k, l ensures !TwiceByTtl(json, s, a, e.id, after, g, k, l) {
        NothingWithinNegativeTtl(json, s, a, e.id, after, g, k, l);
      }
    }
  }

  lemma NothingWithinNegativeTtl(json: JsonReader, s: State, a: State, id: EventId, after: seq<Op>, g: GroupId,
          k: nat, l: nat)
    requires Invariant(a) && s.now == a.now && s.log == a.log && s.queue.ttl < 0
    ensures !TwiceByTtl(json, s, a, id, after, g, k, l)
  {
    LogTimes(json, a, after);
  }

  lemma {:induction false} LogTimes(json: JsonReader, a: State, after: seq<Op>)
    requires WellFormed(a)
    ensures var t := Run(json, a, after);
      && a.now <= t.now && |a.log| <= |t.log|
      && forall k | |a.log| <= k < |t.log| :: t.log[k].at >= a.now
  {
    if after == [] {
    } else {
      LogTimes(json, a, after[..|after| - 1]);
      LogTimeStep(json, Run(json, a, after[..|after| - 1]), after[|after| - 1]);
    }
  }

  lemma LogTimeStep(json: JsonReader, s: State, op: Op)
    requires WellFormed(s)
    ensures var t := Step(json, s, op);
      && s.now <= t.now && |s.log| <= |t.log|
      && (forall k | 0 <= k < |s.log| :: t.log[k] == s.log[k])
      && forall k | |s.log| <= k < |t.log| :: t.log[k].at == s.now
  {
  }

  /** The condition does fail in reachable states: a processor that reads nothing for longer
      than the TTL has two copies of the same event waiting. */
  lemma LaggingProcessorHoldsTwoCopies(json: JsonReader, maxSize: nat, ttl: Time, now: Time, groups: Groups,
          limit: Time, hasServer: bool, e: Event) returns (before: seq<Op>)
    requires maxSize >= 1 && ttl >= 0
    ensures var s := Run(json, Start(maxSize, ttl, now, groups, limit, hasServer), before);
      s.created && e.id !in s.queue.cache && !AtMostOneCopy(AddStep(s, e), e.id)
  {
    var start := Start(maxSize, ttl, now, groups, limit, hasServer);
    RunOne(json, start, CreateProcessor);
    RunMore(json, start, [CreateProcessor], Add(e));
    RunMore(json, start, [CreateProcessor] + [Add(e)], Tick(ttl + 1));
    RunMore(json, start, [CreateProcessor] + [Add(e)] + [Tick(ttl + 1)], SweepDedupe);
    before := [CreateProcessor] + [Add(e)] + [Tick(ttl + 1)] + [SweepDedupe];
    var s1 := CreateStep(start);
    assert s1.queue.boxes[PROCESSOR] == Queue.NewMailbox(BUFFER);
    BufferGains(s1, e);
    SweptAfterTtl(AddStep(s1, e), e);
    TwoWaiting(Run(json, start, before), e);
  }

  lemma BufferGains(s: State, e: Event)
    requires WellFormed(s) && s.created && e.id !in s.queue.cache && |Buffer(s)| < s.queue.boxes[PROCESSOR].capacity
    ensures var t := AddStep(s, e);
      Buffer(t) == Buffer(s) + [Queue.Message(e, |s.queue.accepted|)]
  {
  }

  lemma SweptAfterTtl(s: State, e: Event)
    requires s.queue.cache == map[e.id := s.now] && s.queue.ttl >= 0
    ensures Queue.Swept(s.queue.cache, s.now + s.queue.ttl + 1, s.queue.ttl) == map[]
  {
  }

  lemma TwoWaiting(s: State, e: Event)
    requires WellFormed(s) && s.created && s.current.None? && s.inHand == [] && e.id !in s.queue.cache
    requires |Buffer(s)| == 1 < s.queue.boxes[PROCESSOR].capacity && Buffer(s)[0].event == e
    ensures !AtMostOneCopy(AddStep(s, e), e.id)
  {
    BufferGains(s, e);
    var a := AddStep(s, e);
    assert Pending(a) == Buffer(a);
    assert Pending(a)[0].event.id == e.id && Pending(a)[1].event.id == e.id;
  }
}
