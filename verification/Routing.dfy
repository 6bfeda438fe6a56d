/** Presence and forwarding together: a forward is broadcast exactly when its group has a live
    counted connection, as long as connections are counted in order. */
module Routing {
  import opened Nostr
  import opened Pipeline
  import opened Delivery
  import opened LateCopies
  import Presence
  import Matcher
  import P = Processor

  /** The connection events of a run, in order. */
  function ConnEvents(ops: seq<Op>): seq<Presence.ConnEvent> {
    if ops == [] then []
    else if ops[|ops| - 1].Connection? then ConnEvents(ops[..|ops| - 1]) + [ops[|ops| - 1].e]
    else ConnEvents(ops[..|ops| - 1])
  }

  lemma TrackerStep(json: JsonReader, s: State, op: Op)
    requires WellFormed(s)
    ensures Step(json, s, op).tracker == if op.Connection? then Presence.Step(s.tracker, op.e) else s.tracker
  {
  }

  /** The pipeline's presence is that of its connection events alone. */
  lemma {:induction false} TrackerIsRun(json: JsonReader, s: State, ops: seq<Op>)
    requires WellFormed(s)
    ensures Run(json, s, ops).tracker == Presence.Run(s.tracker, ConnEvents(ops))
  {
    if ops == [] {
    } else {
      var before, op := ops[..|ops| - 1], ops[|ops| - 1];
      TrackerIsRun(json, s, before);
      TrackerStep(json, Run(json, s, before), op);
      if op.Connection? {
        PresenceMore(s.tracker, ConnEvents(before), op.e);
      }
    }
  }

  lemma {:induction false} PresenceMore(s: Presence.Tracker, events: seq<Presence.ConnEvent>, e: Presence.ConnEvent)
    ensures Presence.Run(s, events + [e]) == Presence.Step(Presence.Run(s, events), e)
  {
    assert (events + [e])[..|events|] == events;
  }

  /** A forward is dropped exactly if it does not serialize or sign; any other is broadcast
      exactly if its group was live. */
  predicate Routed(entry: Sent) {
    if !entry.luck.serializes || !entry.luck.signs then entry.outcome.NotForwarded?
    else if entry.live then entry.outcome.Broadcast?
    else entry.outcome.PushPath?
  }

  /** All forwards to the group from log position `from` on are routed by presence. */
  predicate RoutedFrom(log: seq<Sent>, from: nat, g: GroupId) {
    forall k | from <= k < |log| && log[k].g == g :: Routed(log[k])
  }

  lemma RoutedForward(s: State, source: Option<nat>, injection: Option<nat>, e: Event, h: GroupId, luck: P.Luck,
          from: nat, g: GroupId)
    requires WellFormed(s) && Presence.Accurate(s.tracker, g) && RoutedFrom(s.log, from, g)
    ensures RoutedFrom(ForwardTo(s, source, injection, e, h, luck).log, from, g)
  {
    var t := ForwardTo(s, source, injection, e, h, luck);
    assert h == g ==> Routed(t.log[|s.log|]);
  }

  lemma LogKept(json: JsonReader, s: State, op: Op)
    requires WellFormed(s) && !op.ForwardNext? && !op.InjectNext?
    ensures Step(json, s, op).log == s.log
  {
  }

  lemma RoutedStep(json: JsonReader, s: State, op: Op, from: nat, g: GroupId)
    requires WellFormed(s) && Presence.Accurate(s.tracker, g) && RoutedFrom(s.log, from, g)
    ensures RoutedFrom(Step(json, s, op).log, from, g)
  {
    match op
    case ForwardNext(luck) =>
      if s.current.Some? && s.todo != [] {
        RoutedForward(s, Some(s.current.value.serial), None, s.current.value.event, s.todo[0], luck, from, g);
      }
    case InjectNext(i, luck) =>
      if i < |s.injections| && s.injections[i].todo != [] {
        RoutedForward(s, None, Some(i), s.injections[i].event, s.injections[i].todo[0], luck, from, g);
      }
    case _ => LogKept(json, s, op);
  }

  lemma {:induction false} AccurateBefore(s: Presence.Tracker, ops: seq<Op>, g: GroupId)
    requires ops != [] && Presence.AlwaysAccurate(s, ConnEvents(ops), g)
    ensures Presence.AlwaysAccurate(s, ConnEvents(ops[..|ops| - 1]), g)
    ensures Presence.Accurate(Presence.Run(s, ConnEvents(ops[..|ops| - 1])), g)
  {
    if ops[|ops| - 1].Connection? {
      assert ConnEvents(ops)[..|ConnEvents(ops)| - 1] == ConnEvents(ops[..|ops| - 1]);
    }
  }

  lemma {:induction false} RoutedWhileAccurate(json: JsonReader, s: State, ops: seq<Op>, from: nat, g: GroupId)
    requires WellFormed(s) && RoutedFrom(s.log, from, g)
    requires Presence.AlwaysAccurate(s.tracker, ConnEvents(ops), g)
    ensures RoutedFrom(Run(json, s, ops).log, from, g)
  {
    if ops == [] {
    } else {
      var before, op := ops[..|ops| - 1], ops[|ops| - 1];
      AccurateBefore(s.tracker, ops, g);
      RoutedWhileAccurate(json, s, before, from, g);
      TrackerIsRun(json, s, before);
      RoutedStep(json, Run(json, s, before), op, from, g);
    }
  }

  // Over every run ------------------------------------------------------------------------------------

  /** Over every run in which the connections of a key are counted in order, each forward to
      the group of that name that serializes and signs, queued or injected, is broadcast if
      the group has a live counted connection at that moment and pushed otherwise. */
  lemma {:induction false} BroadcastIffLive(json: JsonReader, maxSize: nat, ttl: Time, now: Time,
          groups: Matcher.Groups, limit: Time, hasServer: bool, ops: seq<Op>, g: GroupId)
    requires maxSize >= 1 && g != ""
    requires Presence.FewLive(Presence.NOBODY, ConnEvents(ops), g)
    requires Presence.AlwaysInOrder(Presence.NOBODY, ConnEvents(ops), g)
    ensures RoutedFrom(Run(json, Start(maxSize, ttl, now, groups, limit, hasServer), ops).log, 0, g)
  {
    var start := Start(maxSize, ttl, now, groups, limit, hasServer);
    Presence.AccurateFromStartIffInOrder(ConnEvents(ops), g);
    RoutedWhileAccurate(json, start, ops, 0, g);
  }

  // Exactly then ----------------------------------------------------------------------------------------

  /** Every continuation with connections in order routes the group's forwards by presence. */
  ghost predicate AlwaysRouted(json: JsonReader, s: State, g: GroupId)
    requires WellFormed(s)
  {
    forall ops | InOrderRun(s, ops, g) :: RoutedFrom(Run(json, s, ops).log, |s.log|, g)
  }

  predicate InOrderRun(s: State, ops: seq<Op>, g: GroupId) {
    Presence.AlwaysInOrder(s.tracker, ConnEvents(ops), g) && Presence.FewLive(s.tracker, ConnEvents(ops), g)
  }

  /** A connection event keeps the routing of all later forwards right if and only if it is in
      order: neither the close of an uncounted connection while there is an entry, nor a close
      under another key than counted, nor the count of a closed one. */
  lemma RoutedIffInOrder(json: JsonReader, s: State, e: Presence.ConnEvent, g: GroupId)
    requires Invariant(s) && g != ""
    requires Presence.Consistent(s.tracker) && Presence.Accurate(s.tracker, g)
    requires |Presence.Live(s.tracker, g)| < Presence.INT32_MAX
    ensures AlwaysRouted(json, Step(json, s, Connection(e)), g) <==> Presence.InOrder(s.tracker, e, g)
  {
    var t := Step(json, s, Connection(e));
    assert t.tracker == Presence.Step(s.tracker, e);
    if Presence.InOrder(s.tracker, e, g) {
      Presence.AccurateStep(s.tracker, e, g);
      AccurateRoutes(json, t, g);
    } else {
      InvariantStep(json, s, Connection(e));
      var off := Presence.OffAfter(s.tracker, e, g);
      OffMisroutes(json, t, g, off);
    }
  }

  lemma AccurateRoutes(json: JsonReader, s: State, g: GroupId)
    requires WellFormed(s) && g != "" && Presence.Consistent(s.tracker) && Presence.Accurate(s.tracker, g)
    ensures AlwaysRouted(json, s, g)
  {
    forall ops | InOrderRun(s, ops, g) ensures RoutedFrom(Run(json, s, ops).log, |s.log|, g) {
      Presence.AccurateIffInOrder(s.tracker, ConnEvents(ops), g);
      RoutedWhileAccurate(json, s, ops, |s.log|, g);
    }
  }

  lemma OffMisroutes(json: JsonReader, s: State, g: GroupId, off: int)
    requires Invariant(s) && g != "" && Presence.OffBy(s.tracker, g, off)
    requires off == 1 || (off == -1 && Presence.Live(s.tracker, g) != {})
    ensures !AlwaysRouted(json, s, g)
  {
    var events := Presence.LeadsToMisreport(s.tracker, g, off);
    var ops := MisroutedForward(json, s, events, g);
    assert InOrderRun(s, ops, g);
  }

  function Connections(events: seq<Presence.ConnEvent>): seq<Op> {
    seq(|events|, i requires 0 <= i < |events| => Connection(events[i]))
  }

  lemma {:induction false} OnlyConnections(json: JsonReader, s: State, events: seq<Presence.ConnEvent>)
    requires WellFormed(s)
    ensures ConnEvents(Connections(events)) == events
    ensures Run(json, s, Connections(events)) == s.(tracker := Presence.Run(s.tracker, events))
  {
    if events == [] {
    } else {
      var before, e := events[..|events| - 1], events[|events| - 1];
      OnlyConnections(json, s, before);
      OneMoreConnection(events);
      RunMore(json, s, Connections(before), Connection(e));
      ConnectionStep(json, s.(tracker := Presence.Run(s.tracker, before)), e);
    }
  }

  lemma {:induction false} OneMoreConnection(events: seq<Presence.ConnEvent>)
    requires events != []
    ensures var before, e := events[..|events| - 1], events[|events| - 1];
      Connections(events) == Connections(before) + [Connection(e)] &&
      ConnEvents(Connections(events)) == ConnEvents(Connections(before)) + [e]
  {
    var before, e := events[..|events| - 1], events[|events| - 1];
    assert Connections(events) == Connections(before) + [Connection(e)];
    assert (Connections(before) + [Connection(e)])[..|before|] == Connections(before);
  }

  lemma ConnectionStep(json: JsonReader, s: State, e: Presence.ConnEvent)
    requires WellFormed(s)
    ensures Step(json, s, Connection(e)) == s.(tracker := Presence.Step(s.tracker, e))
  {
  }

  lemma {:induction false} NoConnections(a: seq<Op>, b: seq<Op>)
    requires forall op | op in b :: !op.Connection?
    ensures ConnEvents(a + b) == ConnEvents(a)
  {
    if b == [] {
      assert a + b == a;
    } else {
      assert (a + b)[..|a + b| - 1] == a + b[..|b| - 1];
      NoConnections(a, b[..|b| - 1]);
    }
  }

  /** Once presence misreports the group, one injected event is routed wrongly. */
  lemma {:induction false} MisroutedForward(json: JsonReader, s: State, events: seq<Presence.ConnEvent>, g: GroupId)
    returns (ops: seq<Op>)
    requires Invariant(s) && g != "" && Presence.Misreported(Presence.Run(s.tracker, events), g)
    ensures ConnEvents(ops) == events && !RoutedFrom(Run(json, s, ops).log, |s.log|, g)
  {
    var first := Connections(events);
    OnlyConnections(json, s, events);
    InvariantRun(json, s, first);
    var u := Run(json, s, first);
    var second := InjectWrongly(json, u, g);
    ops := first + second;
    RunConcat(json, s, first, second);
    NoConnections(first, second);
  }

  /** Subscribes the group to an event, leaving presence and the log alone. */
  lemma SubscribeTo(json: JsonReader, s: State, e: Event, g: GroupId) returns (ops: seq<Op>)
    requires Invariant(s) && g != ""
    ensures forall op | op in ops :: !op.Connection?
    ensures var u := Run(json, s, ops); MatchingSet(u, e) == {g} && u.tracker == s.tracker && u.log == s.log
  {
    ops := Subscribe(json, s, e.id, g);
    SubscribedMatches(s, e.id, g);
    MatchesOnlyId(Subscribed(s, e.id, g), e.id, g, e);
  }

  lemma InjectWrongly(json: JsonReader, s: State, g: GroupId) returns (ops: seq<Op>)
    requires Invariant(s) && g != "" && Presence.Misreported(s.tracker, g)
    ensures (forall op | op in ops :: !op.Connection?) && !RoutedFrom(Run(json, s, ops).log, |s.log|, g)
  {
    var e := Event("", "", 0, 0, [], "");
    var first := SubscribeTo(json, s, e, g);
    var u := Run(json, s, first);
    InjectOne(json, u, e, g);
    var second := [Inject(e, [g]), InjectNext(|u.injections|, LUCK)];
    ops := first + second;
    RunConcat(json, s, first, second);
  }

  lemma {:induction false} InjectOne(json: JsonReader, s: State, e: Event, g: GroupId)
    requires WellFormed(s) && MatchingSet(s, e) == {g} && Presence.Misreported(s.tracker, g)
    ensures !RoutedFrom(Run(json, s, [Inject(e, [g]), InjectNext(|s.injections|, LUCK)]).log, |s.log|, g)
  {
    var t := s.(injections := s.injections + [Injection(e, [g])]);
    assert (set h | h in [g]) == {g};
    assert Step(json, s, Inject(e, [g])) == t;
    RunOne(json, s, Inject(e, [g]));
    assert [Inject(e, [g]), InjectNext(|s.injections|, LUCK)] == [Inject(e, [g])] + [InjectNext(|s.injections|, LUCK)];
    RunMore(json, s, [Inject(e, [g])], InjectNext(|s.injections|, LUCK));
    var log := Step(json, t, InjectNext(|s.injections|, LUCK)).log;
    assert log[|s.log|].g == g && !Routed(log[|s.log|]);
  }
}
