/** Completeness for injected events: the handler of an event injected past the queue forwards
    it to every group that matched when it began, once each, whatever runs meanwhile. */
module Injected {
  import opened Nostr
  import opened Pipeline
  import Matcher
  import P = Processor

  type GroupId = Matcher.GroupId
  type JsonReader = Matcher.JsonReader

  /** The groups that handler `i` has forwarded to. */
  function InjectedTo(log: seq<Sent>, i: nat): set<GroupId> {
    set k | 0 <= k < |log| && log[k].injection == Some(i) :: log[k].g
  }

  /** Entries come from handlers that have begun. */
  predicate Begun(s: State) {
    forall k | 0 <= k < |s.log| && s.log[k].injection.Some? :: s.log[k].injection.value < |s.injections|
  }

  predicate OnceEach(log: seq<Sent>, i: nat, e: Event) {
    && (forall k | 0 <= k < |log| && log[k].injection == Some(i) :: log[k].event == e)
    && (forall k, l | 0 <= k < l < |log| && log[k].injection == Some(i) && log[l].injection == Some(i) ::
          log[k].g != log[l].g)
  }

  /** What handler `i` has forwarded and what it has still to do are `due`, without repeats. */
  predicate HandlerOnTrack(s: State, i: nat, e: Event, due: set<GroupId>) {
    && i < |s.injections| && s.injections[i].event == e && P.NoRepeats(s.injections[i].todo)
    && OnceEach(s.log, i, e)
    && (forall g | g in s.injections[i].todo :: g !in InjectedTo(s.log, i))
    && InjectedTo(s.log, i) + (set g | g in s.injections[i].todo) == due
  }

  lemma InjectedMore(log: seq<Sent>, entry: Sent, i: nat)
    ensures InjectedTo(log + [entry], i) == InjectedTo(log, i) + if entry.injection == Some(i) then {entry.g} else {}
  {
    var more := log + [entry];
    forall g ensures g in InjectedTo(more, i) <==>
      g in InjectedTo(log, i) || (entry.injection == Some(i) && g == entry.g)
    {
      if g in InjectedTo(log, i) {
        var k :| 0 <= k < |log| && log[k].injection == Some(i) && log[k].g == g;
        assert more[k] == log[k];
      }
      assert more[|log|] == entry;
    }
  }

  lemma OnceMoreEach(log: seq<Sent>, entry: Sent, i: nat, e: Event)
    requires OnceEach(log, i, e)
    requires entry.injection == Some(i) ==> entry.event == e && entry.g !in InjectedTo(log, i)
    ensures OnceEach(log + [entry], i, e)
  {
    var more := log + [entry];
    forall k, l | 0 <= k < l < |more| && more[k].injection == Some(i) && more[l].injection == Some(i)
      ensures more[k].g != more[l].g
    {
      assert k < |log| ==> more[k] == log[k] && log[k].g in InjectedTo(log, i);
    }
  }

  lemma TodoSplits(todo: seq<GroupId>)
    requires todo != []
    ensures (set g | g in todo) == {todo[0]} + (set g | g in todo[1..])
    ensures P.NoRepeats(todo) ==> P.NoRepeats(todo[1..]) && todo[0] !in todo[1..]
  {
  }

  lemma InjectNextOnTrack(s: State, j: nat, luck: P.Luck, i: nat, e: Event, due: set<GroupId>)
    requires WellFormed(s) && HandlerOnTrack(s, i, e, due)
    ensures HandlerOnTrack(InjectNextStep(s, j, luck), i, e, due)
  {
    if j < |s.injections| && s.injections[j].todo != [] {
      var t := InjectNextStep(s, j, luck);
      var entry := t.log[|s.log|];
      assert t.log == s.log + [entry] && entry.injection == Some(j);
      InjectedMore(s.log, entry, i);
      OnceMoreEach(s.log, entry, i, e);
      if i == j {
        TodoSplits(s.injections[i].todo);
      }
    }
  }

  lemma ForwardOnTrack(s: State, luck: P.Luck, i: nat, e: Event, due: set<GroupId>)
    requires WellFormed(s) && HandlerOnTrack(s, i, e, due)
    ensures HandlerOnTrack(ForwardStep(s, luck), i, e, due)
  {
    if s.current.Some? && s.todo != [] {
      var entry := ForwardStep(s, luck).log[|s.log|];
      InjectedMore(s.log, entry, i);
      OnceMoreEach(s.log, entry, i, e);
    }
  }

  /** No other operation touches the handler or the log. */
  lemma HandlerKept(json: JsonReader, s: State, op: Op, i: nat)
    requires WellFormed(s) && i < |s.injections| && !op.InjectNext? && !op.ForwardNext?
    ensures var t := Step(json, s, op);
      t.log == s.log && |s.injections| <= |t.injections| && t.injections[i] == s.injections[i]
  {
  }

  lemma HandlerStep(json: JsonReader, s: State, op: Op, i: nat, e: Event, due: set<GroupId>)
    requires WellFormed(s) && HandlerOnTrack(s, i, e, due)
    ensures HandlerOnTrack(Step(json, s, op), i, e, due)
  {
    match op
    case InjectNext(j, luck) => InjectNextOnTrack(s, j, luck, i, e, due);
    case ForwardNext(luck) => ForwardOnTrack(s, luck, i, e, due);
    case _ => HandlerKept(json, s, op, i);
  }

  lemma {:induction false} HandlerRun(json: JsonReader, s: State, ops: seq<Op>, i: nat, e: Event, due: set<GroupId>)
    requires WellFormed(s) && HandlerOnTrack(s, i, e, due)
    ensures HandlerOnTrack(Run(json, s, ops), i, e, due)
  {
    if ops == [] {
    } else {
      HandlerRun(json, s, ops[..|ops| - 1], i, e, due);
      HandlerStep(json, Run(json, s, ops[..|ops| - 1]), ops[|ops| - 1], i, e, due);
    }
  }

  lemma BegunStep(json: JsonReader, s: State, op: Op)
    requires WellFormed(s) && Begun(s)
    ensures Begun(Step(json, s, op))
  {
    if op.ForwardNext? {
      assert Step(json, s, op) == ForwardStep(s, op.luck);
    } else if op.InjectNext? {
      assert Step(json, s, op) == InjectNextStep(s, op.i, op.luck);
    } else {
      BegunQuiet(json, s, op);
    }
  }

  lemma BegunQuiet(json: JsonReader, s: State, op: Op)
    requires WellFormed(s) && !op.ForwardNext? && !op.InjectNext?
    ensures Step(json, s, op).log == s.log && |s.injections| <= |Step(json, s, op).injections|
  {
  }

  lemma {:induction false} BegunRun(json: JsonReader, s: State, ops: seq<Op>)
    requires WellFormed(s) && Begun(s)
    ensures Begun(Run(json, s, ops))
  {
    if ops == [] {
    } else {
      BegunRun(json, s, ops[..|ops| - 1]);
      BegunStep(json, Run(json, s, ops[..|ops| - 1]), ops[|ops| - 1]);
    }
  }

  /** Whatever happens after an event is injected: its handler has forwarded it, unchanged, to
      groups that matched it then, to each once, and has exactly the others still to do. */
  lemma {:induction false} EveryInjectedGroupIsReached(json: JsonReader, maxSize: nat, ttl: Time, now: Time,
          groups: Matcher.Groups, limit: Time, hasServer: bool, before: seq<Op>, e: Event, order: seq<GroupId>,
          after: seq<Op>)
    requires maxSize >= 1 && P.NoRepeats(order)
    requires (set g | g in order) ==
      MatchingSet(Run(json, Start(maxSize, ttl, now, groups, limit, hasServer), before), e)
    ensures var s := Run(json, Start(maxSize, ttl, now, groups, limit, hasServer), before);
      HandlerOnTrack(Run(json, Step(json, s, Inject(e, order)), after), |s.injections|, e, MatchingSet(s, e))
  {
    var start := Start(maxSize, ttl, now, groups, limit, hasServer);
    var s := Run(json, start, before);
    BegunRun(json, start, before);
    assert InjectedTo(s.log, |s.injections|) == {};
    HandlerRun(json, Step(json, s, Inject(e, order)), after, |s.injections|, e, MatchingSet(s, e));
  }
}
