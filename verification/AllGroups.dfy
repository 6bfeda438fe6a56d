/** Completeness of forwarding: by the time the processor is done with a message, it has
    forwarded it to every group that matched when it was started, and to no other. */
module AllGroups {
  import opened Nostr
  import opened Pipeline
  import opened Delivery
  import Queue
  import Matcher
  import P = Processor

  type GroupId = Matcher.GroupId

  /** The groups the message was forwarded to from log position `from` on. */
  function Reached(s: State, from: nat, m: Queue.Message): set<GroupId> {
    set k | from <= k < |s.log| && s.log[k].source == Some(m.serial) :: s.log[k].g
  }

  function Todo(s: State): set<GroupId> {
    set g | g in s.todo
  }

  /** The groups due for the message are those it was forwarded to and, while it is the
      current one, those still to do; afterwards only newer messages are left. */
  predicate OnTrack(s: State, from: nat, m: Queue.Message, due: set<GroupId>) {
    && s.created && from <= |s.log| && m.serial < |s.queue.accepted|
    && if s.current == Some(m) then Reached(s, from, m) + Todo(s) == due
       else Reached(s, from, m) == due && AllNewer(Backlog(s), m)
  }

  predicate AllNewer(ms: seq<Queue.Message>, m: Queue.Message) {
    forall i | 0 <= i < |ms| :: ms[i].serial > m.serial
  }

  lemma SuffixNewer(ms: seq<Queue.Message>, dropped: nat, m: Queue.Message)
    requires AllNewer(ms, m) && dropped <= |ms|
    ensures AllNewer(ms[dropped..], m)
  {
  }

  /** One log entry more changes what was reached only if it is a forward of the message. */
  lemma ReachedMore(s: State, t: State, from: nat, m: Queue.Message, entry: Sent)
    requires from <= |s.log| && t.log == s.log + [entry]
    ensures Reached(t, from, m) == Reached(s, from, m) + if entry.source == Some(m.serial) then {entry.g} else {}
  {
    forall g ensures g in Reached(t, from, m) <==>
      g in Reached(s, from, m) || (entry.source == Some(m.serial) && g == entry.g)
    {
      if g in Reached(s, from, m) {
        var k :| from <= k < |s.log| && s.log[k].source == Some(m.serial) && s.log[k].g == g;
        assert t.log[k] == s.log[k];
      }
      assert t.log[|s.log|] == entry;
    }
  }

  /** Everything forwarding depends on is the same. */
  predicate SameWork(s: State, t: State) {
    t.created == s.created && t.current == s.current && t.todo == s.todo && t.log == s.log
      && |s.queue.accepted| <= |t.queue.accepted|
  }

  lemma OnTrackFrame(s: State, t: State, from: nat, m: Queue.Message, due: set<GroupId>)
    requires OnTrack(s, from, m, due) && SameWork(s, t)
    requires s.current != Some(m) ==> AllNewer(Backlog(t), m)
    ensures OnTrack(t, from, m, due)
  {
    assert Reached(t, from, m) == Reached(s, from, m) && Todo(t) == Todo(s);
  }

  lemma OnTrackQuiet(json: JsonReader, s: State, op: Op, from: nat, m: Queue.Message, due: set<GroupId>)
    requires Invariant(s) && OnTrack(s, from, m, due)
    requires Quiet(op)
    ensures OnTrack(Step(json, s, op), from, m, due)
  {
    QuietStep(json, s, op);
    OnTrackFrame(s, Step(json, s, op), from, m, due);
  }

  lemma OnTrackAdd(s: State, e: Event, from: nat, m: Queue.Message, due: set<GroupId>)
    requires Invariant(s) && OnTrack(s, from, m, due)
    ensures OnTrack(AddStep(s, e), from, m, due)
  {
    if e.id !in s.queue.cache {
      BacklogAfterAdd(s, e);
    }
    OnTrackFrame(s, AddStep(s, e), from, m, due);
  }

  lemma OnTrackTrim(json: JsonReader, s: State, from: nat, m: Queue.Message, due: set<GroupId>)
    requires Invariant(s) && OnTrack(s, from, m, due)
    ensures OnTrack(Step(json, s, Op.Trim), from, m, due)
  {
    assert Backlog(Step(json, s, Op.Trim)) == Backlog(s);
    OnTrackFrame(s, Step(json, s, Op.Trim), from, m, due);
  }

  lemma OnTrackRead(s: State, ready: nat, keep: bool, from: nat, m: Queue.Message, due: set<GroupId>)
    requires Invariant(s) && OnTrack(s, from, m, due)
    ensures OnTrack(ReadStep(s, ready, keep), from, m, due)
  {
    var dropped := ReadKeeps(s, ready, keep);
    if s.current != Some(m) {
      SuffixNewer(Backlog(s), dropped, m);
    }
    OnTrackFrame(s, ReadStep(s, ready, keep), from, m, due);
  }

  lemma OnTrackInjectNext(json: JsonReader, s: State, i: nat, luck: P.Luck, from: nat, m: Queue.Message,
          due: set<GroupId>)
    requires Invariant(s) && OnTrack(s, from, m, due)
    ensures OnTrack(Step(json, s, InjectNext(i, luck)), from, m, due)
  {
    var t := Step(json, s, InjectNext(i, luck));
    InjectNextKeeps(s, i, luck);
    if t != s {
      ReachedMore(s, t, from, m, t.log[|s.log|]);
      assert Todo(t) == Todo(s);
    }
  }

  lemma OnTrackStart(json: JsonReader, s: State, order: seq<GroupId>, from: nat, m: Queue.Message, due: set<GroupId>)
    requires Invariant(s) && OnTrack(s, from, m, due)
    ensures OnTrack(Step(json, s, StartMessage(order)), from, m, due)
  {
    if StartStep(s, order) != s {
      StartedBacklog(s, order);
      StartedOnTrack(s, order, from, m, due);
    }
  }

  lemma StartedOnTrack(s: State, order: seq<GroupId>, from: nat, m: Queue.Message, due: set<GroupId>)
    requires WellFormed(s) && InOrder(Backlog(s), s.queue.accepted) && OnTrack(s, from, m, due)
    requires StartStep(s, order) != s && Backlog(StartStep(s, order)) == Backlog(s)
    ensures OnTrack(StartStep(s, order), from, m, due)
  {
    assert Backlog(s)[0] == s.inHand[0];
    assert Reached(StartStep(s, order), from, m) == Reached(s, from, m);
  }

  /** What a forward of the current message's next group does. */
  lemma Forwarded(json: JsonReader, s: State, luck: P.Luck, from: nat, m: Queue.Message)
    requires Invariant(s) && s.current.Some? && s.todo != [] && from <= |s.log|
    ensures var t := Step(json, s, ForwardNext(luck));
      && t.created == s.created && t.current == s.current && t.queue.accepted == s.queue.accepted && |s.log| <= |t.log|
      && Todo(s) == {s.todo[0]} + Todo(t)
      && Reached(t, from, m) == Reached(s, from, m) + if s.current.value.serial == m.serial then {s.todo[0]} else {}
  {
    var t := Step(json, s, ForwardNext(luck));
    ReachedMore(s, t, from, m, t.log[|s.log|]);
  }

  lemma OnTrackForward(json: JsonReader, s: State, luck: P.Luck, from: nat, m: Queue.Message, due: set<GroupId>)
    requires Invariant(s) && OnTrack(s, from, m, due)
    ensures OnTrack(Step(json, s, ForwardNext(luck)), from, m, due)
  {
    if s.current.Some? && s.todo != [] {
      ForwardKeeps(s, luck);
      Forwarded(json, s, luck, from, m);
      assert Backlog(s)[0] == s.current.value;
    }
  }

  lemma OnTrackFinish(json: JsonReader, s: State, from: nat, m: Queue.Message, due: set<GroupId>)
    requires Invariant(s) && OnTrack(s, from, m, due)
    ensures OnTrack(Step(json, s, FinishMessage), from, m, due)
  {
    if s.current.Some? && s.todo == [] {
      FinishedKeeps(s);
      FinishedOnTrack(s, from, m, due);
    }
  }

  lemma FinishedOnTrack(s: State, from: nat, m: Queue.Message, due: set<GroupId>)
    requires s.created && s.current.Some? && s.todo == [] && OnTrack(s, from, m, due)
    requires InOrder(Backlog(s), s.queue.accepted) && Backlog(s.(current := None)) == Backlog(s)[1..]
    ensures OnTrack(s.(current := None), from, m, due)
  {
    assert Backlog(s)[0] == s.current.value;
    assert Reached(s.(current := None), from, m) == Reached(s, from, m);
  }

  lemma OnTrackStep(json: JsonReader, s: State, op: Op, from: nat, m: Queue.Message, due: set<GroupId>)
    requires Invariant(s) && OnTrack(s, from, m, due)
    ensures OnTrack(Step(json, s, op), from, m, due)
  {
    match op
    case Add(e) => OnTrackAdd(s, e, from, m, due);
    case Trim => OnTrackTrim(json, s, from, m, due);
    case CreateProcessor => assert Step(json, s, op) == s;
    case Read(ready, end) =>
      OnTrackRead(s, ready, Queue.ReadErrorOf(s.queue, PROCESSOR, BATCH, ready, end).None?, from, m, due);
    case StartMessage(order) => OnTrackStart(json, s, order, from, m, due);
    case ForwardNext(luck) => OnTrackForward(json, s, luck, from, m, due);
    case FinishMessage => OnTrackFinish(json, s, from, m, due);
    case InjectNext(i, luck) => OnTrackInjectNext(json, s, i, luck, from, m, due);
    case _ => OnTrackQuiet(json, s, op, from, m, due);
  }

  lemma {:induction false} OnTrackRun(json: JsonReader, s: State, ops: seq<Op>, from: nat, m: Queue.Message,
          due: set<GroupId>)
    requires Invariant(s) && OnTrack(s, from, m, due)
    ensures OnTrack(Run(json, s, ops), from, m, due)
  {
    if ops == [] {
    } else {
      OnTrackRun(json, s, ops[..|ops| - 1], from, m, due);
      InvariantRun(json, s, ops[..|ops| - 1]);
      OnTrackStep(json, Run(json, s, ops[..|ops| - 1]), ops[|ops| - 1], from, m, due);
    }
  }

  // Main result ----------------------------------------------------------------------------------------

  /** A message is next and `order` lists the groups that match it now. */
  predicate Starts(s: State, order: seq<GroupId>) {
    && s.created && s.current.None? && s.inHand != [] && P.NoRepeats(order)
    && (set g | g in order) == MatchingSet(s, s.inHand[0].event)
  }

  /** Whatever happens after a message is started, changes of groups, matcher and presence
      included: it is only ever forwarded to groups that matched then, and once the processor
      has moved on, to all of them. */
  lemma {:induction false} EveryMatchingGroupIsReached(json: JsonReader, maxSize: nat, ttl: Time, now: Time,
          groups: Matcher.Groups, limit: Time, hasServer: bool, before: seq<Op>, order: seq<GroupId>,
          after: seq<Op>)
    requires maxSize >= 1
    requires Starts(Run(json, Start(maxSize, ttl, now, groups, limit, hasServer), before), order)
    ensures var s := Run(json, Start(maxSize, ttl, now, groups, limit, hasServer), before);
      var m, due := s.inHand[0], MatchingSet(s, s.inHand[0].event);
      var t := Run(json, Step(json, s, StartMessage(order)), after);
      && Reached(t, |s.log|, m) <= due
      && (t.current != Some(m) ==> Reached(t, |s.log|, m) == due)
  {
    var start := Start(maxSize, ttl, now, groups, limit, hasServer);
    StartInvariant(maxSize, ttl, now, groups, limit, hasServer);
    InvariantRun(json, start, before);
    var s := Run(json, start, before);
    StartKeeps(s, order);
    Started(json, s, order);
    var m := s.inHand[0];
    OnTrackRun(json, Step(json, s, StartMessage(order)), after, |s.log|, m, MatchingSet(s, m.event));
  }

  lemma Started(json: JsonReader, s: State, order: seq<GroupId>)
    requires Invariant(s) && Starts(s, order)
    ensures OnTrack(Step(json, s, StartMessage(order)), |s.log|, s.inHand[0], MatchingSet(s, s.inHand[0].event))
  {
    assert Backlog(s)[0] == s.inHand[0];
  }
}
