/** The whole path of an event with atomic operations: deduplication and queueing, the
    processor's consumer, its read loop, matching, and forwarding, together with everything
    that changes meanwhile (the clock, the relay's groups, the matcher, presence, injected
    events). */
module Pipeline {
  import opened Nostr
  import opened Queue
  import opened Matcher
  import Presence
  import QueueRuns
  import PushLimiter
  import P = Processor

  const PROCESSOR := P.PROCESSOR
  const BATCH := P.BATCH
  const BUFFER: nat := 1000

  /** One forward. `source` is the serial of the queued message, or None for an event injected
      by the handler `injection`; `live` records whether the group had a live connection at that
      moment, `cached` its entry in the matcher then, and `luck` what the outside world did. */
  datatype Sent = Sent(source: Option<nat>, injection: Option<nat>, event: Event, g: GroupId, at: Time, live: bool,
                       cached: Option<Entry>, luck: P.Luck, outcome: P.Outcome)

  /** A running handler of an injected event, with the matching groups still to do. */
  datatype Injection = Injection(event: Event, todo: seq<GroupId>)

  /** `inHand` are messages read but not started, `current` the one being forwarded and
      `todo` the matching groups it has not been forwarded to. `started` is the history of
      all current messages. */
  datatype State = State(
    now: Time, queue: QueueState, acceptedAt: seq<Time>,
    created: bool, inHand: seq<Message>, current: Option<Message>, todo: seq<GroupId>, started: seq<Message>,
    groups: Groups, matcher: MatcherState, tracker: Presence.Tracker, injections: seq<Injection>,
    shards: seq<PushLimiter.PushTimes>, limit: Time, hasServer: bool,
    log: seq<Sent>)

  datatype Op =
    | Tick(ticks: nat)
    | Add(event: Event)
    | SweepDedupe
    | Trim
    | CreateProcessor
    | Read(ready: nat, end: ReadEnd)
    | StartMessage(order: seq<GroupId>)
    | ForwardNext(luck: P.Luck)
    | FinishMessage
    | Inject(event: Event, order: seq<GroupId>)
    | InjectNext(i: nat, luck: P.Luck)
    | ChangeGroups(groups: Groups)
    | HandleModeration(event: Event)
    | Connection(e: Presence.ConnEvent)
    | SweepPushes(shard: nat, at: Time)

  function Start(maxSize: nat, ttl: Time, now: Time, groups: Groups, limit: Time, hasServer: bool): State {
    State(now, NewQueue(maxSize, ttl), [], false, [], None, [], [], groups, EMPTY, Presence.NOBODY, [],
          seq(PushLimiter.SHARDS, i => map[]), limit, hasServer, [])
  }

  predicate WellFormed(s: State) {
    s.queue.maxSize >= 1 && PushLimiter.WellSharded(s.shards) && (s.created ==> PROCESSOR in s.queue.boxes)
  }

  function View(s: State): P.View {
    P.View(s.matcher.parsed, s.tracker.counts, s.limit, s.hasServer)
  }

  function MatchingSet(s: State, e: Event): set<GroupId> {
    set g | g in s.groups && GroupMatches(s.matcher.parsed, g, e)
  }

  function ForwardTo(s: State, source: Option<nat>, injection: Option<nat>, e: Event, g: GroupId,
          luck: P.Luck): (t: State)
    requires WellFormed(s)
    ensures WellFormed(t)
  {
    var cached := if g in s.matcher.parsed then Some(s.matcher.parsed[g]) else None;
    s.(log := s.log + [Sent(source, injection, e, g, s.now, Presence.Live(s.tracker, g) != {}, cached, luck,
                            P.OutcomeOf(View(s), s.shards, g, luck))],
       shards := P.ShardsAfter(View(s), s.shards, g, luck))
  }

  function Buffer(s: State): seq<Message> {
    if PROCESSOR in s.queue.boxes then s.queue.boxes[PROCESSOR].buffer else []
  }

  function ReadStep(s: State, ready: nat, keep: bool): (t: State)
    requires WellFormed(s)
    ensures WellFormed(t)
  {
    if s.created && s.current.None? && s.inHand == [] then
      var n := Taken(s.queue.boxes[PROCESSOR], BATCH, ready);
      s.(queue := EventsRead(s.queue, PROCESSOR, BATCH, ready), inHand := if keep then Buffer(s)[..n] else [])
    else s
  }

  function AddStep(s: State, e: Event): (t: State)
    requires WellFormed(s)
    ensures WellFormed(t)
  {
    s.(queue := EventAdded(s.queue, e, s.now),
       acceptedAt := if e.id in s.queue.cache then s.acceptedAt else s.acceptedAt + [s.now])
  }

  function CreateStep(s: State): (t: State)
    requires WellFormed(s)
    ensures WellFormed(t)
  {
    if s.created then s else s.(created := true, queue := ConsumerCreated(s.queue, PROCESSOR, BUFFER))
  }

  function TrimStep(s: State): (t: State)
    requires WellFormed(s)
    ensures WellFormed(t)
  {
    s.(queue := s.queue.(events := Trimmed(s.queue.events)))
  }

  function StartStep(s: State, order: seq<GroupId>): (t: State)
    requires WellFormed(s)
    ensures WellFormed(t)
  {
    if s.created && s.current.None? && s.inHand != [] && P.NoRepeats(order)
      && (set g | g in order) == MatchingSet(s, s.inHand[0].event)
    then s.(current := Some(s.inHand[0]), inHand := s.inHand[1..], todo := order, started := s.started + [s.inHand[0]])
    else s
  }

  function ForwardStep(s: State, luck: P.Luck): (t: State)
    requires WellFormed(s)
    ensures WellFormed(t)
  {
    if s.current.Some? && s.todo != [] then
      ForwardTo(s, Some(s.current.value.serial), None, s.current.value.event, s.todo[0], luck).(todo := s.todo[1..])
    else s
  }

  function FinishStep(s: State): (t: State)
    requires WellFormed(s)
    ensures WellFormed(t)
  {
    if s.current.Some? && s.todo == [] then s.(current := None) else s
  }

  function InjectNextStep(s: State, i: nat, luck: P.Luck): (t: State)
    requires WellFormed(s)
    ensures WellFormed(t)
  {
    if i < |s.injections| && s.injections[i].todo != [] then
      var j := s.injections[i];
      ForwardTo(s, None, Some(i), j.event, j.todo[0], luck).(injections := s.injections[i := j.(todo := j.todo[1..])])
    else s
  }

  /** A step that is not enabled does nothing, so every sequence of operations is a run. */
  function Step(json: JsonReader, s: State, op: Op): (t: State)
    requires WellFormed(s)
    ensures WellFormed(t) && t.queue.maxSize == s.queue.maxSize && t.queue.ttl == s.queue.ttl
  {
    match op
    case Tick(ticks) => s.(now := s.now + ticks)
    case Add(e) => AddStep(s, e)
    case SweepDedupe => s.(queue := s.queue.(cache := Swept(s.queue.cache, s.now, s.queue.ttl)))
    case Trim => TrimStep(s)
    case CreateProcessor => CreateStep(s)
    case Read(ready, end) => ReadStep(s, ready, ReadErrorOf(s.queue, PROCESSOR, BATCH, ready, end).None?)
    case StartMessage(order) => StartStep(s, order)
    case ForwardNext(luck) => ForwardStep(s, luck)
    case FinishMessage => FinishStep(s)
    case Inject(e, order) =>
      if P.NoRepeats(order) && (set g | g in order) == MatchingSet(s, e) then
        s.(injections := s.injections + [Injection(e, order)])
      else s
    case InjectNext(i, luck) => InjectNextStep(s, i, luck)
    case ChangeGroups(groups) => s.(groups := groups)
    case HandleModeration(e) => s.(matcher := Handled(json, s.matcher, s.groups, e))
    case Connection(e) => s.(tracker := Presence.Step(s.tracker, e))
    case SweepPushes(j, at) =>
      if j < PushLimiter.SHARDS then s.(shards := s.shards[j := PushLimiter.Kept(s.shards[j], at)]) else s
  }

  function Run(json: JsonReader, s: State, ops: seq<Op>): (t: State)
    requires WellFormed(s)
    ensures WellFormed(t) && t.queue.maxSize == s.queue.maxSize && t.queue.ttl == s.queue.ttl
  {
    if ops == [] then s else Step(json, Run(json, s, ops[..|ops| - 1]), ops[|ops| - 1])
  }

  // Invariants -------------------------------------------------------------------------------

  /** The messages that may still be forwarded, in the order in which they will be. */
  function Backlog(s: State): seq<Message> {
    if !s.created then s.queue.events
    else (if s.current.Some? then [s.current.value] else []) + s.inHand + Buffer(s)
  }

  /** Members of the acceptance history, in its order. */
  predicate InOrder(ms: seq<Message>, accepted: seq<Message>) {
    && (forall i | 0 <= i < |ms| :: ms[i].serial < |accepted| && accepted[ms[i].serial] == ms[i])
    && (forall i, j | 0 <= i < j < |ms| :: ms[i].serial < ms[j].serial)
  }

  predicate History(s: State) {
    && |s.acceptedAt| == |s.queue.accepted|
    && (forall x | 0 <= x < |s.acceptedAt| :: s.acceptedAt[x] <= s.now)
    && (!s.created ==> s.current.None? && s.inHand == [])
    && (s.current.None? ==> s.todo == [])
    && P.NoRepeats(s.todo)
  }

  /** A queued message that was forwarded lies before the backlog, or is its head and its
      group is no longer to do. */
  predicate Behind(s: State, x: nat, g: GroupId) {
    && s.created
    && (Backlog(s) != [] ==> x <= Backlog(s)[0].serial)
    && (Backlog(s) != [] && x == Backlog(s)[0].serial ==> s.current.Some? && g !in s.todo)
  }

  predicate EntryOk(s: State, entry: Sent) {
    entry.source.Some? ==>
      (var x := entry.source.value;
       && x < |s.queue.accepted| == |s.acceptedAt| && entry.event == s.queue.accepted[x].event
       && s.acceptedAt[x] <= entry.at <= s.now
       && Behind(s, x, entry.g))
  }

  predicate Invariant(s: State) {
    && WellFormed(s) && History(s)
    && InOrder(Backlog(s), s.queue.accepted)
    && (forall k | 0 <= k < |s.log| :: EntryOk(s, s.log[k]))
    && OncePerGroup(s.log)
  }

  /** No queued message was forwarded twice to one group. */
  predicate OncePerGroup(log: seq<Sent>) {
    forall k, l | 0 <= k < l < |log| && log[k].source.Some? && log[k].source == log[l].source :: log[k].g != log[l].g
  }

  predicate Extends<T(==)>(a: seq<T>, b: seq<T>) {
    |a| <= |b| && a == b[..|a|]
  }

  lemma InOrderAppend(ms: seq<Message>, accepted: seq<Message>, e: Event)
    requires InOrder(ms, accepted)
    ensures var m := Message(e, |accepted|);
      InOrder(ms, accepted + [m]) && InOrder(ms + [m], accepted + [m])
  {
  }

  lemma InOrderPart(ms: seq<Message>, lo: nat, hi: nat, accepted: seq<Message>)
    requires InOrder(ms, accepted) && lo <= hi <= |ms|
    ensures InOrder(ms[lo..hi], accepted)
  {
  }

  /** Log entries stay in order when the histories grow, the clock advances, and each one
      is still behind the backlog. */
  lemma EntriesKept(s: State, t: State)
    requires Invariant(s) && WellFormed(t) && History(t) && InOrder(Backlog(t), t.queue.accepted)
    requires t.log == s.log && s.now <= t.now
    requires Extends(s.queue.accepted, t.queue.accepted) && Extends(s.acceptedAt, t.acceptedAt)
    requires forall x: nat, g | Behind(s, x, g) && x < |s.queue.accepted| :: Behind(t, x, g)
    ensures Invariant(t)
  {
    forall k | 0 <= k < |t.log| ensures EntryOk(t, t.log[k]) {
      assert EntryOk(s, s.log[k]);
    }
  }

  /** `t` differs from `s` at most in the clock, the dedupe cache, the relay's groups, the
      matcher, presence and the limiter. */
  predicate SamePath(s: State, t: State) {
    && t.queue == s.queue.(cache := t.queue.cache) && t.acceptedAt == s.acceptedAt && s.now <= t.now
    && t.created == s.created && t.inHand == s.inHand && t.current == s.current && t.todo == s.todo
  }

  lemma SamePathKeeps(s: State, t: State)
    requires Invariant(s) && WellFormed(t) && SamePath(s, t)
    ensures Backlog(t) == Backlog(s) && History(t)
    ensures forall x: nat, g | Behind(s, x, g) :: Behind(t, x, g)
    ensures t.log == s.log ==> Invariant(t)
  {
    assert Backlog(t) == Backlog(s);
    if t.log == s.log {
      EntriesKept(s, t);
    }
  }

  predicate Quiet(op: Op) {
    op.Tick? || op.SweepDedupe? || op.Inject? || op.ChangeGroups? || op.HandleModeration? || op.Connection?
    || op.SweepPushes?
  }

  lemma QuietStep(json: JsonReader, s: State, op: Op)
    requires Invariant(s)
    requires Quiet(op)
    ensures Invariant(Step(json, s, op))
    ensures Backlog(Step(json, s, op)) == Backlog(s)
  {
    var t := Step(json, s, op);
    assert SamePath(s, t) && t.log == s.log;
    SamePathKeeps(s, t);
  }

  lemma AddKeeps(s: State, e: Event)
    requires Invariant(s)
    ensures Invariant(AddStep(s, e))
  {
    var t := AddStep(s, e);
    if e.id !in s.queue.cache {
      InOrderAfterAdd(s, e);
      BehindAfterAdd(s, e);
      EntriesKept(s, t);
    }
  }

  lemma InOrderAfterAdd(s: State, e: Event)
    requires Invariant(s) && e.id !in s.queue.cache
    ensures InOrder(Backlog(AddStep(s, e)), AddStep(s, e).queue.accepted)
  {
    var t := AddStep(s, e);
    BacklogAfterAdd(s, e);
    if Backlog(t) == Backlog(s) {
      InOrderAppend(Backlog(s), s.queue.accepted, e);
    } else {
      var kept := Backlog(t)[..|Backlog(t)| - 1];
      InOrderPart(Backlog(s), |Backlog(s)| - |kept|, |Backlog(s)|, s.queue.accepted);
      InOrderAppend(kept, s.queue.accepted, e);
    }
  }

  lemma BehindAfterAdd(s: State, e: Event)
    requires WellFormed(s) && e.id !in s.queue.cache
    ensures forall x: nat, g | Behind(s, x, g) && x < |s.queue.accepted| :: Behind(AddStep(s, e), x, g)
  {
    BacklogAfterAdd(s, e);
  }

  /** The backlog gains the new message at its end, unless the consumer's buffer is full;
      before the consumer exists it may lose its oldest message. */
  lemma BacklogAfterAdd(s: State, e: Event)
    requires WellFormed(s) && e.id !in s.queue.cache
    ensures var m := Message(e, |s.queue.accepted|);
      var b := Backlog(AddStep(s, e));
      || b == Backlog(s)
      || b == Backlog(s) + [m]
      || (!s.created && Backlog(s) != [] && b == Backlog(s)[1..] + [m])
  {
    var m := Message(e, |s.queue.accepted|);
    var t := AddStep(s, e);
    if s.created {
      var box := s.queue.boxes[PROCESSOR];
      assert Buffer(t) == Offered(box, m).buffer;
      if |box.buffer| < box.capacity {
        assert Backlog(t) == Backlog(s) + [m];
      }
    }
  }

  lemma TrimKeeps(s: State)
    requires Invariant(s)
    ensures Invariant(TrimStep(s))
  {
    TrimmedBacklog(s);
    EntriesKept(s, TrimStep(s));
  }

  lemma TrimmedBacklog(s: State)
    requires WellFormed(s) && InOrder(Backlog(s), s.queue.accepted)
    ensures InOrder(Backlog(TrimStep(s)), s.queue.accepted)
    ensures forall x: nat, g | Behind(s, x, g) :: Behind(TrimStep(s), x, g)
  {
    if s.created {
      assert Backlog(TrimStep(s)) == Backlog(s);
    } else if |s.queue.events| > TRIM_KEEP {
      InOrderPart(s.queue.events, |s.queue.events| - TRIM_KEEP, |s.queue.events|, s.queue.accepted);
    }
  }

  lemma BacklogAfterCreate(s: State)
    requires WellFormed(s) && !s.created && s.current.None? && s.inHand == []
    ensures Backlog(CreateStep(s)) == s.queue.events[..Min(BUFFER, |s.queue.events|)]
  {
    QueueRuns.OfferedAllPrefix(NewMailbox(BUFFER), s.queue.events);
  }

  lemma CreateKeeps(s: State)
    requires Invariant(s)
    ensures Invariant(CreateStep(s))
    ensures !s.created ==> Backlog(CreateStep(s)) == s.queue.events[..Min(BUFFER, |s.queue.events|)]
  {
    if !s.created {
      BacklogAfterCreate(s);
      InOrderPart(s.queue.events, 0, Min(BUFFER, |s.queue.events|), s.queue.accepted);
      assert Backlog(s)[0..Min(BUFFER, |s.queue.events|)] == Backlog(CreateStep(s));
      CreatedHistory(s);
      EntriesKept(s, CreateStep(s));
    }
  }

  lemma CreatedHistory(s: State)
    requires WellFormed(s) && History(s) && !s.created
    ensures var t := CreateStep(s);
      && History(t) && t.queue.accepted == s.queue.accepted && t.acceptedAt == s.acceptedAt
      && t.log == s.log && t.now == s.now
  {
  }

  lemma BacklogAfterRead(s: State, ready: nat, keep: bool) returns (dropped: nat)
    requires WellFormed(s)
    ensures dropped <= |Backlog(s)| && Backlog(ReadStep(s, ready, keep)) == Backlog(s)[dropped..]
  {
    dropped := 0;
    if s.created && s.current.None? && s.inHand == [] {
      var n := Taken(s.queue.boxes[PROCESSOR], BATCH, ready);
      BufferAfterRead(s, ready, keep);
      IdleBacklog(s);
      IdleBacklog(ReadStep(s, ready, keep));
      dropped := if keep then 0 else n;
      assert Buffer(s) == Buffer(s)[..n] + Buffer(s)[n..];
    }
  }

  lemma IdleBacklog(s: State)
    requires s.created && s.current.None?
    ensures Backlog(s) == s.inHand + Buffer(s)
  {
  }

  lemma BufferAfterRead(s: State, ready: nat, keep: bool)
    requires WellFormed(s) && s.created && s.current.None? && s.inHand == []
    ensures var n := Taken(s.queue.boxes[PROCESSOR], BATCH, ready);
      var t := ReadStep(s, ready, keep);
      && Buffer(t) == Buffer(s)[n..] && t.inHand == (if keep then Buffer(s)[..n] else [])
      && t.created && t.current.None?
  {
  }

  lemma BehindSuffix(s: State, t: State, dropped: nat)
    requires WellFormed(s) && InOrder(Backlog(s), s.queue.accepted) && s.current.None? && s.created && t.created
    requires dropped <= |Backlog(s)| && Backlog(t) == Backlog(s)[dropped..]
    ensures forall x: nat, g | Behind(s, x, g) :: Behind(t, x, g)
  {
  }

  lemma ReadKeeps(s: State, ready: nat, keep: bool) returns (dropped: nat)
    requires Invariant(s)
    ensures Invariant(ReadStep(s, ready, keep))
    ensures dropped <= |Backlog(s)| && Backlog(ReadStep(s, ready, keep)) == Backlog(s)[dropped..]
  {
    var t := ReadStep(s, ready, keep);
    dropped := BacklogAfterRead(s, ready, keep);
    if s.created && s.current.None? && s.inHand == [] {
      InOrderPart(Backlog(s), dropped, |Backlog(s)|, s.queue.accepted);
      BehindSuffix(s, t, dropped);
      EntriesKept(s, t);
    }
  }

  lemma StartKeeps(s: State, order: seq<GroupId>)
    requires Invariant(s)
    ensures Invariant(StartStep(s, order)) && Backlog(StartStep(s, order)) == Backlog(s)
  {
    if StartStep(s, order) != s {
      StartedBacklog(s, order);
      EntriesKept(s, StartStep(s, order));
    }
  }

  lemma StartedBacklog(s: State, order: seq<GroupId>)
    requires WellFormed(s) && History(s) && StartStep(s, order) != s
    ensures var t := StartStep(s, order);
      && History(t) && Backlog(t) == Backlog(s) && t.queue == s.queue && t.acceptedAt == s.acceptedAt
      && t.log == s.log && t.now == s.now
      && forall x: nat, g | Behind(s, x, g) :: Behind(t, x, g)
  {
    var t := StartStep(s, order);
    HeadTaken(s.inHand, Buffer(s));
    assert Backlog(t) == Backlog(s);
    forall x: nat, g | Behind(s, x, g) ensures Behind(t, x, g) {}
  }

  lemma HeadTaken<T>(a: seq<T>, b: seq<T>)
    requires a != []
    ensures [a[0]] + a[1..] + b == [] + a + b
  {
    assert [a[0]] + a[1..] == a;
  }

  lemma BehindAfterFinish(s: State, t: State)
    requires WellFormed(s) && InOrder(Backlog(s), s.queue.accepted) && s.created && t.created
    requires Backlog(s) != [] && Backlog(t) == Backlog(s)[1..]
    ensures forall x: nat, g | Behind(s, x, g) :: Behind(t, x, g)
  {
  }

  lemma FinishKeeps(s: State)
    requires Invariant(s)
    ensures Invariant(FinishStep(s))
  {
    if s.current.Some? && s.todo == [] {
      FinishedKeeps(s);
    }
  }

  lemma FinishedKeeps(s: State)
    requires Invariant(s) && s.current.Some? && s.todo == []
    ensures var t := s.(current := None);
      Invariant(t) && Backlog(s) != [] && Backlog(t) == Backlog(s)[1..]
  {
    var t := s.(current := None);
    BacklogAfterFinish(s);
    InOrderPart(Backlog(s), 1, |Backlog(s)|, s.queue.accepted);
    BehindAfterFinish(s, t);
    assert Backlog(s)[1..|Backlog(s)|] == Backlog(t);
    EntriesKept(s, t);
  }

  lemma BacklogAfterFinish(s: State)
    requires s.created && s.current.Some?
    ensures Backlog(s) != [] && Backlog(s.(current := None)) == Backlog(s)[1..]
  {
    HeadAndTail(s.current.value, s.inHand, Buffer(s));
    assert Buffer(s.(current := None)) == Buffer(s);
  }

  lemma HeadAndTail<T>(x: T, a: seq<T>, b: seq<T>)
    ensures ([x] + a + b)[1..] == [] + a + b
  {
  }

  /** A forward of an injected event says nothing about queued messages. */
  lemma InjectedKeeps(s: State, entry: Sent)
    requires Invariant(s) && entry.source.None?
    ensures Invariant(s.(log := s.log + [entry]))
  {
    var t := s.(log := s.log + [entry]);
    assert Backlog(t) == Backlog(s) && History(t);
    OnceMoreInjected(s.log, entry);
    forall k | 0 <= k < |t.log| ensures EntryOk(t, t.log[k]) {
      if k < |s.log| {
        EntryOkFrame(s, t, s.log[k]);
      }
    }
  }

  lemma OnceMoreInjected(log: seq<Sent>, entry: Sent)
    requires OncePerGroup(log) && entry.source.None?
    ensures OncePerGroup(log + [entry])
  {
  }

  /** An entry's place depends on the histories and the path, not on the log. */
  lemma EntryOkFrame(s: State, t: State, entry: Sent)
    requires EntryOk(s, entry) && t == s.(log := t.log)
    ensures EntryOk(t, entry)
  {
    assert Backlog(t) == Backlog(s);
  }

  lemma InjectNextKeeps(s: State, i: nat, luck: P.Luck)
    requires Invariant(s)
    ensures Invariant(InjectNextStep(s, i, luck)) && Backlog(InjectNextStep(s, i, luck)) == Backlog(s)
  {
    var t := InjectNextStep(s, i, luck);
    if t != s {
      var quiet := s.(shards := t.shards, injections := t.injections);
      SamePathKeeps(s, quiet);
      InjectedKeeps(quiet, t.log[|s.log|]);
    }
  }

  lemma ForwardKeeps(s: State, luck: P.Luck)
    requires Invariant(s)
    ensures Invariant(ForwardStep(s, luck)) && Backlog(ForwardStep(s, luck)) == Backlog(s)
  {
    if s.current.Some? && s.todo != [] {
      var t := ForwardStep(s, luck);
      assert Backlog(s)[0] == s.current.value;
      assert Backlog(t) == Backlog(s);
      forall k | 0 <= k < |t.log| ensures EntryOk(t, t.log[k]) {
        if k < |s.log| {
          StillBehind(s, t, s.log[k]);
        }
      }
      NotYetForwarded(s);
      OnceMore(s.log, t.log[|s.log|]);
    }
  }

  /** A forward of the head message's first group keeps the other entries behind. */
  lemma StillBehind(s: State, t: State, entry: Sent)
    requires EntryOk(s, entry) && s.todo != [] && t == s.(log := t.log, shards := t.shards, todo := s.todo[1..])
    ensures EntryOk(t, entry)
  {
    assert Backlog(t) == Backlog(s);
  }

  lemma NotYetForwarded(s: State)
    requires Invariant(s) && s.current.Some? && s.todo != []
    ensures forall k | 0 <= k < |s.log| && s.log[k].source == Some(s.current.value.serial) :: s.log[k].g != s.todo[0]
  {
    assert Backlog(s)[0] == s.current.value;
    forall k | 0 <= k < |s.log| && s.log[k].source == Some(s.current.value.serial) ensures s.log[k].g != s.todo[0] {
      assert EntryOk(s, s.log[k]);
    }
  }

  lemma OnceMore(log: seq<Sent>, entry: Sent)
    requires OncePerGroup(log) && forall k | 0 <= k < |log| && log[k].source == entry.source :: log[k].g != entry.g
    ensures OncePerGroup(log + [entry])
  {
  }

  lemma InvariantStep(json: JsonReader, s: State, op: Op)
    requires Invariant(s)
    ensures Invariant(Step(json, s, op))
  {
    if Quiet(op) {
      QuietStep(json, s, op);
    } else if op.StartMessage? || op.ForwardNext? || op.FinishMessage? || op.InjectNext? {
      ForwardingKeeps(json, s, op);
    } else {
      match op
      case Add(e) => AddKeeps(s, e);
      case Trim => TrimKeeps(s);
      case CreateProcessor => CreateKeeps(s);
      case Read(ready, end) =>
        var n := ReadKeeps(s, ready, ReadErrorOf(s.queue, PROCESSOR, BATCH, ready, end).None?);
    }
  }

  lemma ForwardingKeeps(json: JsonReader, s: State, op: Op)
    requires Invariant(s) && (op.StartMessage? || op.ForwardNext? || op.FinishMessage? || op.InjectNext?)
    ensures Invariant(Step(json, s, op))
  {
    if op.StartMessage? {
      StartKeeps(s, op.order);
    } else if op.ForwardNext? {
      ForwardKeeps(s, op.luck);
    } else if op.FinishMessage? {
      FinishKeeps(s);
    } else {
      InjectNextKeeps(s, op.i, op.luck);
    }
  }
}
