/** Runs that reach the bounds on offered copies: N producers that all check an ID before any
    of them inserts it queue N copies, a ready consumer is offered all of them, and one that
    replays afterwards is offered each of them twice. */
module CopyBounds {
  import opened Nostr
  import opened Queue
  import opened QueueSteps
  import opened DedupeSteps
  import opened CopySteps
  import R = ReplaySteps

  /** The first `n` producers are at `a`, the others at `b`. */
  function Mixed(producers: nat, n: nat, a: Producer, b: Producer): seq<Producer> {
    seq(producers, i => if i < n then a else b)
  }

  function Origins(n: nat, e: Event): seq<Origin> {
    seq(n, i => (e.id, 0))
  }

  /** Nothing was read, and nothing dropped as long as the offers fit. */
  predicate Untaken(b: Mailbox) {
    b.read == [] && (|b.offered| <= b.capacity ==> b.buffer == b.offered)
  }

  /** One consumer, nothing cached or queued, all producers idle. */
  predicate Empty(s: State, producers: nat, c: ConsumerId) {
    && s.maxSize >= 1 && s.producers == Mixed(producers, 0, Idle, Idle)
    && s.cache == map[] && s.epochs == map[] && s.events == [] && s.accepted == [] && s.origins == [] && s.writer.None?
    && s.members.Keys == {c} && !s.members[c].phase.Replaying? && s.members[c].from == 0 && Untaken(s.members[c].box)
  }

  lemma MixedMore(producers: nat, n: nat, a: Producer, b: Producer)
    requires 0 < n <= producers
    ensures Mixed(producers, n - 1, a, b)[n - 1] == b
    ensures Mixed(producers, n - 1, a, b)[n - 1 := a] == Mixed(producers, n, a, b)
  {
  }

  lemma {:induction false} Checks(s: State, producers: nat, n: nat, e: Event, c: ConsumerId)
    requires Empty(s, producers, c) && n <= producers
    ensures Run(s, CheckAll(n, e)) == s.(producers := Mixed(producers, n, Checked(e), Idle))
  {
    if n == 0 {
      assert Mixed(producers, 0, Checked(e), Idle) == s.producers;
    } else {
      Checks(s, producers, n - 1, e, c);
      RunMore(s, CheckAll(n - 1, e), Check(n - 1, e));
      CheckNext(s, producers, n, e);
    }
  }

  lemma CheckNext(s: State, producers: nat, n: nat, e: Event)
    requires s.maxSize >= 1 && 0 < n <= producers && e.id !in s.cache
    ensures Step(s.(producers := Mixed(producers, n - 1, Checked(e), Idle)), Check(n - 1, e)) ==
      s.(producers := Mixed(producers, n, Checked(e), Idle))
  {
    MixedMore(producers, n, Checked(e), Idle);
  }

  /** The producers are about to enqueue copies with origin (e.id, 0). */
  predicate AllMarked(s: State, t: State, producers: nat, n: nat, e: Event) {
    && t == s.(producers := Mixed(producers, n, Marked(e, 0), Checked(e)), cache := t.cache, marks := t.marks)
  }

  lemma {:induction false} Marks(s: State, producers: nat, n: nat, e: Event, c: ConsumerId)
    requires Empty(s, producers, c) && n <= producers
    ensures AllMarked(s, Run(s, MarkAll(producers, n, e)), producers, n, e)
  {
    if n == 0 {
      Checks(s, producers, producers, e, c);
      assert Mixed(producers, producers, Checked(e), Idle) == Mixed(producers, 0, Marked(e, 0), Checked(e));
    } else {
      Marks(s, producers, n - 1, e, c);
      RunMore(s, MarkAll(producers, n - 1, e), Mark(n - 1, 0));
      MixedMore(producers, n, Marked(e, 0), Checked(e));
    }
  }

  /** The first `n` producers have enqueued their copies and are idle again. */
  predicate EnqueuedUpTo(s: State, producers: nat, n: nat, e: Event, c: ConsumerId, m: Member) {
    && s.maxSize >= 1 && s.producers == Mixed(producers, n, Idle, Marked(e, 0)) && s.writer.None?
    && s.origins == Origins(n, e) && |s.accepted| == n && (producers <= s.maxSize ==> |s.events| == n)
    && s.members.Keys == {c} && s.members[c] == m.(box := s.members[c].box) && !m.phase.Replaying?
    && Untaken(s.members[c].box) && s.members[c].box.capacity == m.box.capacity
  }

  function EnqueueOf(n: nat, c: ConsumerId): seq<Action> {
    [Append(n)] + [BeginNotify(n)] + [NotifyOne(n, c)] + [EndNotify(n)]
  }

  lemma {:induction false} RunFour(s: State, a: Action, b: Action, c: Action, d: Action)
    requires s.maxSize >= 1
    ensures Run(s, [a] + [b] + [c] + [d]) == Step(Step(Step(Step(s, a), b), c), d)
  {
    assert [a][..0] == [];
    RunMore(s, [a], b);
    RunMore(s, [a] + [b], c);
    RunMore(s, [a] + [b] + [c], d);
  }

  /** Producer `n` holds the locks and is in its notification loop. */
  lemma Appending(s: State, producers: nat, n: nat, e: Event, c: ConsumerId, m: Member)
    requires n < producers && EnqueuedUpTo(s, producers, n, e, c, m)
    ensures var t := Step(Step(s, Append(n)), BeginNotify(n));
      && t.producers == s.producers[n := Notifying(Message(e, n), {c})] && t.writer == Some(n)
      && t.origins == Origins(n + 1, e) && |t.accepted| == n + 1 && (producers <= t.maxSize ==> |t.events| == n + 1)
      && t.members == s.members && t.maxSize == s.maxSize
  {
    assert s.producers[n] == Marked(e, 0) && !AnyReplaying(s);
    assert Origins(n, e) + [(e.id, 0)] == Origins(n + 1, e);
  }

  lemma {:induction false} EnqueueOne(s: State, producers: nat, n: nat, e: Event, c: ConsumerId, m: Member)
    requires n < producers && EnqueuedUpTo(s, producers, n, e, c, m)
    ensures EnqueuedUpTo(Run(s, EnqueueOf(n, c)), producers, n + 1, e, c, m)
  {
    RunFour(s, Append(n), BeginNotify(n), NotifyOne(n, c), EndNotify(n));
    Appending(s, producers, n, e, c, m);
    var u := Step(Step(s, Append(n)), BeginNotify(n));
    var t := Step(Step(u, NotifyOne(n, c)), EndNotify(n));
    assert Step(u, NotifyOne(n, c)).producers[n] == Notifying(Message(e, n), {});
    assert t.producers == Mixed(producers, n + 1, Idle, Marked(e, 0));
  }

  lemma {:induction false} EnqueueAll(s: State, producers: nat, n: nat, e: Event, c: ConsumerId, m: Member)
    returns (actions: seq<Action>)
    requires n <= producers && EnqueuedUpTo(s, producers, 0, e, c, m)
    ensures EnqueuedUpTo(Run(s, actions), producers, n, e, c, m)
    ensures forall a | a in actions :: !a.Register?
  {
    if n == 0 {
      actions := [];
    } else {
      var before := EnqueueAll(s, producers, n - 1, e, c, m);
      EnqueueOne(Run(s, before), producers, n - 1, e, c, m);
      actions := before + EnqueueOf(n - 1, c);
      RunConcat(s, before, EnqueueOf(n - 1, c));
    }
  }

  lemma {:induction false} RunConcat(s: State, a: seq<Action>, b: seq<Action>)
    requires s.maxSize >= 1
    ensures Run(s, a + b) == Run(Run(s, a), b)
  {
    if b == [] {
      assert a + b == a;
    } else {
      assert (a + b)[..|a + b| - 1] == a + b[..|b| - 1];
      RunConcat(s, a, b[..|b| - 1]);
    }
  }

  lemma {:induction false} NoRegister(producers: nat, n: nat, e: Event)
    ensures forall a | a in CheckAll(n, e) :: !a.Register?
  {
    if n == 0 {
    } else {
      NoRegister(producers, n - 1, e);
    }
  }

  lemma {:induction false} NoRegisterMarks(producers: nat, n: nat, e: Event)
    ensures forall a | a in MarkAll(producers, n, e) :: !a.Register?
  {
    if n == 0 {
      NoRegister(producers, producers, e);
    } else {
      NoRegisterMarks(producers, n - 1, e);
    }
  }

  /** All producers get their copy past the check, then enqueue one after the other. */
  lemma Burst(s: State, producers: nat, e: Event, c: ConsumerId) returns (actions: seq<Action>)
    requires Empty(s, producers, c)
    ensures EnqueuedUpTo(Run(s, actions), producers, producers, e, c, s.members[c])
    ensures forall a | a in actions :: !a.Register?
  {
    var first := MarkAll(producers, producers, e);
    Marks(s, producers, producers, e, c);
    var u := Run(s, first);
    assert Mixed(producers, producers, Marked(e, 0), Checked(e)) == Mixed(producers, 0, Idle, Marked(e, 0));
    var second := EnqueueAll(u, producers, producers, e, c, s.members[c]);
    actions := first + second;
    RunConcat(s, first, second);
    NoRegisterMarks(producers, producers, e);
  }

  lemma {:induction false} CopiesOfBurst(s: State, n: nat, e: Event)
    requires R.SerialsAreIndices(s.accepted) && |s.accepted| == n && s.origins == Origins(n, e)
    ensures CopiesIn(s.accepted[0..n], s.origins, (e.id, 0)) == n
  {
    CopiesAccepted(s.accepted, n, s.origins, (e.id, 0));
    assert s.accepted[..n] == s.accepted[0..n] && s.origins[..n] == s.origins;
    AllEqual(n, e);
  }

  lemma {:induction false} AllEqual(n: nat, e: Event)
    ensures multiset(Origins(n, e))[(e.id, 0)] == n
  {
    if n == 0 {
    } else {
      AllEqual(n - 1, e);
      assert Origins(n, e) == Origins(n - 1, e) + [(e.id, 0)];
    }
  }

  // A consumer that is ready first -------------------------------------------------------------------

  lemma RegisterFirst(producers: nat, maxSize: nat, ttl: Time, c: ConsumerId, capacity: nat)
    requires maxSize >= 1
    ensures var s := Run(Start(producers, maxSize, ttl), [Register(c, capacity)]);
      Empty(s, producers, c) && s.members[c] == Member(NewMailbox(capacity), Registered, 0, 0, 0)
  {
    var start := Start(producers, maxSize, ttl);
    assert [Register(c, capacity)][..0] == [];
    assert Run(start, [Register(c, capacity)]) == Step(start, Register(c, capacity));
    assert start.producers == Mixed(producers, 0, Idle, Idle);
  }

  /** Replay of an empty queue. */
  lemma {:induction false} ReplayNothing(s: State, producers: nat, c: ConsumerId)
    requires Empty(s, producers, c) && s.members[c].phase.Registered?
    ensures var t := Run(s, [BeginReplay(c)] + [EndReplay(c)]);
      Empty(t, producers, c) && t.members[c] == s.members[c].(phase := Ready, oldest := 0, seen := 0)
  {
    assert [BeginReplay(c)][..0] == [];
    assert Run(s, [BeginReplay(c)]) == Step(s, BeginReplay(c));
    RunMore(s, [BeginReplay(c)], EndReplay(c));
  }

  lemma CopiesOfReady(s: State, producers: nat, e: Event, c: ConsumerId, m: Member)
    requires R.Invariant(s) && EnqueuedUpTo(s, producers, producers, e, c, m) && m.phase.Ready? && m.from == 0
    requires m.oldest == 0 && (m.seen == 0 || m.seen == producers)
    ensures OfferedCopies(s, c, (e.id, 0)) == producers + m.seen == |s.members[c].box.offered|
  {
    OfferedWhenReady(s, c, (e.id, 0));
    CopiesOfBurst(s, producers, e);
    assert R.MemberInvariant(s, c);
  }

  lemma NothingInserted(s: State, producers: nat, e: Event, c: ConsumerId)
    requires Empty(s, producers, c) && Deduped(s, e.id, 0)
    ensures Inserts(s, e.id, 0) == 0
  {
  }

  /** The consumer was offered exactly `n` messages, all copies of the event. */
  predicate OnlyCopies(t: State, c: ConsumerId, e: Event, n: nat) {
    && c in t.members && t.members[c].phase.Ready? && OfferedCopies(t, c, (e.id, 0)) == n
    && |t.members[c].box.offered| == n && Untaken(t.members[c].box)
  }

  /** The bound for a ready consumer is exact. */
  lemma ReadyBoundIsReached(producers: nat, maxSize: nat, ttl: Time, e: Event, c: ConsumerId, capacity: nat)
    returns (ready: seq<Action>, after: seq<Action>)
    requires maxSize >= 1
    ensures var s := Run(Run(Start(producers, maxSize, ttl), [Register(c, capacity)]), ready);
      && c in s.members && s.members[c].phase.Ready? && Inserts(s, e.id, 0) == 0
      && (forall a | a in ready + after :: !a.Register?)
      && OnlyCopies(Run(s, after), c, e, producers) && Run(s, after).members[c].box.capacity == capacity
  {
    var start := Start(producers, maxSize, ttl);
    RegisterFirst(producers, maxSize, ttl, c, capacity);
    var r := Run(start, [Register(c, capacity)]);
    ready := [BeginReplay(c)] + [EndReplay(c)];
    ReplayNothing(r, producers, c);
    var s := Run(r, ready);
    ReachedInvariants(producers, maxSize, ttl, [Register(c, capacity)], ready, (e.id, 0));
    after := BurstToReady(s, producers, e, c);
    NothingInserted(s, producers, e, c);
    NoRegisterIn(ready, after);
  }

  lemma NoRegisterIn(a: seq<Action>, b: seq<Action>)
    requires (forall x | x in a :: !x.Register?) && forall x | x in b :: !x.Register?
    ensures forall x | x in a + b :: !x.Register?
  {
  }

  lemma BurstToReady(s: State, producers: nat, e: Event, c: ConsumerId) returns (after: seq<Action>)
    requires Empty(s, producers, c) && R.Invariant(s)
    requires s.members[c].phase.Ready? && s.members[c].oldest == s.members[c].seen == 0
    ensures OnlyCopies(Run(s, after), c, e, producers)
    ensures Run(s, after).members[c].box.capacity == s.members[c].box.capacity
    ensures forall a | a in after :: !a.Register?
  {
    after := Burst(s, producers, e, c);
    R.InvariantRun(s, after);
    CopiesOfReady(Run(s, after), producers, e, c, s.members[c]);
  }

  lemma {:induction false} ReachedInvariants(producers: nat, maxSize: nat, ttl: Time, first: seq<Action>,
          second: seq<Action>, o: Origin)
    requires maxSize >= 1
    ensures Counted(Run(Run(Start(producers, maxSize, ttl), first), second), o)
  {
    StartCounted(producers, maxSize, ttl, o);
    CountedRun(Start(producers, maxSize, ttl), first, o);
    CountedRun(Run(Start(producers, maxSize, ttl), first), second, o);
  }

  // A consumer that replays afterwards ---------------------------------------------------------------

  /** Replay has offered `done` of the queued messages. */
  predicate ReplayedUpTo(s: State, t: State, c: ConsumerId, done: nat) {
    && c in s.members && c in t.members && |s.events| <= |s.accepted|
    && t == s.(members := s.members[c := t.members[c]])
    && t.members[c] == s.members[c].(phase := Replaying(done), oldest := |s.accepted| - |s.events|,
                                     seen := |s.accepted|, box := t.members[c].box)
    && Untaken(t.members[c].box) && t.members[c].box.capacity == s.members[c].box.capacity
  }

  lemma ReplayMore(s: State, t: State, c: ConsumerId, done: nat)
    requires ReplayedUpTo(s, t, c, done) && done < |s.events|
    ensures ReplayedUpTo(s, ConsumerStep(t, ReplayOne(c)), c, done + 1)
  {
  }

  lemma {:induction false} ReplayBegins(s: State, c: ConsumerId)
    requires s.maxSize >= 1 && c in s.members && s.members[c].phase.Registered? && s.writer.None?
    requires |s.events| <= |s.accepted| && Untaken(s.members[c].box)
    ensures ReplayedUpTo(s, Run(s, [BeginReplay(c)]), c, 0)
  {
    assert [BeginReplay(c)][..0] == [];
    assert Run(s, [BeginReplay(c)]) == Step(s, BeginReplay(c));
  }

  lemma {:induction false} ReplayOneMore(s: State, before: seq<Action>, c: ConsumerId, done: nat)
    requires s.maxSize >= 1 && ReplayedUpTo(s, Run(s, before), c, done) && done < |s.events|
    ensures ReplayedUpTo(s, Run(s, before + [ReplayOne(c)]), c, done + 1)
  {
    RunMore(s, before, ReplayOne(c));
    ReplayMore(s, Run(s, before), c, done);
  }

  lemma {:induction false} ReplayAll(s: State, c: ConsumerId, n: nat) returns (actions: seq<Action>)
    requires s.maxSize >= 1 && c in s.members && s.members[c].phase.Registered? && s.writer.None?
    requires n <= |s.events| <= |s.accepted| && Untaken(s.members[c].box)
    ensures ReplayedUpTo(s, Run(s, actions), c, n) && forall a | a in actions :: !a.Register?
  {
    if n == 0 {
      actions := [BeginReplay(c)];
      ReplayBegins(s, c);
    } else {
      var before := ReplayAll(s, c, n - 1);
      ReplayOneMore(s, before, c, n - 1);
      RegisterlessMore(before, ReplayOne(c));
      actions := before + [ReplayOne(c)];
    }
  }

  lemma RegisterlessMore(actions: seq<Action>, a: Action)
    requires !a.Register? && forall b | b in actions :: !b.Register?
    ensures forall b | b in actions + [a] :: !b.Register?
  {
  }

  lemma ReplayWhole(s: State, producers: nat, e: Event, c: ConsumerId, m: Member) returns (actions: seq<Action>)
    requires EnqueuedUpTo(s, producers, producers, e, c, m) && m.phase.Registered? && producers <= s.maxSize
    ensures EnqueuedUpTo(Run(s, actions), producers, producers, e, c,
                         m.(phase := Ready, oldest := 0, seen := producers))
    ensures forall a | a in actions :: !a.Register?
  {
    var before := ReplayAll(s, c, producers);
    RunMore(s, before, EndReplay(c));
    actions := before + [EndReplay(c)];
  }

  /** The bound for any consumer is exact, if the queue holds the copies until the replay. */
  lemma OfferBoundIsReached(producers: nat, maxSize: nat, ttl: Time, e: Event, c: ConsumerId, capacity: nat)
    returns (after: seq<Action>)
    requires maxSize >= 1 && producers <= maxSize
    ensures var t := Run(Run(Start(producers, maxSize, ttl), [Register(c, capacity)]), after);
      && (forall a | a in after :: !a.Register?)
      && OnlyCopies(t, c, e, 2 * producers) && t.members[c].box.capacity == capacity
  {
    var start := Start(producers, maxSize, ttl);
    RegisterFirst(producers, maxSize, ttl, c, capacity);
    var s := Run(start, [Register(c, capacity)]);
    var first := Burst(s, producers, e, c);
    var u := Run(s, first);
    var second := ReplayWhole(u, producers, e, c, s.members[c]);
    after := first + second;
    RunConcat(s, first, second);
    ReachedInvariants(producers, maxSize, ttl, [Register(c, capacity)], after, (e.id, 0));
    CopiesOfReady(Run(s, after), producers, e, c, s.members[c].(phase := Ready, oldest := 0, seen := producers));
  }
}
