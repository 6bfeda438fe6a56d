/** The steps of one queue operation, run without interruption, are the whole operation: so what
    is proved of the steps and of the whole operations is about the same queue. */
module QueueRefinement {
  import opened Nostr
  import opened Queue
  import opened QueueSteps

  /** The queue that the steps work on. */
  function QueueOf(s: State): QueueState {
    QueueState(s.maxSize, s.ttl, s.events, Boxes(s.members), s.cache, s.accepted)
  }

  function Boxes(members: map<ConsumerId, Member>): map<ConsumerId, Mailbox> {
    map c | c in members :: members[c].box
  }

  /** No operation is under way that holds a lock of the queue. */
  predicate Unlocked(s: State) {
    s.maxSize >= 1 && s.writer.None? && !AnyReplaying(s)
  }

  lemma {:induction false} RunMore(s: State, actions: seq<Action>, a: Action)
    requires s.maxSize >= 1
    ensures Run(s, actions + [a]) == Step(Run(s, actions), a)
  {
    assert (actions + [a])[..|actions|] == actions;
  }

  lemma {:induction false} RunConcat(s: State, a: seq<Action>, b: seq<Action>)
    requires s.maxSize >= 1
    ensures Run(s, a + b) == Run(Run(s, a), b)
  {
    if b == [] {
      assert a + b == a;
    } else {
      assert (a + b)[..|a + b| - 1] == a + b[..|b| - 1];
      RunConcat(s, a, b[..|b| - 1]);
    }
  }

  // AddEvent ---------------------------------------------------------------------------------------

  function Notifications(i: nat, order: seq<ConsumerId>): seq<Action> {
    if order == [] then [] else Notifications(i, order[..|order| - 1]) + [NotifyOne(i, order[|order| - 1])]
  }

  /** AddEvent of a new event, in the order `order` of the consumers. */
  function Accepting(i: nat, e: Event, now: Time, order: seq<ConsumerId>): seq<Action> {
    [Check(i, e)] + [Mark(i, now)] + [Append(i)] + [BeginNotify(i)] + Notifications(i, order) + [EndNotify(i)]
  }

  /** `order` has only these consumers, without repeats. */
  predicate Picks(order: seq<ConsumerId>, consumers: set<ConsumerId>) {
    && (forall c | c in order :: c in consumers)
    && forall j, k | 0 <= j < k < |order| :: order[j] != order[k]
  }

  predicate Lists(order: seq<ConsumerId>, consumers: set<ConsumerId>) {
    Picks(order, consumers) && forall c | c in consumers :: c in order
  }

  function Left(consumers: set<ConsumerId>, order: seq<ConsumerId>): set<ConsumerId> {
    set c | c in consumers && c !in order
  }

  /** The notification loop has reached the consumers in `order`. */
  predicate NotifiedUpTo(s: State, t: State, i: nat, m: Message, order: seq<ConsumerId>) {
    && i < |s.producers| && t.members.Keys == s.members.Keys
    && t == s.(producers := s.producers[i := Notifying(m, Left(s.members.Keys, order))], members := t.members)
    && forall c | c in s.members ::
         t.members[c] == if c in order then s.members[c].(box := Offered(s.members[c].box, m)) else s.members[c]
  }

  lemma {:induction false} NotifyAll(s: State, i: nat, m: Message, order: seq<ConsumerId>)
    requires s.maxSize >= 1 && i < |s.producers| && s.producers[i] == Notifying(m, s.members.Keys)
    requires Picks(order, s.members.Keys)
    ensures NotifiedUpTo(s, Run(s, Notifications(i, order)), i, m, order)
  {
    if order == [] {
      assert Left(s.members.Keys, []) == s.members.Keys;
      assert s.producers[i := s.producers[i]] == s.producers;
    } else {
      var before, c := order[..|order| - 1], order[|order| - 1];
      NotifyAll(s, i, m, before);
      RunMore(s, Notifications(i, before), NotifyOne(i, c));
      NotifyNext(s, Run(s, Notifications(i, before)), i, m, before, c);
      assert order == before + [c];
    }
  }

  lemma NotifyNext(s: State, t: State, i: nat, m: Message, before: seq<ConsumerId>, c: ConsumerId)
    requires s.maxSize >= 1 && NotifiedUpTo(s, t, i, m, before) && c in s.members && c !in before
    ensures NotifiedUpTo(s, Step(t, NotifyOne(i, c)), i, m, before + [c])
  {
    assert Left(s.members.Keys, before + [c]) == Left(s.members.Keys, before) - {c};
    assert t.producers[i := Notifying(m, Left(s.members.Keys, before + [c]))]
        == s.producers[i := Notifying(m, Left(s.members.Keys, before + [c]))];
  }

  /** The producer has enqueued the event and is about to notify. */
  predicate EnqueuedBy(s: State, t: State, i: nat, e: Event, now: Time)
    requires s.maxSize >= 1
  {
    var m := Message(e, |s.accepted|);
    && t.maxSize == s.maxSize && t.ttl == s.ttl && t.members == s.members && t.cache == s.cache[e.id := now]
    && t.events == Queue.Appended(s.events, s.maxSize, m) && t.accepted == s.accepted + [m]
    && i < |s.producers| && t.producers == s.producers[i := Notifying(m, s.members.Keys)]
  }

  /** The first four steps. */
  lemma Enqueuing(s: State, i: nat, e: Event, now: Time)
    requires Unlocked(s) && i < |s.producers| && s.producers[i].Idle? && e.id !in s.cache
    ensures EnqueuedBy(s, Step(Step(Step(Step(s, Check(i, e)), Mark(i, now)), Append(i)), BeginNotify(i)), i, e, now)
  {
    var marked := Step(Step(s, Check(i, e)), Mark(i, now));
    assert marked.producers[i] == Marked(e, EpochOf(s, e.id)) && marked.members == s.members;
    assert !AnyReplaying(marked);
    var appended := Step(marked, Append(i));
    assert appended.producers[i] == Producer.Appended(Message(e, |s.accepted|));
    assert marked.producers == s.producers[i := marked.producers[i]];
  }

  lemma {:induction false} RunFour(s: State, a: Action, b: Action, c: Action, d: Action)
    requires s.maxSize >= 1
    ensures Run(s, [a] + [b] + [c] + [d]) == Step(Step(Step(Step(s, a), b), c), d)
  {
    assert [a][..0] == [];
    RunMore(s, [a], b);
    RunMore(s, [a] + [b], c);
    RunMore(s, [a] + [b] + [c], d);
  }

  /** AddEvent of a new event is the whole operation, whatever order the consumers come in. */
  lemma {:induction false} AddAlone(s: State, i: nat, e: Event, now: Time, order: seq<ConsumerId>)
    requires Unlocked(s) && i < |s.producers| && s.producers[i].Idle? && e.id !in s.cache
    requires Lists(order, s.members.Keys)
    ensures QueueOf(Run(s, Accepting(i, e, now, order))) == EventAdded(QueueOf(s), e, now)
    ensures Run(s, Accepting(i, e, now, order)).producers == s.producers
    ensures Unlocked(Run(s, Accepting(i, e, now, order)))
  {
    var first := [Check(i, e)] + [Mark(i, now)] + [Append(i)] + [BeginNotify(i)];
    RunFour(s, Check(i, e), Mark(i, now), Append(i), BeginNotify(i));
    Enqueuing(s, i, e, now);
    var t := Run(s, first);
    var m := Message(e, |s.accepted|);
    NotifyAll(t, i, m, order);
    RunConcat(s, first, Notifications(i, order));
    var u := Run(t, Notifications(i, order));
    RunMore(s, first + Notifications(i, order), EndNotify(i));
    AddEnds(s, t, u, i, e, now, order);
  }

  lemma AddEnds(s: State, t: State, u: State, i: nat, e: Event, now: Time, order: seq<ConsumerId>)
    requires Unlocked(s) && i < |s.producers| && s.producers[i].Idle? && e.id !in s.cache
    requires EnqueuedBy(s, t, i, e, now)
    requires Lists(order, s.members.Keys) && NotifiedUpTo(t, u, i, Message(e, |s.accepted|), order)
    ensures var v := Step(u, EndNotify(i));
      QueueOf(v) == EventAdded(QueueOf(s), e, now) && v.producers == s.producers && Unlocked(v)
  {
    var m := Message(e, |s.accepted|);
    NotifyEnds(t, u, i, m, order);
    NotifiedBoxes(t, u, i, m, order);
    assert Step(u, EndNotify(i)).producers == s.producers;
  }

  lemma NotifyEnds(t: State, u: State, i: nat, m: Message, order: seq<ConsumerId>)
    requires t.maxSize >= 1 && NotifiedUpTo(t, u, i, m, order) && Lists(order, t.members.Keys)
    ensures Step(u, EndNotify(i)) == t.(producers := t.producers[i := Idle], writer := None, members := u.members)
  {
    assert Left(t.members.Keys, order) == {};
    assert u.producers[i] == Notifying(m, {});
    assert u.producers[i := Idle] == t.producers[i := Idle];
  }

  lemma NotifiedBoxes(t: State, u: State, i: nat, m: Message, order: seq<ConsumerId>)
    requires NotifiedUpTo(t, u, i, m, order) && Lists(order, t.members.Keys) && !AnyReplaying(t)
    ensures Boxes(u.members) == Notified(Boxes(t.members), m)
    ensures forall c | c in u.members :: !u.members[c].phase.Replaying?
  {
    forall c | c in u.members ensures !u.members[c].phase.Replaying? {
      assert !t.members[c].phase.Replaying?;
    }
  }

  /** AddEvent of a duplicate changes nothing. */
  lemma DuplicateAlone(s: State, i: nat, e: Event, now: Time)
    requires s.maxSize >= 1 && i < |s.producers| && s.producers[i].Idle? && e.id in s.cache
    ensures Step(s, Check(i, e)) == s && EventAdded(QueueOf(s), e, now) == QueueOf(s)
  {
  }

  // CreateConsumer ---------------------------------------------------------------------------------

  function Replays(c: ConsumerId, n: nat): seq<Action> {
    if n == 0 then [] else Replays(c, n - 1) + [ReplayOne(c)]
  }

  function Creating(c: ConsumerId, capacity: nat, n: nat): seq<Action> {
    [Register(c, capacity)] + [BeginReplay(c)] + Replays(c, n) + [EndReplay(c)]
  }

  predicate ReplayedUpTo(s: State, t: State, c: ConsumerId, n: nat) {
    && c in s.members && c in t.members && n <= |s.events|
    && t == s.(members := s.members[c := s.members[c].(phase := Replaying(n), box := t.members[c].box)])
    && t.members[c].box == OfferedAll(s.members[c].box, s.events[..n])
  }

  lemma {:induction false} ReplayAll(s: State, c: ConsumerId, n: nat)
    requires s.maxSize >= 1 && c in s.members && s.members[c].phase == Replaying(0) && n <= |s.events|
    ensures ReplayedUpTo(s, Run(s, Replays(c, n)), c, n)
  {
    if n == 0 {
      assert s.members[c := s.members[c]] == s.members;
    } else {
      ReplayAll(s, c, n - 1);
      RunMore(s, Replays(c, n - 1), ReplayOne(c));
      ReplayNext(s, Run(s, Replays(c, n - 1)), c, n - 1);
    }
  }

  lemma ReplayNext(s: State, t: State, c: ConsumerId, n: nat)
    requires s.maxSize >= 1 && ReplayedUpTo(s, t, c, n) && n < |s.events|
    ensures ReplayedUpTo(s, Step(t, ReplayOne(c)), c, n + 1)
  {
    assert s.events[..n + 1][..n] == s.events[..n];
  }

  /** CreateConsumer is the whole operation. */
  lemma {:induction false} CreateAlone(s: State, c: ConsumerId, capacity: nat)
    requires Unlocked(s) && (c in s.members ==> s.members[c].phase.Ready?) && |s.events| <= |s.accepted|
    ensures var t := Run(s, Creating(c, capacity, |s.events|));
      && QueueOf(t) == ConsumerCreated(QueueOf(s), c, capacity) && Unlocked(t)
      && c in t.members && t.members[c].phase.Ready?
  {
    var n := |s.events|;
    assert [Register(c, capacity)][..0] == [];
    RunMore(s, [Register(c, capacity)], BeginReplay(c));
    var t := Run(s, [Register(c, capacity)] + [BeginReplay(c)]);
    CreateBegins(s, c, capacity);
    ReplayAll(t, c, n);
    RunConcat(s, [Register(c, capacity)] + [BeginReplay(c)], Replays(c, n));
    RunMore(s, [Register(c, capacity)] + [BeginReplay(c)] + Replays(c, n), EndReplay(c));
    CreateEnds(s, t, Run(t, Replays(c, n)), c, capacity);
  }

  lemma CreateBegins(s: State, c: ConsumerId, capacity: nat)
    requires Unlocked(s) && (c in s.members ==> s.members[c].phase.Ready?) && |s.events| <= |s.accepted|
    ensures var t := Step(Step(s, Register(c, capacity)), BeginReplay(c));
      && c in t.members && t == s.(members := s.members[c := t.members[c]])
      && t.members[c].phase == Replaying(0) && t.members[c].box == NewMailbox(capacity)
  {
  }

  lemma CreateEnds(s: State, t: State, u: State, c: ConsumerId, capacity: nat)
    requires Unlocked(s) && c in t.members && t == s.(members := s.members[c := t.members[c]])
    requires t.members[c].phase == Replaying(0) && t.members[c].box == NewMailbox(capacity)
    requires ReplayedUpTo(t, u, c, |s.events|)
    ensures var v := Step(u, EndReplay(c));
      && QueueOf(v) == ConsumerCreated(QueueOf(s), c, capacity) && Unlocked(v)
      && c in v.members && v.members[c].phase.Ready?
  {
    var v := Step(u, EndReplay(c));
    assert s.events[..|s.events|] == s.events;
    assert Boxes(v.members) == Boxes(s.members)[c := OfferedAll(NewMailbox(capacity), s.events)];
    forall d | d in v.members ensures !v.members[d].phase.Replaying? {
      assert d != c ==> v.members[d] == s.members[d];
    }
  }

  // ReadEvents and the cleanups --------------------------------------------------------------------------

  function Receives(c: ConsumerId, n: nat): seq<Action> {
    if n == 0 then [] else Receives(c, n - 1) + [Receive(c)]
  }

  /** `t` is `s` after the consumer has received `n` messages. */
  predicate ReceivedUpTo(s: State, t: State, c: ConsumerId, n: nat) {
    && c in s.members && c in t.members && n <= |s.members[c].box.buffer|
    && t == s.(members := s.members[c := s.members[c].(box := t.members[c].box)])
    && t.members[c].box == Received(s.members[c].box, n)
  }

  /** A read that receives as many messages as it can is the whole operation. */
  lemma {:induction false} ReadAlone(s: State, c: ConsumerId, count: nat, ready: nat)
    requires s.maxSize >= 1 && c in s.members
    ensures var n := Taken(s.members[c].box, count, ready);
      QueueOf(Run(s, Receives(c, n))) == EventsRead(QueueOf(s), c, count, ready)
  {
    var n := Taken(s.members[c].box, count, ready);
    ReceiveAll(s, c, n);
    assert Boxes(Run(s, Receives(c, n)).members) == Boxes(s.members)[c := Received(s.members[c].box, n)];
  }

  lemma {:induction false} ReceiveAll(s: State, c: ConsumerId, n: nat)
    requires s.maxSize >= 1 && c in s.members && n <= |s.members[c].box.buffer|
    ensures ReceivedUpTo(s, Run(s, Receives(c, n)), c, n)
  {
    if n == 0 {
      ReceivedNothing(s, c);
    } else {
      ReceiveAll(s, c, n - 1);
      RunMore(s, Receives(c, n - 1), Receive(c));
      ReceiveNext(s, Run(s, Receives(c, n - 1)), c, n - 1);
    }
  }

  lemma ReceivedNothing(s: State, c: ConsumerId)
    requires c in s.members
    ensures ReceivedUpTo(s, s, c, 0)
  {
    assert Received(s.members[c].box, 0) == s.members[c].box;
    assert s.members[c := s.members[c]] == s.members;
  }

  lemma ReceiveNext(s: State, t: State, c: ConsumerId, n: nat)
    requires s.maxSize >= 1 && ReceivedUpTo(s, t, c, n) && n < |s.members[c].box.buffer|
    ensures ReceivedUpTo(s, Step(t, Receive(c)), c, n + 1)
  {
    ReceivedOneMore(s.members[c].box, n);
  }

  lemma ReceivedOneMore(b: Mailbox, n: nat)
    requires n < |b.buffer|
    ensures Received(Received(b, n), 1) == Received(b, n + 1)
  {
    assert b.read + b.buffer[..n] + b.buffer[n..][..1] == b.read + b.buffer[..n + 1];
    assert b.buffer[n..][1..] == b.buffer[n + 1..];
  }

  lemma CleanupsAlone(s: State, now: Time)
    requires s.maxSize >= 1
    ensures QueueOf(Step(s, Sweep(now))) == QueueOf(s).(cache := Swept(s.cache, now, s.ttl))
    ensures Unlocked(s) ==> QueueOf(Step(s, Action.Trim)) == QueueOf(s).(events := Trimmed(s.events))
  {
  }
}
