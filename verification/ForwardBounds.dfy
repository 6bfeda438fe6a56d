/** Runs that reach the bounds on forwards: every copy offered to the processor is read and
    forwarded to the group. */
module ForwardBounds {
  import opened Nostr
  import opened Queue
  import Q = QueueSteps
  import opened CopySteps
  import opened ForwardSteps
  import B = CopyBounds
  import D = DedupeSteps

  function OnQueue(actions: seq<Q.Action>): seq<Action> {
    seq(|actions|, i requires 0 <= i < |actions| => ForwardSteps.Action.Queue(actions[i]))
  }

  lemma {:induction false} RunMore(s: State, actions: seq<Action>, a: Action)
    requires s.q.maxSize >= 1
    ensures Run(s, actions + [a]) == Step(Run(s, actions), a)
  {
    assert (actions + [a])[..|actions|] == actions;
  }

  lemma {:induction false} RunConcat(s: State, a: seq<Action>, b: seq<Action>)
    requires s.q.maxSize >= 1
    ensures Run(s, a + b) == Run(Run(s, a), b)
  {
    if b == [] {
      assert a + b == a;
    } else {
      assert (a + b)[..|a + b| - 1] == a + b[..|b| - 1];
      RunConcat(s, a, b[..|b| - 1]);
    }
  }

  /** Actions of the queue that register nobody run as they do on the queue alone. */
  lemma {:induction false} OnlyQueueMoves(s: State, actions: seq<Q.Action>)
    requires s.q.maxSize >= 1 && forall a | a in actions :: !a.Register?
    ensures Run(s, OnQueue(actions)) == s.(q := Q.Run(s.q, actions))
  {
    if actions == [] {
    } else {
      var before, a := actions[..|actions| - 1], actions[|actions| - 1];
      assert OnQueue(actions) == OnQueue(before) + [ForwardSteps.Action.Queue(a)];
      OnlyQueueMoves(s, before);
      RunMore(s, OnQueue(before), ForwardSteps.Action.Queue(a));
    }
  }

  lemma {:induction false} Registers(producers: nat, maxSize: nat, ttl: Time, capacity: nat)
    requires maxSize >= 1
    ensures var start := Start(producers, maxSize, ttl);
      Run(start, [ForwardSteps.Action.Queue(Q.Register(PROCESSOR, capacity))])
        == start.(q := Q.Run(start.q, [Q.Register(PROCESSOR, capacity)]))
  {
    var start := Start(producers, maxSize, ttl);
    var a := Q.Register(PROCESSOR, capacity);
    assert [ForwardSteps.Action.Queue(a)][..0] == [] && [a][..0] == [];
    assert Run(start, [ForwardSteps.Action.Queue(a)]) == Step(start, ForwardSteps.Action.Queue(a));
    assert Q.Run(start.q, [a]) == Q.Step(start.q, a);
  }

  // Reading and forwarding all that is buffered ------------------------------------------------------

  /** Between messages, with everything read dealt with. */
  predicate Idle(s: State) {
    && s.q.maxSize >= 1 && s.current.None? && s.todo == [] && PROCESSOR in s.q.members && s.next == |MessagesRead(s)|
  }

  function Buffer(s: State): seq<Message> {
    if PROCESSOR in s.q.members then s.q.members[PROCESSOR].box.buffer else []
  }

  lemma ReceiveOne(s: State)
    requires Idle(s) && Buffer(s) != []
    ensures var t := Step(s, ForwardSteps.Action.Queue(Q.Receive(PROCESSOR)));
      && t == s.(q := t.q) && t.q.maxSize == s.q.maxSize && t.q.origins == s.q.origins && PROCESSOR in t.q.members
      && MessagesRead(t) == MessagesRead(s) + [Buffer(s)[0]] && Buffer(t) == Buffer(s)[1..]
  {
  }

  lemma {:induction false} ForwardOne(s: State, g: GroupId) returns (actions: seq<Action>)
    requires Idle(s) && Buffer(s) != []
    ensures var t := Run(s, actions);
      && Idle(t) && Buffer(t) == Buffer(s)[1..] && t.q.origins == s.q.origins
          && t.log == s.log + [Sent(Buffer(s)[0], g)]
  {
    var read := ForwardSteps.Action.Queue(Q.Receive(PROCESSOR));
    ReceiveOne(s);
    var u := Step(s, read);
    assert [read][..0] == [];
    RunMore(s, [read], StartMessage([g]));
    RunMore(s, [read] + [StartMessage([g])], ForwardNext);
    RunMore(s, [read] + [StartMessage([g])] + [ForwardNext], FinishMessage);
    actions := [read] + [StartMessage([g])] + [ForwardNext] + [FinishMessage];
    assert Step(u, StartMessage([g])) == u.(current := Some(Buffer(s)[0]), next := u.next + 1, todo := [g]);
  }

  lemma {:induction false} ForwardAll(s: State, o: Origin, g: GroupId) returns (actions: seq<Action>)
    requires Idle(s)
    ensures var t := Run(s, actions);
      && t.q.origins == s.q.origins
      && Forwards(t.log, s.q.origins, o, g) == Forwards(s.log, s.q.origins, o, g) + CopiesIn(Buffer(s), s.q.origins, o)
    decreases |Buffer(s)|
  {
    if Buffer(s) == [] {
      actions := [];
    } else {
      var first := ForwardOne(s, g);
      var u := Run(s, first);
      var rest := ForwardAll(u, o, g);
      actions := first + rest;
      RunConcat(s, first, rest);
      ForwardsMore(s.log, Sent(Buffer(s)[0], g), s.q.origins, o, g);
      CopiesConcat([Buffer(s)[0]], Buffer(u), s.q.origins, o);
      assert Buffer(s) == [Buffer(s)[0]] + Buffer(u) && [Buffer(s)[0]][..0] == [];
      assert CopiesIn([Buffer(s)[0]], s.q.origins, o) == if IsCopy(Buffer(s)[0], s.q.origins, o) then 1 else 0;
    }
  }

  lemma ForwardOffered(s: State, e: Event, n: nat, g: GroupId) returns (actions: seq<Action>)
    requires s.q.maxSize >= 1 && s.current.None? && s.todo == [] && s.log == [] && s.next == 0
    requires B.OnlyCopies(s.q, PROCESSOR, e, n) && s.q.members[PROCESSOR].box.capacity >= n
    ensures var t := Run(s, actions); Forwards(t.log, t.q.origins, (e.id, 0), g) == n
  {
    actions := ForwardAll(s, (e.id, 0), g);
  }

  // Main results ---------------------------------------------------------------------------------------

  /** The bound for a processor that was ready first is exact, if its channel has room. */
  lemma ReadyForwardsReached(producers: nat, maxSize: nat, ttl: Time, capacity: nat, e: Event, g: GroupId)
    returns (before: seq<Action>, after: seq<Action>)
    requires maxSize >= 1 && producers <= capacity
    ensures var s := Run(Start(producers, maxSize, ttl), before);
      && PROCESSOR in s.q.members && s.q.members[PROCESSOR].phase.Ready? && D.Inserts(s.q, e.id, 0) == 0
      && (var t := Run(s, after); Forwards(t.log, t.q.origins, (e.id, 0), g) == producers)
  {
    var start := Start(producers, maxSize, ttl);
    var first := [ForwardSteps.Action.Queue(Q.Register(PROCESSOR, capacity))];
    Registers(producers, maxSize, ttl, capacity);
    var r := Run(start, first);
    var ready, burst := B.ReadyBoundIsReached(producers, maxSize, ttl, e, PROCESSOR, capacity);
    before := first + OnQueue(ready);
    RunConcat(start, first, OnQueue(ready));
    OnlyQueueMoves(r, ready);
    var s := Run(start, before);
    OnlyQueueMoves(s, burst);
    var u := Run(s, OnQueue(burst));
    var rest := ForwardOffered(u, e, producers, g);
    after := OnQueue(burst) + rest;
    RunConcat(s, OnQueue(burst), rest);
  }

  /** The bound for any processor is exact, if the queue and its channel have room. */
  lemma ForwardsReached(producers: nat, maxSize: nat, ttl: Time, capacity: nat, e: Event, g: GroupId)
    returns (actions: seq<Action>)
    requires 1 <= maxSize && producers <= maxSize && 2 * producers <= capacity
    ensures var t := Run(Start(producers, maxSize, ttl), actions);
      Forwards(t.log, t.q.origins, (e.id, 0), g) == 2 * producers
  {
    var start := Start(producers, maxSize, ttl);
    var first := [ForwardSteps.Action.Queue(Q.Register(PROCESSOR, capacity))];
    Registers(producers, maxSize, ttl, capacity);
    var r := Run(start, first);
    var burst := B.OfferBoundIsReached(producers, maxSize, ttl, e, PROCESSOR, capacity);
    OnlyQueueMoves(r, burst);
    var u := Run(r, OnQueue(burst));
    var rest := ForwardOffered(u, e, 2 * producers, g);
    actions := first + OnQueue(burst) + rest;
    RunConcat(start, first, OnQueue(burst));
    RunConcat(start, first + OnQueue(burst), rest);
  }
}
