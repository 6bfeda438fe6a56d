/** When the sends of a replay meet an open channel: CreateConsumer replays to the channel it
    registered after letting go of the consumers lock, so RemoveConsumer can come in between. */
module ReplaySends {
  import opened Nostr
  import opened Locks

  /** The thread has registered its channel and may still send to it: it has not looked at the
      queue yet, or has messages left. */
  predicate Unreplayed(t: Thread) {
    t.op.CreateConsumer? && t.channel.Some? && (2 <= t.pos <= 3 || (t.pos == 4 && t.left > 0))
  }

  /** The step closes a registered channel only after its replay. */
  predicate RemovalWaits(s: State, a: Action) {
    a.Go? && a.i < |s.threads| && Current(s.threads[a.i]).Close? && Current(s.threads[a.i]).c in s.registered ==>
      forall j | 0 <= j < |s.threads| && Unreplayed(s.threads[j]) ::
        s.threads[j].channel.value != s.registered[Current(s.threads[a.i]).c]
  }

  predicate AlwaysRemovalWaits(s: State, actions: seq<Action>) {
    actions == [] ||
    (var before := actions[..|actions| - 1];
     AlwaysRemovalWaits(s, before) && RemovalWaits(Run(s, before), actions[|actions| - 1]))
  }

  predicate ReplaysOpen(s: State) {
    && !s.overran
    && forall j | 0 <= j < |s.threads| && Unreplayed(s.threads[j]) ::
         s.threads[j].channel.value !in s.closed && s.threads[j].channel.value < s.channels
  }

  lemma ReplaysOpenGo(s: State, i: nat)
    requires ReplaysOpen(s) && ChannelsOpen(s) && RemovalWaits(s, Go(i)) && i < |s.threads| && Step(s, Go(i)) != s
    ensures ReplaysOpen(Step(s, Go(i)))
  {
    GoMoves(s, i);
  }

  lemma ReplaysOpenStep(s: State, a: Action)
    requires ReplaysOpen(s) && ChannelsOpen(s) && RemovalWaits(s, a)
    ensures ReplaysOpen(Step(s, a))
  {
    if a.Go? && Step(s, a) != s {
      ReplaysOpenGo(s, a.i);
    }
  }

  /** If every removal waits for the consumer's replay, no replay sends on a closed channel. */
  lemma {:induction false} NoReplayOnClosedChannel(maxSize: nat, actions: seq<Action>)
    requires AlwaysRemovalWaits(Start(maxSize), actions)
    ensures ReplaysOpen(Run(Start(maxSize), actions))
  {
    if actions == [] {
    } else {
      var before := actions[..|actions| - 1];
      NoReplayOnClosedChannel(maxSize, before);
      SafeAlways(maxSize, before);
      ReplaysOpenStep(Run(Start(maxSize), before), actions[|actions| - 1]);
    }
  }

  // A removal that does not wait ---------------------------------------------------------------------

  lemma {:induction false} RunFirst(s: State, a: Action, rest: seq<Action>)
    ensures Run(s, [a] + rest) == Run(Step(s, a), rest)
  {
    if rest == [] {
      assert [a] + rest == [a] && [a][..0] == [];
    } else {
      assert ([a] + rest)[..|rest|] == [a] + rest[..|rest| - 1];
      RunFirst(s, a, rest[..|rest| - 1]);
    }
  }

  lemma {:induction false} RunConcat(s: State, a: seq<Action>, b: seq<Action>)
    ensures Run(s, a + b) == Run(Run(s, a), b)
  {
    if b == [] {
      assert a + b == a;
    } else {
      assert (a + b)[..|a + b| - 1] == a + b[..|b| - 1];
      RunConcat(s, a, b[..|b| - 1]);
    }
  }

  /** How far a thread's position is from its end at most. */
  function Distance(t: Thread): nat {
    if Current(t).Return? then 0 else 22 - 2 * t.pos - if t.announced then 1 else 0
  }

  function MessagesLeft(t: Thread): nat {
    t.left
  }

  function Total(threads: seq<Thread>, weight: Thread -> nat): nat {
    if threads == [] then 0 else Total(threads[..|threads| - 1], weight) + weight(threads[|threads| - 1])
  }

  lemma {:induction false} TotalUpdate(threads: seq<Thread>, i: nat, t: Thread, weight: Thread -> nat)
    requires i < |threads|
    ensures Total(threads[i := t], weight) + weight(threads[i]) == Total(threads, weight) + weight(t)
  {
    var n := |threads| - 1;
    if i == n {
      assert threads[i := t][..n] == threads[..n];
    } else {
      assert threads[i := t][..n] == threads[..n][i := t];
      TotalUpdate(threads[..n], i, t, weight);
    }
  }

  /** Steps left of all threads at their positions, then messages left to replay. */
  predicate Nearer(s: State, t: State) {
    || Total(t.threads, Distance) < Total(s.threads, Distance)
    || (Total(t.threads, Distance) == Total(s.threads, Distance)
        && Total(t.threads, MessagesLeft) < Total(s.threads, MessagesLeft))
  }

  lemma DistanceShrinks(t: Thread, t': Thread)
    requires !Current(t).Return?
    requires Next(t, t') || (!t.announced && t' == t.(announced := true))
    ensures Distance(t') < Distance(t)
  {
  }

  lemma GoProgresses(s: State, m: nat)
    requires m < |s.threads| && CanMove(s, m)
    ensures Step(s, Go(m)) != s && Nearer(s, Step(s, Go(m)))
  {
    GoChanges(s, m);
    GoMoves(s, m);
    var t, u, u' := Step(s, Go(m)), s.threads[m], Step(s, Go(m)).threads[m];
    assert t.threads == s.threads[m := u'];
    TotalUpdate(s.threads, m, u', Distance);
    TotalUpdate(s.threads, m, u', MessagesLeft);
    if Current(u).Replay? && u.left > 0 {
      assert Distance(u') == Distance(u);
    } else {
      DistanceShrinks(u, u');
    }
  }

  lemma GoChanges(s: State, m: nat)
    requires m < |s.threads| && CanMove(s, m)
    ensures Step(s, Go(m)) != s
  {
    assert Step(s, Go(m)).threads[m] != s.threads[m];
  }

  /** Thread `j` has yet to replay to a channel that is closed. */
  predicate Doomed(s: State, j: nat) {
    j < |s.threads| && Unreplayed(s.threads[j]) && s.threads[j].pos >= 3 && s.threads[j].channel.value in s.closed
  }

  /** The queue never empties again, and a doomed replay stays doomed until it sends. */
  lemma DoomedStep(s: State, j: nat, m: nat)
    requires Doomed(s, j) && s.maxSize >= 1 && (m == j ==> s.queued > 0 && s.threads[j].pos == 3)
    ensures var t := Step(s, Go(m));
      Doomed(t, j) && t.maxSize == s.maxSize && (s.queued > 0 ==> t.queued > 0)
      && (m != j ==> t.threads[j] == s.threads[j])
  {
    if Step(s, Go(m)) != s {
      GoMoves(s, m);
    }
  }

  /** Whatever holds the thread up ends, and then it sends. */
  lemma {:induction false} DoomedOverruns(s: State, j: nat) returns (actions: seq<Action>)
    requires Doomed(s, j) && s.maxSize >= 1 && (s.queued > 0 || s.threads[j].pos == 4)
    ensures Run(s, actions).overran
    decreases Total(s.threads, Distance), Total(s.threads, MessagesLeft)
  {
    if s.threads[j].pos == 4 {
      actions := [Go(j)];
      assert actions[..0] == [];
    } else {
      var m := j;
      if Blocked(s, j) {
        m := SomeoneCanMove(s, j);
      }
      GoProgresses(s, m);
      DoomedStep(s, j, m);
      var rest := DoomedOverruns(Step(s, Go(m)), j);
      actions := [Go(m)] + rest;
      RunFirst(s, Go(m), rest);
    }
  }

  /** A thread that waits to look at the queue holds nobody up. */
  lemma WaitingReplayObstructsNobody(t: Thread, u: Thread, l: Lock)
    requires u.op.CreateConsumer? && u.pos == 3
    ensures !Obstructs(t, u, l)
  {
    HoldingIsTable(u.op, u.pos, l);
  }

  /** An AddEvent that has not enqueued yet does so while the replay still waits. */
  lemma {:induction false} QueueFills(s: State, j: nat, n: nat) returns (actions: seq<Action>)
    requires Doomed(s, j) && s.threads[j].pos == 3 && s.maxSize >= 1
    requires n < |s.threads| && s.threads[n].op.AddEvent? && s.threads[n].pos <= 5
    ensures var t := Run(s, actions); Doomed(t, j) && t.maxSize == s.maxSize && t.queued > 0
    decreases Total(s.threads, Distance), Total(s.threads, MessagesLeft)
  {
    var m := SomeoneCanMove(s, n);
    if m == j {
      var t, l :| Obstructs(t, s.threads[j], l);
      WaitingReplayObstructsNobody(t, s.threads[j], l);
    }
    GoProgresses(s, m);
    DoomedStep(s, j, m);
    GoMoves(s, m);
    var rest := [];
    if m != n || s.threads[n].pos < 5 {
      rest := QueueFills(Step(s, Go(m)), j, n);
    }
    actions := [Go(m)] + rest;
    RunFirst(s, Go(m), rest);
  }

  /** A removal that does not wait can always be followed by a replay that sends on a closed
      channel; if the queue is empty, once an event has been added. */
  lemma EarlyRemovalOverruns(maxSize: nat, actions: seq<Action>, a: Action) returns (after: seq<Action>)
    requires maxSize >= 1 && !RemovalWaits(Run(Start(maxSize), actions), a)
    ensures Run(Step(Run(Start(maxSize), actions), a), after).overran
  {
    var s := Run(Start(maxSize), actions);
    var c := Current(s.threads[a.i]).c;
    var j :| 0 <= j < |s.threads| && Unreplayed(s.threads[j]) && s.threads[j].channel.value == s.registered[c];
    SafeAlways(maxSize, actions);
    SizeKept(Start(maxSize), actions);
    BothCannotHold(s, a.i, j);
    GoMoves(s, a.i);
    after := ClosedOverruns(Step(s, a), j);
  }

  lemma ClosedOverruns(s: State, j: nat) returns (after: seq<Action>)
    requires Doomed(s, j) && s.maxSize >= 1
    ensures Run(s, after).overran
  {
    if s.threads[j].pos == 4 {
      after := DoomedOverruns(s, j);
    } else {
      var t := Step(s, Spawn(AddEvent));
      var first := QueueFills(t, j, |s.threads|);
      var rest := DoomedOverruns(Run(t, first), j);
      after := [Spawn(AddEvent)] + (first + rest);
      RunConcat(t, first, rest);
      RunFirst(s, Spawn(AddEvent), first + rest);
    }
  }

  lemma {:induction false} SizeKept(s: State, actions: seq<Action>)
    ensures Run(s, actions).maxSize == s.maxSize
  {
    if actions == [] {
    } else {
      SizeKept(s, actions[..|actions| - 1]);
      SizeKeptStep(Run(s, actions[..|actions| - 1]), actions[|actions| - 1]);
    }
  }

  lemma SizeKeptStep(s: State, a: Action)
    ensures Step(s, a).maxSize == s.maxSize
  {
  }

  /** While one thread closes, no other is still inside its registration. */
  lemma BothCannotHold(s: State, i: nat, j: nat)
    requires Exclusive(s) && i < |s.threads| && j < |s.threads|
    requires Current(s.threads[i]).Close? && s.threads[j].op.CreateConsumer?
    ensures i != j && s.threads[j].pos != 2 && Step(s, Go(i)) != s
  {
    LocksInOrder(s.threads[i].op, s.threads[i].pos, ConsumersMu);
    HoldingIsTable(s.threads[j].op, s.threads[j].pos, ConsumersMu);
    if i != j {
      assert Excludes(s.threads[i], s.threads[j]) && Held(s.threads[i], ConsumersMu) == Some(Write);
      assert Held(s.threads[j], ConsumersMu).None?;
    }
    assert Step(s, Go(i)).threads[i] != s.threads[i];
  }
}
