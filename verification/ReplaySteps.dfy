/** What a consumer is offered when its registration and replay interleave with
    AddEvent, in every run of the step model. */
module ReplaySteps {
  import opened Nostr
  import opened Queue
  import opened QueueSteps
  import QueueRuns

  /** eventsMu is held by at most one writer, or by replaying readers; the writer's
      message is the newest accepted; the queue is the newest part of the history. */
  predicate Locked(s: State) {
    && (forall i: nat | i < |s.producers| ::
        s.producers[i].Appended? || s.producers[i].Notifying? ==> s.writer == Some(i))
    && (s.writer.Some? ==>
          && s.writer.value < |s.producers|
          && (var p := s.producers[s.writer.value];
              && (p.Appended? || p.Notifying?)
              && s.accepted != [] && p.message == s.accepted[|s.accepted| - 1]
              && (p.Notifying? ==> p.todo <= s.members.Keys)))
    && (s.writer.Some? ==> forall c | c in s.members :: !s.members[c].phase.Replaying?)
    && |s.events| <= |s.accepted|
    && s.events == s.accepted[|s.accepted| - |s.events|..]
  }

  predicate SerialsAreIndices(accepted: seq<Message>) {
    forall i | 0 <= i < |accepted| :: accepted[i].serial == i
  }

  /** The newest message has not been offered to `c` yet. */
  predicate Pending(s: State, c: ConsumerId) {
    && s.writer.Some? && s.writer.value < |s.producers|
    && (var p := s.producers[s.writer.value]; p.Appended? || (p.Notifying? && c in p.todo))
  }

  /** How many accepted messages have passed the notification loop for `c`. */
  function Notified(s: State, c: ConsumerId): int {
    if Pending(s, c) then |s.accepted| - 1 else |s.accepted|
  }

  /** Exactly what a consumer has been offered so far, when `upTo` messages have passed
      its notification. */
  predicate OfferedExactly(m: Member, accepted: seq<Message>, events: seq<Message>, upTo: int) {
    match m.phase
    case Registered =>
      m.from <= upTo <= |accepted| && m.box.offered == accepted[m.from..upTo]
    case Replaying(done) =>
      && m.from <= m.seen == upTo == |accepted| && m.oldest == |accepted| - |events| && done <= |events| <= |accepted|
      && m.box.offered == accepted[m.from..] + accepted[m.oldest..m.oldest + done]
    case Ready =>
      && m.from <= m.seen <= upTo <= |accepted| && m.oldest <= m.seen
      && m.box.offered == accepted[m.from..m.seen] + accepted[m.oldest..m.seen] + accepted[m.seen..upTo]
  }

  predicate MemberInvariant(s: State, c: ConsumerId)
    requires c in s.members
  {
    && OfferedExactly(s.members[c], s.accepted, s.events, Notified(s, c))
    && QueueRuns.Conserved(s.members[c].box)
  }

  predicate Invariant(s: State) {
    && Locked(s) && SerialsAreIndices(s.accepted)
    && forall c | c in s.members :: MemberInvariant(s, c)
  }

  lemma LockedBeforeAppend(s: State, a: Action)
    requires s.maxSize >= 1 && Locked(s) && (a.Check? || a.Mark?) && a.i < |s.producers|
    ensures Locked(ProducerStep(s, a))
  {
  }

  lemma LockedBeginOrEnd(s: State, a: Action)
    requires s.maxSize >= 1 && Locked(s) && (a.BeginNotify? || a.EndNotify?) && a.i < |s.producers|
    ensures Locked(ProducerStep(s, a))
  {
  }

  lemma LockedNotify(s: State, i: nat, c: ConsumerId)
    requires s.maxSize >= 1 && Locked(s) && i < |s.producers|
    ensures Locked(ProducerStep(s, NotifyOne(i, c)))
  {
    var t := ProducerStep(s, NotifyOne(i, c));
    if t != s {
      assert s.writer == Some(i) && t.members.Keys == s.members.Keys;
      assert t.members == s.members[c := t.members[c]] && t.members[c].phase == s.members[c].phase;
    }
  }

  lemma LockedAppend(s: State, i: nat)
    requires s.maxSize >= 1 && Locked(s) && i < |s.producers|
    ensures Locked(ProducerStep(s, Append(i)))
  {
    var t := ProducerStep(s, Append(i));
    if t != s {
      var m := t.producers[i].message;
      var kept := if |s.events| >= s.maxSize then s.events[1..] else s.events;
      assert kept == s.accepted[|s.accepted| - |kept|..];
      assert t.events == kept + [m];
      assert t.accepted[|t.accepted| - |t.events|..] == s.accepted[|s.accepted| - |kept|..] + [m];
    }
  }

  lemma LockedConsumerStep(s: State, a: Action)
    requires Locked(s)
    requires a.Register? || a.BeginReplay? || a.ReplayOne? || a.EndReplay? || a.Receive?
    ensures Locked(ConsumerStep(s, a))
  {
  }

  lemma LockedStep(s: State, a: Action)
    requires s.maxSize >= 1 && Locked(s)
    ensures Locked(Step(s, a))
  {
    if a.Append? {
      if a.i < |s.producers| {
        LockedAppend(s, a.i);
      }
    } else if a.Check? || a.Mark? || a.BeginNotify? || a.NotifyOne? || a.EndNotify? {
      if a.i < |s.producers| {
        if a.Check? || a.Mark? {
          LockedBeforeAppend(s, a);
        } else if a.NotifyOne? {
          LockedNotify(s, a.i, a.c);
        } else {
          LockedBeginOrEnd(s, a);
        }
      }
    } else if !a.Sweep? && !a.Trim? {
      LockedConsumerStep(s, a);
    }
  }

  /** Accepting one more message leaves every offer count as it was. */
  lemma OfferedExactlyGrows(m: Member, accepted: seq<Message>, events: seq<Message>, x: Message, events': seq<Message>)
    requires OfferedExactly(m, accepted, events, |accepted|) && !m.phase.Replaying?
    ensures OfferedExactly(m, accepted + [x], events', |accepted|)
  {
    var grown := accepted + [x];
    if m.phase.Registered? {
      assert grown[m.from..|accepted|] == accepted[m.from..|accepted|];
    } else {
      assert grown[m.from..m.seen] == accepted[m.from..m.seen];
      assert grown[m.oldest..m.seen] == accepted[m.oldest..m.seen];
      assert grown[m.seen..|accepted|] == accepted[m.seen..|accepted|];
    }
  }

  /** Offering the newest message completes its notification. */
  lemma OfferedExactlyNotified(m: Member, accepted: seq<Message>, events: seq<Message>)
    requires accepted != [] && !m.phase.Replaying?
    requires OfferedExactly(m, accepted, events, |accepted| - 1)
    ensures OfferedExactly(m.(box := Offered(m.box, accepted[|accepted| - 1])), accepted, events, |accepted|)
  {
    var n := |accepted| - 1;
    if m.phase.Registered? {
      assert accepted[m.from..n] + [accepted[n]] == accepted[m.from..n + 1];
    } else {
      assert accepted[m.seen..n] + [accepted[n]] == accepted[m.seen..n + 1];
    }
  }

  lemma OfferedExactlyReplayed(m: Member, accepted: seq<Message>, events: seq<Message>)
    requires m.phase.Replaying? && m.phase.done < |events| <= |accepted|
    requires events == accepted[|accepted| - |events|..]
    requires OfferedExactly(m, accepted, events, |accepted|)
    ensures OfferedExactly(m.(phase := Replaying(m.phase.done + 1), box := Offered(m.box, events[m.phase.done])),
                           accepted, events, |accepted|)
  {
    var k := m.oldest + m.phase.done;
    assert events[m.phase.done] == accepted[k];
    assert accepted[m.oldest..k + 1] == accepted[m.oldest..k] + [accepted[k]];
  }

  /** A consumer's invariant depends on its entry, the histories and whether its
      notification is pending. */
  lemma MemberFrame(s: State, t: State, c: ConsumerId)
    requires c in s.members && c in t.members && t.members[c] == s.members[c]
    requires t.accepted == s.accepted && t.events == s.events
    requires Pending(s, c) <==> Pending(t, c)
    requires MemberInvariant(s, c)
    ensures MemberInvariant(t, c)
  {
  }

  lemma MemberAfterEarly(s: State, a: Action, c: ConsumerId)
    requires s.maxSize >= 1 && Locked(s) && c in s.members && MemberInvariant(s, c)
    requires (a.Check? || a.Mark?) && a.i < |s.producers|
    ensures var t := ProducerStep(s, a); c in t.members && MemberInvariant(t, c)
  {
    var t := ProducerStep(s, a);
    assert Pending(s, c) <==> Pending(t, c);
    MemberFrame(s, t, c);
  }

  lemma MemberAfterBeginOrEnd(s: State, a: Action, c: ConsumerId)
    requires s.maxSize >= 1 && Locked(s) && c in s.members && MemberInvariant(s, c)
    requires (a.BeginNotify? || a.EndNotify?) && a.i < |s.producers|
    ensures var t := ProducerStep(s, a); c in t.members && MemberInvariant(t, c)
  {
    var t := ProducerStep(s, a);
    assert Pending(s, c) <==> Pending(t, c);
    MemberFrame(s, t, c);
  }

  lemma MemberAfterProducer(s: State, a: Action, c: ConsumerId)
    requires s.maxSize >= 1 && Locked(s) && c in s.members && MemberInvariant(s, c)
    requires a.Check? || a.Mark? || a.BeginNotify? || a.EndNotify?
    requires a.i < |s.producers|
    ensures var t := ProducerStep(s, a); c in t.members && MemberInvariant(t, c)
  {
    if a.Check? || a.Mark? {
      MemberAfterEarly(s, a, c);
    } else {
      MemberAfterBeginOrEnd(s, a, c);
    }
  }

  lemma MemberAfterAppend(s: State, i: nat, c: ConsumerId)
    requires s.maxSize >= 1 && Locked(s) && c in s.members && MemberInvariant(s, c) && i < |s.producers|
    ensures var t := ProducerStep(s, Append(i)); c in t.members && MemberInvariant(t, c)
  {
    var t := ProducerStep(s, Append(i));
    if t != s {
      OfferedExactlyGrows(s.members[c], s.accepted, s.events, t.producers[i].message, t.events);
    }
  }

  lemma MemberNotified(s: State, i: nat, c: ConsumerId)
    requires s.maxSize >= 1 && Locked(s) && c in s.members && MemberInvariant(s, c) && i < |s.producers|
    requires s.producers[i].Notifying? && c in s.producers[i].todo
    ensures var t := ProducerStep(s, NotifyOne(i, c)); c in t.members && MemberInvariant(t, c)
  {
    var m := s.members[c];
    NotificationEnds(s, i, c);
    OfferedExactlyNotified(m, s.accepted, s.events);
    QueueRuns.OfferConserves(m.box, s.producers[i].message);
  }

  lemma NotificationEnds(s: State, i: nat, c: ConsumerId)
    requires s.maxSize >= 1 && Locked(s) && c in s.members && i < |s.producers|
    requires s.producers[i].Notifying? && c in s.producers[i].todo
    ensures var t := ProducerStep(s, NotifyOne(i, c));
      && t.accepted == s.accepted && t.events == s.events && c in t.members
      && t.members[c] == s.members[c].(box := Offered(s.members[c].box, s.producers[i].message))
      && Pending(s, c) && !Pending(t, c)
    ensures !s.members[c].phase.Replaying? && s.accepted != [] && s.producers[i].message == s.accepted[|s.accepted| - 1]
  {
  }

  lemma MemberAfterNotify(s: State, i: nat, d: ConsumerId, c: ConsumerId)
    requires s.maxSize >= 1 && Locked(s) && c in s.members && MemberInvariant(s, c) && i < |s.producers|
    ensures var t := ProducerStep(s, NotifyOne(i, d)); c in t.members && MemberInvariant(t, c)
  {
    if s.producers[i].Notifying? && d in s.producers[i].todo && d in s.members {
      if c == d {
        MemberNotified(s, i, c);
      } else {
        var t := ProducerStep(s, NotifyOne(i, d));
        assert s.writer == Some(i);
        MemberFrame(s, t, c);
      }
    }
  }

  lemma MemberAfterReplayOne(s: State, c: ConsumerId)
    requires Locked(s) && c in s.members && MemberInvariant(s, c)
    ensures MemberInvariant(ConsumerStep(s, ReplayOne(c)), c)
  {
    var t := ConsumerStep(s, ReplayOne(c));
    if t != s {
      assert !Pending(s, c) && !Pending(t, c);
      OfferedExactlyReplayed(s.members[c], s.accepted, s.events);
      QueueRuns.OfferConserves(s.members[c].box, s.events[s.members[c].phase.done]);
    }
  }

  lemma MemberAfterBeginReplay(s: State, c: ConsumerId)
    requires Locked(s) && c in s.members && MemberInvariant(s, c)
    ensures MemberInvariant(ConsumerStep(s, BeginReplay(c)), c)
  {
    var t := ConsumerStep(s, BeginReplay(c));
    if t != s {
      assert !Pending(s, c) && !Pending(t, c);
    }
  }

  lemma ReplayOver(m: Member, accepted: seq<Message>, events: seq<Message>)
    requires m.phase.Replaying? && m.phase.done >= |events| && OfferedExactly(m, accepted, events, |accepted|)
    ensures OfferedExactly(m.(phase := Ready), accepted, events, |accepted|)
  {
    assert accepted[m.oldest..m.oldest + m.phase.done] == accepted[m.oldest..m.seen];
    assert accepted[m.from..m.seen] == accepted[m.from..];
    assert accepted[m.seen..|accepted|] == [];
  }

  lemma MemberAfterEndReplay(s: State, c: ConsumerId)
    requires Locked(s) && c in s.members && MemberInvariant(s, c)
    ensures MemberInvariant(ConsumerStep(s, EndReplay(c)), c)
  {
    var t := ConsumerStep(s, EndReplay(c));
    if t != s {
      assert !Pending(s, c) && !Pending(t, c);
      ReplayOver(s.members[c], s.accepted, s.events);
    }
  }

  /** Reading leaves the offers as they were. */
  lemma OfferedExactlyReceived(m: Member, accepted: seq<Message>, events: seq<Message>, upTo: int)
    requires OfferedExactly(m, accepted, events, upTo) && m.box.buffer != []
    ensures OfferedExactly(m.(box := Received(m.box, 1)), accepted, events, upTo)
  {
  }

  lemma MemberAfterReceive(s: State, c: ConsumerId)
    requires Locked(s) && c in s.members && MemberInvariant(s, c)
    requires QueueRuns.Conserved(ConsumerStep(s, Receive(c)).members[c].box)
    ensures MemberInvariant(ConsumerStep(s, Receive(c)), c)
  {
    if s.members[c].box.buffer != [] {
      OfferedExactlyReceived(s.members[c], s.accepted, s.events, Notified(s, c));
      assert Pending(s, c) <==> Pending(ConsumerStep(s, Receive(c)), c);
    }
  }

  lemma MemberAfterRegister(s: State, c: ConsumerId, capacity: nat)
    requires Locked(s) && (c in s.members ==> MemberInvariant(s, c))
    requires c in ConsumerStep(s, Register(c, capacity)).members
    ensures MemberInvariant(ConsumerStep(s, Register(c, capacity)), c)
  {
    var t := ConsumerStep(s, Register(c, capacity));
    assert t != s ==> (Pending(t, c) <==> t.writer.Some?);
  }

  lemma ConsumerStepFrame(s: State, a: Action)
    requires a.Register? || a.BeginReplay? || a.ReplayOne? || a.EndReplay? || a.Receive?
    ensures var t := ConsumerStep(s, a);
      && t == s.(members := t.members)
      && (t.members == s.members || (a.c in t.members && t.members == s.members[a.c := t.members[a.c]]))
  {
  }

  lemma MemberAfterOtherConsumer(s: State, a: Action, c: ConsumerId)
    requires Locked(s) && c in s.members && MemberInvariant(s, c)
    requires (a.Register? || a.BeginReplay? || a.ReplayOne? || a.EndReplay? || a.Receive?) && a.c != c
    ensures var t := ConsumerStep(s, a); c in t.members && MemberInvariant(t, c)
  {
    ConsumerStepFrame(s, a);
    MemberFrame(s, ConsumerStep(s, a), c);
  }

  lemma MemberAfterConsumer(s: State, a: Action, c: ConsumerId)
    requires Locked(s) && (c in s.members ==> MemberInvariant(s, c))
    requires a.Register? || a.BeginReplay? || a.ReplayOne? || a.EndReplay? || a.Receive?
    requires c in ConsumerStep(s, a).members
    ensures MemberInvariant(ConsumerStep(s, a), c)
  {
    if a.c != c {
      ConsumerStepFrame(s, a);
      MemberAfterOtherConsumer(s, a, c);
    } else if a.ReplayOne? {
      MemberAfterReplayOne(s, c);
    } else if a.BeginReplay? {
      MemberAfterBeginReplay(s, c);
    } else if a.EndReplay? {
      MemberAfterEndReplay(s, c);
    } else if a.Receive? {
      if s.members[c].box.buffer != [] {
        QueueRuns.ReceiveConserves(s.members[c].box, 1);
      }
      MemberAfterReceive(s, c);
    } else {
      MemberAfterRegister(s, c, a.capacity);
    }
  }

  lemma MemberAfterTrim(s: State, c: ConsumerId)
    requires s.maxSize >= 1 && Locked(s) && c in s.members && MemberInvariant(s, c)
    ensures var t := Step(s, Action.Trim); c in t.members && MemberInvariant(t, c)
  {
  }

  lemma MemberStep(s: State, a: Action, c: ConsumerId)
    requires s.maxSize >= 1 && Invariant(s) && c in Step(s, a).members
    ensures MemberInvariant(Step(s, a), c)
  {
    if a.Append? || a.NotifyOne? || a.Check? || a.Mark? || a.BeginNotify? || a.EndNotify? {
      if a.i < |s.producers| {
        MemberProducerStep(s, a, c);
      }
    } else if a.Trim? {
      MemberAfterTrim(s, c);
    } else if !a.Sweep? {
      MemberAfterConsumer(s, a, c);
    }
  }

  lemma MemberProducerStep(s: State, a: Action, c: ConsumerId)
    requires a.Append? || a.NotifyOne? || a.Check? || a.Mark? || a.BeginNotify? || a.EndNotify?
    requires s.maxSize >= 1 && Invariant(s) && a.i < |s.producers| && c in ProducerStep(s, a).members
    ensures MemberInvariant(ProducerStep(s, a), c)
  {
    assert c in s.members;
    if a.Append? {
      MemberAfterAppend(s, a.i, c);
    } else if a.NotifyOne? {
      MemberAfterNotify(s, a.i, a.c, c);
    } else {
      MemberAfterProducer(s, a, c);
    }
  }

  lemma SerialsStep(s: State, a: Action)
    requires s.maxSize >= 1 && SerialsAreIndices(s.accepted)
    ensures SerialsAreIndices(Step(s, a).accepted)
  {
  }

  lemma InvariantStep(s: State, a: Action)
    requires s.maxSize >= 1 && Invariant(s)
    ensures Invariant(Step(s, a))
  {
    LockedStep(s, a);
    SerialsStep(s, a);
    forall c | c in Step(s, a).members ensures MemberInvariant(Step(s, a), c) {
      MemberStep(s, a, c);
    }
  }

  lemma {:induction false} InvariantAlways(producers: nat, maxSize: nat, ttl: Time, actions: seq<Action>)
    requires maxSize >= 1
    ensures Invariant(Run(Start(producers, maxSize, ttl), actions))
  {
    if actions == [] {
    } else {
      var before := actions[..|actions| - 1];
      InvariantAlways(producers, maxSize, ttl, before);
      InvariantStep(Run(Start(producers, maxSize, ttl), before), actions[|actions| - 1]);
    }
  }

  // Main result -------------------------------------------------------------------

  lemma {:induction false} SliceCount(accepted: seq<Message>, lo: nat, hi: nat, x: nat)
    requires lo <= hi <= |accepted| && x < |accepted| && SerialsAreIndices(accepted)
    ensures multiset(accepted[lo..hi])[accepted[x]] == if lo <= x < hi then 1 else 0
  {
    if lo == hi {
    } else {
      SliceCount(accepted, lo, hi - 1, x);
      assert accepted[lo..hi] == accepted[lo..hi - 1] + [accepted[hi - 1]];
    }
  }

  function OfferCount(m: Member, x: Message): nat {
    multiset(m.box.offered)[x]
  }

  lemma CountFromInvariant(s: State, c: ConsumerId, x: nat)
    requires Invariant(s) && c in s.members && s.members[c].phase.Ready? && x < Notified(s, c)
    ensures var m := s.members[c];
      OfferCount(m, s.accepted[x]) == (if m.from <= x then 1 else 0) + (if m.oldest <= x < m.seen then 1 else 0)
  {
    assert MemberInvariant(s, c);
    var m := s.members[c];
    SliceCount(s.accepted, m.from, m.seen, x);
    SliceCount(s.accepted, m.oldest, m.seen, x);
    SliceCount(s.accepted, m.seen, Notified(s, c), x);
  }

  /** A consumer whose replay is over has been offered the message with serial `x` once
      for its notification, if that came after registration, and once more if the
      message was still queued at replay. Nothing at or after either point is missed,
      and nothing is offered three times. */
  lemma {:induction false} RegisterThenReplayHasNoGap(producers: nat, maxSize: nat, ttl: Time,
          actions: seq<Action>, c: ConsumerId, x: nat)
    requires maxSize >= 1
    requires var s := Run(Start(producers, maxSize, ttl), actions);
      c in s.members && s.members[c].phase.Ready? && x < Notified(s, c)
    ensures var s := Run(Start(producers, maxSize, ttl), actions);
      var m := s.members[c];
      && OfferCount(m, s.accepted[x]) == (if m.from <= x then 1 else 0) + (if m.oldest <= x < m.seen then 1 else 0)
      && (m.from <= x || m.oldest <= x ==> 1 <= OfferCount(m, s.accepted[x]) <= 2)
      && (OfferCount(m, s.accepted[x]) == 2 <==> m.from <= x && m.oldest <= x < m.seen)
  {
    InvariantAlways(producers, maxSize, ttl, actions);
    CountFromInvariant(Run(Start(producers, maxSize, ttl), actions), c, x);
  }

  // The same result in terms of the run ---------------------------------------------

  predicate Registers(a: Action, c: ConsumerId) {
    a.Register? && a.c == c
  }

  predicate Prefix(a: seq<Message>, b: seq<Message>) {
    |a| <= |b| && a == b[..|a|]
  }

  /** The consumer's points of registration and replay are fixed once passed. */
  predicate Continues(s: State, t: State, c: ConsumerId)
    requires c in s.members
  {
    && Prefix(s.accepted, t.accepted)
    && c in t.members && t.members[c].from == s.members[c].from
    && (!s.members[c].phase.Registered? ==>
          && !t.members[c].phase.Registered?
          && t.members[c].oldest == s.members[c].oldest && t.members[c].seen == s.members[c].seen)
  }

  lemma ContinuesStep(s: State, a: Action, c: ConsumerId)
    requires s.maxSize >= 1 && c in s.members && !Registers(a, c)
    ensures Continues(s, Step(s, a), c)
  {
  }

  lemma {:induction false} ContinuesRun(s: State, actions: seq<Action>, c: ConsumerId)
    requires s.maxSize >= 1 && c in s.members
    requires forall a | a in actions :: !Registers(a, c)
    ensures Continues(s, Run(s, actions), c)
  {
    if actions == [] {
    } else {
      var before := actions[..|actions| - 1];
      ContinuesRun(s, before, c);
      ContinuesStep(Run(s, before), actions[|actions| - 1], c);
    }
  }

  /** Messages whose notification loop has begun. */
  function LoopsBegun(s: State): int {
    if s.writer.Some? && !ConsumersLocked(s) then |s.accepted| - 1 else |s.accepted|
  }

  lemma QueuedIff(accepted: seq<Message>, later: seq<Message>, events: seq<Message>, x: nat)
    requires Prefix(accepted, later) && SerialsAreIndices(later) && x < |later|
    requires |events| <= |accepted| && events == accepted[|accepted| - |events|..]
    ensures later[x] in events <==> |accepted| - |events| <= x < |accepted|
  {
    var lo := |accepted| - |events|;
    forall i | 0 <= i < |events| ensures events[i] == later[lo + i] {}
    if lo <= x < |accepted| {
      assert events[x - lo] == later[x];
    }
  }

  /** A new consumer can register in `s1`, its replay can begin in `s2`, and in `s3` it is over
      and message `x` has passed the consumer's notification. */
  predicate RegisteredThenReplayed(s1: State, s2: State, s3: State, c: ConsumerId, x: nat) {
    && !ConsumersLocked(s1) && c !in s1.members
    && c in s2.members && s2.members[c].phase.Registered? && s2.writer.None?
    && c in s3.members && s3.members[c].phase.Ready? && x < Notified(s3, c)
  }

  /** Register, go on arbitrarily, replay, go on arbitrarily until the replay is over:
      every message is offered once if its notification loop began after registration,
      and once more if it was queued when the replay began. */
  lemma {:induction false} EveryMessageFromRegistrationOn(producers: nat, maxSize: nat, ttl: Time, c: ConsumerId,
          capacity: nat, before: seq<Action>, between: seq<Action>, after: seq<Action>, x: nat)
    requires maxSize >= 1
    requires forall a | a in between || a in after :: !Registers(a, c)
    ensures var s1 := Run(Start(producers, maxSize, ttl), before);
      var s2 := Run(Step(s1, Register(c, capacity)), between);
      var s3 := Run(Step(s2, BeginReplay(c)), after);
      RegisteredThenReplayed(s1, s2, s3, c, x) ==>
        OfferCount(s3.members[c], s3.accepted[x]) ==
          (if LoopsBegun(s1) <= x then 1 else 0) + (if s3.accepted[x] in s2.events then 1 else 0)
  {
    InvariantAlways(producers, maxSize, ttl, before);
    var s1 := Run(Start(producers, maxSize, ttl), before);
    var s2 := Run(Step(s1, Register(c, capacity)), between);
    var s3 := Run(Step(s2, BeginReplay(c)), after);
    if RegisteredThenReplayed(s1, s2, s3, c, x) {
      FromRegistration(s1, c, capacity, between, s2);
      FromReplay(s2, after, c, x);
    }
  }

  lemma Registration(s: State, c: ConsumerId, capacity: nat)
    requires s.maxSize >= 1 && Invariant(s) && !ConsumersLocked(s) && c !in s.members
    ensures var r := Step(s, Register(c, capacity));
      Invariant(r) && c in r.members && r.members[c].from == LoopsBegun(s)
  {
    InvariantStep(s, Register(c, capacity));
  }

  lemma {:induction false} FromRegistration(s: State, c: ConsumerId, capacity: nat, between: seq<Action>, t: State)
    requires s.maxSize >= 1 && Invariant(s) && !ConsumersLocked(s) && c !in s.members
    requires forall a | a in between :: !Registers(a, c)
    requires t == Run(Step(s, Register(c, capacity)), between)
    ensures Invariant(t) && c in t.members && t.members[c].from == LoopsBegun(s)
  {
    var r := Step(s, Register(c, capacity));
    Registration(s, c, capacity);
    InvariantRun(r, between);
    ContinuesRun(r, between, c);
  }

  lemma {:induction false} FromReplay(s: State, after: seq<Action>, c: ConsumerId, x: nat)
    requires s.maxSize >= 1 && Invariant(s) && forall a | a in after :: !Registers(a, c)
    requires c in s.members && s.members[c].phase.Registered? && s.writer.None?
    ensures var t := Run(Step(s, BeginReplay(c)), after);
      c in t.members && t.members[c].phase.Ready? && x < Notified(t, c) ==>
        OfferCount(t.members[c], t.accepted[x]) ==
          (if s.members[c].from <= x then 1 else 0) + (if t.accepted[x] in s.events then 1 else 0)
  {
    InvariantStep(s, BeginReplay(c));
    ReplayPoints(s, c);
    FromReplayBegun(s, Step(s, BeginReplay(c)), after, c, x);
  }

  predicate ReplayBegun(s: State, b: State, c: ConsumerId) {
    && b.accepted == s.accepted && c in s.members && c in b.members && b.members[c].phase.Replaying?
    && b.members[c].from == s.members[c].from
    && b.members[c].oldest == |s.accepted| - |s.events| && b.members[c].seen == |s.accepted|
  }

  lemma ReplayPoints(s: State, c: ConsumerId)
    requires s.maxSize >= 1 && Invariant(s) && c in s.members && s.members[c].phase.Registered? && s.writer.None?
    ensures ReplayBegun(s, Step(s, BeginReplay(c)), c)
  {
    assert Step(s, BeginReplay(c)) == ConsumerStep(s, BeginReplay(c));
  }

  lemma {:induction false} FromReplayBegun(s: State, b: State, after: seq<Action>, c: ConsumerId, x: nat)
    requires b.maxSize >= 1 && Locked(s) && Invariant(b) && ReplayBegun(s, b, c)
    requires forall a | a in after :: !Registers(a, c)
    ensures var t := Run(b, after);
      c in t.members && t.members[c].phase.Ready? && x < Notified(t, c) ==>
        OfferCount(t.members[c], t.accepted[x]) ==
          (if s.members[c].from <= x then 1 else 0) + (if t.accepted[x] in s.events then 1 else 0)
  {
    var t := Run(b, after);
    InvariantRun(b, after);
    ContinuesRun(b, after, c);
    if c in t.members && t.members[c].phase.Ready? && x < Notified(t, c) {
      CountLater(s, b, t, c, x);
    }
  }

  lemma CountLater(s: State, b: State, t: State, c: ConsumerId, x: nat)
    requires Locked(s) && Invariant(t) && ReplayBegun(s, b, c)
    requires Continues(b, t, c) && t.members[c].phase.Ready? && x < Notified(t, c)
    ensures OfferCount(t.members[c], t.accepted[x]) ==
      (if s.members[c].from <= x then 1 else 0) + (if t.accepted[x] in s.events then 1 else 0)
  {
    QueuedIff(s.accepted, t.accepted, s.events, x);
    CountFromInvariant(t, c, x);
  }

  lemma {:induction false} InvariantRun(s: State, actions: seq<Action>)
    requires s.maxSize >= 1 && Invariant(s)
    ensures Invariant(Run(s, actions))
  {
    if actions == [] {
    } else {
      InvariantRun(s, actions[..|actions| - 1]);
      InvariantStep(Run(s, actions[..|actions| - 1]), actions[|actions| - 1]);
    }
  }
}
