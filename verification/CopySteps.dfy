/** How often one consumer is offered copies of one event while the event's ID stays in the
    dedupe cache, in every run of the queue's step model. */
module CopySteps {
  import opened Nostr
  import opened Queue
  import opened QueueSteps
  import opened DedupeSteps
  import R = ReplaySteps

  /** An epoch of an ID ends only with a sweep that comes more than the TTL after its last
      insertion. */
  lemma EpochOutlivesTtl(s: State, a: Action, id: EventId)
    requires s.maxSize >= 1 && EpochOf(Step(s, a), id) != EpochOf(s, id)
    ensures a.Sweep? && id in s.cache && a.now - s.cache[id] > s.ttl
  {
    if !a.Sweep? {
      EpochsKept(s, a);
    }
  }

  lemma EpochsKept(s: State, a: Action)
    requires s.maxSize >= 1 && !a.Sweep?
    ensures Step(s, a).epochs == s.epochs
  {
  }

  /** An event ID and the cache epoch in which a producer inserted it. */
  type Origin = (EventId, nat)

  predicate IsCopy(m: Message, origins: seq<Origin>, o: Origin) {
    m.serial < |origins| && origins[m.serial] == o
  }

  /** How many of these messages are copies with this origin. */
  function CopiesIn(ms: seq<Message>, origins: seq<Origin>, o: Origin): nat {
    if ms == [] then 0
    else CopiesIn(ms[..|ms| - 1], origins, o) + if IsCopy(ms[|ms| - 1], origins, o) then 1 else 0
  }

  lemma {:induction false} CopiesConcat(a: seq<Message>, b: seq<Message>, origins: seq<Origin>, o: Origin)
    ensures CopiesIn(a + b, origins, o) == CopiesIn(a, origins, o) + CopiesIn(b, origins, o)
  {
    if b == [] {
      assert a + b == a;
    } else {
      assert (a + b)[..|a + b| - 1] == a + b[..|b| - 1];
      CopiesConcat(a, b[..|b| - 1], origins, o);
    }
  }

  lemma {:induction false} CopiesAccepted(accepted: seq<Message>, n: nat, origins: seq<Origin>, o: Origin)
    requires R.SerialsAreIndices(accepted) && n <= |accepted| == |origins|
    ensures CopiesIn(accepted[..n], origins, o) == multiset(origins[..n])[o]
  {
    if n == 0 {
    } else {
      CopiesAccepted(accepted, n - 1, origins, o);
      assert accepted[..n][..n - 1] == accepted[..n - 1];
      assert origins[..n] == origins[..n - 1] + [origins[n - 1]];
    }
  }

  lemma {:induction false} CopiesBetween(accepted: seq<Message>, lo: nat, hi: nat, origins: seq<Origin>, o: Origin)
    requires R.SerialsAreIndices(accepted) && lo <= hi <= |accepted| == |origins|
    ensures CopiesIn(accepted[lo..hi], origins, o) <= multiset(origins)[o]
  {
    CopiesAccepted(accepted, hi, origins, o);
    CopiesConcat(accepted[..lo], accepted[lo..hi], origins, o);
    assert accepted[..hi] == accepted[..lo] + accepted[lo..hi];
    assert origins == origins[..hi] + origins[hi..];
  }

  /** No message before serial `n` has this origin. */
  predicate NoCopyBefore(origins: seq<Origin>, n: nat, o: Origin) {
    n <= |origins| && forall x | 0 <= x < n :: origins[x] != o
  }

  lemma {:induction false} NoCopiesBetween(accepted: seq<Message>, lo: nat, hi: nat, origins: seq<Origin>, o: Origin)
    requires R.SerialsAreIndices(accepted) && lo <= hi <= |accepted| && NoCopyBefore(origins, hi, o)
    ensures CopiesIn(accepted[lo..hi], origins, o) == 0
  {
    if lo == hi {
    } else {
      assert accepted[lo..hi][..hi - lo - 1] == accepted[lo..hi - 1];
      NoCopiesBetween(accepted, lo, hi - 1, origins, o);
    }
  }

  // Every reachable state --------------------------------------------------------------------------

  ghost predicate Counted(s: State, o: Origin) {
    R.Invariant(s) && Deduped(s, o.0, o.1) && |s.origins| == |s.accepted|
  }

  lemma OriginsStep(s: State, a: Action)
    requires s.maxSize >= 1 && |s.origins| == |s.accepted|
    ensures var t := Step(s, a);
      |t.origins| == |t.accepted| && |s.origins| <= |t.origins| && t.origins[..|s.origins|] == s.origins
  {
  }

  lemma CountedStep(s: State, a: Action, o: Origin)
    requires s.maxSize >= 1 && Counted(s, o)
    ensures Counted(Step(s, a), o) && |Step(s, a).producers| == |s.producers|
  {
    R.InvariantStep(s, a);
    DedupedStep(s, a, o.0, o.1);
    OriginsStep(s, a);
    ProducersKept(s, a);
  }

  lemma {:induction false} CountedRun(s: State, actions: seq<Action>, o: Origin)
    requires s.maxSize >= 1 && Counted(s, o)
    ensures Counted(Run(s, actions), o) && |Run(s, actions).producers| == |s.producers|
  {
    if actions == [] {
    } else {
      CountedRun(s, actions[..|actions| - 1], o);
      CountedStep(Run(s, actions[..|actions| - 1]), actions[|actions| - 1], o);
    }
  }

  lemma StartCounted(producers: nat, maxSize: nat, ttl: Time, o: Origin)
    requires maxSize >= 1
    ensures Counted(Start(producers, maxSize, ttl), o) && |Start(producers, maxSize, ttl).producers| == producers
  {
    R.InvariantAlways(producers, maxSize, ttl, []);
    StartDeduped(producers, maxSize, ttl, o.0, o.1);
  }

  function OfferedCopies(s: State, c: ConsumerId, o: Origin): nat
    requires c in s.members
  {
    CopiesIn(s.members[c].box.offered, s.origins, o)
  }

  /** One origin is queued at most once per producer. */
  predicate FewCopies(s: State, o: Origin) {
    |s.origins| == |s.accepted| && R.SerialsAreIndices(s.accepted) && Copies(s, o.0, o.1) <= |s.producers|
  }

  lemma {:induction false} CopiesWithinProducers(s: State, lo: nat, hi: nat, o: Origin)
    requires FewCopies(s, o) && lo <= hi <= |s.accepted|
    ensures CopiesIn(s.accepted[lo..hi], s.origins, o) <= |s.producers|
  {
    CopiesBetween(s.accepted, lo, hi, s.origins, o);
    assert Copies(s, o.0, o.1) <= |s.producers|;
  }

  /** The offers of a consumer whose replay is over, copy by copy. */
  lemma {:induction false} ReadyOffers(m: Member, accepted: seq<Message>, events: seq<Message>, upTo: int,
          origins: seq<Origin>, o: Origin)
    requires R.OfferedExactly(m, accepted, events, upTo) && m.phase.Ready?
    ensures CopiesIn(m.box.offered, origins, o) ==
      CopiesIn(accepted[m.from..upTo], origins, o) + CopiesIn(accepted[m.oldest..m.seen], origins, o)
  {
    var notified, replayed, after := accepted[m.from..m.seen], accepted[m.oldest..m.seen], accepted[m.seen..upTo];
    CopiesConcat(notified + replayed, after, origins, o);
    CopiesConcat(notified, replayed, origins, o);
    CopiesConcat(notified, after, origins, o);
    assert accepted[m.from..upTo] == notified + after;
  }

  lemma {:induction false} OfferedWhenReady(s: State, c: ConsumerId, o: Origin)
    requires c in s.members && s.members[c].phase.Ready?
    requires R.OfferedExactly(s.members[c], s.accepted, s.events, R.Notified(s, c))
    ensures var m, upTo := s.members[c], R.Notified(s, c);
      && m.from <= m.seen <= upTo <= |s.accepted| && m.oldest <= m.seen
      && OfferedCopies(s, c, o) ==
         CopiesIn(s.accepted[m.from..upTo], s.origins, o) + CopiesIn(s.accepted[m.oldest..m.seen], s.origins, o)
  {
    ReadyOffers(s.members[c], s.accepted, s.events, R.Notified(s, c), s.origins, o);
  }

  lemma {:induction false} ReplayingOffers(m: Member, accepted: seq<Message>, events: seq<Message>, upTo: int,
          origins: seq<Origin>, o: Origin)
    requires R.OfferedExactly(m, accepted, events, upTo) && m.phase.Replaying?
    requires R.SerialsAreIndices(accepted) && |accepted| == |origins|
    ensures CopiesIn(m.box.offered, origins, o) <= 2 * multiset(origins)[o]
  {
    var replayed := accepted[m.oldest..m.oldest + m.phase.done];
    CopiesConcat(accepted[m.from..], replayed, origins, o);
    assert accepted[m.from..|accepted|] == accepted[m.from..];
    CopiesBetween(accepted, m.from, |accepted|, origins, o);
    CopiesBetween(accepted, m.oldest, m.oldest + m.phase.done, origins, o);
  }

  lemma OfferedBeforeReady(s: State, c: ConsumerId, o: Origin)
    requires FewCopies(s, o) && c in s.members && !s.members[c].phase.Ready?
    requires R.OfferedExactly(s.members[c], s.accepted, s.events, R.Notified(s, c))
    ensures OfferedCopies(s, c, o) <= 2 * |s.producers|
  {
    if s.members[c].phase.Registered? {
      CopiesBetween(s.accepted, s.members[c].from, R.Notified(s, c), s.origins, o);
    } else {
      ReplayingOffers(s.members[c], s.accepted, s.events, R.Notified(s, c), s.origins, o);
    }
  }

  lemma OfferedTwicePerProducer(s: State, c: ConsumerId, o: Origin)
    requires FewCopies(s, o) && c in s.members
    requires R.OfferedExactly(s.members[c], s.accepted, s.events, R.Notified(s, c))
    ensures OfferedCopies(s, c, o) <= 2 * |s.producers|
  {
    if s.members[c].phase.Ready? {
      var m := s.members[c];
      OfferedWhenReady(s, c, o);
      CopiesWithinProducers(s, m.from, R.Notified(s, c), o);
      CopiesWithinProducers(s, m.oldest, m.seen, o);
    } else {
      OfferedBeforeReady(s, c, o);
    }
  }

  /** The consumer's replay was over before the first copy was queued. */
  predicate ReadyBefore(s: State, c: ConsumerId, o: Origin) {
    c in s.members && s.members[c].phase.Ready? && NoCopyBefore(s.origins, s.members[c].seen, o)
  }

  lemma OfferedOncePerProducer(s: State, c: ConsumerId, o: Origin)
    requires FewCopies(s, o) && ReadyBefore(s, c, o)
    requires R.OfferedExactly(s.members[c], s.accepted, s.events, R.Notified(s, c))
    ensures OfferedCopies(s, c, o) <= |s.producers|
  {
    var m := s.members[c];
    OfferedWhenReady(s, c, o);
    CopiesWithinProducers(s, m.from, R.Notified(s, c), o);
    NoCopiesBetween(s.accepted, m.oldest, m.seen, s.origins, o);
  }

  lemma ReadyStays(s: State, a: Action, c: ConsumerId)
    requires s.maxSize >= 1 && c in s.members && s.members[c].phase.Ready? && !R.Registers(a, c)
    ensures var t := Step(s, a); c in t.members && t.members[c].phase.Ready? && t.members[c].seen == s.members[c].seen
  {
  }

  lemma ReadyBeforeStep(s: State, a: Action, c: ConsumerId, o: Origin)
    requires s.maxSize >= 1 && |s.origins| == |s.accepted| && ReadyBefore(s, c, o) && !R.Registers(a, c)
    ensures ReadyBefore(Step(s, a), c, o)
  {
    ReadyStays(s, a, c);
    OriginsStep(s, a);
    var t := Step(s, a);
    forall x | 0 <= x < t.members[c].seen ensures t.origins[x] != o {
      assert t.origins[x] == t.origins[..|s.origins|][x] == s.origins[x];
    }
  }

  /** A consumer that is ready while the epoch has no insertion yet is ready before its copies. */
  lemma ReadyBeforeEpoch(s: State, c: ConsumerId, o: Origin)
    requires c in s.members && s.members[c].phase.Ready? && s.members[c].seen <= |s.origins|
    requires Copies(s, o.0, o.1) == 0
    ensures ReadyBefore(s, c, o)
  {
    assert o !in multiset(s.origins);
    forall x | 0 <= x < s.members[c].seen ensures s.origins[x] != o {
      assert s.origins[x] in s.origins;
    }
  }

  // Main results -----------------------------------------------------------------------------------

  /** However producers, registration, replay and sweeps interleave: while an ID stays in the
      cache, N producers get a consumer offered at most 2N copies of it. */
  lemma {:induction false} OffersPerEpochBounded(producers: nat, maxSize: nat, ttl: Time, actions: seq<Action>,
          c: ConsumerId, o: Origin)
    requires maxSize >= 1 && c in Run(Start(producers, maxSize, ttl), actions).members
    ensures OfferedCopies(Run(Start(producers, maxSize, ttl), actions), c, o) <= 2 * producers
  {
    StartCounted(producers, maxSize, ttl, o);
    CountedRun(Start(producers, maxSize, ttl), actions, o);
    assert R.MemberInvariant(Run(Start(producers, maxSize, ttl), actions), c);
    OfferedTwicePerProducer(Run(Start(producers, maxSize, ttl), actions), c, o);
  }

  /** And at most N if its replay was over before the ID entered the cache. */
  lemma {:induction false} OffersToReadyBounded(producers: nat, maxSize: nat, ttl: Time, before: seq<Action>,
          after: seq<Action>, c: ConsumerId, o: Origin)
    requires maxSize >= 1 && forall a | a in after :: !R.Registers(a, c)
    requires var s := Run(Start(producers, maxSize, ttl), before);
      c in s.members && s.members[c].phase.Ready? && Inserts(s, o.0, o.1) == 0
    ensures var t := Run(Run(Start(producers, maxSize, ttl), before), after);
      c in t.members && OfferedCopies(t, c, o) <= producers
  {
    var s := Run(Start(producers, maxSize, ttl), before);
    StartCounted(producers, maxSize, ttl, o);
    CountedRun(Start(producers, maxSize, ttl), before, o);
    CountedRun(s, after, o);
    assert R.MemberInvariant(s, c);
    ReadyBeforeEpoch(s, c, o);
    ReadyBeforeRun(s, after, c, o);
    assert R.MemberInvariant(Run(s, after), c);
    OfferedOncePerProducer(Run(s, after), c, o);
  }

  lemma {:induction false} ReadyBeforeRun(s: State, actions: seq<Action>, c: ConsumerId, o: Origin)
    requires s.maxSize >= 1 && |s.origins| == |s.accepted| && ReadyBefore(s, c, o)
    requires forall a | a in actions :: !R.Registers(a, c)
    ensures |Run(s, actions).origins| == |Run(s, actions).accepted| && ReadyBefore(Run(s, actions), c, o)
  {
    if actions == [] {
    } else {
      var before := actions[..|actions| - 1];
      ReadyBeforeRun(s, before, c, o);
      OriginsStep(Run(s, before), actions[|actions| - 1]);
      ReadyBeforeStep(Run(s, before), actions[|actions| - 1], c, o);
    }
  }
}
