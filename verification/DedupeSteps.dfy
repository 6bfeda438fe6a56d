/** How many copies of one event concurrent producers can get past the deduplication
    check, in every run of the step model. */
module DedupeSteps {
  import opened Nostr
  import opened QueueSteps

  // Deduplication -----------------------------------------------------------------

  datatype Role = Other | Checks(id: EventId) | Holds(id: EventId, epoch: nat)

  function RoleOf(p: Producer): Role {
    match p
    case Checked(e) => Checks(e.id)
    case Marked(e, epoch) => Holds(e.id, epoch)
    case _ => Other
  }

  /** How many producers are in a role. */
  function Count(ps: seq<Producer>, r: Role): (n: nat)
    ensures n <= |ps|
  {
    if ps == [] then 0
    else Count(ps[..|ps| - 1], r) + if RoleOf(ps[|ps| - 1]) == r then 1 else 0
  }

  lemma {:induction false} CountUpdate(ps: seq<Producer>, i: nat, p: Producer, r: Role)
    requires i < |ps|
    ensures Count(ps[i := p], r) + (if RoleOf(ps[i]) == r then 1 else 0)
         == Count(ps, r) + (if RoleOf(p) == r then 1 else 0)
  {
    var n := |ps| - 1;
    if i == n {
      assert ps[i := p][..n] == ps[..n];
    } else {
      assert ps[i := p][..n] == ps[..n][i := p];
      CountUpdate(ps[..n], i, p, r);
    }
  }

  function Inserts(s: State, id: EventId, epoch: nat): nat {
    multiset(s.marks)[(id, epoch)]
  }

  function Copies(s: State, id: EventId, epoch: nat): nat {
    multiset(s.origins)[(id, epoch)]
  }

  /** Insertions of one ID in one epoch, together with the producers that may still
      insert it in that epoch, never exceed the number of producers; every insertion
      has led to one queued copy or to one producer about to queue it. */
  predicate Deduped(s: State, id: EventId, epoch: nat) {
    && Inserts(s, id, epoch) <= |s.producers|
    && (epoch == EpochOf(s, id) && id in s.cache ==>
          1 <= Inserts(s, id, epoch) <= |s.producers| - Count(s.producers, Checks(id)))
    && (epoch == EpochOf(s, id) && id !in s.cache ==> Inserts(s, id, epoch) == 0)
    && (epoch > EpochOf(s, id) ==> Inserts(s, id, epoch) == 0)
    && Copies(s, id, epoch) + Count(s.producers, Holds(id, epoch)) == Inserts(s, id, epoch)
  }

  /** Deduplication depends on these counts and fields only. */
  predicate DedupedCounts(producers: nat, inserts: nat, copies: nat, checks: nat, holds: nat,
                          inCache: bool, current: nat, epoch: nat) {
    && inserts <= producers
    && (epoch == current && inCache ==> 1 <= inserts && inserts + checks <= producers)
    && (epoch == current && !inCache ==> inserts == 0)
    && (epoch > current ==> inserts == 0)
    && copies + holds == inserts
  }

  lemma DedupedIsCounts(s: State, id: EventId, epoch: nat)
    ensures Deduped(s, id, epoch) <==>
      DedupedCounts(|s.producers|, Inserts(s, id, epoch), Copies(s, id, epoch), Count(s.producers, Checks(id)),
                    Count(s.producers, Holds(id, epoch)), id in s.cache, EpochOf(s, id), epoch)
  {
  }

  lemma CountsAfter(s: State, a: Action, id: EventId, epoch: nat)
    requires a.Check? || a.Mark? || a.Append? || a.BeginNotify? || a.NotifyOne? || a.EndNotify?
    requires s.maxSize >= 1 && a.i < |s.producers|
    ensures var t := ProducerStep(s, a);
      var p, q := s.producers[a.i], t.producers[a.i];
      && |t.producers| == |s.producers|
      && Count(t.producers, Checks(id)) + (if RoleOf(p) == Checks(id) then 1 else 0)
         == Count(s.producers, Checks(id)) + (if RoleOf(q) == Checks(id) then 1 else 0)
      && Count(t.producers, Holds(id, epoch)) + (if RoleOf(p) == Holds(id, epoch) then 1 else 0)
         == Count(s.producers, Holds(id, epoch)) + (if RoleOf(q) == Holds(id, epoch) then 1 else 0)
  {
    var t := ProducerStep(s, a);
    assert t.producers == s.producers[a.i := t.producers[a.i]];
    CountUpdate(s.producers, a.i, t.producers[a.i], Checks(id));
    CountUpdate(s.producers, a.i, t.producers[a.i], Holds(id, epoch));
  }

  lemma DedupedCheck(s: State, i: nat, e: Event, id: EventId, epoch: nat)
    requires s.maxSize >= 1 && i < |s.producers| && Deduped(s, id, epoch)
    ensures Deduped(ProducerStep(s, Check(i, e)), id, epoch)
  {
    CountsAfter(s, Check(i, e), id, epoch);
    DedupedIsCounts(s, id, epoch);
    DedupedIsCounts(ProducerStep(s, Check(i, e)), id, epoch);
  }

  lemma DedupedAppend(s: State, i: nat, id: EventId, epoch: nat)
    requires s.maxSize >= 1 && i < |s.producers| && Deduped(s, id, epoch)
    ensures Deduped(ProducerStep(s, Append(i)), id, epoch)
  {
    var t := ProducerStep(s, Append(i));
    if t != s {
      CountsAfter(s, Append(i), id, epoch);
      var p := s.producers[i];
      assert Copies(t, id, epoch) == Copies(s, id, epoch) + if (p.event.id, p.epoch) == (id, epoch) then 1 else 0;
    }
  }

  lemma DedupedMark(s: State, i: nat, now: Time, id: EventId, epoch: nat)
    requires s.maxSize >= 1 && i < |s.producers| && Deduped(s, id, epoch)
    ensures Deduped(ProducerStep(s, Mark(i, now)), id, epoch)
  {
    if s.producers[i].Checked? {
      var t := ProducerStep(s, Mark(i, now));
      var e := s.producers[i].event;
      CountsAfter(s, Mark(i, now), id, epoch);
      assert Inserts(t, id, epoch) == Inserts(s, id, epoch) + if (e.id, EpochOf(s, e.id)) == (id, epoch) then 1 else 0;
    }
  }

  lemma DedupedNotify(s: State, a: Action, id: EventId, epoch: nat)
    requires s.maxSize >= 1 && (a.BeginNotify? || a.NotifyOne? || a.EndNotify?) && a.i < |s.producers|
    requires Deduped(s, id, epoch)
    ensures Deduped(ProducerStep(s, a), id, epoch)
  {
    var t := ProducerStep(s, a);
    CountsAfter(s, a, id, epoch);
    assert t != s ==> RoleOf(s.producers[a.i]) == Other && RoleOf(t.producers[a.i]) == Other;
    assert t.cache == s.cache && t.epochs == s.epochs && t.marks == s.marks && t.origins == s.origins;
    DedupedIsCounts(s, id, epoch);
    DedupedIsCounts(t, id, epoch);
  }

  lemma DedupedSweep(s: State, now: Time, id: EventId, epoch: nat)
    requires Deduped(s, id, epoch)
    ensures Deduped(SweepStep(s, now), id, epoch)
  {
  }

  lemma DedupedStep(s: State, a: Action, id: EventId, epoch: nat)
    requires s.maxSize >= 1
    requires Deduped(s, id, epoch)
    ensures Deduped(Step(s, a), id, epoch)
  {
    if a.Sweep? {
      DedupedSweep(s, a.now, id, epoch);
    } else if a.Check? && a.i < |s.producers| {
      DedupedCheck(s, a.i, a.event, id, epoch);
    } else if a.Append? && a.i < |s.producers| {
      DedupedAppend(s, a.i, id, epoch);
    } else if a.Mark? && a.i < |s.producers| {
      DedupedMark(s, a.i, a.now, id, epoch);
    } else if (a.BeginNotify? || a.NotifyOne? || a.EndNotify?) && a.i < |s.producers| {
      DedupedNotify(s, a, id, epoch);
    }
  }

  lemma {:induction false} DedupedAlways(producers: nat, maxSize: nat, ttl: Time, actions: seq<Action>,
          id: EventId, epoch: nat)
    requires maxSize >= 1
    ensures var s := Run(Start(producers, maxSize, ttl), actions);
      Deduped(s, id, epoch) && |s.producers| == producers
  {
    if actions == [] {
      StartDeduped(producers, maxSize, ttl, id, epoch);
    } else {
      var before := actions[..|actions| - 1];
      DedupedAlways(producers, maxSize, ttl, before, id, epoch);
      DedupedStep(Run(Start(producers, maxSize, ttl), before), actions[|actions| - 1], id, epoch);
      ProducersKept(Run(Start(producers, maxSize, ttl), before), actions[|actions| - 1]);
    }
  }

  lemma ProducersKept(s: State, a: Action)
    requires s.maxSize >= 1
    ensures |Step(s, a).producers| == |s.producers|
  {
  }

  lemma StartDeduped(producers: nat, maxSize: nat, ttl: Time, id: EventId, epoch: nat)
    ensures Deduped(Start(producers, maxSize, ttl), id, epoch)
  {
    NoneCounted(producers, Holds(id, epoch));
  }

  lemma {:induction false} NoneCounted(n: nat, r: Role)
    requires r != Other
    ensures Count(seq(n, i => Idle), r) == 0
  {
    if n == 0 {
    } else {
      assert seq(n, i => Idle)[..n - 1] == seq(n - 1, i => Idle);
      NoneCounted(n - 1, r);
    }
  }

  // Main results ------------------------------------------------------------------

  /** While an ID stays in the cache, N producers insert it at most N times and queue at
      most N copies; a single producer inserts it exactly once. */
  lemma {:induction false} InsertsBoundedByProducers(producers: nat, maxSize: nat, ttl: Time, actions: seq<Action>,
          id: EventId, epoch: nat)
    requires maxSize >= 1
    ensures var s := Run(Start(producers, maxSize, ttl), actions);
      && Copies(s, id, epoch) <= Inserts(s, id, epoch) <= producers
      && (producers == 1 && id in s.cache ==> Inserts(s, id, EpochOf(s, id)) == 1)
  {
    DedupedAlways(producers, maxSize, ttl, actions, id, epoch);
    var s := Run(Start(producers, maxSize, ttl), actions);
    DedupedAlways(producers, maxSize, ttl, actions, id, EpochOf(s, id));
  }

  /** All producers check, then all insert. */
  function CheckAll(n: nat, e: Event): seq<Action> {
    if n == 0 then [] else CheckAll(n - 1, e) + [Check(n - 1, e)]
  }

  function MarkAll(producers: nat, n: nat, e: Event): seq<Action> {
    if n == 0 then CheckAll(producers, e) else MarkAll(producers, n - 1, e) + [Mark(n - 1, 0)]
  }

  /** The first `n` producers have checked the event, the others are idle. */
  predicate CheckedUpTo(s: State, producers: nat, n: nat, e: Event) {
    && s.maxSize >= 1 && s.cache == map[] && s.epochs == map[] && s.marks == [] && |s.producers| == producers
    && forall i | 0 <= i < producers :: s.producers[i] == if i < n then Checked(e) else Idle
  }

  lemma CheckOne(s: State, producers: nat, n: nat, e: Event)
    requires n < producers && CheckedUpTo(s, producers, n, e)
    ensures CheckedUpTo(Step(s, Check(n, e)), producers, n + 1, e)
  {
  }

  lemma {:induction false} AllChecked(producers: nat, maxSize: nat, ttl: Time, n: nat, e: Event)
    requires maxSize >= 1 && n <= producers
    ensures CheckedUpTo(Run(Start(producers, maxSize, ttl), CheckAll(n, e)), producers, n, e)
  {
    if n == 0 {
    } else {
      AllChecked(producers, maxSize, ttl, n - 1, e);
      CheckOne(Run(Start(producers, maxSize, ttl), CheckAll(n - 1, e)), producers, n - 1, e);
      RunMore(Start(producers, maxSize, ttl), CheckAll(n - 1, e), Check(n - 1, e));
    }
  }

  lemma {:induction false} RunMore(s: State, actions: seq<Action>, a: Action)
    requires s.maxSize >= 1
    ensures Run(s, actions + [a]) == Step(Run(s, actions), a)
  {
    assert (actions + [a])[..|actions|] == actions;
  }

  /** The first `n` producers have inserted the event's ID, the others are about to. */
  predicate MarkedUpTo(s: State, producers: nat, n: nat, e: Event) {
    && s.maxSize >= 1 && s.epochs == map[] && Inserts(s, e.id, 0) == n && |s.producers| == producers
    && forall i | n <= i < producers :: s.producers[i] == Checked(e)
  }

  lemma MarkOne(s: State, producers: nat, n: nat, e: Event)
    requires n < producers && MarkedUpTo(s, producers, n, e)
    ensures MarkedUpTo(Step(s, Mark(n, 0)), producers, n + 1, e)
  {
  }

  lemma {:induction false} AllMarked(producers: nat, maxSize: nat, ttl: Time, n: nat, e: Event)
    requires maxSize >= 1 && n <= producers
    ensures MarkedUpTo(Run(Start(producers, maxSize, ttl), MarkAll(producers, n, e)), producers, n, e)
  {
    if n == 0 {
      AllChecked(producers, maxSize, ttl, producers, e);
    } else {
      AllMarked(producers, maxSize, ttl, n - 1, e);
      MarkOne(Run(Start(producers, maxSize, ttl), MarkAll(producers, n - 1, e)), producers, n - 1, e);
      RunMore(Start(producers, maxSize, ttl), MarkAll(producers, n - 1, e), Mark(n - 1, 0));
    }
  }

  /** The bound is exact: some run of N producers inserts an ID N times in one epoch. */
  lemma BoundIsReached(producers: nat, maxSize: nat, ttl: Time, e: Event)
    requires maxSize >= 1
    ensures exists actions :: Inserts(Run(Start(producers, maxSize, ttl), actions), e.id, 0) == producers
  {
    AllMarked(producers, maxSize, ttl, producers, e);
  }
}
