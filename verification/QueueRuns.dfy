/** Properties of every run of atomic queue operations. */
module QueueRuns {
  import opened Nostr
  import opened Queue

  datatype Op =
    | Add(now: Time, event: Event)
    | Create(now: Time, c: ConsumerId, capacity: nat)
    | Remove(now: Time, c: ConsumerId)
    | Read(now: Time, c: ConsumerId, count: nat, ready: nat)
    | Trim(now: Time)
    | Sweep(now: Time)

  function Step(s: QueueState, op: Op): (t: QueueState)
    requires s.maxSize >= 1
    ensures t.maxSize == s.maxSize && t.ttl == s.ttl
  {
    match op
    case Add(now, event) => EventAdded(s, event, now)
    case Create(_, c, capacity) => ConsumerCreated(s, c, capacity)
    case Remove(_, c) => ConsumerRemoved(s, c)
    case Read(_, c, count, ready) => EventsRead(s, c, count, ready)
    case Trim(_) => s.(events := Trimmed(s.events))
    case Sweep(now) => s.(cache := Swept(s.cache, now, s.ttl))
  }

  function Run(s: QueueState, ops: seq<Op>): (t: QueueState)
    requires s.maxSize >= 1
    ensures t.maxSize == s.maxSize && t.ttl == s.ttl
  {
    if ops == [] then s else Step(Run(s, ops[..|ops| - 1]), ops[|ops| - 1])
  }

  // Retained events ---------------------------------------------------------------

  predicate Retained(s: QueueState) {
    && |s.events| <= |s.accepted|
    && s.events == s.accepted[|s.accepted| - |s.events|..]
    && Min(|s.accepted|, Min(s.maxSize, TRIM_KEEP)) <= |s.events| <= Min(|s.accepted|, s.maxSize)
    && forall i | 0 <= i < |s.accepted| :: s.accepted[i].serial == i
  }

  /** After any run the queue holds the newest part of the acceptance history: at most
      maxSize messages, and at least as many as neither eviction nor trimming removes. */
  lemma {:induction false} EventsAreNewestAccepted(maxSize: nat, ttl: Time, ops: seq<Op>)
    requires maxSize >= 1
    ensures Retained(Run(NewQueue(maxSize, ttl), ops))
  {
    if ops == [] {
    } else {
      EventsAreNewestAccepted(maxSize, ttl, ops[..|ops| - 1]);
      RetainedStep(Run(NewQueue(maxSize, ttl), ops[..|ops| - 1]), ops[|ops| - 1]);
    }
  }

  /** Right after a trim the queue is the newest thousand messages accepted, or all it held. */
  lemma {:induction false} TrimKeepsNewest(maxSize: nat, ttl: Time, ops: seq<Op>, now: Time)
    requires maxSize >= 1
    ensures var s := Run(NewQueue(maxSize, ttl), ops);
      var t := Step(s, Op.Trim(now));
      && |t.events| == Min(|s.events|, 1000) && |t.events| <= |s.accepted|
      && t.events == s.events[|s.events| - |t.events|..] == s.accepted[|s.accepted| - |t.events|..]
  {
    EventsAreNewestAccepted(maxSize, ttl, ops);
  }

  lemma RetainedStep(s: QueueState, op: Op)
    requires s.maxSize >= 1 && Retained(s)
    ensures Retained(Step(s, op))
  {
    if op.Add? && op.event.id !in s.cache {
      RetainedEnqueue(s.(cache := s.cache[op.event.id := op.now]), op.event);
    }
  }

  lemma RetainedEnqueue(s: QueueState, e: Event)
    requires s.maxSize >= 1 && Retained(s)
    ensures Retained(Enqueued(s, e))
  {
    var t := Enqueued(s, e);
    var m := Message(e, |s.accepted|);
    var kept := if |s.events| >= s.maxSize then s.events[1..] else s.events;
    assert kept == s.accepted[|s.accepted| - |kept|..];
    assert t.events == kept + [m];
    assert t.accepted[|t.accepted| - |t.events|..] == s.accepted[|s.accepted| - |kept|..] + [m];
  }

  /** `t` is `b` after it was offered `ms` while empty. */
  predicate TookPrefix(b: Mailbox, t: Mailbox, ms: seq<Message>) {
    && t.buffer == ms[..Min(b.capacity, |ms|)] && t.dropped == b.dropped + ms[Min(b.capacity, |ms|)..]
    && t.offered == b.offered + ms && t.read == b.read && t.capacity == b.capacity
  }

  lemma TookPrefixMore(b: Mailbox, t: Mailbox, ms: seq<Message>, m: Message)
    requires TookPrefix(b, t, ms)
    ensures TookPrefix(b, Offered(t, m), ms + [m])
  {
    var n, k := Min(b.capacity, |ms|), Min(b.capacity, |ms| + 1);
    if |ms| < b.capacity {
      assert (ms + [m])[..k] == ms + [m] && (ms + [m])[k..] == [];
    } else {
      assert (ms + [m])[..k] == ms[..n] && (ms + [m])[k..] == ms[n..] + [m];
    }
  }

  lemma {:induction false} OfferedAllPrefix(b: Mailbox, ms: seq<Message>)
    requires b.buffer == []
    ensures OfferedAll(b, ms).buffer == ms[..Min(b.capacity, |ms|)]
    ensures OfferedAll(b, ms).dropped == b.dropped + ms[Min(b.capacity, |ms|)..]
    ensures OfferedAll(b, ms).offered == b.offered + ms
    ensures OfferedAll(b, ms).read == b.read && OfferedAll(b, ms).capacity == b.capacity
  {
    if ms == [] {
      assert TookPrefix(b, b, ms);
    } else {
      var before, m := ms[..|ms| - 1], ms[|ms| - 1];
      OfferedAllPrefix(b, before);
      TookPrefixMore(b, OfferedAll(b, before), before, m);
      assert ms == before + [m];
    }
  }

  /** A new consumer receives the oldest retained messages first, as many as its
      channel holds, and is offered every one. */
  lemma {:induction false} ReplayDeliversOldestFirst(maxSize: nat, ttl: Time, ops: seq<Op>, now: Time,
          c: ConsumerId, capacity: nat)
    requires maxSize >= 1
    ensures var s := Run(NewQueue(maxSize, ttl), ops);
      var box := Step(s, Create(now, c, capacity)).boxes[c];
      box.buffer == s.events[..Min(capacity, |s.events|)] && box.offered == s.events
  {
    OfferedAllPrefix(NewMailbox(capacity), Run(NewQueue(maxSize, ttl), ops).events);
  }

  // Conservation and order ---------------------------------------------------------

  /** `whole` is an order-preserving interleaving of `kept` and `rest`. */
  predicate Merge(whole: seq<Message>, kept: seq<Message>, rest: seq<Message>) {
    if whole == [] then kept == [] && rest == []
    else
      var init, last := whole[..|whole| - 1], whole[|whole| - 1];
      || (kept != [] && kept[|kept| - 1] == last && Merge(init, kept[..|kept| - 1], rest))
      || (rest != [] && rest[|rest| - 1] == last && Merge(init, kept, rest[..|rest| - 1]))
  }

  predicate Subsequence(part: seq<Message>, whole: seq<Message>) {
    if whole == [] then part == []
    else
      var init := whole[..|whole| - 1];
      || Subsequence(part, init)
      || (part != [] && part[|part| - 1] == whole[|whole| - 1] && Subsequence(part[..|part| - 1], init))
  }

  lemma {:induction false} MergeCounts(whole: seq<Message>, kept: seq<Message>, rest: seq<Message>)
    requires Merge(whole, kept, rest)
    ensures |whole| == |kept| + |rest|
    ensures multiset(whole) == multiset(kept) + multiset(rest)
  {
    if whole == [] {
    } else {
      var init, last := whole[..|whole| - 1], whole[|whole| - 1];
      assert whole == init + [last];
      if kept != [] && kept[|kept| - 1] == last && Merge(init, kept[..|kept| - 1], rest) {
        MergeCounts(init, kept[..|kept| - 1], rest);
        assert kept == kept[..|kept| - 1] + [last];
      } else {
        MergeCounts(init, kept, rest[..|rest| - 1]);
        assert rest == rest[..|rest| - 1] + [last];
      }
    }
  }

  lemma {:induction false} MergeOrders(whole: seq<Message>, kept: seq<Message>, rest: seq<Message>)
    requires Merge(whole, kept, rest)
    ensures Subsequence(kept, whole) && Subsequence(rest, whole)
  {
    if whole == [] {
    } else {
      var init, last := whole[..|whole| - 1], whole[|whole| - 1];
      if kept != [] && kept[|kept| - 1] == last && Merge(init, kept[..|kept| - 1], rest) {
        MergeOrders(init, kept[..|kept| - 1], rest);
      } else {
        MergeOrders(init, kept, rest[..|rest| - 1]);
      }
    }
  }

  predicate Conserved(b: Mailbox) {
    Merge(b.offered, b.read + b.buffer, b.dropped) && |b.buffer| <= b.capacity
  }

  lemma OfferConserves(b: Mailbox, m: Message)
    requires Conserved(b)
    ensures Conserved(Offered(b, m))
    ensures Offered(b, m).dropped != b.dropped <==> |b.buffer| == b.capacity
    ensures Offered(b, m).buffer != b.buffer <==> |b.buffer| < b.capacity
  {
    var t := Offered(b, m);
    assert t.offered[..|t.offered| - 1] == b.offered;
    if |b.buffer| < b.capacity {
      assert t.read + t.buffer == (b.read + b.buffer) + [m];
    } else {
      assert t.dropped[..|t.dropped| - 1] == b.dropped;
    }
  }

  lemma {:induction false} ReplayConserves(b: Mailbox, ms: seq<Message>)
    requires Conserved(b)
    ensures Conserved(OfferedAll(b, ms))
  {
    if ms == [] {
    } else {
      ReplayConserves(b, ms[..|ms| - 1]);
      OfferConserves(OfferedAll(b, ms[..|ms| - 1]), ms[|ms| - 1]);
    }
  }

  lemma ReceiveConserves(b: Mailbox, n: nat)
    requires Conserved(b) && n <= |b.buffer|
    ensures Conserved(Received(b, n))
  {
    assert Received(b, n).read + Received(b, n).buffer == b.read + b.buffer;
  }

  lemma StepConserves(s: QueueState, op: Op, c: ConsumerId)
    requires s.maxSize >= 1
    requires c in s.boxes ==> Conserved(s.boxes[c])
    requires c in Step(s, op).boxes
    ensures Conserved(Step(s, op).boxes[c])
  {
    if c in s.boxes {
      if op.Add? && op.event.id !in s.cache {
        OfferConserves(s.boxes[c], Message(op.event, |s.accepted|));
      } else if op.Read? && op.c == c {
        ReceiveConserves(s.boxes[c], Taken(s.boxes[c], op.count, op.ready));
      }
    }
    if op.Create? && op.c == c {
      ReplayConserves(NewMailbox(op.capacity), s.events);
    }
  }

  /** The operation accepts a new event. */
  predicate Takes(s: QueueState, op: Op) {
    op.Add? && op.event.id !in s.cache
  }

  lemma AcceptsWholeEvent(s: QueueState, op: Op)
    requires s.maxSize >= 1
    ensures Step(s, op).accepted == s.accepted + if Takes(s, op) then [Message(op.event, |s.accepted|)] else []
  {
  }

  predicate Replaces(op: Op, c: ConsumerId) {
    (op.Create? || op.Remove?) && op.c == c
  }

  /** Every consumer is offered what was queued when it was created and then every event
      accepted, in order and once each, whatever is read, trimmed, swept or done to others. */
  lemma {:induction false} OfferedQueueThenAccepted(s: QueueState, now: Time, c: ConsumerId, capacity: nat,
          after: seq<Op>)
    requires s.maxSize >= 1 && forall op | op in after :: !Replaces(op, c)
    ensures var t := Run(Step(s, Create(now, c, capacity)), after);
      && |s.accepted| <= |t.accepted| && c in t.boxes && t.boxes[c].capacity == capacity
      && t.boxes[c].offered == s.events + t.accepted[|s.accepted|..]
  {
    if after == [] {
      OfferedAllPrefix(NewMailbox(capacity), s.events);
    } else {
      var before, op := after[..|after| - 1], after[|after| - 1];
      OfferedQueueThenAccepted(s, now, c, capacity, before);
      var t := Run(Step(s, Create(now, c, capacity)), before);
      AcceptsWholeEvent(t, op);
      OfferedStep(t, op, c);
    }
  }

  lemma OfferedStep(s: QueueState, op: Op, c: ConsumerId)
    requires s.maxSize >= 1 && c in s.boxes && !Replaces(op, c)
    ensures var t := Step(s, op);
      && c in t.boxes && t.boxes[c].capacity == s.boxes[c].capacity
      && t.boxes[c].offered == s.boxes[c].offered + t.accepted[|s.accepted|..]
  {
    AcceptsWholeEvent(s, op);
  }

  lemma {:induction false} ConservedAlways(maxSize: nat, ttl: Time, ops: seq<Op>, c: ConsumerId)
    requires maxSize >= 1
    requires c in Run(NewQueue(maxSize, ttl), ops).boxes
    ensures Conserved(Run(NewQueue(maxSize, ttl), ops).boxes[c])
  {
    if ops == [] {
    } else {
      var before := ops[..|ops| - 1];
      if c in Run(NewQueue(maxSize, ttl), before).boxes {
        ConservedAlways(maxSize, ttl, before, c);
      }
      StepConserves(Run(NewQueue(maxSize, ttl), before), ops[|ops| - 1], c);
    }
  }

  /** For every consumer and every run: what it received and still buffers, in that order,
      is a subsequence of what it was offered, what was skipped is the rest of it, and the
      buffer never exceeds its capacity. */
  lemma {:induction false} ConsumerConserved(maxSize: nat, ttl: Time, ops: seq<Op>, c: ConsumerId)
    requires maxSize >= 1
    requires c in Run(NewQueue(maxSize, ttl), ops).boxes
    ensures var b := Run(NewQueue(maxSize, ttl), ops).boxes[c];
      && |b.offered| == |b.read| + |b.buffer| + |b.dropped|
      && multiset(b.offered) == multiset(b.read + b.buffer) + multiset(b.dropped)
      && Subsequence(b.read + b.buffer, b.offered) && Subsequence(b.dropped, b.offered)
      && |b.buffer| <= b.capacity
  {
    ConservedAlways(maxSize, ttl, ops, c);
    var b := Run(NewQueue(maxSize, ttl), ops).boxes[c];
    MergeCounts(b.offered, b.read + b.buffer, b.dropped);
    MergeOrders(b.offered, b.read + b.buffer, b.dropped);
  }

  predicate Concerns(op: Op, d: ConsumerId) {
    (op.Create? || op.Remove? || op.Read?) && op.c == d
  }

  function Without(ops: seq<Op>, d: ConsumerId): seq<Op> {
    if ops == [] then []
    else if Concerns(ops[|ops| - 1], d) then Without(ops[..|ops| - 1], d)
    else Without(ops[..|ops| - 1], d) + [ops[|ops| - 1]]
  }

  /** One consumer, however slow or full, changes nothing for anyone else: leaving out
      every operation of consumer `d` gives the same state except for `d`'s channel. */
  lemma {:induction false} ConsumersDoNotInterfere(maxSize: nat, ttl: Time, ops: seq<Op>, d: ConsumerId)
    requires maxSize >= 1
    ensures var s := Run(NewQueue(maxSize, ttl), ops);
      Run(NewQueue(maxSize, ttl), Without(ops, d)) == s.(boxes := s.boxes - {d})
  {
    if ops == [] {
    } else {
      var before, op := ops[..|ops| - 1], ops[|ops| - 1];
      ConsumersDoNotInterfere(maxSize, ttl, before, d);
      var s := Run(NewQueue(maxSize, ttl), before);
      if !Concerns(op, d) {
        assert Without(ops, d)[..|Without(ops, d)| - 1] == Without(before, d);
      }
      StepIgnores(s, op, d);
    }
  }

  lemma StepIgnores(s: QueueState, op: Op, d: ConsumerId)
    requires s.maxSize >= 1
    ensures var rest := s.(boxes := s.boxes - {d});
      var t := Step(s, op);
      t.(boxes := t.boxes - {d}) == if Concerns(op, d) then rest else Step(rest, op)
  {
    var rest := s.(boxes := s.boxes - {d});
    var t := Step(s, op);
    if Concerns(op, d) {
      assert t.boxes - {d} == rest.boxes;
    } else {
      assert t.boxes - {d} == Step(rest, op).boxes;
    }
  }

  // Deduplication timing -----------------------------------------------------------

  predicate Sorted(ops: seq<Op>) {
    forall i, j | 0 <= i <= j < |ops| :: ops[i].now <= ops[j].now
  }

  /** Operation `i` adds an event with this ID and the ID is not in the cache. */
  predicate Accepts(s: QueueState, ops: seq<Op>, i: nat, id: EventId)
    requires s.maxSize >= 1
  {
    i < |ops| && ops[i].Add? && ops[i].event.id == id && id !in Run(s, ops[..i]).cache
  }

  lemma {:induction false} CachedSince(s: QueueState, ops: seq<Op>, i: nat, id: EventId)
    requires s.maxSize >= 1 && Sorted(ops) && Accepts(s, ops, i, id)
    requires ops[|ops| - 1].now <= ops[i].now + s.ttl || i == |ops| - 1
    ensures id in Run(s, ops).cache && Run(s, ops).cache[id] == ops[i].now
  {
    if i < |ops| - 1 {
      var before := ops[..|ops| - 1];
      assert before[..i] == ops[..i];
      assert before[|before| - 1].now <= ops[|ops| - 1].now;
      CachedSince(s, before, i, id);
    }
  }

  lemma {:induction false} CachedAt(s: QueueState, ops: seq<Op>, i: nat, j: nat, id: EventId)
    requires s.maxSize >= 1 && Sorted(ops) && Accepts(s, ops, i, id)
    requires i < j < |ops| && ops[j].now <= ops[i].now + s.ttl
    ensures id in Run(s, ops[..j]).cache
  {
    var before := ops[..j];
    assert before[..i] == ops[..i] && before[i] == ops[i] && before[j - 1] == ops[j - 1];
    assert ops[j - 1].now <= ops[j].now;
    CachedSince(s, before, i, id);
  }

  /** An ID accepted at time t is rejected, with no effect at all, at every time up to
      and including t + ttl; rejected sightings do not prolong this. */
  lemma {:induction false} RejectedWithinTtl(s: QueueState, ops: seq<Op>, i: nat, j: nat, id: EventId)
    requires s.maxSize >= 1 && Sorted(ops) && Accepts(s, ops, i, id)
    requires i < j < |ops| && ops[j].Add? && ops[j].event.id == id
    requires ops[j].now <= ops[i].now + s.ttl
    ensures !Accepts(s, ops, j, id)
    ensures Step(Run(s, ops[..j]), ops[j]) == Run(s, ops[..j])
  {
    CachedAt(s, ops, i, j, id);
  }

  /** A sweep tick falls in the interval (a, a + HOUR]. */
  predicate SweptAfter(ops: seq<Op>, a: Time) {
    exists k | 0 <= k < |ops| :: ops[k].Sweep? && a < ops[k].now <= a + HOUR
  }

  predicate NoneAcceptedBetween(s: QueueState, ops: seq<Op>, i: nat, j: nat, id: EventId)
    requires s.maxSize >= 1
  {
    forall m: nat | i < m < j :: !Accepts(s, ops, m, id)
  }

  lemma {:induction false} SeenAgain(s: QueueState, ops: seq<Op>, i: nat, n: nat, id: EventId)
    requires s.maxSize >= 1 && i + 1 < n <= |ops| && NoneAcceptedBetween(s, ops, i, n, id)
    ensures NoneAcceptedBetween(s, ops, i, n - 1, id)
    ensures ops[n - 1].Add? && ops[n - 1].event.id == id ==> id in Run(s, ops[..n - 1]).cache
  {
    assert !Accepts(s, ops, n - 1, id);
  }

  lemma {:induction false} AcceptedEntry(s: QueueState, ops: seq<Op>, i: nat, id: EventId)
    requires s.maxSize >= 1 && Accepts(s, ops, i, id)
    ensures var cache := Run(s, ops[..i + 1]).cache; id in cache && cache[id] == ops[i].now
  {
    RunPrefix(s, ops, i + 1);
  }

  lemma {:induction false} GoneAfterSweep(s: QueueState, ops: seq<Op>, i: nat, n: nat, k: nat, id: EventId)
    requires s.maxSize >= 1 && Accepts(s, ops, i, id) && i < n <= |ops|
    requires NoneAcceptedBetween(s, ops, i, n, id)
    requires k < |ops| && ops[k].Sweep? && ops[k].now > ops[i].now + s.ttl
    ensures id in Run(s, ops[..n]).cache ==> Run(s, ops[..n]).cache[id] == ops[i].now
    ensures i < k < n ==> id !in Run(s, ops[..n]).cache
  {
    if i == n - 1 {
      AcceptedEntry(s, ops, i, id);
    } else {
      RunPrefix(s, ops, n);
      SeenAgain(s, ops, i, n, id);
      GoneAfterSweep(s, ops, i, n - 1, k, id);
      EntryStep(Run(s, ops[..n - 1]), ops[n - 1], id, ops[i].now);
    }
  }

  lemma {:induction false} RunPrefix(s: QueueState, ops: seq<Op>, n: nat)
    requires s.maxSize >= 1 && 0 < n <= |ops|
    ensures Run(s, ops[..n]) == Step(Run(s, ops[..n - 1]), ops[n - 1])
  {
    assert ops[..n][..n - 1] == ops[..n - 1];
  }

  /** A cached time stays, or goes with a sweep; only an acceptance puts one there. */
  lemma EntryStep(s: QueueState, op: Op, id: EventId, at: Time)
    requires s.maxSize >= 1 && (id in s.cache ==> s.cache[id] == at)
    requires op.Add? && op.event.id == id ==> id in s.cache
    ensures var t := Step(s, op);
      && (id in t.cache ==> id in s.cache && t.cache[id] == at)
      && (op.Sweep? && op.now > at + s.ttl ==> id !in t.cache)
  {
  }

  /** If the sweep runs in every hour-long interval, an ID accepted at time t and not
      accepted since is accepted again at every time after t + ttl + HOUR. */
  lemma AcceptableAfterTtl(s: QueueState, ops: seq<Op>, i: nat, j: nat, id: EventId)
    requires s.maxSize >= 1 && Sorted(ops) && Accepts(s, ops, i, id)
    requires i < j < |ops| && ops[j].Add? && ops[j].event.id == id
    requires forall a | ops[i].now <= a && a + HOUR < ops[j].now :: SweptAfter(ops, a)
    requires NoneAcceptedBetween(s, ops, i, j, id)
    requires ops[j].now > ops[i].now + HOUR + if s.ttl > 0 then s.ttl else 0
    ensures Accepts(s, ops, j, id)
  {
    var a := ops[i].now + if s.ttl > 0 then s.ttl else 0;
    assert SweptAfter(ops, a);
    var k :| 0 <= k < |ops| && ops[k].Sweep? && a < ops[k].now <= a + HOUR;
    GoneAfterSweep(s, ops, i, j, k, id);
  }
}
