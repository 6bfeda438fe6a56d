/** Forwarding in internal/subscription/processor.go: the choice between broadcast and push,
    the push path, and the loops over matching groups for queued events and for injected
    20285 events (internal/subscription/server.go). */
module Processor {
  import opened Nostr
  import opened Matcher
  import opened Presence
  import opened PushLimiter
  import Queue

  const PROCESSOR: Queue.ConsumerId := "nopu-processor-1"
  const BATCH: nat := 10

  /** What the outside world decides about one forward: whether the event serializes, the
      wrapper is signed and serializes, the send succeeds, and the two clock readings. */
  datatype Luck = Luck(serializes: bool, signs: bool, wraps: bool, sends: bool, checkedAt: Time, recordedAt: Time)

  datatype PushResult = NoServer | NoToken | RateLimited | NotWrapped | SendFailed | Delivered

  datatype Outcome = NotForwarded | Broadcast | PushPath(result: PushResult)

  /** What forwarding reads. */
  datatype View = View(parsed: map<GroupId, Entry>, counts: Counts, limit: Time, hasServer: bool)

  datatype Forwarded = Forwarded(event: Event, g: GroupId, outcome: Outcome)

  function TokenFor(parsed: map<GroupId, Entry>, g: GroupId): Token {
    if g in parsed then parsed[g].token else ""
  }

  function PushResultOf(v: View, shards: seq<PushTimes>, g: GroupId, luck: Luck): PushResult
    requires WellSharded(shards)
  {
    var token := TokenFor(v.parsed, g);
    if !v.hasServer then NoServer
    else if token == "" then NoToken
    else if !Allows(shards[ShardIndex(token)], token, luck.checkedAt, v.limit) then RateLimited
    else if !luck.wraps then NotWrapped
    else if !luck.sends then SendFailed
    else Delivered
  }

  function OutcomeOf(v: View, shards: seq<PushTimes>, g: GroupId, luck: Luck): Outcome
    requires WellSharded(shards)
  {
    if !luck.serializes || !luck.signs then NotForwarded
    else if g in v.counts then Broadcast
    else PushPath(PushResultOf(v, shards, g, luck))
  }

  function ShardsAfter(v: View, shards: seq<PushTimes>, g: GroupId, luck: Luck): (after: seq<PushTimes>)
    requires WellSharded(shards)
    ensures WellSharded(after)
  {
    if OutcomeOf(v, shards, g, luck) == PushPath(Delivered)
    then Recorded(shards, TokenFor(v.parsed, g), luck.recordedAt) else shards
  }

  /** Forwards to several groups in turn. */
  function ForwardedAll(v: View, shards: seq<PushTimes>, e: Event, order: seq<GroupId>,
          lucks: seq<Luck>): seq<Forwarded>
    requires WellSharded(shards) && |lucks| == |order|
  {
    if order == [] then []
    else
      var n := |order| - 1;
      ForwardedAll(v, shards, e, order[..n], lucks[..n])
      + [Forwarded(e, order[n], OutcomeOf(v, ShardsAfterAll(v, shards, order[..n], lucks[..n]), order[n], lucks[n]))]
  }

  function ShardsAfterAll(v: View, shards: seq<PushTimes>, order: seq<GroupId>,
          lucks: seq<Luck>): (after: seq<PushTimes>)
    requires WellSharded(shards) && |lucks| == |order|
    ensures WellSharded(after)
  {
    if order == [] then shards
    else
      var n := |order| - 1;
      ShardsAfter(v, ShardsAfterAll(v, shards, order[..n], lucks[..n]), order[n], lucks[n])
  }

  lemma {:induction false} ForwardedAllMore(v: View, shards: seq<PushTimes>, e: Event, order: seq<GroupId>,
          lucks: seq<Luck>, g: GroupId, luck: Luck)
    requires WellSharded(shards) && |lucks| == |order|
    ensures var after := ShardsAfterAll(v, shards, order, lucks);
      && ForwardedAll(v, shards, e, order + [g], lucks + [luck]) ==
         ForwardedAll(v, shards, e, order, lucks) + [Forwarded(e, g, OutcomeOf(v, after, g, luck))]
      && ShardsAfterAll(v, shards, order + [g], lucks + [luck]) == ShardsAfter(v, after, g, luck)
  {
    assert (order + [g])[..|order|] == order && (lucks + [luck])[..|lucks|] == lucks;
  }

  /** Forward number `k` goes to the `k`th group, with the limiter as the forwards before left it. */
  lemma {:induction false} ForwardedAt(v: View, shards: seq<PushTimes>, e: Event, order: seq<GroupId>, lucks: seq<Luck>,
          k: nat)
    requires WellSharded(shards) && |lucks| == |order| && k < |order|
    ensures |ForwardedAll(v, shards, e, order, lucks)| == |order|
    ensures ForwardedAll(v, shards, e, order, lucks)[k] ==
      Forwarded(e, order[k], OutcomeOf(v, ShardsAfterAll(v, shards, order[..k], lucks[..k]), order[k], lucks[k]))
  {
    var n := |order| - 1;
    if k == n {
      if n > 0 {
        ForwardedAt(v, shards, e, order[..n], lucks[..n], 0);
      }
    } else {
      ForwardedAt(v, shards, e, order[..n], lucks[..n], k);
      assert order[..n][..k] == order[..k] && lucks[..n][..k] == lucks[..k];
    }
  }

  predicate NoRepeats(order: seq<GroupId>) {
    forall i, j | 0 <= i < j < |order| :: order[i] != order[j]
  }

  /** `order` lists exactly the groups that match the event, each once. */
  ghost predicate Routes(groups: Groups, parsed: map<GroupId, Entry>, e: Event, order: seq<GroupId>) {
    NoRepeats(order) && forall g :: g in order <==> g in groups && GroupMatches(parsed, g, e)
  }

  ghost predicate AllRouted(groups: Groups, parsed: map<GroupId, Entry>, messages: seq<Queue.Message>,
          orders: seq<seq<GroupId>>)
  {
    |orders| == |messages| && forall i | 0 <= i < |orders| :: Routes(groups, parsed, messages[i].event, orders[i])
  }

  lemma AllRoutedMore(groups: Groups, parsed: map<GroupId, Entry>, messages: seq<Queue.Message>,
          orders: seq<seq<GroupId>>, m: Queue.Message, order: seq<GroupId>)
    requires AllRouted(groups, parsed, messages, orders) && Routes(groups, parsed, m.event, order)
    ensures AllRouted(groups, parsed, messages + [m], orders + [order])
  {
  }

  function FirstOf(lucks: nat -> Luck, n: nat): (r: seq<Luck>)
    ensures |r| == n && forall i | 0 <= i < n :: r[i] == lucks(i)
  {
    if n == 0 then [] else FirstOf(lucks, n - 1) + [lucks(n - 1)]
  }

  lemma PrefixMore<T>(s: seq<T>, i: nat)
    requires i < |s|
    ensures s[..i + 1] == s[..i] + [s[i]]
  {
  }

  /** Several messages in turn, each to all its groups. */
  function Dispatched(v: View, shards: seq<PushTimes>, messages: seq<Queue.Message>, orders: seq<seq<GroupId>>,
                      lucks: nat -> nat -> Luck): seq<Forwarded>
    requires WellSharded(shards) && |messages| == |orders|
  {
    if orders == [] then []
    else
      var n := |orders| - 1;
      Dispatched(v, shards, messages[..n], orders[..n], lucks)
      + ForwardedAll(v, ShardsAfterDispatch(v, shards, orders[..n], lucks), messages[n].event, orders[n],
                     FirstOf(lucks(n), |orders[n]|))
  }

  function ShardsAfterDispatch(v: View, shards: seq<PushTimes>, orders: seq<seq<GroupId>>,
          lucks: nat -> nat -> Luck): (after: seq<PushTimes>)
    requires WellSharded(shards)
    ensures WellSharded(after)
  {
    if orders == [] then shards
    else
      var n := |orders| - 1;
      ShardsAfterAll(v, ShardsAfterDispatch(v, shards, orders[..n], lucks), orders[n], FirstOf(lucks(n), |orders[n]|))
  }

  lemma {:induction false} DispatchedMore(v: View, shards: seq<PushTimes>, messages: seq<Queue.Message>,
          orders: seq<seq<GroupId>>, lucks: nat -> nat -> Luck, m: Queue.Message, order: seq<GroupId>)
    requires WellSharded(shards) && |messages| == |orders|
    ensures var after := ShardsAfterDispatch(v, shards, orders, lucks);
      var used := FirstOf(lucks(|orders|), |order|);
      && Dispatched(v, shards, messages + [m], orders + [order], lucks) ==
         Dispatched(v, shards, messages, orders, lucks) + ForwardedAll(v, after, m.event, order, used)
      && ShardsAfterDispatch(v, shards, orders + [order], lucks) == ShardsAfterAll(v, after, order, used)
  {
    assert (orders + [order])[..|orders|] == orders && (messages + [m])[..|messages|] == messages;
  }

  /** The outbox holds what it held at the start and what the messages, in turn, come to. */
  ghost predicate DispatchedTo(groups: Groups, v: View, shards: seq<PushTimes>, start: seq<Forwarded>,
                                  messages: seq<Queue.Message>, orders: seq<seq<GroupId>>, lucks: nat -> nat -> Luck,
                                  outbox: seq<Forwarded>, now: seq<PushTimes>)
    requires WellSharded(shards)
  {
    && AllRouted(groups, v.parsed, messages, orders)
    && outbox == start + Dispatched(v, shards, messages, orders, lucks)
    && now == ShardsAfterDispatch(v, shards, orders, lucks)
  }

  /** Every message goes to every group of its list, the lists one after the other. */
  lemma {:induction false} DispatchedAt(v: View, shards: seq<PushTimes>, messages: seq<Queue.Message>,
          orders: seq<seq<GroupId>>, lucks: nat -> nat -> Luck, i: nat, k: nat) returns (p: nat)
    requires WellSharded(shards) && |messages| == |orders| && i < |orders| && k < |orders[i]|
    ensures p == TotalLength(orders[..i]) + k < |Dispatched(v, shards, messages, orders, lucks)| == TotalLength(orders)
    ensures var f := Dispatched(v, shards, messages, orders, lucks)[p];
      f.event == messages[i].event && f.g == orders[i][k]
  {
    var n := |orders| - 1;
    DispatchedLength(v, shards, messages, orders, lucks);
    DispatchedLength(v, shards, messages[..n], orders[..n], lucks);
    if i == n {
      p := TotalLength(orders[..n]) + k;
      DispatchedLast(v, shards, messages, orders, lucks, k);
    } else {
      p := DispatchedAt(v, shards, messages[..n], orders[..n], lucks, i, k);
      assert orders[..n][..i] == orders[..i];
      assert Dispatched(v, shards, messages, orders, lucks)[p] ==
        Dispatched(v, shards, messages[..n], orders[..n], lucks)[p];
    }
  }

  lemma {:induction false} DispatchedLast(v: View, shards: seq<PushTimes>, messages: seq<Queue.Message>,
          orders: seq<seq<GroupId>>, lucks: nat -> nat -> Luck, k: nat)
    requires WellSharded(shards) && |messages| == |orders| > 0 && k < |orders[|orders| - 1]|
    requires var n := |orders| - 1;
      |Dispatched(v, shards, messages[..n], orders[..n], lucks)| + k < |Dispatched(v, shards, messages, orders, lucks)|
    ensures var n := |orders| - 1;
      var f := Dispatched(v, shards, messages, orders, lucks)[
        |Dispatched(v, shards, messages[..n], orders[..n], lucks)| + k];
      f.event == messages[n].event && f.g == orders[n][k]
  {
    var n := |orders| - 1;
    ForwardedAt(v, ShardsAfterDispatch(v, shards, orders[..n], lucks), messages[n].event, orders[n],
                FirstOf(lucks(n), |orders[n]|), k);
  }

  function TotalLength(orders: seq<seq<GroupId>>): nat {
    if orders == [] then 0 else TotalLength(orders[..|orders| - 1]) + |orders[|orders| - 1]|
  }

  lemma {:induction false} DispatchedLength(v: View, shards: seq<PushTimes>, messages: seq<Queue.Message>,
          orders: seq<seq<GroupId>>, lucks: nat -> nat -> Luck)
    requires WellSharded(shards) && |messages| == |orders|
    ensures |Dispatched(v, shards, messages, orders, lucks)| == TotalLength(orders)
  {
    if orders == [] {
    } else {
      var n := |orders| - 1;
      DispatchedLength(v, shards, messages[..n], orders[..n], lucks);
      if orders[n] != [] {
        ForwardedAt(v, ShardsAfterDispatch(v, shards, orders[..n], lucks), messages[n].event, orders[n],
                    FirstOf(lucks(n), |orders[n]|), 0);
      }
    }
  }

  lemma Assoc<T>(a: seq<T>, b: seq<T>, c: seq<T>)
    ensures a + b + c == a + (b + c)
  {
  }

  lemma {:induction false} DispatchedOneMore(groups: Groups, v: View, shards: seq<PushTimes>, start: seq<Forwarded>,
                          before: seq<Queue.Message>, m: Queue.Message, orders: seq<seq<GroupId>>,
                          lucks: nat -> nat -> Luck, outbox: seq<Forwarded>, now: seq<PushTimes>,
                          order: seq<GroupId>, outbox': seq<Forwarded>, now': seq<PushTimes>)
    requires WellSharded(shards) && WellSharded(now)
    requires DispatchedTo(groups, v, shards, start, before, orders, lucks, outbox, now)
    requires Routes(groups, v.parsed, m.event, order)
    requires outbox' == outbox + ForwardedAll(v, now, m.event, order, FirstOf(lucks(|orders|), |order|))
    requires now' == ShardsAfterAll(v, now, order, FirstOf(lucks(|orders|), |order|))
    ensures DispatchedTo(groups, v, shards, start, before + [m], orders + [order], lucks, outbox', now')
  {
    DispatchedMore(v, shards, before, orders, lucks, m, order);
    AllRoutedMore(groups, v.parsed, before, orders, m, order);
    Assoc(start, Dispatched(v, shards, before, orders, lucks),
          ForwardedAll(v, now, m.event, order, FirstOf(lucks(|orders|), |order|)));
  }

  class Processor {
    const matcher: SubscriptionMatcher
    const presence: OnlineMap
    const limiter: RateLimiter
    const hasServer: bool
    var outbox: seq<Forwarded>

    ghost predicate Valid() {
      limiter.Valid()
    }

    ghost function CurrentView(): View
      reads matcher, presence
    {
      View(matcher.parsed, presence.counts, limiter.limit, hasServer)
    }

    ghost function Shards(): (shards: seq<PushTimes>)
      requires Valid()
      reads limiter.shards
      ensures WellSharded(shards)
    {
      limiter.shards[..]
    }

    constructor (matcher: SubscriptionMatcher, presence: OnlineMap, limit: Time, hasServer: bool)
      ensures Valid() && fresh(limiter) && fresh(limiter.shards) && outbox == []
      ensures this.matcher == matcher && this.presence == presence && this.hasServer == hasServer
          && limiter.limit == limit
    {
      this.matcher, this.presence, this.hasServer := matcher, presence, hasServer;
      outbox := [];
      limiter := new RateLimiter(limit);
    }

    method PushNotification(g: GroupId, luck: Luck) returns (result: PushResult)
      requires Valid()
      modifies limiter.shards
      ensures result == PushResultOf(CurrentView(), old(Shards()), g, luck)
      ensures Shards() == if result.Delivered?
          then Recorded(old(Shards()), TokenFor(matcher.parsed, g), luck.recordedAt)
                          else old(Shards())
    {
      if !hasServer {
        return NoServer;
      }
      var token := "";
      if g in matcher.parsed {
        token := matcher.parsed[g].token;
      }
      if token == "" {
        return NoToken;
      }
      var allowed := limiter.MayPush(token, luck.checkedAt);
      if !allowed {
        return RateLimited;
      }
      if !luck.wraps {
        return NotWrapped;
      }
      if !luck.sends {
        return SendFailed;
      }
      limiter.RecordPush(token, luck.recordedAt);
      result := Delivered;
    }

    method ForwardToGroup(e: Event, g: GroupId, luck: Luck)
      requires Valid()
      modifies this`outbox, limiter.shards
      ensures outbox == old(outbox) + [Forwarded(e, g, OutcomeOf(CurrentView(), old(Shards()), g, luck))]
      ensures Shards() == ShardsAfter(CurrentView(), old(Shards()), g, luck)
    {
      if !luck.serializes || !luck.signs {
        outbox := outbox + [Forwarded(e, g, NotForwarded)];
        return;
      }
      var online := presence.IsOnline(g);
      if online {
        outbox := outbox + [Forwarded(e, g, Broadcast)];
      } else {
        var result := PushNotification(g, luck);
        outbox := outbox + [Forwarded(e, g, PushPath(result))];
      }
    }

    /** The forwarding loop shared by processMessage and handle20285Event: every matching
        group once, in the order the relay's groups are ranged over. */
    method ForwardToMatching(e: Event, lucks: nat -> Luck) returns (order: seq<GroupId>)
      requires Valid()
      modifies this`outbox, limiter.shards
      ensures Routes(matcher.state.groups, matcher.parsed, e, order)
      ensures var used := FirstOf(lucks, |order|);
        && outbox == old(outbox) + ForwardedAll(CurrentView(), old(Shards()), e, order, used)
        && Shards() == ShardsAfterAll(CurrentView(), old(Shards()), order, used)
    {
      order := matcher.GetMatchingGroups(e);
      ghost var used := FirstOf(lucks, |order|);
      for i := 0 to |order|
        invariant outbox == old(outbox) + ForwardedAll(CurrentView(), old(Shards()), e, order[..i], used[..i])
        invariant Shards() == ShardsAfterAll(CurrentView(), old(Shards()), order[..i], used[..i])
      {
        assert order[..i + 1] == order[..i] + [order[i]] && used[..i + 1] == used[..i] + [lucks(i)];
        ForwardedAllMore(CurrentView(), old(Shards()), e, order[..i], used[..i], order[i], lucks(i));
        ForwardToGroup(e, order[i], lucks(i));
      }
      assert order[..|order|] == order && used[..|order|] == used;
    }

    /** The dispatch loop: each message goes to its matching groups before the next. */
    method ProcessMessages(messages: seq<Queue.Message>, lucks: nat -> nat -> Luck) returns (orders: seq<seq<GroupId>>)
      requires Valid()
      modifies this`outbox, limiter.shards
      ensures DispatchedTo(matcher.state.groups, CurrentView(), old(Shards()), old(outbox), messages, orders, lucks,
                           outbox, Shards())
    {
      orders := [];
      ghost var groups, v, shards, start := matcher.state.groups, CurrentView(), Shards(), outbox;
      for i := 0 to |messages|
        invariant DispatchedTo(groups, v, shards, start, messages[..i], orders, lucks, outbox, Shards())
      {
        ghost var sent, now := outbox, Shards();
        var m := messages[i];
        var order := ForwardToMatching(m.event, lucks(i));
        assert matcher.state.groups == groups && CurrentView() == v;
        DispatchedOneMore(groups, v, shards, start, messages[..i], m, orders, lucks, sent, now, order, outbox,
            Shards());
        PrefixMore(messages, i);
        orders := orders + [order];
      }
      assert messages[..|messages|] == messages;
    }

    /** One turn of the read loop: up to ten messages are read and processed, or discarded if
        the read ends in an error. */
    method ReadAndProcess(queue: Queue.MemoryQueue, ready: nat, end: Queue.ReadEnd, lucks: nat -> nat -> Luck)
      returns (messages: seq<Queue.Message>, error: Option<Queue.ReadError>, orders: seq<seq<GroupId>>)
      requires Valid() && queue.Valid()
      modifies this`outbox, limiter.shards, queue.consumers.Values
      ensures queue.State() == Queue.EventsRead(old(queue.State()), PROCESSOR, BATCH, ready)
      ensures error == Queue.ReadErrorOf(old(queue.State()), PROCESSOR, BATCH, ready, end)
      ensures error.Some? ==> messages == [] && outbox == old(outbox) && Shards() == old(Shards())
      ensures error.None? ==>
        && DispatchedTo(matcher.state.groups, CurrentView(), old(Shards()), old(outbox), messages, orders, lucks,
                        outbox, Shards())
        && PROCESSOR in queue.consumers
        && messages == old(queue.consumers[PROCESSOR].buffer)[..
             Queue.Taken(old(queue.consumers[PROCESSOR].Box()), BATCH, ready)]
    {
      messages, error := queue.ReadEvents(PROCESSOR, BATCH, ready, end);
      if error.Some? {
        messages, orders := [], [];
        return;
      }
      ghost var state := queue.State();
      orders := ProcessMessages(messages, lucks);
      assert queue.State() == state;
    }

    /** An injected event is matched itself if its content is empty, otherwise the event in
        its content is, if there is one. */
    method Handle20285(e: Event, inner: Option<Event>, lucks: nat -> Luck)
      requires Valid()
      modifies this`outbox, limiter.shards
      ensures e.content != "" && inner.None? ==> outbox == old(outbox) && Shards() == old(Shards())
      ensures e.content == "" || inner.Some? ==>
        var forwarded := if e.content == "" then e else inner.value;
        exists order ::
          && Routes(matcher.state.groups, matcher.parsed, forwarded, order)
          && outbox == old(outbox) + ForwardedAll(CurrentView(), old(Shards()), forwarded, order,
              FirstOf(lucks, |order|))
          && Shards() == ShardsAfterAll(CurrentView(), old(Shards()), order, FirstOf(lucks, |order|))
    {
      if e.content == "" {
        var order := ForwardToMatching(e, lucks);
      } else if inner.Some? {
        var order := ForwardToMatching(inner.value, lucks);
      }
    }
  }

  // Attempts ---------------------------------------------------------------------------------

  /** The attempts that were delivered. */
  function DeliveredOnly(v: View, shards: seq<PushTimes>, order: seq<GroupId>,
          lucks: seq<Luck>): (r: (seq<GroupId>, seq<Luck>))
    requires WellSharded(shards) && |lucks| == |order|
    ensures |r.0| == |r.1|
  {
    if order == [] then ([], [])
    else
      var n := |order| - 1;
      var (gs, ls) := DeliveredOnly(v, shards, order[..n], lucks[..n]);
      if OutcomeOf(v, ShardsAfterAll(v, shards, order[..n], lucks[..n]), order[n], lucks[n]) == PushPath(Delivered)
      then (gs + [order[n]], ls + [lucks[n]]) else (gs, ls)
  }

  /** Failed, skipped and broadcast forwards leave no trace: after any attempts the limiter
      is as if only the delivered pushes had been made, so every later decision is too. */
  lemma {:induction false} OnlyDeliveredPushesCount(v: View, shards: seq<PushTimes>, order: seq<GroupId>,
          lucks: seq<Luck>, g: GroupId, luck: Luck)
    requires WellSharded(shards) && |lucks| == |order|
    ensures var (gs, ls) := DeliveredOnly(v, shards, order, lucks);
      && ShardsAfterAll(v, shards, gs, ls) == ShardsAfterAll(v, shards, order, lucks)
      && OutcomeOf(v, ShardsAfterAll(v, shards, gs, ls), g, luck)
          == OutcomeOf(v, ShardsAfterAll(v, shards, order, lucks), g, luck)
  {
    if order == [] {
    } else {
      var n := |order| - 1;
      OnlyDeliveredPushesCount(v, shards, order[..n], lucks[..n], order[n], lucks[n]);
      var (gs, ls) := DeliveredOnly(v, shards, order[..n], lucks[..n]);
      assert (gs + [order[n]])[..|gs|] == gs && (ls + [lucks[n]])[..|ls|] == ls;
    }
  }
}
