/** The check-send-record protocol of pushNotification (internal/subscription/processor.go)
    with many calls in flight: check, send and record are separate steps, the clock
    moves between them, and the cleanup routine sweeps shards at any time. */
module PushSteps {
  import opened Nostr
  import opened PushLimiter

  /** One call slot: free, past the rate check with its send under way, or sent and
      about to record. */
  datatype Slot = Free | Sending(token: Token) | Sent(token: Token)

  datatype Push = Push(token: Token, at: Time)

  /** `log` holds every recorded push, oldest first. */
  datatype State = State(limit: Time, now: Time, shards: seq<PushTimes>, slots: seq<Slot>, log: seq<Push>)

  function Start(limit: Time, now: Time, calls: nat): State {
    State(limit, now, seq(SHARDS, i => map[]), seq(calls, i => Free), [])
  }

  datatype Action =
    | Tick(ticks: nat)
    | Check(i: nat, token: Token)
    | SendSucceeds(i: nat)
    | SendFails(i: nat)
    | Record(i: nat)
    | Sweep(shard: nat)

  predicate WellFormed(s: State) {
    WellSharded(s.shards)
  }

  /** A step that is not enabled does nothing, so every sequence of actions is a run. */
  function Step(s: State, a: Action): (t: State)
    requires WellFormed(s)
    ensures WellFormed(t) && t.limit == s.limit && |t.slots| == |s.slots|
  {
    match a
    case Tick(ticks) => s.(now := s.now + ticks)
    case Check(i, token) =>
      if i < |s.slots| && s.slots[i].Free? && token != "" && Allows(s.shards[ShardIndex(token)], token, s.now, s.limit)
      then s.(slots := s.slots[i := Sending(token)]) else s
    case SendSucceeds(i) =>
      if i < |s.slots| && s.slots[i].Sending? then s.(slots := s.slots[i := Sent(s.slots[i].token)]) else s
    case SendFails(i) =>
      if i < |s.slots| && s.slots[i].Sending? then s.(slots := s.slots[i := Free]) else s
    case Record(i) =>
      if i < |s.slots| && s.slots[i].Sent? then
        var token := s.slots[i].token;
        State(s.limit, s.now, Recorded(s.shards, token, s.now), s.slots[i := Free], s.log + [Push(token, s.now)])
      else s
    case Sweep(j) =>
      if j < SHARDS then s.(shards := s.shards[j := Kept(s.shards[j], s.now)]) else s
  }

  function Run(s: State, actions: seq<Action>): (t: State)
    requires WellFormed(s)
    ensures WellFormed(t) && t.limit == s.limit && |t.slots| == |s.slots|
  {
    if actions == [] then s else Step(Run(s, actions[..|actions| - 1]), actions[|actions| - 1])
  }

  /** Calls for this token that have passed the check and not yet recorded or failed. */
  function InFlight(slots: seq<Slot>, token: Token): (n: nat)
    ensures n <= |slots|
  {
    if slots == [] then 0
    else InFlight(slots[..|slots| - 1], token) + (if IsFor(slots[|slots| - 1], token) then 1 else 0)
  }

  predicate IsFor(slot: Slot, token: Token) {
    !slot.Free? && slot.token == token
  }

  lemma {:induction false} InFlightUpdate(slots: seq<Slot>, i: nat, slot: Slot, token: Token)
    requires i < |slots|
    ensures InFlight(slots[i := slot], token) + (if IsFor(slots[i], token) then 1 else 0)
         == InFlight(slots, token) + (if IsFor(slot, token) then 1 else 0)
  {
    var n := |slots| - 1;
    if i == n {
      assert slots[i := slot][..n] == slots[..n];
    } else {
      assert slots[i := slot][..n] == slots[..n][i := slot];
      InFlightUpdate(slots[..n], i, slot, token);
    }
  }

  /** Recorded pushes to `token` with time in [from, to). */
  function PushesIn(log: seq<Push>, token: Token, from: Time, to: Time): nat {
    if log == [] then 0
    else
      var p := log[|log| - 1];
      PushesIn(log[..|log| - 1], token, from, to) + (if p.token == token && from <= p.at < to then 1 else 0)
  }

  function LastPush(log: seq<Push>, token: Token): Option<Time> {
    if log == [] then None
    else if log[|log| - 1].token == token then Some(log[|log| - 1].at)
    else LastPush(log[..|log| - 1], token)
  }

  /** The shard remembers exactly the last push, and loses it only after an hour. */
  predicate Remembers(s: State, token: Token)
    requires WellFormed(s)
  {
    var times := s.shards[ShardIndex(token)];
    && (token in times ==> LastPush(s.log, token) == Some(times[token]))
    && (LastPush(s.log, token).Some? && s.now - LastPush(s.log, token).value <= HOUR ==> token in times)
  }

  /** For the window [from, from + length): while it is open and has seen a push, the
      pushes in it and the calls still in flight together fit the number of slots. */
  predicate WindowInvariant(s: State, token: Token, from: Time, length: Time) {
    var n := PushesIn(s.log, token, from, from + length);
    && n <= |s.slots|
    && (n > 0 ==> LastPush(s.log, token).Some? && from <= LastPush(s.log, token).value)
    && (n > 0 && s.now < from + length ==> n + InFlight(s.slots, token) <= |s.slots|)
    && (LastPush(s.log, token).Some? ==> LastPush(s.log, token).value <= s.now)
  }

  lemma {:induction false} AppendPush(log: seq<Push>, p: Push, token: Token, from: Time, to: Time)
    ensures PushesIn(log + [p], token, from, to)
         == PushesIn(log, token, from, to) + (if p.token == token && from <= p.at < to then 1 else 0)
    ensures LastPush(log + [p], token) == if p.token == token then Some(p.at) else LastPush(log, token)
  {
    assert (log + [p])[..|log|] == log;
  }

  lemma RemembersStep(s: State, a: Action, token: Token)
    requires WellFormed(s) && Remembers(s, token)
    ensures Remembers(Step(s, a), token)
  {
    if a.Record? && Step(s, a) != s {
      AppendPush(s.log, Push(s.slots[a.i].token, s.now), token, 0, 0);
    }
  }

  lemma WindowCheck(s: State, i: nat, checked: Token, token: Token, from: Time, length: Time)
    requires WellFormed(s) && Remembers(s, token) && WindowInvariant(s, token, from, length)
    requires length <= s.limit && length <= HOUR + 1
    ensures WindowInvariant(Step(s, Action.Check(i, checked)), token, from, length)
  {
    var t := Step(s, Action.Check(i, checked));
    if t != s {
      InFlightUpdate(s.slots, i, t.slots[i], token);
    }
  }

  lemma WindowRecord(s: State, i: nat, token: Token, from: Time, length: Time)
    requires WellFormed(s) && WindowInvariant(s, token, from, length)
    ensures WindowInvariant(Step(s, Action.Record(i)), token, from, length)
  {
    var t := Step(s, Action.Record(i));
    if t != s {
      InFlightUpdate(s.slots, i, Free, token);
      AppendPush(s.log, Push(s.slots[i].token, s.now), token, from, from + length);
    }
  }

  lemma WindowStep(s: State, a: Action, token: Token, from: Time, length: Time)
    requires WellFormed(s) && Remembers(s, token) && WindowInvariant(s, token, from, length)
    requires length <= s.limit && length <= HOUR + 1
    ensures WindowInvariant(Step(s, a), token, from, length)
  {
    var t := Step(s, a);
    match a
    case Check(i, checked) => WindowCheck(s, i, checked, token, from, length);
    case Record(i) => WindowRecord(s, i, token, from, length);
    case SendSucceeds(i) => if t != s { InFlightUpdate(s.slots, i, t.slots[i], token); }
    case SendFails(i) => if t != s { InFlightUpdate(s.slots, i, t.slots[i], token); }
    case _ =>
  }

  lemma {:induction false} WindowAlways(limit: Time, now: Time, calls: nat, actions: seq<Action>,
                                        token: Token, from: Time, length: Time)
    requires length <= limit && length <= HOUR + 1
    ensures Remembers(Run(Start(limit, now, calls), actions), token)
    ensures WindowInvariant(Run(Start(limit, now, calls), actions), token, from, length)
  {
    if actions == [] {
    } else {
      var before := actions[..|actions| - 1];
      WindowAlways(limit, now, calls, before, token, from, length);
      RemembersStep(Run(Start(limit, now, calls), before), actions[|actions| - 1], token);
      WindowStep(Run(Start(limit, now, calls), before), actions[|actions| - 1], token, from, length);
    }
  }

  // Main results --------------------------------------------------------------------

  /** With at most `calls` push calls in flight, every half-open window no longer than
      the rate limit and the sweep's memory records at most `calls` pushes to one
      device token, whatever the groups, the send outcomes and the interleaving. */
  lemma PushesPerWindowBounded(limit: Time, now: Time, calls: nat, actions: seq<Action>,
                               token: Token, from: Time, length: Time)
    requires length <= limit && length <= HOUR + 1
    ensures PushesIn(Run(Start(limit, now, calls), actions).log, token, from, from + length) <= calls
  {
    WindowAlways(limit, now, calls, actions, token, from, length);
  }

  lemma {:induction false} CountsOne(log: seq<Push>, i: nat, token: Token, from: Time, to: Time)
    requires i < |log| && log[i].token == token && from <= log[i].at < to
    ensures PushesIn(log, token, from, to) >= 1
  {
    if i < |log| - 1 {
      CountsOne(log[..|log| - 1], i, token, from, to);
    }
  }

  lemma {:induction false} CountsTwo(log: seq<Push>, i: nat, j: nat, token: Token, from: Time, to: Time)
    requires i < j < |log| && log[i].token == token == log[j].token
    requires from <= log[i].at < to && from <= log[j].at < to
    ensures PushesIn(log, token, from, to) >= 2
  {
    if j < |log| - 1 {
      CountsTwo(log[..|log| - 1], i, j, token, from, to);
    } else {
      CountsOne(log[..|log| - 1], i, token, from, to);
    }
  }

  predicate LogSorted(s: State) {
    && (forall i, j | 0 <= i <= j < |s.log| :: s.log[i].at <= s.log[j].at)
    && (forall i | 0 <= i < |s.log| :: s.log[i].at <= s.now)
  }

  lemma LogSortedStep(s: State, a: Action)
    requires WellFormed(s) && LogSorted(s)
    ensures LogSorted(Step(s, a))
  {
  }

  lemma {:induction false} LogSortedAlways(limit: Time, now: Time, calls: nat, actions: seq<Action>)
    ensures LogSorted(Run(Start(limit, now, calls), actions))
  {
    if actions == [] {
    } else {
      LogSortedAlways(limit, now, calls, actions[..|actions| - 1]);
      LogSortedStep(Run(Start(limit, now, calls), actions[..|actions| - 1]), actions[|actions| - 1]);
    }
  }

  /** One call at a time: recorded pushes to a token are spaced by at least the limit,
      up to the sweep's memory of an hour. */
  lemma {:induction false} SequentialPushesSpaced(limit: Time, now: Time, actions: seq<Action>, i: nat, j: nat)
    requires var log := Run(Start(limit, now, 1), actions).log;
      i < j < |log| && log[i].token == log[j].token
    ensures var log := Run(Start(limit, now, 1), actions).log;
      log[j].at - log[i].at >= if limit <= HOUR + 1 then limit else HOUR + 1
  {
    var log := Run(Start(limit, now, 1), actions).log;
    var length := if limit <= HOUR + 1 then limit else HOUR + 1;
    LogSortedAlways(limit, now, 1, actions);
    if log[j].at - log[i].at < length {
      CountsTwo(log, i, j, log[i].token, log[i].at, log[i].at + length);
      PushesPerWindowBounded(limit, now, 1, actions, log[i].token, log[i].at, length);
    }
  }

  /** All calls check, then all sends succeed, then all record, at one instant. */
  function BurstAction(calls: nat, n: nat, token: Token): Action
    requires n < 3 * calls
  {
    if n < calls then Action.Check(n, token)
    else if n < 2 * calls then SendSucceeds(n - calls)
    else Action.Record(n - 2 * calls)
  }

  function SlotAfter(calls: nat, n: nat, i: nat, token: Token): Slot {
    if n <= i || n > 2 * calls + i then Free else if n <= calls + i then Sending(token) else Sent(token)
  }

  predicate BurstAt(s: State, now: Time, calls: nat, n: nat, token: Token, length: Time)
    requires n <= 3 * calls
  {
    && WellFormed(s) && s.now == now && |s.slots| == calls
    && (n <= 2 * calls ==> token !in s.shards[ShardIndex(token)])
    && (forall i: nat | i < calls :: s.slots[i] == SlotAfter(calls, n, i, token))
    && PushesIn(s.log, token, now, now + length) == if n <= 2 * calls then 0 else n - 2 * calls
  }

  lemma BurstCheckOrSend(s: State, now: Time, calls: nat, n: nat, token: Token, length: Time)
    requires n < 2 * calls && token != "" && BurstAt(s, now, calls, n, token, length)
    ensures BurstAt(Step(s, BurstAction(calls, n, token)), now, calls, n + 1, token, length)
  {
    assert s.slots[if n < calls then n else n - calls] == if n < calls then Free else Sending(token);
  }

  lemma BurstRecord(s: State, now: Time, calls: nat, n: nat, token: Token, length: Time)
    requires 2 * calls <= n < 3 * calls && length > 0 && BurstAt(s, now, calls, n, token, length)
    ensures BurstAt(Step(s, BurstAction(calls, n, token)), now, calls, n + 1, token, length)
  {
    assert s.slots[n - 2 * calls] == Sent(token);
    AppendPush(s.log, Push(token, now), token, now, now + length);
  }

  lemma BurstStep(s: State, now: Time, calls: nat, n: nat, token: Token, length: Time)
    requires n < 3 * calls && token != "" && length > 0 && BurstAt(s, now, calls, n, token, length)
    ensures BurstAt(Step(s, BurstAction(calls, n, token)), now, calls, n + 1, token, length)
  {
    if n < 2 * calls {
      BurstCheckOrSend(s, now, calls, n, token, length);
    } else {
      BurstRecord(s, now, calls, n, token, length);
    }
  }

  lemma {:induction false} BurstRun(limit: Time, now: Time, calls: nat, n: nat, token: Token, length: Time)
    returns (actions: seq<Action>)
    requires n <= 3 * calls && token != "" && length > 0
    ensures BurstAt(Run(Start(limit, now, calls), actions), now, calls, n, token, length)
  {
    var start := Start(limit, now, calls);
    if n == 0 {
      actions := [];
      BurstBegins(limit, now, calls, token, length);
    } else {
      var before := BurstRun(limit, now, calls, n - 1, token, length);
      BurstMore(start, before, now, calls, n - 1, token, length);
      actions := before + [BurstAction(calls, n - 1, token)];
    }
  }

  lemma {:induction false} BurstMore(start: State, before: seq<Action>, now: Time, calls: nat, n: nat, token: Token,
          length: Time)
    requires WellFormed(start) && n < 3 * calls && token != "" && length > 0
    requires BurstAt(Run(start, before), now, calls, n, token, length)
    ensures BurstAt(Run(start, before + [BurstAction(calls, n, token)]), now, calls, n + 1, token, length)
  {
    BurstStep(Run(start, before), now, calls, n, token, length);
    RunMore(start, before, BurstAction(calls, n, token));
  }

  lemma BurstBegins(limit: Time, now: Time, calls: nat, token: Token, length: Time)
    ensures BurstAt(Start(limit, now, calls), now, calls, 0, token, length)
  {
  }

  lemma {:induction false} RunMore(s: State, actions: seq<Action>, a: Action)
    requires WellFormed(s)
    ensures Run(s, actions + [a]) == Step(Run(s, actions), a)
  {
    assert (actions + [a])[..|actions|] == actions;
  }

  /** The bound is exact: `calls` concurrent calls can all be recorded at one instant. */
  lemma WindowBoundIsReached(limit: Time, now: Time, calls: nat, token: Token, length: Time)
    requires token != "" && length > 0
    ensures exists actions ::
      PushesIn(Run(Start(limit, now, calls), actions).log, token, now, now + length) == calls
  {
    var actions := BurstRun(limit, now, calls, 3 * calls, token, length);
  }
}
