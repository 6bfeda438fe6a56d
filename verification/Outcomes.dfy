/** What becomes of each forward, told by the log alone: which are dropped, which pushes are
    skipped, fail or are delivered, and how far apart the pushes to one device are. */
module Outcomes {
  import opened Nostr
  import opened Pipeline
  import L = PushLimiter
  import PushSteps
  import Matcher
  import P = Processor

  type GroupId = Matcher.GroupId
  type Groups = Matcher.Groups
  type JsonReader = Matcher.JsonReader

  // Clock readings ---------------------------------------------------------------------------------

  /** The readings of the clock that an operation's rate check, recording or sweep makes. */
  function Readings(op: Op): Option<(Time, Time)> {
    match op
    case ForwardNext(luck) => Some((luck.checkedAt, luck.recordedAt))
    case InjectNext(_, luck) => Some((luck.checkedAt, luck.recordedAt))
    case SweepPushes(_, at) => Some((at, at))
    case _ => None
  }

  function LastReading(ops: seq<Op>): Option<Time> {
    if ops == [] then None
    else if Readings(ops[|ops| - 1]).Some? then Some(Readings(ops[|ops| - 1]).value.1)
    else LastReading(ops[..|ops| - 1])
  }

  predicate NotBefore(at: Time, last: Option<Time>) {
    last.Some? ==> last.value <= at
  }

  /** No reading is earlier than one made before it. */
  predicate FollowsClock(ops: seq<Op>) {
    ops == [] ||
    (var before, op := ops[..|ops| - 1], ops[|ops| - 1];
     FollowsClock(before) &&
     (Readings(op).Some? ==> NotBefore(Readings(op).value.0, LastReading(before))
                             && Readings(op).value.0 <= Readings(op).value.1))
  }

  // The history of pushes ----------------------------------------------------------------------------

  /** The device token of the group's cached subscription. */
  function TokenOf(entry: Sent): L.Token {
    if entry.cached.Some? then entry.cached.value.token else ""
  }

  predicate Pushed(entry: Sent, token: L.Token) {
    entry.outcome == P.PushPath(P.Delivered) && TokenOf(entry) == token
  }

  /** When the last delivered push to the token was recorded. */
  function LastPush(log: seq<Sent>, token: L.Token): Option<Time> {
    if log == [] then None
    else if Pushed(log[|log| - 1], token) then Some(log[|log| - 1].luck.recordedAt)
    else LastPush(log[..|log| - 1], token)
  }

  /** A push is refused for this; `Remembered` says that no sweep can have forgotten it. */
  predicate TooSoon(last: Option<Time>, now: Time, limit: Time) {
    last.Some? && now - last.value < limit
  }

  predicate Remembered(last: Option<Time>, now: Time) {
    last.Some? && now - last.value <= HOUR
  }

  predicate Prepared(entry: Sent) {
    entry.luck.serializes && entry.luck.signs
  }

  /** The result of a push, from the entry and the history before it. */
  predicate PushExplained(before: seq<Sent>, entry: Sent, result: P.PushResult, limit: Time, hasServer: bool) {
    var last, now := LastPush(before, TokenOf(entry)), entry.luck.checkedAt;
    var addressed := hasServer && TokenOf(entry) != "";
    && (result.NoServer? <==> !hasServer)
    && (result.NoToken? <==> hasServer && TokenOf(entry) == "")
    && (result.RateLimited? ==> addressed && TooSoon(last, now, limit))
    && (addressed && TooSoon(last, now, limit) && Remembered(last, now) ==> result.RateLimited?)
    && (result.NotWrapped? <==> addressed && !result.RateLimited? && !entry.luck.wraps)
    && (result.SendFailed? <==> addressed && !result.RateLimited? && entry.luck.wraps && !entry.luck.sends)
    && (result.Delivered? <==> addressed && !result.RateLimited? && entry.luck.wraps && entry.luck.sends)
  }

  predicate Explained(before: seq<Sent>, entry: Sent, limit: Time, hasServer: bool) {
    && (entry.outcome.NotForwarded? <==> !Prepared(entry))
    && (entry.outcome.PushPath? ==> PushExplained(before, entry, entry.outcome.result, limit, hasServer))
  }

  // Invariants ---------------------------------------------------------------------------------------

  /** The shards remember exactly the last pushes, and lose them only after an hour. */
  predicate Remembers(s: State, last: Option<Time>, token: L.Token)
    requires WellFormed(s)
  {
    var times, push := s.shards[L.ShardIndex(token)], LastPush(s.log, token);
    && (token in times ==> push == Some(times[token]))
    && (push.Some? ==> last.Some? && push.value <= last.value)
    && (push.Some? && last.value - push.value <= HOUR ==> token in times)
  }

  predicate AllExplained(log: seq<Sent>, limit: Time, hasServer: bool) {
    forall k | 0 <= k < |log| :: Explained(log[..k], log[k], limit, hasServer)
  }

  /** The readings of the forwards follow each other, up to the latest one. */
  predicate InTime(log: seq<Sent>, last: Option<Time>) {
    && (log != [] ==> last.Some?)
    && (forall k | 0 <= k < |log| :: log[k].luck.checkedAt <= log[k].luck.recordedAt <= last.value)
    && (forall i, k | 0 <= i < k < |log| :: log[i].luck.recordedAt <= log[k].luck.checkedAt)
  }

  lemma {:induction false} LastPushMore(log: seq<Sent>, entry: Sent, token: L.Token)
    ensures LastPush(log + [entry], token) ==
      if Pushed(entry, token) then Some(entry.luck.recordedAt) else LastPush(log, token)
  {
    assert (log + [entry])[..|log|] == log;
  }

  lemma ForwardExplained(s: State, source: Option<nat>, injection: Option<nat>, e: Event, g: GroupId, luck: P.Luck,
          last: Option<Time>)
    requires WellFormed(s) && forall token :: Remembers(s, last, token)
    requires NotBefore(luck.checkedAt, last)
    ensures var t := ForwardTo(s, source, injection, e, g, luck);
      Explained(s.log, t.log[|s.log|], s.limit, s.hasServer)
  {
    assert Remembers(s, last, TokenOf(ForwardTo(s, source, injection, e, g, luck).log[|s.log|]));
  }

  lemma ForwardRemembers(s: State, source: Option<nat>, injection: Option<nat>, e: Event, g: GroupId, luck: P.Luck,
          last: Option<Time>, token: L.Token)
    requires WellFormed(s) && Remembers(s, last, token)
    requires NotBefore(luck.checkedAt, last) && luck.checkedAt <= luck.recordedAt
    ensures Remembers(ForwardTo(s, source, injection, e, g, luck), Some(luck.recordedAt), token)
  {
    var t := ForwardTo(s, source, injection, e, g, luck);
    LastPushMore(s.log, t.log[|s.log|], token);
  }

  /** What holds after every operation, when `last` is the latest reading of the clock. */
  ghost predicate PushHistory(s: State, last: Option<Time>) {
    WellFormed(s) && AllExplained(s.log, s.limit, s.hasServer) && InTime(s.log, last) &&
      forall token :: Remembers(s, last, token)
  }

  lemma ForwardHistory(s: State, source: Option<nat>, injection: Option<nat>, e: Event, g: GroupId, luck: P.Luck,
          last: Option<Time>)
    requires PushHistory(s, last) && NotBefore(luck.checkedAt, last) && luck.checkedAt <= luck.recordedAt
    ensures PushHistory(ForwardTo(s, source, injection, e, g, luck), Some(luck.recordedAt))
  {
    var t := ForwardTo(s, source, injection, e, g, luck);
    ForwardExplained(s, source, injection, e, g, luck, last);
    OneMoreExplained(s.log, t.log[|s.log|], s.limit, s.hasServer);
    OneMoreInTime(s.log, t.log[|s.log|], last);
    forall token ensures Remembers(t, Some(luck.recordedAt), token) {
      ForwardRemembers(s, source, injection, e, g, luck, last, token);
    }
  }

  lemma OneMoreInTime(log: seq<Sent>, entry: Sent, last: Option<Time>)
    requires InTime(log, last)
    requires NotBefore(entry.luck.checkedAt, last) && entry.luck.checkedAt <= entry.luck.recordedAt
    ensures InTime(log + [entry], Some(entry.luck.recordedAt))
  {
  }

  lemma OneMoreExplained(log: seq<Sent>, entry: Sent, limit: Time, hasServer: bool)
    requires AllExplained(log, limit, hasServer) && Explained(log, entry, limit, hasServer)
    ensures AllExplained(log + [entry], limit, hasServer)
  {
    var more := log + [entry];
    forall k | 0 <= k < |more| ensures Explained(more[..k], more[k], limit, hasServer) {
      assert more[..k] == log[..k];
    }
  }

  lemma HistoryFrame(s: State, t: State, last: Option<Time>)
    requires PushHistory(s, last) && WellFormed(t)
    requires t.log == s.log && t.shards == s.shards && t.limit == s.limit && t.hasServer == s.hasServer
    ensures PushHistory(t, last)
  {
    forall token ensures Remembers(t, last, token) {
      assert Remembers(s, last, token);
    }
  }

  /** Disabled, a forward changes nothing but the latest reading. */
  lemma LaterReading(s: State, last: Option<Time>, at: Time)
    requires PushHistory(s, last) && NotBefore(at, last)
    ensures PushHistory(s, Some(at))
  {
    forall token ensures Remembers(s, Some(at), token) {
      assert Remembers(s, last, token);
    }
  }

  lemma SweepHistory(json: JsonReader, s: State, j: nat, at: Time, last: Option<Time>)
    requires PushHistory(s, last) && NotBefore(at, last)
    ensures PushHistory(Step(json, s, SweepPushes(j, at)), Some(at))
  {
    var t := Step(json, s, SweepPushes(j, at));
    assert t == s.(shards := t.shards);
    forall token ensures Remembers(t, Some(at), token) {
      SweepRemembers(json, s, j, at, last, token);
    }
  }

  lemma SweepRemembers(json: JsonReader, s: State, j: nat, at: Time, last: Option<Time>, token: L.Token)
    requires WellFormed(s) && Remembers(s, last, token) && NotBefore(at, last)
    ensures Remembers(Step(json, s, SweepPushes(j, at)), Some(at), token)
  {
  }

  lemma QuietHistory(json: JsonReader, s: State, op: Op, last: Option<Time>)
    requires PushHistory(s, last) && Readings(op).None?
    ensures PushHistory(Step(json, s, op), last)
  {
    HistoryFrame(s, Step(json, s, op), last);
  }

  lemma ForwardNextHistory(s: State, luck: P.Luck, last: Option<Time>)
    requires PushHistory(s, last) && NotBefore(luck.checkedAt, last) && luck.checkedAt <= luck.recordedAt
    ensures PushHistory(ForwardStep(s, luck), Some(luck.recordedAt))
  {
    if s.current.Some? && s.todo != [] {
      var m := s.current.value;
      var t := ForwardTo(s, Some(m.serial), None, m.event, s.todo[0], luck);
      ForwardHistory(s, Some(m.serial), None, m.event, s.todo[0], luck, last);
      HistoryFrame(t, ForwardStep(s, luck), Some(luck.recordedAt));
    } else {
      LaterReading(s, last, luck.recordedAt);
    }
  }

  lemma InjectNextHistory(s: State, i: nat, luck: P.Luck, last: Option<Time>)
    requires PushHistory(s, last) && NotBefore(luck.checkedAt, last) && luck.checkedAt <= luck.recordedAt
    ensures PushHistory(InjectNextStep(s, i, luck), Some(luck.recordedAt))
  {
    if i < |s.injections| && s.injections[i].todo != [] {
      var j := s.injections[i];
      ForwardHistory(s, None, Some(i), j.event, j.todo[0], luck, last);
      HistoryFrame(ForwardTo(s, None, Some(i), j.event, j.todo[0], luck), InjectNextStep(s, i, luck),
                   Some(luck.recordedAt));
    } else {
      LaterReading(s, last, luck.recordedAt);
    }
  }

  lemma {:induction false} HistoryRun(json: JsonReader, s: State, ops: seq<Op>)
    requires PushHistory(s, None) && FollowsClock(ops)
    ensures PushHistory(Run(json, s, ops), LastReading(ops))
  {
    if ops == [] {
    } else {
      var before, op := ops[..|ops| - 1], ops[|ops| - 1];
      HistoryRun(json, s, before);
      HistoryStep(json, Run(json, s, before), op, LastReading(before));
    }
  }

  lemma HistoryStep(json: JsonReader, s: State, op: Op, last: Option<Time>)
    requires PushHistory(s, last)
    requires Readings(op).Some? ==>
      NotBefore(Readings(op).value.0, last) && Readings(op).value.0 <= Readings(op).value.1
    ensures PushHistory(Step(json, s, op), if Readings(op).Some? then Some(Readings(op).value.1) else last)
  {
    if op.ForwardNext? {
      ForwardNextHistory(s, op.luck, last);
    } else if op.InjectNext? {
      InjectNextHistory(s, op.i, op.luck, last);
    } else if op.SweepPushes? {
      SweepHistory(json, s, op.shard, op.at, last);
    } else {
      QuietHistory(json, s, op, last);
    }
  }

  // Main results ---------------------------------------------------------------------------------------

  /** Over every run whose readings follow the clock, every forward is explained by what the
      outside world did to it and by the pushes delivered before it. */
  lemma {:induction false} EveryOutcomeExplained(json: JsonReader, maxSize: nat, ttl: Time, now: Time, groups: Groups,
          limit: Time, hasServer: bool, ops: seq<Op>, k: nat)
    requires maxSize >= 1 && FollowsClock(ops)
    requires k < |Run(json, Start(maxSize, ttl, now, groups, limit, hasServer), ops).log|
    ensures var log := Run(json, Start(maxSize, ttl, now, groups, limit, hasServer), ops).log;
      Explained(log[..k], log[k], limit, hasServer)
  {
    var start := Start(maxSize, ttl, now, groups, limit, hasServer);
    HistoryRun(json, start, ops);
    SettingsKept(json, start, ops);
  }

  /** Two delivered pushes to one device are recorded at least the limit apart, up to an hour
      and a clock tick, whichever groups and events they are for. */
  lemma {:induction false} DeliveredPushesSpaced(json: JsonReader, maxSize: nat, ttl: Time, now: Time, groups: Groups,
          limit: Time, hasServer: bool, ops: seq<Op>, i: nat, k: nat)
    requires maxSize >= 1 && FollowsClock(ops)
    requires var log := Run(json, Start(maxSize, ttl, now, groups, limit, hasServer), ops).log;
      i < k < |log| && Pushed(log[i], TokenOf(log[k])) && Pushed(log[k], TokenOf(log[k]))
    ensures var log := Run(json, Start(maxSize, ttl, now, groups, limit, hasServer), ops).log;
      log[k].luck.recordedAt - log[i].luck.recordedAt >= if limit <= HOUR + 1 then limit else HOUR + 1
  {
    var start := Start(maxSize, ttl, now, groups, limit, hasServer);
    HistoryRun(json, start, ops);
    SettingsKept(json, start, ops);
    var s := Run(json, start, ops);
    assert Explained(s.log[..k], s.log[k], limit, hasServer);
    LastPushIsLatest(s, LastReading(ops), i, k, TokenOf(s.log[k]));
  }

  /** Once the shard has been swept more than an hour after the last push to a token, that push
      refuses no further one, however long the limit. */
  lemma SweptPushIsForgotten(json: JsonReader, s: State, last: Option<Time>, at: Time, source: Option<nat>,
          injection: Option<nat>, e: Event, g: GroupId, luck: P.Luck)
    requires PushHistory(s, last) && g in s.matcher.parsed
    requires var push := LastPush(s.log, s.matcher.parsed[g].token); push.Some? && at - push.value > HOUR
    ensures var t := Step(json, s, SweepPushes(L.ShardIndex(s.matcher.parsed[g].token), at));
      ForwardTo(t, source, injection, e, g, luck).log[|s.log|].outcome != P.PushPath(P.RateLimited)
  {
    var token := s.matcher.parsed[g].token;
    assert Remembers(s, last, token);
    var t := Step(json, s, SweepPushes(L.ShardIndex(token), at));
    assert token !in t.shards[L.ShardIndex(token)];
  }

  lemma {:induction false} LastPushIsLatest(s: State, last: Option<Time>, i: nat, k: nat, token: L.Token)
    requires i < k <= |s.log| && Pushed(s.log[i], token) && InTime(s.log, last)
    ensures var push := LastPush(s.log[..k], token);
      push.Some? && s.log[i].luck.recordedAt <= push.value
  {
    assert s.log[..k][..k - 1] == s.log[..k - 1];
    if Pushed(s.log[k - 1], token) {
      assert i == k - 1 || s.log[i].luck.recordedAt <= s.log[k - 1].luck.checkedAt;
    } else {
      LastPushIsLatest(s, last, i, k - 1, token);
    }
  }

  lemma {:induction false} SettingsKept(json: JsonReader, s: State, ops: seq<Op>)
    requires WellFormed(s)
    ensures Run(json, s, ops).limit == s.limit && Run(json, s, ops).hasServer == s.hasServer
  {
    if ops == [] {
    } else {
      SettingsKept(json, s, ops[..|ops| - 1]);
      SettingsStep(json, Run(json, s, ops[..|ops| - 1]), ops[|ops| - 1]);
    }
  }

  lemma SettingsStep(json: JsonReader, s: State, op: Op)
    requires WellFormed(s)
    ensures Step(json, s, op).limit == s.limit && Step(json, s, op).hasServer == s.hasServer
  {
  }

  /** Whatever the clock does: a forward is dropped if and only if its event does not
      serialize or its wrapper is not signed. */
  lemma {:induction false} DroppedIffUnprepared(json: JsonReader, s: State, ops: seq<Op>, k: nat)
    requires WellFormed(s) && |s.log| <= k < |Run(json, s, ops).log|
    ensures var entry := Run(json, s, ops).log[k]; entry.outcome.NotForwarded? <==> !Prepared(entry)
    decreases |ops|
  {
    var before, op := ops[..|ops| - 1], ops[|ops| - 1];
    if k < |Run(json, s, before).log| {
      DroppedIffUnprepared(json, s, before, k);
    }
    DroppedStep(json, Run(json, s, before), op, k);
  }

  lemma DroppedStep(json: JsonReader, s: State, op: Op, k: nat)
    requires WellFormed(s) && k < |Step(json, s, op).log|
    ensures var t := Step(json, s, op);
      if k < |s.log| then t.log[k] == s.log[k] else t.log[k].outcome.NotForwarded? <==> !Prepared(t.log[k])
  {
    if op.ForwardNext? {
      assert Step(json, s, op) == ForwardStep(s, op.luck);
    } else if op.InjectNext? {
      assert Step(json, s, op) == InjectNextStep(s, op.i, op.luck);
    }
  }

  // One push is one call of the step model -----------------------------------------------------------------

  /** What a call of the step model does after its check. */
  function Called(s: PushSteps.State, i: nat, token: L.Token, luck: P.Luck): PushSteps.State
    requires PushSteps.WellFormed(s) && luck.checkedAt <= luck.recordedAt
  {
    var checked := PushSteps.Step(s, PushSteps.Check(i, token));
    if checked == s then s
    else if !luck.wraps || !luck.sends then PushSteps.Step(checked, PushSteps.SendFails(i))
    else
      var sent := PushSteps.Step(checked, PushSteps.SendSucceeds(i));
      PushSteps.Step(PushSteps.Step(sent, PushSteps.Tick(luck.recordedAt - luck.checkedAt)), PushSteps.Record(i))
  }

  /** A push with a server and a token is one call of the concurrent model: refused exactly if
      the call's check is not enabled, delivered exactly if it records, with the same shards. */
  lemma PushIsOneCall(v: P.View, s: PushSteps.State, i: nat, g: GroupId, luck: P.Luck)
    requires PushSteps.WellFormed(s) && i < |s.slots| && s.slots[i].Free?
    requires v.limit == s.limit && s.now == luck.checkedAt <= luck.recordedAt
    requires v.hasServer && g in v.parsed && v.parsed[g].token != ""
    ensures var token := v.parsed[g].token;
      var result := P.PushResultOf(v, s.shards, g, luck);
      var t := Called(s, i, token, luck);
      && (result.RateLimited? <==> PushSteps.Step(s, PushSteps.Check(i, token)) == s)
      && t.shards == (if result.Delivered? then L.Recorded(s.shards, token, luck.recordedAt) else s.shards)
      && t.log == s.log + (if result.Delivered? then [PushSteps.Push(token, luck.recordedAt)] else [])
      && t.slots == s.slots
  {
    var token := v.parsed[g].token;
    assert s.slots[i := PushSteps.Sending(token)][i] != s.slots[i];
    assert s.slots[i := PushSteps.Sending(token)][i := PushSteps.Free] == s.slots;
    assert s.slots[i := PushSteps.Sending(token)][i := PushSteps.Sent(token)][i := PushSteps.Free] == s.slots;
  }
}
