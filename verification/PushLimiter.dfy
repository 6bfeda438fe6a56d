/** The sharded push rate limiter of internal/subscription/processor.go: the shard
    choice, the check before a push, the record after a successful one, the cleanup
    of old records, and its agreement with one plain map that never forgets. */
module PushLimiter {
  import opened Nostr

  /** A device token; each character stands for one byte of the Go string. */
  type Token = string
  type PushTimes = map<Token, Time>

  const SHARDS: nat := 16

  function SumBytes(token: Token, n: nat): nat
    requires n <= |token|
  {
    if n == 0 then 0 else SumBytes(token, n - 1) + token[n - 1] as nat
  }

  /** Sum of the first four bytes modulo the number of shards. */
  function ShardIndex(token: Token): (i: nat)
    ensures i < SHARDS
  {
    SumBytes(token, if |token| < 4 then |token| else 4) % SHARDS
  }

  predicate Allows(times: PushTimes, token: Token, now: Time, limit: Time) {
    token in times ==> now - times[token] >= limit
  }

  function Kept(times: PushTimes, now: Time): PushTimes {
    map token | token in times && now - times[token] <= HOUR :: times[token]
  }

  predicate WellSharded(shards: seq<PushTimes>) {
    |shards| == SHARDS
  }

  function Recorded(shards: seq<PushTimes>, token: Token, now: Time): seq<PushTimes>
    requires WellSharded(shards)
  {
    shards[ShardIndex(token) := shards[ShardIndex(token)][token := now]]
  }

  /** Shards before `n` have been cleaned up, each at its own reading of the clock. */
  function CleanedUp(shards: seq<PushTimes>, clock: seq<Time>, n: nat): (r: seq<PushTimes>)
    requires |clock| == |shards| && n <= |shards|
    ensures |r| == |shards|
    ensures forall i | 0 <= i < |shards| :: r[i] == if i < n then Kept(shards[i], clock[i]) else shards[i]
  {
    if n == 0 then shards else CleanedUp(shards, clock, n - 1)[n - 1 := Kept(shards[n - 1], clock[n - 1])]
  }

  class RateLimiter {
    const limit: Time
    const shards: array<PushTimes>

    ghost predicate Valid() {
      shards.Length == SHARDS
    }

    constructor (limit: Time)
      ensures Valid() && fresh(shards) && this.limit == limit
      ensures shards[..] == seq(SHARDS, i => map[])
    {
      this.limit := limit;
      shards := new PushTimes[SHARDS](i => map[]);
    }

    method GetShardIndex(token: Token) returns (index: nat)
      requires Valid()
      ensures index == ShardIndex(token)
    {
      var hash: nat := 0;
      var i := 0;
      while i < 4 && i < |token|
        invariant i <= 4 && i <= |token| && hash == SumBytes(token, i)
      {
        hash := hash + token[i] as nat;
        i := i + 1;
      }
      index := hash % shards.Length;
    }

    /** The check under the shard's read lock. */
    method MayPush(token: Token, now: Time) returns (allowed: bool)
      requires Valid()
      ensures allowed <==> Allows(shards[ShardIndex(token)], token, now, limit)
    {
      var i := GetShardIndex(token);
      allowed := true;
      if token in shards[i] {
        if now - shards[i][token] < limit {
          allowed := false;
        }
      }
    }

    /** The record under the shard's write lock. */
    method RecordPush(token: Token, now: Time)
      requires Valid()
      modifies shards
      ensures shards[..] == Recorded(old(shards[..]), token, now)
    {
      var i := GetShardIndex(token);
      shards[i] := shards[i][token := now];
    }

    method CleanShard(i: nat, now: Time)
      requires Valid() && i < SHARDS
      modifies shards
      ensures shards[..] == old(shards[..])[i := Kept(old(shards[i]), now)]
    {
      var pending := shards[i].Keys;
      while pending != {}
        invariant pending <= shards[i].Keys <= old(shards[i]).Keys
        invariant forall token | token in shards[i] :: shards[i][token] == old(shards[i])[token]
        invariant forall token | token in shards[i] && token !in pending :: now - shards[i][token] <= HOUR
        invariant forall token | token in old(shards[i]) && now - old(shards[i])[token] <= HOUR :: token in shards[i]
        invariant forall j | 0 <= j < SHARDS && j != i :: shards[j] == old(shards[j])
        decreases |pending|
      {
        var token :| token in pending;
        if now - shards[i][token] > HOUR {
          shards[i] := shards[i] - {token};
        }
        pending := pending - {token};
      }
      assert shards[i] == Kept(old(shards[i]), now);
    }

    /** One tick of the five-minute cleanup routine; `clock[i]` is read under lock `i`. */
    method Cleanup(clock: seq<Time>)
      requires Valid() && |clock| == SHARDS
      modifies shards
      ensures shards[..] == CleanedUp(old(shards[..]), clock, SHARDS)
    {
      for i := 0 to SHARDS
        invariant shards[..] == CleanedUp(old(shards[..]), clock, i)
      {
        ghost var was := shards[..];
        CleanShard(i, clock[i]);
        assert was[i] == old(shards[..])[i];
      }
    }
  }

  // Refinement of a plain map -------------------------------------------------------

  /** Checks, records and sweeps of single shards, in any order and from any goroutine. */
  datatype Op = Check(now: Time, token: Token) | Record(now: Time, token: Token) | Sweep(now: Time, shard: nat)

  /** The sharded limiter beside a single token-to-time map that is never swept. */
  datatype Both = Both(shards: seq<PushTimes>, plain: PushTimes)

  function Fresh(): Both {
    Both(seq(SHARDS, i => map[]), map[])
  }

  function Step(s: Both, op: Op): (t: Both)
    requires WellSharded(s.shards)
    ensures WellSharded(t.shards)
  {
    match op
    case Check(_, _) => s
    case Record(now, token) => Both(Recorded(s.shards, token, now), s.plain[token := now])
    case Sweep(now, i) => if i < SHARDS then s.(shards := s.shards[i := Kept(s.shards[i], now)]) else s
  }

  function Run(ops: seq<Op>): (t: Both)
    ensures WellSharded(t.shards)
  {
    if ops == [] then Fresh() else Step(Run(ops[..|ops| - 1]), ops[|ops| - 1])
  }

  predicate SameDecision(s: Both, op: Op, limit: Time)
    requires WellSharded(s.shards)
  {
    op.Check? ==>
      (Allows(s.shards[ShardIndex(op.token)], op.token, op.now, limit) <==> Allows(s.plain, op.token, op.now, limit))
  }

  predicate AlwaysSameDecision(ops: seq<Op>, limit: Time) {
    ops == [] ||
    (AlwaysSameDecision(ops[..|ops| - 1], limit) && SameDecision(Run(ops[..|ops| - 1]), ops[|ops| - 1], limit))
  }

  predicate Sorted(ops: seq<Op>) {
    forall i, j | 0 <= i <= j < |ops| :: ops[i].now <= ops[j].now
  }

  /** Every entry sits in the shard its token selects and agrees with the plain map; an
      entry of the plain map is missing only once it is more than an hour old. */
  predicate Agree(s: Both, now: Time)
    requires WellSharded(s.shards)
  {
    && (forall i, token | 0 <= i < SHARDS && token in s.shards[i] ::
          ShardIndex(token) == i && token in s.plain && s.plain[token] == s.shards[i][token])
    && (forall token | token in s.plain && now - s.plain[token] <= HOUR :: token in s.shards[ShardIndex(token)])
  }

  lemma DisjointIfAgree(s: Both, now: Time, i: nat, j: nat)
    requires WellSharded(s.shards) && Agree(s, now) && i < SHARDS && j < SHARDS && i != j
    ensures s.shards[i].Keys !! s.shards[j].Keys
    ensures forall token | token in s.shards[i] :: ShardIndex(token) == i
  {
    forall token | token in s.shards[i] ensures token !in s.shards[j] {
      assert ShardIndex(token) == i;
    }
  }

  /** The key sets of different shards are disjoint. */
  lemma {:induction false} ShardsDisjoint(ops: seq<Op>, i: nat, j: nat)
    requires Sorted(ops) && i < SHARDS && j < SHARDS && i != j
    ensures Run(ops).shards[i].Keys !! Run(ops).shards[j].Keys
    ensures forall token | token in Run(ops).shards[i] :: ShardIndex(token) == i
  {
    AgreeAlways(ops, if ops == [] then 0 else ops[|ops| - 1].now);
    DisjointIfAgree(Run(ops), if ops == [] then 0 else ops[|ops| - 1].now, i, j);
  }

  lemma AgreeStep(s: Both, op: Op, now: Time)
    requires WellSharded(s.shards) && Agree(s, op.now) && op.now <= now
    ensures Agree(Step(s, op), now)
  {
  }

  lemma {:induction false} AgreeAlways(ops: seq<Op>, now: Time)
    requires Sorted(ops) && (ops != [] ==> ops[|ops| - 1].now <= now)
    ensures Agree(Run(ops), now)
  {
    if ops == [] {
    } else {
      AgreeAlways(ops[..|ops| - 1], ops[|ops| - 1].now);
      AgreeStep(Run(ops[..|ops| - 1]), ops[|ops| - 1], now);
    }
  }

  lemma {:induction false} SameDecisionsWithinHour(ops: seq<Op>, limit: Time)
    requires Sorted(ops) && limit <= HOUR + 1
    ensures AlwaysSameDecision(ops, limit)
  {
    if ops == [] {
    } else {
      SameDecisionsWithinHour(ops[..|ops| - 1], limit);
      AgreeAlways(ops[..|ops| - 1], ops[|ops| - 1].now);
    }
  }

  lemma ForgottenTooSoon(limit: Time)
    requires limit > HOUR + 1
    ensures exists ops | Sorted(ops) :: !AlwaysSameDecision(ops, limit)
  {
    var token: Token := "";
    var i := ShardIndex(token);
    var ops := [Record(0, token), Sweep(HOUR + 1, i), Check(HOUR + 1, token)];
    assert ops[..2] == [Record(0, token), Sweep(HOUR + 1, i)] && ops[..2][..1] == [Record(0, token)];
    assert ops[..2][..1][..0] == [];
    assert Run(ops[..2][..1]) == Step(Fresh(), Record(0, token));
    assert Run(ops[..2]) == Step(Step(Fresh(), Record(0, token)), Sweep(HOUR + 1, i));
    assert token !in Run(ops[..2]).shards[i] && Run(ops[..2]).plain[token] == 0;
    assert Sorted(ops) && !SameDecision(Run(ops[..2]), ops[2], limit);
  }

  /** The sharded, swept limiter decides every check of every run as the plain map
      does if and only if the limit is at most one clock tick above an hour: the sweep
      only forgets records more than an hour old. */
  lemma RefinesPlainMapIffWithinHour(limit: Time)
    ensures (forall ops | Sorted(ops) :: AlwaysSameDecision(ops, limit)) <==> limit <= HOUR + 1
  {
    if limit <= HOUR + 1 {
      forall ops | Sorted(ops) ensures AlwaysSameDecision(ops, limit) {
        SameDecisionsWithinHour(ops, limit);
      }
    } else {
      ForgottenTooSoon(limit);
    }
  }
}
