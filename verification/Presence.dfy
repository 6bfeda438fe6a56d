/** The online map of internal/subscription/presence.go with atomic operations:
    one int32 counter per public key, created on the first increment and deleted
    when a decrement brings it to zero or below. */
module Presence {

  type Pubkey = string
  type ConnId = nat
  type Counts = map<Pubkey, int>

  const INT32_MAX: int := 0x7FFF_FFFF

  /** Wrap-around of atomic.AddInt32, whose deltas here are 1 and -1. */
  function Wrap32(n: int): int {
    if n > INT32_MAX then n - 0x1_0000_0000
    else if n < -INT32_MAX - 1 then n + 0x1_0000_0000
    else n
  }

  function CountOf(counts: Counts, pubkey: Pubkey): int {
    if pubkey in counts then counts[pubkey] else 0
  }

  function Incremented(counts: Counts, pubkey: Pubkey): Counts {
    if pubkey == "" then counts else counts[pubkey := Wrap32(CountOf(counts, pubkey) + 1)]
  }

  function Decremented(counts: Counts, pubkey: Pubkey): Counts {
    if pubkey == "" || pubkey !in counts then counts
    else if Wrap32(counts[pubkey] - 1) <= 0 then counts - {pubkey}
    else counts[pubkey := Wrap32(counts[pubkey] - 1)]
  }

  class OnlineMap {
    var counts: Counts

    constructor ()
      ensures counts == map[]
    {
      counts := map[];
    }

    method Increment(pubkey: Pubkey)
      modifies this
      ensures counts == Incremented(old(counts), pubkey)
    {
      if pubkey == "" {
        return;
      }
      if pubkey !in counts {
        counts := counts[pubkey := 0];
      }
      counts := counts[pubkey := Wrap32(counts[pubkey] + 1)];
    }

    method Decrement(pubkey: Pubkey)
      modifies this
      ensures counts == Decremented(old(counts), pubkey)
    {
      if pubkey == "" {
        return;
      }
      if pubkey in counts {
        counts := counts[pubkey := Wrap32(counts[pubkey] - 1)];
        if counts[pubkey] <= 0 {
          counts := counts - {pubkey};
        }
      }
    }

    method IsOnline(pubkey: Pubkey) returns (online: bool)
      ensures online <==> pubkey in counts
    {
      online := pubkey in counts;
    }

    method OnlineCount(pubkey: Pubkey) returns (n: int)
      ensures n == CountOf(counts, pubkey)
    {
      n := if pubkey in counts then counts[pubkey] else 0;
    }
  }

  // Runs of whole connections -------------------------------------------------

  /** `Counted` is the connect hook's increment once the client has authenticated,
      `Disconnected` is the disconnect hook; each with the public key it read. */
  datatype ConnEvent = Counted(k: ConnId, pubkey: Pubkey) | Disconnected(k: ConnId, pubkey: Pubkey)

  /** `counted` holds every connection that was counted and `closed` every one that has
      disconnected; `open` holds those that were counted and not closed, with their keys. */
  datatype Tracker = Tracker(counts: Counts, open: map<ConnId, Pubkey>, counted: set<ConnId>, closed: set<ConnId>)

  const NOBODY := Tracker(map[], map[], {}, {})

  /** A connection is counted at most once, under a non-empty key. The disconnect hook
      decrements the key it reads itself, whether or not the connection was ever counted or
      counted under that key, and the polling goroutine may still count a connection that
      has closed. */
  function Step(s: Tracker, e: ConnEvent): Tracker {
    match e
    case Counted(k, pubkey) =>
      if k in s.counted || pubkey == "" then s
      else Tracker(Incremented(s.counts, pubkey), if k in s.closed then s.open else s.open[k := pubkey],
                   s.counted + {k}, s.closed)
    case Disconnected(k, pubkey) =>
      Tracker(Decremented(s.counts, pubkey), s.open - {k}, s.counted, s.closed + {k})
  }

  function Run(s: Tracker, events: seq<ConnEvent>): Tracker {
    if events == [] then s else Step(Run(s, events[..|events| - 1]), events[|events| - 1])
  }

  function Live(s: Tracker, pubkey: Pubkey): set<ConnId> {
    set k | k in s.open && s.open[k] == pubkey
  }

  /** The reports of IsOnline and OnlineCount agree with the live connections. */
  predicate Accurate(s: Tracker, pubkey: Pubkey) {
    && CountOf(s.counts, pubkey) == |Live(s, pubkey)|
    && (pubkey in s.counts <==> Live(s, pubkey) != {})
  }

  /** A connection closes that is not open, being uncounted or closed before, while the key
      has an entry. */
  predicate ClosesUncounted(s: Tracker, e: ConnEvent, pubkey: Pubkey) {
    e.Disconnected? && e.pubkey == pubkey && e.k !in s.open && pubkey in s.counts
  }

  /** A connection closes under another key than it was counted under: away from this key, or
      under this key while it has an entry. */
  predicate ClosesUnderOther(s: Tracker, e: ConnEvent, pubkey: Pubkey) {
    && e.Disconnected? && e.k in s.open && s.open[e.k] != e.pubkey
    && (s.open[e.k] == pubkey || (e.pubkey == pubkey && pubkey in s.counts))
  }

  /** A connection is counted that has already closed. */
  predicate CountsLate(s: Tracker, e: ConnEvent, pubkey: Pubkey) {
    e.Counted? && e.pubkey == pubkey && e.k in s.closed && e.k !in s.counted
  }

  predicate InOrder(s: Tracker, e: ConnEvent, pubkey: Pubkey) {
    !ClosesUncounted(s, e, pubkey) && !ClosesUnderOther(s, e, pubkey) && !CountsLate(s, e, pubkey)
  }

  /** Open connections are the counted ones that have not closed. */
  predicate Consistent(s: Tracker) {
    s.open.Keys == s.counted - s.closed
  }

  lemma {:induction false} ConsistentAlways(s: Tracker, events: seq<ConnEvent>)
    requires Consistent(s)
    ensures Consistent(Run(s, events))
  {
    if events == [] {
    } else {
      ConsistentAlways(s, events[..|events| - 1]);
    }
  }

  lemma {:induction false} Subset<T>(a: set<T>, b: set<T>)
    requires a <= b
    ensures |a| <= |b|
  {
    assert b == a + (b - a);
  }

  /** One step from an accurate state: accuracy is kept exactly when the step is neither the
      disconnect of an uncounted connection under an existing entry, nor a disconnect under
      another key than counted, nor a late count. */
  lemma AccurateStep(s: Tracker, e: ConnEvent, pubkey: Pubkey)
    requires pubkey != "" && Consistent(s) && Accurate(s, pubkey) && |Live(s, pubkey)| < INT32_MAX
    ensures Accurate(Step(s, e), pubkey) <==> InOrder(s, e, pubkey)
  {
    match e
    case Counted(k, p) => AccurateCounted(s, k, p, pubkey);
    case Disconnected(k, p) => AccurateDisconnected(s, k, p, pubkey);
  }

  lemma IncrementedCount(counts: Counts, p: Pubkey, pubkey: Pubkey)
    requires pubkey != "" && 0 <= CountOf(counts, pubkey) < INT32_MAX
    ensures var counts' := Incremented(counts, p);
      && CountOf(counts', pubkey) == CountOf(counts, pubkey) + (if p == pubkey then 1 else 0)
      && (pubkey in counts' <==> pubkey in counts || p == pubkey)
  {
  }

  lemma AccurateCounted(s: Tracker, k: ConnId, p: Pubkey, pubkey: Pubkey)
    requires pubkey != "" && Consistent(s) && Accurate(s, pubkey) && |Live(s, pubkey)| < INT32_MAX
    ensures Accurate(Step(s, Counted(k, p)), pubkey) <==> !CountsLate(s, Counted(k, p), pubkey)
  {
    var t := Step(s, Counted(k, p));
    if k !in s.counted {
      IncrementedCount(s.counts, p, pubkey);
      if p == pubkey && k !in s.closed {
        assert Live(t, pubkey) == Live(s, pubkey) + {k};
      } else {
        assert Live(t, pubkey) == Live(s, pubkey);
      }
    }
  }

  lemma AccurateDisconnected(s: Tracker, k: ConnId, p: Pubkey, pubkey: Pubkey)
    requires pubkey != "" && Consistent(s) && Accurate(s, pubkey) && |Live(s, pubkey)| < INT32_MAX
    ensures var e := Disconnected(k, p);
      Accurate(Step(s, e), pubkey) <==> !ClosesUncounted(s, e, pubkey) && !ClosesUnderOther(s, e, pubkey)
  {
    var t := Step(s, Disconnected(k, p));
    assert CountOf(t.counts, pubkey) ==
      CountOf(s.counts, pubkey) - if p == pubkey && pubkey in s.counts then 1 else 0;
    if k in Live(s, pubkey) {
      assert Live(t, pubkey) == Live(s, pubkey) - {k};
      assert |Live(t, pubkey)| == |Live(s, pubkey)| - 1;
    } else {
      assert Live(t, pubkey) == Live(s, pubkey);
    }
  }

  predicate AlwaysAccurate(s: Tracker, events: seq<ConnEvent>, pubkey: Pubkey) {
    && Accurate(Run(s, events), pubkey)
    && (events == [] || AlwaysAccurate(s, events[..|events| - 1], pubkey))
  }

  predicate AlwaysInOrder(s: Tracker, events: seq<ConnEvent>, pubkey: Pubkey) {
    events == [] ||
    (var before := events[..|events| - 1];
     AlwaysInOrder(s, before, pubkey) && InOrder(Run(s, before), events[|events| - 1], pubkey))
  }

  /** Before every event the key has fewer live connections than an int32 can count. */
  predicate FewLive(s: Tracker, events: seq<ConnEvent>, pubkey: Pubkey) {
    events == [] ||
    (var before := events[..|events| - 1];
     FewLive(s, before, pubkey) && |Live(Run(s, before), pubkey)| < INT32_MAX)
  }

  /** Presence is accurate throughout a run of whole operations if and only if no connection
      disconnects uncounted under the key while it has an entry, none changes from or to the
      key between its hooks, and none is counted after it has closed. */
  lemma {:induction false} AccurateIffInOrder(s: Tracker, events: seq<ConnEvent>, pubkey: Pubkey)
    requires pubkey != "" && Consistent(s) && Accurate(s, pubkey) && FewLive(s, events, pubkey)
    ensures AlwaysAccurate(s, events, pubkey) <==> AlwaysInOrder(s, events, pubkey)
  {
    if events == [] {
    } else {
      var before := events[..|events| - 1];
      AccurateIffInOrder(s, before, pubkey);
      ConsistentAlways(s, before);
      if AlwaysAccurate(s, before, pubkey) {
        AccurateStep(Run(s, before), events[|events| - 1], pubkey);
      }
    }
  }

  /** The same from start-up on. */
  lemma {:induction false} AccurateFromStartIffInOrder(events: seq<ConnEvent>, pubkey: Pubkey)
    requires pubkey != "" && FewLive(NOBODY, events, pubkey)
    ensures AlwaysAccurate(NOBODY, events, pubkey) <==> AlwaysInOrder(NOBODY, events, pubkey)
  {
    assert Live(NOBODY, pubkey) == {};
    AccurateIffInOrder(NOBODY, events, pubkey);
  }

  // What one event out of order leads to -------------------------------------------

  /** The counter is off by `off`, and the entry exists while it is positive. */
  predicate OffBy(s: Tracker, pubkey: Pubkey, off: int) {
    && Consistent(s) && |Live(s, pubkey)| < INT32_MAX
    && CountOf(s.counts, pubkey) == |Live(s, pubkey)| + off
    && (pubkey in s.counts <==> |Live(s, pubkey)| + off > 0)
  }

  lemma OffAfter(s: Tracker, e: ConnEvent, pubkey: Pubkey) returns (off: int)
    requires pubkey != "" && Consistent(s) && Accurate(s, pubkey) && |Live(s, pubkey)| < INT32_MAX
    requires !InOrder(s, e, pubkey)
    ensures OffBy(Step(s, e), pubkey, off) && (off == 1 || (off == -1 && Live(Step(s, e), pubkey) != {}))
  {
    if ClosesUnderOther(s, e, pubkey) && s.open[e.k] == pubkey {
      assert Live(Step(s, e), pubkey) == Live(s, pubkey) - {e.k};
      off := 1;
    } else {
      assert Live(Step(s, e), pubkey) == Live(s, pubkey);
      off := if e.Counted? then 1 else -1;
    }
  }

  /** Presence says online with nobody live, or offline with somebody live. */
  predicate Misreported(s: Tracker, pubkey: Pubkey) {
    pubkey in s.counts <==> Live(s, pubkey) == {}
  }

  lemma CloseOne(s: Tracker, pubkey: Pubkey, off: int, k: ConnId)
    requires pubkey != "" && OffBy(s, pubkey, off) && (off == 1 || off == -1) && k in Live(s, pubkey)
    requires |Live(s, pubkey)| + off > 0
    ensures var e := Disconnected(k, pubkey);
      && InOrder(s, e, pubkey) && OffBy(Step(s, e), pubkey, off)
      && Live(Step(s, e), pubkey) == Live(s, pubkey) - {k}
  {
    assert Live(Step(s, Disconnected(k, pubkey)), pubkey) == Live(s, pubkey) - {k};
  }

  /** Closing live connections one by one, all in order, turns a wrong count into a wrong report. */
  lemma {:induction false} LeadsToMisreport(s: Tracker, pubkey: Pubkey, off: int) returns (events: seq<ConnEvent>)
    requires pubkey != "" && OffBy(s, pubkey, off) && (off == 1 || (off == -1 && Live(s, pubkey) != {}))
    ensures AlwaysInOrder(s, events, pubkey) && FewLive(s, events, pubkey) && Misreported(Run(s, events), pubkey)
    decreases |Live(s, pubkey)|
  {
    if |Live(s, pubkey)| == (if off == 1 then 0 else 1) {
      events := [];
    } else {
      assert Live(s, pubkey) != {};
      var k :| k in Live(s, pubkey);
      var e := Disconnected(k, pubkey);
      CloseOne(s, pubkey, off, k);
      var rest := LeadsToMisreport(Step(s, e), pubkey, off);
      events := [e] + rest;
      InOrderConcat(s, e, rest, pubkey);
    }
  }

  lemma {:induction false} InOrderConcat(s: Tracker, e: ConnEvent, rest: seq<ConnEvent>, pubkey: Pubkey)
    requires InOrder(s, e, pubkey) && |Live(s, pubkey)| < INT32_MAX
    requires AlwaysInOrder(Step(s, e), rest, pubkey) && FewLive(Step(s, e), rest, pubkey)
    ensures Run(s, [e] + rest) == Run(Step(s, e), rest)
    ensures AlwaysInOrder(s, [e] + rest, pubkey) && FewLive(s, [e] + rest, pubkey)
  {
    if rest == [] {
      assert [e] + rest == [e] && [e][..0] == [];
    } else {
      assert ([e] + rest)[..|rest|] == [e] + rest[..|rest| - 1];
      InOrderConcat(s, e, rest[..|rest| - 1], pubkey);
    }
  }
}
