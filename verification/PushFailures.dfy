/** Failed sends leave no trace: deleting every call whose send fails from a run of concurrent
    pushes changes no record and no other decision. */
module PushFailures {
  import opened Nostr
  import L = PushLimiter
  import opened PushSteps

  /** The next send of call slot `i` to end is a failure. */
  predicate FailsNext(future: seq<Action>, i: nat) {
    future != [] &&
    match future[0]
    case SendFails(j) => j == i || FailsNext(future[1..], i)
    case SendSucceeds(j) => j != i && FailsNext(future[1..], i)
    case _ => FailsNext(future[1..], i)
  }

  /** Failing sends, and checks of calls whose send will fail. */
  predicate Fails(a: Action, future: seq<Action>) {
    a.SendFails? || (a.Check? && FailsNext(future, a.i))
  }

  /** The run without them; `future` is what follows `actions`. */
  function WithoutFailures(actions: seq<Action>, future: seq<Action>): seq<Action> {
    if actions == [] then []
    else
      var last := actions[|actions| - 1];
      WithoutFailures(actions[..|actions| - 1], [last] + future) + if Fails(last, future) then [] else [last]
  }

  /** `t` is `s` without the calls under way whose send will fail. */
  predicate SameButFailing(s: State, t: State, future: seq<Action>) {
    && t.limit == s.limit && t.now == s.now && t.shards == s.shards && t.log == s.log && |t.slots| == |s.slots|
    && forall i: nat | i < |s.slots| ::
         t.slots[i] == if s.slots[i].Sending? && FailsNext(future, i) then Free else s.slots[i]
  }

  lemma {:induction false} FailsNextTail(a: Action, future: seq<Action>, i: nat)
    ensures FailsNext([a] + future, i) ==
      if a == SendFails(i) then true else if a == SendSucceeds(i) then false else FailsNext(future, i)
  {
    assert ([a] + future)[1..] == future;
  }

  lemma SameAfterStep(s: State, t: State, a: Action, future: seq<Action>)
    requires WellFormed(s) && WellFormed(t) && SameButFailing(s, t, [a] + future)
    ensures SameButFailing(Step(s, a), if Fails(a, future) then t else Step(t, a), future)
  {
    forall i: nat | i < |s.slots|
      ensures FailsNext([a] + future, i) ==
        if a == SendFails(i) then true else if a == SendSucceeds(i) then false else FailsNext(future, i)
    {
      FailsNextTail(a, future, i);
    }
  }

  /** At every point of every run, whatever follows: with the failing calls deleted the limiter,
      the log and the clock are the same, a slot is the same unless its call is one of those,
      and every check of a free slot is decided the same. */
  lemma {:induction false} FailedSendsLeaveNoTrace(limit: Time, now: Time, calls: nat, actions: seq<Action>,
          future: seq<Action>)
    ensures var s := Run(Start(limit, now, calls), actions);
      var t := Run(Start(limit, now, calls), WithoutFailures(actions, future));
      && SameButFailing(s, t, future)
      && forall i: nat, token | i < |s.slots| && s.slots[i].Free? && token != "" ::
           (Step(t, Check(i, token)) != t <==> Step(s, Check(i, token)) != s)
    ensures forall a | a in WithoutFailures(actions, future) :: !a.SendFails?
  {
    NoFailuresLeft(actions, future);
    var start := Start(limit, now, calls);
    if actions == [] {
    } else {
      var before, a := actions[..|actions| - 1], actions[|actions| - 1];
      FailedSendsLeaveNoTrace(limit, now, calls, before, [a] + future);
      var kept := WithoutFailures(before, [a] + future);
      SameAfterStep(Run(start, before), Run(start, kept), a, future);
      RunMore(start, kept, a);
      assert kept + [] == kept;
    }
    SameDecisions(Run(start, actions), Run(start, WithoutFailures(actions, future)), future);
  }

  lemma SameDecisions(s: State, t: State, future: seq<Action>)
    requires WellFormed(s) && WellFormed(t) && SameButFailing(s, t, future)
    ensures forall i: nat, token | i < |s.slots| && s.slots[i].Free? && token != "" ::
      (Step(t, Check(i, token)) != t <==> Step(s, Check(i, token)) != s)
  {
    forall i: nat, token | i < |s.slots| && s.slots[i].Free? && token != ""
      ensures Step(t, Check(i, token)) != t <==> Step(s, Check(i, token)) != s
    {
      DecidedByLimiter(s, i, token);
      DecidedByLimiter(t, i, token);
    }
  }

  lemma DecidedByLimiter(s: State, i: nat, token: L.Token)
    requires WellFormed(s) && i < |s.slots| && s.slots[i].Free? && token != ""
    ensures Step(s, Check(i, token)) != s <==> L.Allows(s.shards[L.ShardIndex(token)], token, s.now, s.limit)
  {
    assert s.slots[i := Sending(token)][i] != s.slots[i];
  }

  /** Nothing fails in what is left of a whole run. */
  lemma {:induction false} NoFailuresLeft(actions: seq<Action>, future: seq<Action>)
    ensures forall a | a in WithoutFailures(actions, future) :: !a.SendFails?
  {
    if actions == [] {
    } else {
      NoFailuresLeft(actions[..|actions| - 1], [actions[|actions| - 1]] + future);
    }
  }
}
