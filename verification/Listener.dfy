/** One relay's connection loop in internal/subscription/listener.go. */
module Listener {

  /** How one connectAndListen call ends: the connection or the subscription failed, the
      connection was established and later lost, or the context was cancelled. */
  datatype Session = ConnectFailed | SubscribeFailed | Lost | Cancelled

  /** One turn of the loop as the outside world decides it: whether the context is done
      before the attempt, how the session ends, whether it is done during the delay. */
  datatype Turn = Turn(doneBefore: bool, session: Session, doneInDelay: bool)

  /** Attempts made over the given turns, starting from a retry count. */
  function Attempts(turns: seq<Turn>, retries: nat, maxRetries: int): nat {
    if turns == [] || turns[0].doneBefore then 0
    else if turns[0].session.Cancelled? then 1
    else if (maxRetries > 0 && retries + 1 >= maxRetries) || turns[0].doneInDelay then 1
    else 1 + Attempts(turns[1..], retries + 1, maxRetries)
  }

  class RelayConnection {
    var retryCount: nat
    var connected: bool

    constructor ()
      ensures retryCount == 0 && !connected
    {
      retryCount, connected := 0, false;
    }

    /** connectAndListen: a session that is established sets `connected`. */
    method ConnectAndListen(session: Session) returns (failed: bool)
      modifies this`connected
      ensures failed <==> !session.Cancelled?
      ensures connected == (if session.ConnectFailed? then old(connected) else true)
    {
      if session.ConnectFailed? {
        return true;
      }
      connected := true;
      failed := !session.Cancelled?;
    }

    /** manageRelayConnection over a finite stretch of the outside world. */
    method Manage(turns: seq<Turn>, maxRetries: int) returns (attempts: nat)
      modifies this
      ensures attempts == Attempts(turns, old(retryCount), maxRetries)
      ensures attempts <= |turns|
      ensures attempts > 0 ==> (connected <==> turns[attempts - 1].session.Cancelled?)
      ensures retryCount == old(retryCount) + attempts - (if attempts > 0 && connected then 1 else 0)
    {
      attempts := 0;
      for i := 0 to |turns|
        invariant attempts + Attempts(turns[i..], retryCount, maxRetries)
            == Attempts(turns, old(retryCount), maxRetries)
        invariant retryCount == old(retryCount) + attempts && attempts == i
        invariant i > 0 ==> !connected && !turns[i - 1].session.Cancelled?
      {
        if turns[i].doneBefore {
          return;
        }
        var failed := ConnectAndListen(turns[i].session);
        attempts := attempts + 1;
        if !failed {
          return;  // the context is done, so the next select returns
        }
        connected := false;
        retryCount := retryCount + 1;
        if maxRetries > 0 && retryCount >= maxRetries {
          return;
        }
        if turns[i].doneInDelay {
          return;
        }
      }
    }
  }

  /** The loop goes on after this turn, the `n`th since the count was `retries`. */
  predicate GoesOn(turn: Turn, retries: nat, n: nat, maxRetries: int) {
    !turn.doneBefore && !turn.session.Cancelled? && !turn.doneInDelay && !(maxRetries > 0 && retries + n >= maxRetries)
  }

  predicate AllGoOn(turns: seq<Turn>, retries: nat, i: nat, maxRetries: int) {
    i <= |turns| && forall j | 0 <= j < i :: GoesOn(turns[j], retries, j + 1, maxRetries)
  }

  lemma AllGoOnTail(turns: seq<Turn>, retries: nat, i: nat, maxRetries: int)
    requires turns != [] && i > 0
    ensures AllGoOn(turns, retries, i, maxRetries) <==>
      GoesOn(turns[0], retries, 1, maxRetries) && AllGoOn(turns[1..], retries + 1, i - 1, maxRetries)
  {
    if AllGoOn(turns, retries, i, maxRetries) {
      forall j | 0 <= j < i - 1 ensures GoesOn(turns[1..][j], retries + 1, j + 1, maxRetries) {
        assert GoesOn(turns[j + 1], retries, j + 2, maxRetries);
      }
    } else if AllGoOn(turns[1..], retries + 1, i - 1, maxRetries) && GoesOn(turns[0], retries, 1, maxRetries) {
      forall j | 0 <= j < i ensures GoesOn(turns[j], retries, j + 1, maxRetries) {
        assert j > 0 ==> GoesOn(turns[1..][j - 1], retries + 1, j, maxRetries);
      }
    }
  }

  /** Turn `i` is attempted if and only if the context is not done before it and the loop went
      on after every turn before it. */
  lemma {:induction false} AttemptedIff(turns: seq<Turn>, retries: nat, maxRetries: int, i: nat)
    ensures i < Attempts(turns, retries, maxRetries) <==>
      i < |turns| && !turns[i].doneBefore && AllGoOn(turns, retries, i, maxRetries)
  {
    if turns == [] || i == 0 {
    } else {
      AttemptedIff(turns[1..], retries + 1, maxRetries, i - 1);
      AllGoOnTail(turns, retries, i, maxRetries);
    }
  }

  predicate Undisturbed(turns: seq<Turn>) {
    forall i | 0 <= i < |turns| :: !turns[i].doneBefore && !turns[i].session.Cancelled? && !turns[i].doneInDelay
  }

  /** With a positive maximum, a fresh connection is attempted at most that often over its
      whole life, however many sessions succeeded in between; undisturbed it is attempted
      exactly that often. Without one, every turn is an attempt. */
  lemma {:induction false} RetryBudget(turns: seq<Turn>, retries: nat, maxRetries: int)
    requires maxRetries > 0 ==> retries < maxRetries
    ensures maxRetries > 0 ==> Attempts(turns, retries, maxRetries) <= maxRetries - retries
    ensures Undisturbed(turns) ==>
      Attempts(turns, retries, maxRetries) ==
      (if maxRetries > 0 && maxRetries - retries < |turns| then maxRetries - retries else |turns|)
  {
    if turns != [] && !(maxRetries > 0 && retries + 1 >= maxRetries) {
      RetryBudget(turns[1..], retries + 1, maxRetries);
    }
  }
}
