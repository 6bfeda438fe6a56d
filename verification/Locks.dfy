/** The three read/write locks of internal/subscription/memory_queue.go: every operation as
    its sequence of lock, queue and channel steps, with the blocking rules of Go's RWMutex. */
module Locks {
  import opened Nostr

  type ConsumerId = string
  type ChannelId = nat

  datatype Lock = EventsMu | ConsumersMu | DedupeMu
  datatype Mode = Read | Write

  datatype Operation =
    | AddDuplicate
    | AddEvent
    | CreateConsumer(c: ConsumerId)
    | RemoveConsumer(c: ConsumerId)
    | ReadEvents
    | GetStats
    | TrimQueue
    | SweepCache

  datatype Instr =
    | Acquire(l: Lock, m: Mode)
    | Release(l: Lock)
    | Append
    | Shorten
    | Register(c: ConsumerId)
    | Close(c: ConsumerId)
    | Unregister(c: ConsumerId)
    | Notify
    | Replay
    | Return

  /** The instruction of an operation at a position. */
  function At(op: Operation, pos: nat): Instr {
    match op
    case AddDuplicate =>
      if pos == 0 then Acquire(DedupeMu, Read) else if pos == 1 then Release(DedupeMu) else Return
    case AddEvent =>
      if pos == 0 then Acquire(DedupeMu, Read) else if pos == 1 then Release(DedupeMu)
      else if pos == 2 then Acquire(DedupeMu, Write) else if pos == 3 then Release(DedupeMu)
      else if pos == 4 then Acquire(EventsMu, Write) else if pos == 5 then Append
      else if pos == 6 then Acquire(ConsumersMu, Read) else if pos == 7 then Notify
      else if pos == 8 then Release(ConsumersMu) else if pos == 9 then Release(EventsMu) else Return
    case CreateConsumer(c) =>
      if pos == 0 then Acquire(ConsumersMu, Write) else if pos == 1 then Register(c)
      else if pos == 2 then Release(ConsumersMu)
      else if pos == 3 then Acquire(EventsMu, Read) else if pos == 4 then Replay
      else if pos == 5 then Release(EventsMu) else Return
    case RemoveConsumer(c) =>
      if pos == 0 then Acquire(ConsumersMu, Write) else if pos == 1 then Close(c)
      else if pos == 2 then Unregister(c) else if pos == 3 then Release(ConsumersMu) else Return
    case ReadEvents =>
      if pos == 0 then Acquire(ConsumersMu, Read) else if pos == 1 then Release(ConsumersMu) else Return
    case GetStats =>
      if pos == 0 then Acquire(EventsMu, Read) else if pos == 1 then Acquire(ConsumersMu, Read)
      else if pos == 2 then Acquire(DedupeMu, Read) else if pos == 3 then Release(DedupeMu)
      else if pos == 4 then Release(ConsumersMu) else if pos == 5 then Release(EventsMu) else Return
    case TrimQueue =>
      if pos == 0 then Acquire(EventsMu, Write) else if pos == 1 then Shorten
      else if pos == 2 then Release(EventsMu) else Return
    case SweepCache =>
      if pos == 0 then Acquire(DedupeMu, Write) else if pos == 1 then Release(DedupeMu) else Return
  }

  /** The mode in which an operation holds a lock at a position. */
  function Holding(op: Operation, pos: nat, l: Lock): Option<Mode> {
    if pos == 0 then None
    else
      match At(op, pos - 1)
      case Acquire(k, m) => if k == l then Some(m) else Holding(op, pos - 1, l)
      case Release(k) => if k == l then None else Holding(op, pos - 1, l)
      case _ => Holding(op, pos - 1, l)
  }

  /** The locks are taken in this order. */
  function Rank(l: Lock): nat {
    match l case EventsMu => 0 case ConsumersMu => 1 case DedupeMu => 2
  }

  /** `announced` is set once a writer waits only for readers to leave; it then keeps new
      readers and writers out. `channel` is the one CreateConsumer has registered. `left` is
      how many queued messages a reader of the queue has yet to go through. */
  datatype Thread = Thread(op: Operation, pos: nat, announced: bool, channel: Option<ChannelId>, left: nat)

  /** `queued` is the length of the queue and `channels` counts the channels ever made;
      `panicked` records a send on a closed one by a notification, `overran` one by a replay. */
  datatype State = State(threads: seq<Thread>, maxSize: nat, queued: nat, registered: map<ConsumerId, ChannelId>,
                         closed: set<ChannelId>, channels: nat, panicked: bool, overran: bool)

  const KEPT: nat := 1000

  function Start(maxSize: nat): State {
    State([], maxSize, 0, map[], {}, 0, false, false)
  }

  function Current(t: Thread): Instr {
    At(t.op, t.pos)
  }

  function Held(t: Thread, l: Lock): Option<Mode> {
    Holding(t.op, t.pos, l)
  }

  predicate Wants(t: Thread, l: Lock) {
    Current(t).Acquire? && Current(t).l == l
  }

  predicate Announces(t: Thread, l: Lock) {
    Wants(t, l) && Current(t).m.Write? && t.announced
  }

  /** `u` keeps `t` from getting lock `l`. */
  predicate Obstructs(t: Thread, u: Thread, l: Lock) {
    Wants(t, l) &&
    (if Current(t).m.Read? then Held(u, l) == Some(Write) || Announces(u, l)
     else if !t.announced then Held(u, l) == Some(Write) || Announces(u, l)
     else Held(u, l).Some?)
  }

  predicate Blocked(s: State, i: nat)
    requires i < |s.threads|
  {
    Current(s.threads[i]).Acquire? &&
    exists j | 0 <= j < |s.threads| && j != i :: Obstructs(s.threads[i], s.threads[j], Current(s.threads[i]).l)
  }

  datatype Action = Spawn(op: Operation) | Go(i: nat) | SendTo(i: nat, c: ConsumerId)

  function Moved(s: State, i: nat): State
    requires i < |s.threads|
  {
    s.(threads := s.threads[i := s.threads[i].(pos := s.threads[i].pos + 1, announced := false)])
  }

  /** One message is offered to the channel a replay belongs to. */
  function Replayed(s: State, i: nat): State
    requires i < |s.threads| && s.threads[i].left > 0
  {
    var t := s.threads[i];
    s.(threads := s.threads[i := t.(left := t.left - 1)],
       overran := s.overran || (t.channel.Some? && t.channel.value in s.closed))
  }

  /** A blocked or finished thread does nothing, so every sequence of actions is a run. */
  function Step(s: State, a: Action): State {
    match a
    case Spawn(op) => s.(threads := s.threads + [Thread(op, 0, false, None, 0)])
    case SendTo(i, c) =>
      if i < |s.threads| && Current(s.threads[i]).Notify? && c in s.registered && s.registered[c] in s.closed
      then s.(panicked := true) else s
    case Go(i) =>
      if i >= |s.threads| || Blocked(s, i) then s
      else
        match Current(s.threads[i])
        case Return => s
        case Acquire(_, Write) =>
          if s.threads[i].announced then Moved(s, i)
          else s.(threads := s.threads[i := s.threads[i].(announced := true)])
        case Acquire(EventsMu, Read) =>
          var t := s.threads[i].(pos := s.threads[i].pos + 1, announced := false, left := s.queued);
          s.(threads := s.threads[i := t])
        case Append => Moved(s, i).(queued := if s.queued >= s.maxSize then s.queued else s.queued + 1)
        case Shorten => Moved(s, i).(queued := if s.queued > KEPT then KEPT else s.queued)
        case Replay => if s.threads[i].left > 0 then Replayed(s, i) else Moved(s, i)
        case Register(c) =>
          var t := s.threads[i].(pos := s.threads[i].pos + 1, announced := false, channel := Some(s.channels));
          s.(threads := s.threads[i := t], registered := s.registered[c := s.channels], channels := s.channels + 1)
        case Close(c) => if c in s.registered then Moved(s, i).(closed := s.closed + {s.registered[c]}) else Moved(s, i)
        case Unregister(c) => Moved(s, i).(registered := s.registered - {c})
        case _ => Moved(s, i)
  }

  function Run(s: State, actions: seq<Action>): State {
    if actions == [] then s else Step(Run(s, actions[..|actions| - 1]), actions[|actions| - 1])
  }

  // What the programs guarantee --------------------------------------------------------------

  /** Where each operation holds each lock. */
  function HoldingTable(op: Operation, pos: nat, l: Lock): Option<Mode> {
    match (op, l)
    case (AddDuplicate, DedupeMu) => if pos == 1 then Some(Read) else None
    case (AddEvent, DedupeMu) => if pos == 1 then Some(Read) else if pos == 3 then Some(Write) else None
    case (AddEvent, EventsMu) => if 5 <= pos <= 9 then Some(Write) else None
    case (AddEvent, ConsumersMu) => if 7 <= pos <= 8 then Some(Read) else None
    case (CreateConsumer(_), ConsumersMu) => if 1 <= pos <= 2 then Some(Write) else None
    case (CreateConsumer(_), EventsMu) => if 4 <= pos <= 5 then Some(Read) else None
    case (RemoveConsumer(_), ConsumersMu) => if 1 <= pos <= 3 then Some(Write) else None
    case (ReadEvents, ConsumersMu) => if pos == 1 then Some(Read) else None
    case (GetStats, EventsMu) => if 1 <= pos <= 5 then Some(Read) else None
    case (GetStats, ConsumersMu) => if 2 <= pos <= 4 then Some(Read) else None
    case (GetStats, DedupeMu) => if pos == 3 then Some(Read) else None
    case (TrimQueue, EventsMu) => if 1 <= pos <= 2 then Some(Write) else None
    case (SweepCache, DedupeMu) => if pos == 1 then Some(Write) else None
    case _ => None
  }

  lemma {:induction false} HoldingIsTable(op: Operation, pos: nat, l: Lock)
    ensures Holding(op, pos, l) == HoldingTable(op, pos, l)
  {
    if pos == 0 {
    } else {
      HoldingIsTable(op, pos - 1, l);
    }
  }

  /** An operation that wants or announces a lock holds only locks of lower rank, one that
      holds a lock is not finished, the queue is changed under its write lock and replayed
      under its read lock, and the map of consumers is changed under its write lock and read
      for sending under its read lock. */
  lemma {:induction false} LocksInOrder(op: Operation, pos: nat, l: Lock)
    ensures At(op, pos).Acquire? && Holding(op, pos, l).Some? ==> Rank(l) < Rank(At(op, pos).l)
    ensures Holding(op, pos, l).Some? ==> !At(op, pos).Return?
    ensures At(op, pos).Register? || At(op, pos).Close? || At(op, pos).Unregister? ==>
        Holding(op, pos, ConsumersMu) == Some(Write)
    ensures At(op, pos).Notify? ==> Holding(op, pos, ConsumersMu) == Some(Read)
    ensures At(op, pos).Append? || At(op, pos).Shorten? ==> Holding(op, pos, EventsMu) == Some(Write)
    ensures At(op, pos).Replay? ==> Holding(op, pos, EventsMu) == Some(Read)
  {
    HoldingIsTable(op, pos, l);
    HoldingIsTable(op, pos, ConsumersMu);
    HoldingIsTable(op, pos, EventsMu);
  }

  /** Close is followed by Unregister of the same consumer. */
  lemma CloseThenUnregister(op: Operation, pos: nat)
    ensures At(op, pos).Close? ==> At(op, pos + 1) == Unregister(At(op, pos).c)
    ensures At(op, pos).Unregister? ==> pos > 0 && At(op, pos - 1) == Close(At(op, pos).c)
  {
  }

  // Progress ------------------------------------------------------------------------------------

  /** How far along the lock order a waiting thread is. */
  function Level(t: Thread): nat
    requires Current(t).Acquire?
  {
    2 * Rank(Current(t).l) + if Announces(t, Current(t).l) then 1 else 0
  }

  /** A thread that another one waits for is either able to move or waits further along. */
  lemma ObstructionAscends(t: Thread, u: Thread, l: Lock)
    requires Obstructs(t, u, l)
    ensures !Current(u).Return?
    ensures Current(u).Acquire? ==> Level(u) > Level(t)
  {
    LocksInOrder(u.op, u.pos, l);
  }

  /** Lock waits never form a cycle. */
  lemma {:induction false} WaitsAreAcyclic(s: State, path: seq<nat>)
    requires |path| >= 2 && forall k | 0 <= k < |path| :: path[k] < |s.threads|
    requires forall k | 0 <= k < |path| - 1 ::
      Current(s.threads[path[k]]).Acquire? &&
      Obstructs(s.threads[path[k]], s.threads[path[k + 1]], Current(s.threads[path[k]]).l)
    ensures path[0] != path[|path| - 1]
    ensures Current(s.threads[path[|path| - 1]]).Acquire? ==>
      Level(s.threads[path[|path| - 1]]) > Level(s.threads[path[0]])
  {
    var n := |path| - 1;
    ObstructionAscends(s.threads[path[n - 1]], s.threads[path[n]], Current(s.threads[path[n - 1]]).l);
    if n > 1 {
      WaitsAreAcyclic(s, path[..n]);
    }
  }

  predicate Unfinished(t: Thread) {
    !Current(t).Return?
  }

  predicate CanMove(s: State, i: nat)
    requires i < |s.threads|
  {
    Unfinished(s.threads[i]) && !Blocked(s, i)
  }

  /** Following the waits from any unfinished thread leads to one that can move: the thread
      itself, or one that obstructs another. */
  lemma {:induction false} SomeoneCanMove(s: State, i: nat) returns (j: nat)
    requires i < |s.threads| && Unfinished(s.threads[i])
    ensures j < |s.threads| && CanMove(s, j)
    ensures j == i || exists t, l :: Obstructs(t, s.threads[j], l)
    decreases if Current(s.threads[i]).Acquire? then 6 - Level(s.threads[i]) else 0
  {
    if !Blocked(s, i) {
      return i;
    }
    var k :| 0 <= k < |s.threads| && k != i && Obstructs(s.threads[i], s.threads[k], Current(s.threads[i]).l);
    ObstructionAscends(s.threads[i], s.threads[k], Current(s.threads[i]).l);
    if Blocked(s, k) {
      j := SomeoneCanMove(s, k);
    } else {
      j := k;
    }
  }

  /** The queue never deadlocks: while any operation is unfinished, some step changes the
      state. */
  lemma NoDeadlock(s: State, i: nat)
    requires i < |s.threads| && Unfinished(s.threads[i])
    ensures exists j :: Step(s, Go(j)) != s
  {
    var j := SomeoneCanMove(s, i);
    assert Step(s, Go(j)).threads[j] != s.threads[j];
  }

  // Exclusion and open channels --------------------------------------------------------------------

  predicate Excludes(t: Thread, u: Thread) {
    forall l: Lock ::
      && (Held(t, l) == Some(Write) ==> Held(u, l).None? && !Announces(u, l))
      && (Announces(t, l) ==> !Announces(u, l) && Held(u, l) != Some(Write))
  }

  predicate Exclusive(s: State) {
    forall i, j | 0 <= i < |s.threads| && 0 <= j < |s.threads| && i != j :: Excludes(s.threads[i], s.threads[j])
  }

  /** A registered channel is open, unless its remover is about to unregister it. */
  predicate ChannelsOpen(s: State) {
    && (forall c | c in s.registered :: s.registered[c] < s.channels)
    && (forall ch | ch in s.closed :: ch < s.channels)
    && (forall c, d | c in s.registered && d in s.registered && c != d :: s.registered[c] != s.registered[d])
    && (forall c | c in s.registered && s.registered[c] in s.closed ::
          exists i | 0 <= i < |s.threads| :: Current(s.threads[i]) == Unregister(c))
    && !s.panicked
  }

  function HeldNext(t: Thread, l: Lock): Option<Mode> {
    match Current(t)
    case Acquire(k, m) => if k == l then Some(m) else Held(t, l)
    case Release(k) => if k == l then None else Held(t, l)
    case _ => Held(t, l)
  }

  /** `t'` is `t` past its current instruction. */
  predicate Next(t: Thread, t': Thread) {
    t'.op == t.op && t'.pos == t.pos + 1 && !t'.announced
  }

  lemma HeldAfterMove(t: Thread, t': Thread, l: Lock)
    requires Next(t, t')
    ensures Held(t', l) == HeldNext(t, l) && !Announces(t', l)
  {
  }

  /** A thread that moves past an acquisition it was not blocked on, or releases, or does
      anything else, still excludes the others. */
  lemma ExcludesMoved(t: Thread, t': Thread, u: Thread)
    requires Next(t, t') && Excludes(t, u) && Excludes(u, t)
    requires Current(t).Acquire? ==> !Obstructs(t, u, Current(t).l) && (Current(t).m.Write? ==> t.announced)
    ensures Excludes(t', u) && Excludes(u, t')
  {
    forall l: Lock ensures Held(t', l) == HeldNext(t, l) && !Announces(t', l) {
      HeldAfterMove(t, t', l);
    }
  }

  /** So does a writer that announces itself. */
  lemma ExcludesAnnounced(t: Thread, u: Thread)
    requires Excludes(t, u) && Excludes(u, t) && Current(t).Acquire? && Current(t).m.Write?
    requires !t.announced && !Obstructs(t, u, Current(t).l)
    ensures Excludes(t.(announced := true), u) && Excludes(u, t.(announced := true))
  {
    forall l: Lock ensures Held(t.(announced := true), l) == Held(t, l) {}
  }

  /** A step moves its thread on, announces it or goes on with its replay, if nobody obstructs it. */
  lemma GoMoves(s: State, i: nat)
    requires i < |s.threads| && Step(s, Go(i)) != s
    ensures |Step(s, Go(i)).threads| == |s.threads|
    ensures forall j | 0 <= j < |s.threads| && j != i :: Step(s, Go(i)).threads[j] == s.threads[j]
    ensures var t := s.threads[i];
      && !Current(t).Return?
      && (Current(t).Acquire? ==>
            forall j | 0 <= j < |s.threads| && j != i :: !Obstructs(t, s.threads[j], Current(t).l))
      && MovesTo(t, Step(s, Go(i)).threads[i])
  {
    MovesAlone(s, i);
    ThreadMoves(s, i);
  }

  predicate MovesTo(t: Thread, t': Thread) {
    if Current(t).Acquire? && Current(t).m.Write? && !t.announced then t' == t.(announced := true)
    else if Current(t).Replay? && t.left > 0 then t' == t.(left := t.left - 1)
    else Next(t, t')
  }

  lemma MovesAlone(s: State, i: nat)
    requires i < |s.threads|
    ensures |Step(s, Go(i)).threads| == |s.threads|
    ensures forall j | 0 <= j < |s.threads| && j != i :: Step(s, Go(i)).threads[j] == s.threads[j]
  {
  }

  lemma ThreadMoves(s: State, i: nat)
    requires i < |s.threads| && Step(s, Go(i)) != s
    ensures |Step(s, Go(i)).threads| == |s.threads| && MovesTo(s.threads[i], Step(s, Go(i)).threads[i])
  {
  }

  /** Sending a message changes no lock. */
  lemma ExcludesSent(t: Thread, t': Thread, u: Thread)
    requires Excludes(t, u) && Excludes(u, t)
    requires t'.op == t.op && t'.pos == t.pos && t'.announced == t.announced
    ensures Excludes(t', u) && Excludes(u, t')
  {
    forall l: Lock ensures Held(t', l) == Held(t, l) {}
  }

  lemma ExcludesAfterMove(s: State, i: nat, j: nat)
    requires i < |s.threads| && j < |s.threads| && i != j && Exclusive(s)
    requires Step(s, Go(i)) != s
    ensures Excludes(Step(s, Go(i)).threads[i], s.threads[j]) && Excludes(s.threads[j], Step(s, Go(i)).threads[i])
  {
    var t, u, t' := s.threads[i], s.threads[j], Step(s, Go(i)).threads[i];
    GoMoves(s, i);
    assert Excludes(t, u) && Excludes(u, t);
    if Current(t).Acquire? && Current(t).m.Write? && !t.announced {
      ExcludesAnnounced(t, u);
    } else if Current(t).Replay? && t.left > 0 {
      ExcludesSent(t, t', u);
    } else {
      ExcludesMoved(t, t', u);
    }
  }

  lemma ExclusiveStep(s: State, a: Action)
    requires Exclusive(s)
    ensures Exclusive(Step(s, a))
  {
    var t := Step(s, a);
    forall i, j | 0 <= i < |t.threads| && 0 <= j < |t.threads| && i != j
      ensures Excludes(t.threads[i], t.threads[j])
    {
      if a.Go? && t != s {
        GoMoves(s, a.i);
        if i == a.i {
          ExcludesAfterMove(s, i, j);
        } else if j == a.i {
          ExcludesAfterMove(s, j, i);
        }
      }
    }
  }

  /** While some thread notifies, nobody is between closing and unregistering a consumer. */
  lemma NotifyingExcludesRemoval(s: State, i: nat, r: nat)
    requires Exclusive(s) && i < |s.threads| && r < |s.threads| && Current(s.threads[i]).Notify?
    ensures !Current(s.threads[r]).Unregister?
  {
    if r != i {
      LocksInOrder(s.threads[i].op, s.threads[i].pos, ConsumersMu);
      LocksInOrder(s.threads[r].op, s.threads[r].pos, ConsumersMu);
      assert Excludes(s.threads[r], s.threads[i]);
      assert Held(s.threads[i], ConsumersMu) == Some(Read);
      assert Held(s.threads[r], ConsumersMu) != Some(Write);
    }
  }

  lemma ChannelsOpenStep(s: State, a: Action)
    requires Exclusive(s) && ChannelsOpen(s)
    ensures ChannelsOpen(Step(s, a))
  {
    var t := Step(s, a);
    if a.Go? && t != s {
      ChannelsOpenGo(s, a.i);
    } else if a.SendTo? && a.i < |s.threads| && Current(s.threads[a.i]).Notify? {
      forall r: nat | r < |s.threads| ensures !Current(s.threads[r]).Unregister? {
        NotifyingExcludesRemoval(s, a.i, r);
      }
    } else if a.Spawn? {
      forall c | c in s.registered && s.registered[c] in s.closed
        ensures exists i | 0 <= i < |t.threads| :: Current(t.threads[i]) == Unregister(c)
      {
        var r :| 0 <= r < |s.threads| && Current(s.threads[r]) == Unregister(c);
        assert Current(t.threads[r]) == Unregister(c);
      }
    }
  }

  lemma ChannelsOpenGo(s: State, i: nat)
    requires Exclusive(s) && ChannelsOpen(s) && i < |s.threads| && Step(s, Go(i)) != s
    ensures ChannelsOpen(Step(s, Go(i)))
  {
    GoMoves(s, i);
    match Current(s.threads[i])
    case Register(c) => ChannelsOpenRegister(s, i, c);
    case Close(c) => ChannelsOpenClose(s, i, c);
    case Unregister(c) => ChannelsOpenUnregister(s, i, c);
    case _ => ChannelsOpenOther(s, i);
  }

  /** Another thread about to unregister `c` still is. */
  lemma StillUnregisters(s: State, i: nat, c: ConsumerId)
    requires i < |s.threads| && Step(s, Go(i)) != s && Current(s.threads[i]) != Unregister(c)
    requires exists r | 0 <= r < |s.threads| :: Current(s.threads[r]) == Unregister(c)
    ensures var t := Step(s, Go(i)); exists r | 0 <= r < |t.threads| :: Current(t.threads[r]) == Unregister(c)
  {
    GoMoves(s, i);
    var r :| 0 <= r < |s.threads| && Current(s.threads[r]) == Unregister(c);
    assert Step(s, Go(i)).threads[r] == s.threads[r];
  }

  lemma ChannelsOpenOther(s: State, i: nat)
    requires ChannelsOpen(s) && i < |s.threads| && Step(s, Go(i)) != s
    requires var c := Current(s.threads[i]); !c.Register? && !c.Close? && !c.Unregister?
    ensures ChannelsOpen(Step(s, Go(i)))
  {
    var t := Step(s, Go(i));
    assert t.registered == s.registered && t.closed == s.closed && t.channels == s.channels && t.panicked == s.panicked;
    forall c | c in t.registered && t.registered[c] in t.closed
      ensures exists r | 0 <= r < |t.threads| :: Current(t.threads[r]) == Unregister(c)
    {
      StillUnregisters(s, i, c);
    }
  }

  lemma ChannelsOpenRegister(s: State, i: nat, c: ConsumerId)
    requires ChannelsOpen(s) && i < |s.threads| && Current(s.threads[i]) == Register(c) && Step(s, Go(i)) != s
    ensures ChannelsOpen(Step(s, Go(i)))
  {
    var t := Step(s, Go(i));
    forall d | d in t.registered && t.registered[d] in t.closed
      ensures exists r | 0 <= r < |t.threads| :: Current(t.threads[r]) == Unregister(d)
    {
      StillUnregisters(s, i, d);
    }
  }

  lemma ChannelsOpenClose(s: State, i: nat, c: ConsumerId)
    requires ChannelsOpen(s) && i < |s.threads| && Current(s.threads[i]) == Close(c) && Step(s, Go(i)) != s
    ensures ChannelsOpen(Step(s, Go(i)))
  {
    var t := Step(s, Go(i));
    CloseThenUnregister(s.threads[i].op, s.threads[i].pos);
    assert Current(t.threads[i]) == Unregister(c);
    forall d | d in t.registered && t.registered[d] in t.closed
      ensures exists r | 0 <= r < |t.threads| :: Current(t.threads[r]) == Unregister(d)
    {
      if d != c {
        StillUnregisters(s, i, d);
      }
    }
  }

  lemma ChannelsOpenUnregister(s: State, i: nat, c: ConsumerId)
    requires ChannelsOpen(s) && i < |s.threads| && Current(s.threads[i]) == Unregister(c) && Step(s, Go(i)) != s
    ensures ChannelsOpen(Step(s, Go(i)))
  {
    var t := Step(s, Go(i));
    forall d | d in t.registered && t.registered[d] in t.closed
      ensures exists r | 0 <= r < |t.threads| :: Current(t.threads[r]) == Unregister(d)
    {
      StillUnregisters(s, i, d);
    }
  }

  lemma {:induction false} SafeAlways(maxSize: nat, actions: seq<Action>)
    ensures Exclusive(Run(Start(maxSize), actions)) && ChannelsOpen(Run(Start(maxSize), actions))
  {
    if actions == [] {
    } else {
      var before := Run(Start(maxSize), actions[..|actions| - 1]);
      SafeAlways(maxSize, actions[..|actions| - 1]);
      ExclusiveStep(before, actions[|actions| - 1]);
      ChannelsOpenStep(before, actions[|actions| - 1]);
    }
  }

  /** In every run writers exclude everyone else, no notification ever sends on a closed
      channel, and while nobody is inside RemoveConsumer every registered channel is open. */
  lemma {:induction false} NoSendOnClosedChannel(maxSize: nat, actions: seq<Action>)
    ensures var s := Run(Start(maxSize), actions);
      && !s.panicked
      && (forall i, j, l | 0 <= i < |s.threads| && 0 <= j < |s.threads| && i != j
          && Held(s.threads[i], l) == Some(Write) ::
            Held(s.threads[j], l).None?)
      && ((forall i | 0 <= i < |s.threads| :: !Current(s.threads[i]).Unregister?) ==>
            forall c | c in s.registered :: s.registered[c] !in s.closed)
  {
    SafeAlways(maxSize, actions);
    var s := Run(Start(maxSize), actions);
    forall i, j, l | 0 <= i < |s.threads| && 0 <= j < |s.threads| && i != j && Held(s.threads[i], l) == Some(Write)
      ensures Held(s.threads[j], l).None?
    {
      assert Excludes(s.threads[i], s.threads[j]);
    }
  }
}
