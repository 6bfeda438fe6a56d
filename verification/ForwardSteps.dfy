/** The interleaved queue with the processor reading from it: how often copies of one event
    reach one group while the event's ID stays in the dedupe cache. */
module ForwardSteps {
  import opened Nostr
  import opened Queue
  import Q = QueueSteps
  import opened CopySteps
  import R = ReplaySteps
  import D = DedupeSteps
  import QueueRuns
  import P = Processor
  import Matcher

  type GroupId = Matcher.GroupId

  const PROCESSOR := P.PROCESSOR

  datatype Sent = Sent(message: Message, g: GroupId)

  /** `next` counts the messages read so far that were started or discarded; the current one
      is still to be forwarded to the groups in `todo`. */
  datatype State = State(q: Q.State, next: nat, current: Option<Message>, todo: seq<GroupId>, log: seq<Sent>)

  function Start(producers: nat, maxSize: nat, ttl: Time): State {
    State(Q.Start(producers, maxSize, ttl), 0, None, [], [])
  }

  /** `order` is whatever the matcher returns at that moment: groups without repeats. */
  datatype Action =
    | Queue(a: Q.Action)
    | StartMessage(order: seq<GroupId>)
    | Discard
    | ForwardNext
    | FinishMessage

  function MessagesRead(s: State): seq<Message> {
    if PROCESSOR in s.q.members then s.q.members[PROCESSOR].box.read else []
  }

  /** A step that is not enabled does nothing; the processor registers its consumer once. */
  function Step(s: State, a: Action): (t: State)
    requires s.q.maxSize >= 1
    ensures t.q.maxSize == s.q.maxSize
  {
    match a
    case Queue(b) =>
      if R.Registers(b, PROCESSOR) && PROCESSOR in s.q.members then s else s.(q := Q.Step(s.q, b))
    case StartMessage(order) =>
      if s.current.None? && s.next < |MessagesRead(s)| && P.NoRepeats(order) then
        s.(current := Some(MessagesRead(s)[s.next]), next := s.next + 1, todo := order)
      else s
    case Discard => if s.current.None? && s.next < |MessagesRead(s)| then s.(next := s.next + 1) else s
    case ForwardNext =>
      if s.current.Some? && s.todo != [] then
        s.(todo := s.todo[1..], log := s.log + [Sent(s.current.value, s.todo[0])])
      else s
    case FinishMessage => if s.todo == [] then s.(current := None) else s
  }

  function Run(s: State, actions: seq<Action>): (t: State)
    requires s.q.maxSize >= 1
    ensures t.q.maxSize == s.q.maxSize
  {
    if actions == [] then s else Step(Run(s, actions[..|actions| - 1]), actions[|actions| - 1])
  }

  // Forwards and copies read -------------------------------------------------------------------------

  /** Forwards to the group of messages with this origin. */
  function Forwards(log: seq<Sent>, origins: seq<Origin>, o: Origin, g: GroupId): nat {
    if log == [] then 0
    else
      var last := log[|log| - 1];
      Forwards(log[..|log| - 1], origins, o, g) + if last.g == g && IsCopy(last.message, origins, o) then 1 else 0
  }

  /** A forward of the current message to the group that is still to come. */
  function ToCome(s: State, origins: seq<Origin>, o: Origin, g: GroupId): nat {
    if s.current.Some? && g in s.todo && IsCopy(s.current.value, origins, o) then 1 else 0
  }

  /** Every copy read leads to at most one forward to the group. The origins may be those of
      a later state. */
  predicate OneEach(s: State, origins: seq<Origin>, o: Origin, g: GroupId) {
    && s.next <= |MessagesRead(s)| && P.NoRepeats(s.todo)
    && Forwards(s.log, origins, o, g) + ToCome(s, origins, o, g) <= CopiesIn(MessagesRead(s)[..s.next], origins, o)
  }

  lemma {:induction false} ForwardsMore(log: seq<Sent>, last: Sent, origins: seq<Origin>, o: Origin, g: GroupId)
    ensures Forwards(log + [last], origins, o, g) ==
      Forwards(log, origins, o, g) + if last.g == g && IsCopy(last.message, origins, o) then 1 else 0
  {
    assert (log + [last])[..|log|] == log;
  }

  lemma {:induction false} CopiesMore(ms: seq<Message>, n: nat, origins: seq<Origin>, o: Origin)
    requires n < |ms|
    ensures CopiesIn(ms[..n + 1], origins, o)
        == CopiesIn(ms[..n], origins, o) + if IsCopy(ms[n], origins, o) then 1 else 0
  {
    assert ms[..n + 1][..n] == ms[..n];
  }

  lemma ReadGrows(s: State, b: Q.Action)
    requires s.q.maxSize >= 1
    ensures var t := Step(s, Queue(b));
      && |MessagesRead(s)| <= |MessagesRead(t)|
      && MessagesRead(t)[..|MessagesRead(s)|] == MessagesRead(s)
  {
  }

  lemma OneEachQueue(s: State, b: Q.Action, origins: seq<Origin>, o: Origin, g: GroupId)
    requires s.q.maxSize >= 1 && OneEach(s, origins, o, g)
    ensures OneEach(Step(s, Queue(b)), origins, o, g)
  {
    var t := Step(s, Queue(b));
    ReadGrows(s, b);
    assert MessagesRead(t)[..s.next] == MessagesRead(t)[..|MessagesRead(s)|][..s.next];
  }

  lemma OneEachNext(s: State, a: Action, origins: seq<Origin>, o: Origin, g: GroupId)
    requires s.q.maxSize >= 1 && OneEach(s, origins, o, g) && (a.StartMessage? || a.Discard?)
    ensures OneEach(Step(s, a), origins, o, g)
  {
    if s.next < |MessagesRead(s)| {
      CopiesMore(MessagesRead(s), s.next, origins, o);
    }
  }

  lemma OneEachStep(s: State, a: Action, origins: seq<Origin>, o: Origin, g: GroupId)
    requires s.q.maxSize >= 1 && OneEach(s, origins, o, g)
    ensures OneEach(Step(s, a), origins, o, g)
  {
    match a
    case Queue(b) => OneEachQueue(s, b, origins, o, g);
    case ForwardNext =>
      if s.current.Some? && s.todo != [] {
        ForwardsMore(s.log, Sent(s.current.value, s.todo[0]), origins, o, g);
      }
    case FinishMessage =>
    case _ => OneEachNext(s, a, origins, o, g);
  }

  lemma {:induction false} OneEachRun(s: State, actions: seq<Action>, origins: seq<Origin>, o: Origin, g: GroupId)
    requires s.q.maxSize >= 1 && OneEach(s, origins, o, g)
    ensures OneEach(Run(s, actions), origins, o, g)
  {
    if actions == [] {
    } else {
      OneEachRun(s, actions[..|actions| - 1], origins, o, g);
      OneEachStep(Run(s, actions[..|actions| - 1]), actions[|actions| - 1], origins, o, g);
    }
  }

  // Copies read and copies offered ---------------------------------------------------------------------

  lemma {:induction false} MergeCopies(whole: seq<Message>, kept: seq<Message>, rest: seq<Message>,
          origins: seq<Origin>, o: Origin)
    requires QueueRuns.Merge(whole, kept, rest)
    ensures CopiesIn(whole, origins, o) == CopiesIn(kept, origins, o) + CopiesIn(rest, origins, o)
  {
    if whole == [] {
    } else {
      var init, last := whole[..|whole| - 1], whole[|whole| - 1];
      if kept != [] && kept[|kept| - 1] == last && QueueRuns.Merge(init, kept[..|kept| - 1], rest) {
        MergeCopies(init, kept[..|kept| - 1], rest, origins, o);
      } else {
        MergeCopies(init, kept, rest[..|rest| - 1], origins, o);
      }
    }
  }

  lemma {:induction false} ReadWithinOffered(b: Mailbox, n: nat, origins: seq<Origin>, o: Origin)
    requires QueueRuns.Conserved(b) && n <= |b.read|
    ensures CopiesIn(b.read[..n], origins, o) <= CopiesIn(b.offered, origins, o)
  {
    MergeCopies(b.offered, b.read + b.buffer, b.dropped, origins, o);
    CopiesConcat(b.read, b.buffer, origins, o);
    CopiesConcat(b.read[..n], b.read[n..], origins, o);
    assert b.read == b.read[..n] + b.read[n..];
  }

  lemma {:induction false} ForwardsWithinOffers(s: State, o: Origin, g: GroupId)
    requires R.Invariant(s.q) && OneEach(s, s.q.origins, o, g)
    ensures PROCESSOR !in s.q.members ==> Forwards(s.log, s.q.origins, o, g) == 0
    ensures PROCESSOR in s.q.members ==> Forwards(s.log, s.q.origins, o, g) <= OfferedCopies(s.q, PROCESSOR, o)
  {
    if PROCESSOR in s.q.members {
      assert R.MemberInvariant(s.q, PROCESSOR);
      ReadWithinOffered(s.q.members[PROCESSOR].box, s.next, s.q.origins, o);
    }
  }

  lemma {:induction false} CountedAlways(s: State, actions: seq<Action>, o: Origin)
    requires s.q.maxSize >= 1 && Counted(s.q, o)
    ensures Counted(Run(s, actions).q, o) && |Run(s, actions).q.producers| == |s.q.producers|
  {
    if actions == [] {
    } else {
      var before, a := actions[..|actions| - 1], actions[|actions| - 1];
      CountedAlways(s, before, o);
      if a.Queue? {
        CountedStep(Run(s, before).q, a.a, o);
      }
    }
  }

  lemma {:induction false} ReadyBeforeAlways(s: State, actions: seq<Action>, o: Origin)
    requires s.q.maxSize >= 1 && |s.q.origins| == |s.q.accepted| && ReadyBefore(s.q, PROCESSOR, o)
    ensures |Run(s, actions).q.origins| == |Run(s, actions).q.accepted| && ReadyBefore(Run(s, actions).q, PROCESSOR, o)
  {
    if actions == [] {
    } else {
      var before, a := actions[..|actions| - 1], actions[|actions| - 1];
      ReadyBeforeAlways(s, before, o);
      ReadyBeforeOne(Run(s, before), a, o);
    }
  }

  lemma ReadyBeforeOne(s: State, a: Action, o: Origin)
    requires s.q.maxSize >= 1 && |s.q.origins| == |s.q.accepted| && ReadyBefore(s.q, PROCESSOR, o)
    ensures |Step(s, a).q.origins| == |Step(s, a).q.accepted| && ReadyBefore(Step(s, a).q, PROCESSOR, o)
  {
    if a.Queue? {
      OriginsStep(s.q, a.a);
    }
    if a.Queue? && !R.Registers(a.a, PROCESSOR) {
      ReadyBeforeStep(s.q, a.a, PROCESSOR, o);
    }
  }

  // Main results -----------------------------------------------------------------------------------------

  /** However everything interleaves: the copies of an event that N producers get queued while
      its ID stays in the cache are forwarded to one group at most 2N times altogether. */
  lemma {:induction false} ForwardsPerEpochBounded(producers: nat, maxSize: nat, ttl: Time, actions: seq<Action>,
          o: Origin, g: GroupId)
    requires maxSize >= 1
    ensures var t := Run(Start(producers, maxSize, ttl), actions);
      Forwards(t.log, t.q.origins, o, g) <= 2 * producers
  {
    var start := Start(producers, maxSize, ttl);
    var t := Run(start, actions);
    StartCounted(producers, maxSize, ttl, o);
    CountedAlways(start, actions, o);
    OneEachRun(start, actions, t.q.origins, o, g);
    ForwardsWithinOffers(t, o, g);
    if PROCESSOR in t.q.members {
      assert R.MemberInvariant(t.q, PROCESSOR);
      OfferedTwicePerProducer(t.q, PROCESSOR, o);
    }
  }

  /** And at most N times if the processor's replay was over before the ID entered the cache;
      so with one producer at most once. */
  lemma {:induction false} ForwardsOfReadyBounded(producers: nat, maxSize: nat, ttl: Time, before: seq<Action>,
          after: seq<Action>, o: Origin, g: GroupId)
    requires maxSize >= 1
    requires var s := Run(Start(producers, maxSize, ttl), before);
      PROCESSOR in s.q.members && s.q.members[PROCESSOR].phase.Ready? && D.Inserts(s.q, o.0, o.1) == 0
    ensures var t := Run(Run(Start(producers, maxSize, ttl), before), after);
      Forwards(t.log, t.q.origins, o, g) <= producers
  {
    var start := Start(producers, maxSize, ttl);
    var s := Run(start, before);
    var t := Run(s, after);
    StartCounted(producers, maxSize, ttl, o);
    CountedAlways(start, before, o);
    CountedAlways(s, after, o);
    OneEachRun(start, before, t.q.origins, o, g);
    OneEachRun(s, after, t.q.origins, o, g);
    assert R.MemberInvariant(s.q, PROCESSOR);
    ReadyBeforeEpoch(s.q, PROCESSOR, o);
    ReadyBeforeAlways(s, after, o);
    ForwardsWithinOffers(t, o, g);
    assert R.MemberInvariant(t.q, PROCESSOR);
    OfferedOncePerProducer(t.q, PROCESSOR, o);
  }
}
