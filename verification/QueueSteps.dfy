/** The event queue of internal/subscription/memory_queue.go one critical section at a
    time: any number of relay producers inside AddEvent, consumers being created and
    reading, and both cleanup routines. */
module QueueSteps {
  import opened Nostr
  import opened Queue

  /** Where a producer is inside AddEvent. From `Appended` on it holds eventsMu for
      writing, and in `Notifying` also consumersMu for reading; `todo` are the
      consumers the notification loop has not reached. `epoch` numbers the periods
      during which an event ID stays in the dedupe cache. */
  datatype Producer =
    | Idle
    | Checked(event: Event)
    | Marked(event: Event, epoch: nat)
    | Appended(message: Message)
    | Notifying(message: Message, todo: set<ConsumerId>)

  /** Where CreateConsumer is; in `Replaying` it holds eventsMu for reading. */
  datatype Phase = Registered | Replaying(done: nat) | Ready

  /** A registered consumer. `from` counts the messages whose notification loop had
      begun before registration; the replayed messages are those with serials in
      [oldest, seen). */
  datatype Member = Member(box: Mailbox, phase: Phase, from: nat, oldest: nat, seen: nat)

  datatype State = State(
    maxSize: nat, ttl: Time,
    producers: seq<Producer>,
    cache: map<EventId, Time>, epochs: map<EventId, nat>,
    marks: seq<(EventId, nat)>,       // every dedupe insertion, with its epoch
    events: seq<Message>,
    accepted: seq<Message>, origins: seq<(EventId, nat)>,
    writer: Option<nat>,              // the producer holding eventsMu
    members: map<ConsumerId, Member>)

  function Start(producers: nat, maxSize: nat, ttl: Time): State {
    State(maxSize, ttl, seq(producers, i => Idle), map[], map[], [], [], [], [], None, map[])
  }

  datatype Action =
    | Check(i: nat, event: Event)
    | Mark(i: nat, now: Time)
    | Append(i: nat)
    | BeginNotify(i: nat)
    | NotifyOne(i: nat, c: ConsumerId)
    | EndNotify(i: nat)
    | Sweep(now: Time)
    | Trim
    | Register(c: ConsumerId, capacity: nat)
    | BeginReplay(c: ConsumerId)
    | ReplayOne(c: ConsumerId)
    | EndReplay(c: ConsumerId)
    | Receive(c: ConsumerId)

  function EpochOf(s: State, id: EventId): nat {
    if id in s.epochs then s.epochs[id] else 0
  }

  predicate AnyReplaying(s: State) {
    exists c | c in s.members :: s.members[c].phase.Replaying?
  }

  predicate ConsumersLocked(s: State) {
    s.writer.Some? && s.writer.value < |s.producers| && s.producers[s.writer.value].Notifying?
  }

  function At(s: State, i: nat, p: Producer): State
    requires i < |s.producers|
  {
    s.(producers := s.producers[i := p])
  }

  /** The steps of AddEvent. A step that is not enabled, or blocked by a lock, does
      nothing, so every sequence of actions is a run. */
  function ProducerStep(s: State, a: Action): State
    requires a.Check? || a.Mark? || a.Append? || a.BeginNotify? || a.NotifyOne? || a.EndNotify?
    requires a.i < |s.producers| && s.maxSize >= 1
  {
    var p := s.producers[a.i];
    match a
    case Check(i, event) =>
      if p.Idle? && event.id !in s.cache then At(s, i, Checked(event)) else s
    case Mark(i, now) =>
      if p.Checked? then
        var id, epoch := p.event.id, EpochOf(s, p.event.id);
        At(s, i, Marked(p.event, epoch)).(cache := s.cache[id := now], marks := s.marks + [(id, epoch)])
      else s
    case Append(i) =>
      if p.Marked? && s.writer.None? && !AnyReplaying(s) then
        var m := Message(p.event, |s.accepted|);
        At(s, i, Appended(m)).(
          events := Queue.Appended(s.events, s.maxSize, m), accepted := s.accepted + [m],
          origins := s.origins + [(p.event.id, p.epoch)], writer := Some(i))
      else s
    case BeginNotify(i) =>
      if p.Appended? then At(s, i, Notifying(p.message, s.members.Keys)) else s
    case NotifyOne(i, c) =>
      if p.Notifying? && c in p.todo && c in s.members then
        At(s, i, Notifying(p.message, p.todo - {c})).(
          members := s.members[c := s.members[c].(box := Offered(s.members[c].box, p.message))])
      else s
    case EndNotify(i) =>
      if p.Notifying? && p.todo == {} then At(s, i, Idle).(writer := None) else s
  }

  function ConsumerStep(s: State, a: Action): State
    requires a.Register? || a.BeginReplay? || a.ReplayOne? || a.EndReplay? || a.Receive?
  {
    if a.Register? then
      if !ConsumersLocked(s) && (a.c in s.members ==> s.members[a.c].phase.Ready?) then
        var from := if s.writer.Some? && |s.accepted| > 0 then |s.accepted| - 1 else |s.accepted|;
        s.(members := s.members[a.c := Member(NewMailbox(a.capacity), Registered, from, 0, 0)])
      else s
    else if a.c !in s.members then s
    else
      var m := s.members[a.c];
      match a
      case BeginReplay(c) =>
        if m.phase.Registered? && s.writer.None? && |s.events| <= |s.accepted| then
          var seen := |s.accepted|;
          s.(members := s.members[c := m.(phase := Replaying(0), oldest := seen - |s.events|, seen := seen)])
        else s
      case ReplayOne(c) =>
        if m.phase.Replaying? && m.phase.done < |s.events| then
          var done := m.phase.done;
          s.(members := s.members[c := m.(phase := Replaying(done + 1), box := Offered(m.box, s.events[done]))])
        else s
      case EndReplay(c) =>
        if m.phase.Replaying? && m.phase.done >= |s.events| then
          s.(members := s.members[c := m.(phase := Ready)])
        else s
      case Receive(c) =>
        if m.box.buffer != [] then s.(members := s.members[c := m.(box := Received(m.box, 1))]) else s
      case Register(_, _) => s
  }

  function SweepStep(s: State, now: Time): State {
    var kept := Swept(s.cache, now, s.ttl);
    s.(cache := kept,
       epochs := map id | id in s.epochs.Keys + s.cache.Keys ::
         if id in s.cache && id !in kept then EpochOf(s, id) + 1 else EpochOf(s, id))
  }

  function Step(s: State, a: Action): (t: State)
    requires s.maxSize >= 1
    ensures t.maxSize == s.maxSize
  {
    match a
    case Sweep(now) => SweepStep(s, now)
    case Trim => if s.writer.None? && !AnyReplaying(s) then s.(events := Trimmed(s.events)) else s
    case Register(_, _) => ConsumerStep(s, a)
    case BeginReplay(_) => ConsumerStep(s, a)
    case ReplayOne(_) => ConsumerStep(s, a)
    case EndReplay(_) => ConsumerStep(s, a)
    case Receive(_) => ConsumerStep(s, a)
    case _ => if a.i < |s.producers| then ProducerStep(s, a) else s
  }

  function Run(s: State, actions: seq<Action>): (t: State)
    requires s.maxSize >= 1
    ensures t.maxSize == s.maxSize
  {
    if actions == [] then s else Step(Run(s, actions[..|actions| - 1]), actions[|actions| - 1])
  }
}
