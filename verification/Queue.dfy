/** The in-memory event queue of internal/subscription/memory_queue.go with atomic
    operations: specification functions on values, and the classes that implement
    them. */
module Queue {
  import opened Nostr

  type ConsumerId = string

  const TRIM_KEEP: nat := 1000

  /** A queued message. `serial` stands for the identity of the message object: it is
      the message's position in the acceptance history. */
  datatype Message = Message(event: Event, serial: nat)

  // Specification of one consumer's channel ------------------------------------

  /** A bounded channel with its history: every message offered to it (by a
      non-blocking send), received from it, or skipped because it was full. */
  datatype Mailbox = Mailbox(capacity: nat, buffer: seq<Message>,
                             offered: seq<Message>, read: seq<Message>, dropped: seq<Message>)

  function NewMailbox(capacity: nat): Mailbox {
    Mailbox(capacity, [], [], [], [])
  }

  function Offered(b: Mailbox, m: Message): Mailbox {
    if |b.buffer| < b.capacity then b.(buffer := b.buffer + [m], offered := b.offered + [m])
    else b.(dropped := b.dropped + [m], offered := b.offered + [m])
  }

  function OfferedAll(b: Mailbox, ms: seq<Message>): Mailbox {
    if ms == [] then b else Offered(OfferedAll(b, ms[..|ms| - 1]), ms[|ms| - 1])
  }

  function Received(b: Mailbox, n: nat): Mailbox
    requires n <= |b.buffer|
  {
    b.(buffer := b.buffer[n..], read := b.read + b.buffer[..n])
  }

  // Specification of the queue --------------------------------------------------

  /** `accepted` is the history of all messages ever appended to `events`. */
  datatype QueueState = QueueState(
    maxSize: nat, ttl: Time,
    events: seq<Message>, boxes: map<ConsumerId, Mailbox>, cache: map<EventId, Time>,
    accepted: seq<Message>)

  function NewQueue(maxSize: nat, ttl: Time): QueueState {
    QueueState(maxSize, ttl, [], map[], map[], [])
  }

  function Appended(events: seq<Message>, maxSize: nat, m: Message): seq<Message>
    requires maxSize >= 1
  {
    (if |events| >= maxSize then events[1..] else events) + [m]
  }

  function Trimmed(events: seq<Message>): seq<Message> {
    if |events| > TRIM_KEEP then events[|events| - TRIM_KEEP..] else events
  }

  function Swept(cache: map<EventId, Time>, now: Time, ttl: Time): map<EventId, Time> {
    map id | id in cache && now - cache[id] <= ttl :: cache[id]
  }

  function Notified(boxes: map<ConsumerId, Mailbox>, m: Message): map<ConsumerId, Mailbox> {
    map c | c in boxes :: Offered(boxes[c], m)
  }

  function Enqueued(s: QueueState, e: Event): QueueState
    requires s.maxSize >= 1
  {
    var m := Message(e, |s.accepted|);
    s.(events := Appended(s.events, s.maxSize, m), boxes := Notified(s.boxes, m), accepted := s.accepted + [m])
  }

  function EventAdded(s: QueueState, e: Event, now: Time): QueueState
    requires s.maxSize >= 1
  {
    if e.id in s.cache then s else Enqueued(s.(cache := s.cache[e.id := now]), e)
  }

  function ConsumerCreated(s: QueueState, c: ConsumerId, capacity: nat): QueueState {
    s.(boxes := s.boxes[c := OfferedAll(NewMailbox(capacity), s.events)])
  }

  function ConsumerRemoved(s: QueueState, c: ConsumerId): QueueState {
    s.(boxes := s.boxes - {c})
  }

  function Min(a: nat, b: nat): nat {
    if a < b then a else b
  }

  /** `ready` is the number of receives that succeed before the timer fires or a
      context is cancelled. */
  function Taken(b: Mailbox, count: nat, ready: nat): nat {
    Min(Min(count, ready), |b.buffer|)
  }

  /** What is selected when a read has not got all it asked for and finds no message. */
  datatype ReadEnd = TimerFires | ContextDone | ConsumerDone

  datatype ReadError = ConsumerNotFound | ContextCancelled | ConsumerCancelled

  function ErrorOf(end: ReadEnd): Option<ReadError> {
    match end
    case TimerFires => None
    case ContextDone => Some(ContextCancelled)
    case ConsumerDone => Some(ConsumerCancelled)
  }

  /** A full read and one that times out have no error. */
  function ReadErrorOf(s: QueueState, c: ConsumerId, count: nat, ready: nat, end: ReadEnd): Option<ReadError> {
    if c !in s.boxes then Some(ConsumerNotFound)
    else if Taken(s.boxes[c], count, ready) == count then None
    else ErrorOf(end)
  }

  function EventsRead(s: QueueState, c: ConsumerId, count: nat, ready: nat): QueueState {
    if c !in s.boxes then s
    else s.(boxes := s.boxes[c := Received(s.boxes[c], Taken(s.boxes[c], count, ready))])
  }

  // Implementation --------------------------------------------------------------

  class DedupeCache {
    var cache: map<EventId, Time>
    const ttl: Time

    constructor (ttl: Time)
      ensures cache == map[] && this.ttl == ttl
    {
      cache := map[];
      this.ttl := ttl;
    }

    method IsDuplicate(id: EventId) returns (duplicate: bool)
      ensures duplicate <==> id in cache
    {
      duplicate := id in cache;
    }

    method Add(id: EventId, now: Time)
      modifies this
      ensures cache == old(cache)[id := now]
    {
      cache := cache[id := now];
    }

    /** One tick of the hourly cleanup routine. */
    method Sweep(now: Time)
      modifies this
      ensures cache == Swept(old(cache), now, ttl)
    {
      var pending := cache.Keys;
      while pending != {}
        invariant pending <= cache.Keys <= old(cache).Keys
        invariant forall id | id in cache :: cache[id] == old(cache)[id]
        invariant forall id | id in cache && id !in pending :: now - cache[id] <= ttl
        invariant forall id | id in old(cache) && now - old(cache)[id] <= ttl :: id in cache
        decreases |pending|
      {
        var id :| id in pending;
        if now - cache[id] > ttl {
          cache := cache - {id};
        }
        pending := pending - {id};
      }
    }
  }

  class Consumer {
    const capacity: nat
    var buffer: seq<Message>
    var cancelled: bool
    var closed: bool
    ghost var offered: seq<Message>
    ghost var read: seq<Message>
    ghost var dropped: seq<Message>

    ghost function Box(): Mailbox
      reads this
    {
      Mailbox(capacity, buffer, offered, read, dropped)
    }

    constructor (capacity: nat)
      ensures Box() == NewMailbox(capacity) && !cancelled && !closed
    {
      this.capacity := capacity;
      cancelled, closed := false, false;
      buffer, offered, read, dropped := [], [], [], [];
    }

    /** A non-blocking send on the Messages channel, which must be open. */
    method Offer(m: Message)
      requires !closed
      modifies `buffer, `offered, `dropped
      ensures Box() == Offered(old(Box()), m)
    {
      if |buffer| < capacity {
        buffer := buffer + [m];
      } else {
        dropped := dropped + [m];
      }
      offered := offered + [m];
    }

    method Receive() returns (m: Message)
      requires buffer != []
      modifies `buffer, `read
      ensures m == old(buffer)[0] && Box() == Received(old(Box()), 1)
    {
      m := buffer[0];
      buffer := buffer[1..];
      read := read + [m];
    }

    /** The receive loop of ReadEvents: `ready` receives succeed before `end` is selected. */
    method ReceiveUpTo(count: nat, ready: nat, end: ReadEnd) returns (messages: seq<Message>, error: Option<ReadError>)
      modifies `buffer, `read
      ensures Box() == Received(old(Box()), Taken(old(Box()), count, ready))
      ensures messages == old(buffer)[..Taken(old(Box()), count, ready)]
      ensures |messages| <= count && |messages| <= ready && |messages| <= |old(buffer)|
      ensures |messages| == count || |messages| == ready || |messages| == |old(buffer)|
      ensures error == if |messages| == count then None else ErrorOf(end)
    {
      messages := [];
      var i := 0;
      while i < count
        invariant i <= Taken(old(Box()), count, ready)
        invariant Box() == Received(old(Box()), i)
        invariant messages == old(buffer)[..i]
      {
        if i >= ready || buffer == [] {
          return messages, ErrorOf(end);
        }
        assert old(buffer)[..i + 1] == old(buffer)[..i] + [buffer[0]];
        var m := Receive();
        messages := messages + [m];
        i := i + 1;
      }
      error := None;
    }

    method Close()
      modifies `cancelled, `closed
      ensures cancelled && closed
    {
      cancelled := true;
      closed := true;
    }
  }

  class MemoryQueue {
    const maxSize: nat
    const dedupe: DedupeCache
    var events: seq<Message>
    var consumers: map<ConsumerId, Consumer>
    var nextSerial: nat
    ghost var accepted: seq<Message>

    /** Distinct consumers are registered, each with its channel open. */
    ghost predicate Valid()
      reads this, consumers.Values
    {
      && maxSize >= 1
      && nextSerial == |accepted|
      && (forall c | c in consumers :: assert consumers[c] in consumers.Values; !consumers[c].closed)
      && forall c, d | c in consumers && d in consumers && c != d :: consumers[c] != consumers[d]
    }

    ghost function Boxes(): map<ConsumerId, Mailbox>
      reads this, consumers.Values
    {
      map c | c in consumers :: assert consumers[c] in consumers.Values; consumers[c].Box()
    }

    ghost function State(): QueueState
      reads this, dedupe, consumers.Values
    {
      QueueState(maxSize, dedupe.ttl, events, Boxes(), dedupe.cache, accepted)
    }

    constructor (maxSize: nat, ttl: Time)
      requires maxSize >= 1
      ensures Valid() && fresh(dedupe) && consumers == map[]
      ensures State() == NewQueue(maxSize, ttl)
    {
      this.maxSize := maxSize;
      dedupe := new DedupeCache(ttl);
      events, consumers, accepted, nextSerial := [], map[], [], 0;
    }

    method AddEvent(event: Event, now: Time)
      requires Valid()
      modifies this, dedupe, consumers.Values
      ensures Valid() && consumers == old(consumers)
      ensures State() == EventAdded(old(State()), event, now)
    {
      var duplicate := dedupe.IsDuplicate(event.id);
      if duplicate {
        return;
      }
      dedupe.Add(event.id, now);
      assert Boxes() == old(Boxes());
      Enqueue(event);
    }

    /** The part of AddEvent under eventsMu. */
    method Enqueue(event: Event)
      requires Valid()
      modifies this, consumers.Values
      ensures Valid() && consumers == old(consumers)
      ensures State() == Enqueued(old(State()), event)
    {
      var m := Message(event, nextSerial);
      Append(m);
      Notify(m);
      assert Boxes() == Notified(old(Boxes()), m);
    }

    /** The oldest message makes room in a full queue. */
    method Append(m: Message)
      requires Valid() && m.serial == nextSerial
      modifies this
      ensures Valid() && consumers == old(consumers)
      ensures Boxes() == old(Boxes())
      ensures events == Appended(old(events), maxSize, m) && accepted == old(accepted) + [m]
    {
      nextSerial := nextSerial + 1;
      if |events| >= maxSize {
        events := events[1..];
      }
      events := events + [m];
      accepted := accepted + [m];
    }

    /** The notification loop of AddEvent, in an arbitrary order of the map. */
    method Notify(m: Message)
      requires Valid()
      modifies consumers.Values
      ensures Valid() && forall c | c in consumers :: consumers[c].Box() == Offered(old(consumers[c].Box()), m)
    {
      var pending := consumers.Keys;
      while pending != {}
        invariant pending <= consumers.Keys
        invariant forall c | c in consumers :: !consumers[c].closed
        invariant forall c | c in pending :: consumers[c].Box() == old(consumers[c].Box())
        invariant forall c | c in consumers && c !in pending ::
          consumers[c].Box() == Offered(old(consumers[c].Box()), m)
        decreases |pending|
        modifies consumers.Values
      {
        var c :| c in pending;
        assert consumers[c] in consumers.Values;
        consumers[c].Offer(m);
        pending := pending - {c};
      }
    }

    /** Registers the consumer, then replays the queued events to it. */
    method CreateConsumer(id: ConsumerId, capacity: nat) returns (consumer: Consumer)
      requires Valid()
      modifies this
      ensures Valid() && fresh(consumer) && consumers == old(consumers)[id := consumer]
      ensures State() == ConsumerCreated(old(State()), id, capacity)
    {
      consumer := new Consumer(capacity);
      consumers := consumers[id := consumer];
      ReplayTo(consumer);
      assert Boxes() == old(Boxes())[id := consumer.Box()];
    }

    /** The replay loop of CreateConsumer. */
    method ReplayTo(consumer: Consumer)
      requires !consumer.closed
      modifies consumer
      ensures !consumer.closed && consumer.Box() == OfferedAll(old(consumer.Box()), events)
    {
      for i := 0 to |events|
        invariant !consumer.closed && consumer.Box() == OfferedAll(old(consumer.Box()), events[..i])
        modifies consumer
      {
        assert events[..i + 1][..i] == events[..i];
        consumer.Offer(events[i]);
      }
      assert events[..|events|] == events;
    }

    /** A registered consumer is cancelled, its channel closed, and its entry removed. */
    method RemoveConsumer(id: ConsumerId)
      requires Valid()
      modifies this, consumers.Values
      ensures Valid() && consumers == old(consumers) - {id}
      ensures State() == ConsumerRemoved(old(State()), id)
      ensures id in old(consumers) ==> old(consumers)[id].cancelled && old(consumers)[id].closed
    {
      if id in consumers {
        var consumer := consumers[id];
        assert consumer in consumers.Values;
        consumer.Close();
        assert Boxes() == old(Boxes());
        consumers := consumers - {id};
        assert Boxes() == old(Boxes()) - {id};
      }
    }

    /** `ready` receives succeed before the timer or a cancellation is selected. */
    method ReadEvents(id: ConsumerId, count: nat, ready: nat, end: ReadEnd)
      returns (messages: seq<Message>, error: Option<ReadError>)
      requires Valid()
      modifies consumers.Values
      ensures Valid() && consumers == old(consumers)
      ensures State() == EventsRead(old(State()), id, count, ready)
      ensures error == ReadErrorOf(old(State()), id, count, ready, end)
      ensures error == Some(ConsumerNotFound) <==> id !in consumers
      ensures error.None? <==> id in consumers && (|messages| == count || end.TimerFires?)
      ensures error == Some(ContextCancelled) <==> id in consumers && |messages| < count && end.ContextDone?
      ensures messages == if id in consumers
        then old(consumers[id].buffer)[..Taken(old(consumers[id].Box()), count, ready)] else []
    {
      if id !in consumers {
        return [], Some(ConsumerNotFound);
      }
      var consumer := consumers[id];
      assert consumer in consumers.Values;
      messages, error := consumer.ReceiveUpTo(count, ready, end);
      assert forall c | c in consumers && c != id :: consumers[c].Box() == old(consumers[c].Box());
      assert Boxes() == old(Boxes())[id := consumer.Box()];
    }

    /** One tick of the five-minute cleanup routine. */
    method Trim()
      requires Valid()
      modifies this
      ensures Valid() && consumers == old(consumers)
      ensures State() == old(State()).(events := Trimmed(old(events)))
      ensures |events| == Min(|old(events)|, 1000) && events == old(events)[|old(events)| - |events|..]
    {
      if |events| > TRIM_KEEP {
        events := events[|events| - TRIM_KEEP..];
      }
    }
  }
}
