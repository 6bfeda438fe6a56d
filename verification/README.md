# Verification of the Nopu event path

Nopu pulls events from several relays, drops duplicates, queues them, matches them against
the subscriptions its NIP-29 groups keep in their About fields, and broadcasts each match or
pushes it to a device. These Dafny modules model that path and prove what it guarantees.

`dafny verify dfyconfig.toml` checks everything. Every component that goroutines share is
modelled twice, except the device registry, whose methods each run under one lock.

1. With whole operations: a class whose methods have the source's branches and loops, proved
   against specification functions on values, and theorems about every run of those functions.
   A run is a sequence of operations; one that is not enabled changes nothing.
2. Interleaved: a state machine with one step per critical section or atomic operation, where
   the locks, program counters and histories are part of the state, built from the same
   specification functions, and theorems about every sequence of steps. The steps of one
   operation, run alone, are the whole operation (`PresenceSteps.IncrementAlone`,
   `QueueRefinement.AddAlone`, `Outcomes.PushIsOneCall`, `MatcherSteps.HandlerAlone`).

| component | whole operations | interleaved |
|---|---|---|
| presence counters | `Presence` | `PresenceSteps` |
| event queue, deduplication, consumers | `Queue`, `QueueRuns` | `QueueSteps`, `QueueRefinement`, `DedupeSteps`, `ReplaySteps`, `CopySteps`, `CopyBounds` |
| locks of the queue | | `Locks`, `ReplaySends` |
| push rate limiter | `PushLimiter` | `PushSteps`, `PushFailures` |
| filters, subscription requests, matcher cache | `Matching`, `Req`, `Matcher` | `MatcherSteps`, `Convergence` |
| device registry | `DeviceStore` | |
| relay connection loop | `Listener` | |
| forwarding, end to end | `Processor`, `Pipeline`, `Delivery`, `AllGroups`, `LateCopies`, `EarlyCopies`, `Routing`, `Outcomes`, `Reads`, `Injected`, `Components` | `ForwardSteps`, `ForwardBounds` |

`Nostr` holds events and filters. Filters match as section "Communication between clients and
relays" of NIP-01 says; kinds 9002, 9007 and 9008 are those of section "Moderation events" of
NIP-29.

## What turned out false, and when it holds

- "Forwarded at most once per group within the TTL" fails for two reasons.
  1. Concurrency. AddEvent checks, inserts and enqueues in three critical sections, and
     CreateConsumer registers and replays in two. N relays delivering one event get up to N copies
     past the check, and a replay can offer each again. `ForwardSteps` bounds the forwards of one
     event to one group while its ID stays in the cache: 2N, or N if the processor was ready
     before. `ForwardBounds` reaches both.
  2. Lag, even with AddEvent and CreateConsumer whole: after a sweep an ID is accepted again while
     an older copy still waits. For whole operations `EarlyCopies.AtMostOnceIffOneReaches` gives
     the exact condition at acceptance, and `LateCopies.LaggingProcessorHoldsTwoCopies` a run that
     violates it.
- "A live connection is reported online" holds for whole operations exactly when no connection
  closes uncounted under an existing entry, none is counted under one key and closed under another,
  and none is counted after it has closed (`Presence.AccurateIffInOrder`): the disconnect hook
  decrements the key it reads then, even if the connect hook never incremented or incremented
  another, and the polling goroutine may increment after the hook. The same condition decides
  whether forwards are broadcast to live groups (`Routing.RoutedIffInOrder`). Interleaved, a quiet
  key is offline unless an increment begins after its own hook or under another key
  (`PresenceSteps.QuietKeyIsOffline`), and each of those leaves an entry behind
  (`PresenceSteps.StrayIncrementsLeaveEntries`). A live key is offline after a hook deletes its
  entry under a live connection, which an increment that overlaps the hook allows
  (`PresenceSteps.LiveOnlineIffNeverHidden`, `PresenceSteps.OverlapHidesLive`).
- "Every message the processor reads is forwarded" fails when a cancellation cuts a read short: what
  it had received is discarded. Nothing is lost exactly if that never happens
  (`Reads.NothingLostIffNeverDiscards`).
- The sharded limiter equals a plain map exactly up to a limit of an hour and one clock tick
  (`PushLimiter.RefinesPlainMapIffWithinHour`), since the sweep keeps records exactly an hour old.
- The matcher cache converges exactly if no group is created again before its removal was handled
  and no edit changes what an About parses to without a refresh of it
  (`Convergence.ConvergesIffDisciplined`). Startup loading is no such refresh for a group that was
  deleted and created again meanwhile, because it may have passed the group while it was gone.
- A replay sends on an open channel if RemoveConsumer waits for it; a removal that comes before
  the replay has looked at the queue, or while it has messages left, can always be followed by a
  send on a closed one (`ReplaySends`).
- The bounds on concurrent producers and concurrent pushes are exact: `DedupeSteps.BoundIsReached`
  and `PushSteps.WindowBoundIsReached` reach them.

## Where code and documentation disagree

The model follows the code.

- The comments in `internal/subscription/group.go` name kinds 20284 to 20286 for the handlers;
  `internal/subscription/server.go` calls them for 9007, 9002 and 9008.
- The repository's README sends a push when no member of the group is online; the code asks
  whether the group ID itself is a connected public key.
- The repository's README says a 9002 carries the new filters; the handler validates the tag in
  the event but caches the About the relay state holds when it runs.

## Assumptions

- Time is an integer number of nanoseconds and never goes backwards. Clock readings are
  parameters of the operations.
- Strings are byte strings, one character per byte. JSON is a datatype; reading a text as JSON is
  a parameter. JSON null decodes to the zero filter, as Go's decoder leaves it. Numbers are
  integers.
- `maxSize >= 1`: with zero the source slices an empty list.
- A key has fewer than 2^31 - 1 live connections at any time, and an interleaved presence run as
  many steps, so that counters stay within int32. The wrap-around itself is modelled.
- Sends, signing and serialization succeed or fail arbitrarily; so do timeouts and cancellations.
- Maps are ranged over in an arbitrary order.
- Device registration IDs are fresh, as the server generates them. The registry's own operations
  do not rely on it.
- A tag name in an encoded filter is not empty.

## Model

| member | source | states |
|---|---|---|
| `Presence.OnlineMap.Increment` | internal/subscription/presence.go:16-22 | the counter of a non-empty key grows by one in int32, from a new counter if there was none; the empty key changes nothing |
| `Presence.OnlineMap.Decrement` | internal/subscription/presence.go:25-34 | an existing counter shrinks by one and its entry goes once it is zero or below; a missing entry and the empty key change nothing |
| `Presence.OnlineMap.IsOnline` | internal/subscription/presence.go:37-40 | online means an entry exists, whatever its value |
| `Presence.OnlineMap.OnlineCount` | internal/subscription/presence.go:43-48 | the counter, or zero without an entry |
| `Presence.AccurateStep` | internal/subscription/presence.go:16-34 | a step keeps presence equal to the live connections exactly when it is none of: the disconnect, under the key and its entry, of a connection that is not open; a disconnect whose hook reads another key than was counted, if either is this key; the count of a connection that has already closed |
| `Presence.AccurateIffInOrder` | internal/subscription/presence.go:52-101 | over every run of whole operations, a key has an entry exactly while it has a live counted connection and the count is their number, if and only if no connection closes uncounted under the key and its entry, none changes to or from the key between its hooks, and none is counted after it closed |
| `Presence.LeadsToMisreport` | internal/subscription/presence.go:16-40 | one event out of order can always be followed by ordinary disconnects after which IsOnline is wrong |
| `PresenceSteps.InvariantStep` | internal/subscription/presence.go:16-34 | every single map or atomic operation keeps: each cell, orphaned or not, is its additions minus its subtractions; a mapped cell is taken and loaded under one key only; for a key without increments astray its takers subtract from the cell they took, and a cell at zero or below that was subtracted from is about to be deleted |
| `PresenceSteps.QuietKeyIsOffline` | internal/subscription/presence.go:16-34 | in every interleaving, once a key has no live connection and nothing in flight it has no entry, if each increment of that key begins before its own disconnect hook and that hook reads the same key, whatever other keys and uncounted connections do |
| `PresenceSteps.StrayIncrementsLeaveEntries` | internal/subscription/presence.go:52-101 | the proviso is needed: from any state where no hook is due to decrement a key, and until one is, the key has an entry if and only if it had one or an increment of it has begun, and each such increment violates the proviso |
| `PresenceSteps.LateIncrementLeavesEntry` | internal/subscription/presence.go:60-100 | in every state where a key is quiet, an increment of it begun after the disconnect hook leaves the key quiet with an entry |
| `PresenceSteps.SwitchedKeyLeavesEntry` | internal/subscription/presence.go:82-98 | in every state where a key is quiet, a connection counted under it whose disconnect hook reads another key leaves it quiet with an entry |
| `PresenceSteps.IncrementAlone` | internal/subscription/presence.go:16-22 | from every state, an increment whose operations run alone changes the counters as the whole operation does |
| `PresenceSteps.DecrementAlone` | internal/subscription/presence.go:25-34 | and so does a disconnect hook: an entry stays while its count is positive |
| `PresenceSteps.DeletesOnlyWhatItEmptied` | internal/subscription/presence.go:29-33 | in every interleaving a hook is about to delete an entry only if its own subtraction brought the cell to zero or below |
| `PresenceSteps.LiveOnlineIffNeverHidden` | internal/subscription/presence.go:16-40 | in every interleaving, a key with a live counted connection always has an entry if and only if no hook deletes its entry under a live connection and none is counted while its entry is gone |
| `PresenceSteps.OverlapHidesLive` | internal/subscription/presence.go:16-34 | that does happen, from every state in which the key has no entry: a hook and an increment that overlap leave the live connection offline |
| `Queue.DedupeCache.IsDuplicate` | internal/subscription/memory_queue.go:216-222 | duplicate means the ID has an entry, however old |
| `Queue.DedupeCache.Add` | internal/subscription/memory_queue.go:225-230 | the ID is cached at the current time, replacing an earlier time |
| `Queue.DedupeCache.Sweep` | internal/subscription/memory_queue.go:233-247 | the loop over a changing map removes exactly the entries older than the TTL |
| `Queue.Consumer.Offer` | internal/subscription/memory_queue.go:118-122 | a non-blocking send: appended if the channel has room, otherwise skipped |
| `Queue.Consumer.ReceiveUpTo` | internal/subscription/memory_queue.go:184-197 | the receive loop takes the oldest buffered messages, as many as count, time and buffer allow and no fewer, and reports how a short read ended |
| `Queue.MemoryQueue.AddEvent` | internal/subscription/memory_queue.go:76-127 | a duplicate changes nothing; any other event is cached, appended after evicting the oldest message of a full queue, and offered once to every consumer |
| `Queue.MemoryQueue.Notify` | internal/subscription/memory_queue.go:116-124 | whatever order the map is ranged in, every consumer is offered the message once |
| `Queue.MemoryQueue.CreateConsumer` | internal/subscription/memory_queue.go:130-157 | the new consumer replaces one of the same ID and is offered every queued message, oldest first |
| `Queue.MemoryQueue.RemoveConsumer` | internal/subscription/memory_queue.go:160-168 | a registered consumer is cancelled, its channel closed and its entry removed; everything else is as before |
| `Queue.MemoryQueue.ReadEvents` | internal/subscription/memory_queue.go:171-198 | an unknown consumer gives its error; a known one gets the front of its own channel, without error exactly if the read is full or the timer ends it; no other channel changes |
| `Queue.MemoryQueue.Trim` | internal/subscription/memory_queue.go:201-213 | exactly the newest thousand messages stay, or all if there are fewer |
| `QueueRuns.EventsAreNewestAccepted` | internal/subscription/memory_queue.go:104-113 | after any run the queue is the newest part of the acceptance history, between min(n, maxSize, 1000) and min(n, maxSize) messages long |
| `QueueRuns.TrimKeepsNewest` | internal/subscription/memory_queue.go:201-213 | after any run, a trim leaves the last min(length, 1000) messages accepted |
| `QueueRuns.OfferedQueueThenAccepted` | internal/subscription/memory_queue.go:116-157 | a consumer is offered what was queued at its creation and then every event accepted, in order and once each, over every continuation |
| `QueueRuns.ReplayDeliversOldestFirst` | internal/subscription/memory_queue.go:145-154 | replay into an empty channel delivers exactly the oldest retained messages that fit, in order, and offers all of them |
| `QueueRuns.OfferConserves` | internal/subscription/memory_queue.go:115-124 | a message is dropped exactly when the buffer holds capacity messages, and conservation is kept |
| `QueueRuns.ConsumerConserved` | internal/subscription/memory_queue.go:115-198 | in every run offered = read + buffered + dropped, as multisets; read then buffered, and dropped, are order-preserving subsequences of the offers; the buffer fits its capacity |
| `QueueRuns.ConsumersDoNotInterfere` | internal/subscription/memory_queue.go:115-198 | deleting every operation of one consumer from a run leaves the queue, the cache and every other channel as they were |
| `QueueRuns.RejectedWithinTtl` | internal/subscription/memory_queue.go:216-247 | an ID accepted at t is rejected without any effect at every time up to and including t + ttl; rejected sightings do not prolong this |
| `QueueRuns.AcceptableAfterTtl` | internal/subscription/memory_queue.go:232-247 | if a sweep falls in every interval (a, a + 1 hour], an ID accepted at t and not since is accepted at every time after t + ttl + 1 hour |
| `DedupeSteps.DedupedStep` | internal/subscription/memory_queue.go:76-113 | every step of any number of producers and sweeps keeps: insertions of an ID in one cache epoch plus producers still about to insert stay within the producers, and every insertion has one copy queued or about to be |
| `DedupeSteps.InsertsBoundedByProducers` | internal/subscription/memory_queue.go:76-113 | with check, insert and enqueue interleaved, N producers insert an ID at most N times and queue at most N copies while it stays cached; one producer exactly once |
| `DedupeSteps.BoundIsReached` | internal/subscription/memory_queue.go:76-83 | the bound is exact: some run of N producers makes N insertions in one epoch |
| `QueueRefinement.AddAlone` | internal/subscription/memory_queue.go:76-127 | the steps of AddEvent run alone, consumers in any order, are the whole operation |
| `QueueRefinement.CreateAlone` | internal/subscription/memory_queue.go:130-157 | and so are those of CreateConsumer |
| `QueueRefinement.ReadAlone` | internal/subscription/memory_queue.go:171-198 | and the receives of a read |
| `ReplaySteps.InvariantStep` | internal/subscription/memory_queue.go:104-154 | every step of AddEvent, CreateConsumer, reads and sweeps keeps, for each consumer, the exact sequence it has been offered: notifications from registration on, the replayed part, notifications after |
| `ReplaySteps.RegisterThenReplayHasNoGap` | internal/subscription/memory_queue.go:104-154 | once replay is over a message was offered once if notified after registration plus once if queued at replay: never missed, never three times, twice exactly when both hold |
| `ReplaySteps.EveryMessageFromRegistrationOn` | internal/subscription/memory_queue.go:141-154 | the same over any run split at registration and replay: one offer if the notification loop began after registration, one more if the message was in the queue when replay began |
| `CopySteps.EpochOutlivesTtl` | internal/subscription/memory_queue.go:233-247 | an ID leaves the cache only by a sweep more than the TTL after its last insertion |
| `CopySteps.OffersPerEpochBounded` | internal/subscription/memory_queue.go:76-154 | with AddEvent, registration, replay and sweeps interleaved, N producers get a consumer offered at most 2N copies of an ID while it stays cached |
| `CopySteps.OffersToReadyBounded` | internal/subscription/memory_queue.go:76-154 | and at most N if its replay was over before the ID entered the cache |
| `CopyBounds.ReadyBoundIsReached` | internal/subscription/memory_queue.go:76-124 | the bound N is exact: some run offers a ready consumer N copies |
| `CopyBounds.OfferBoundIsReached` | internal/subscription/memory_queue.go:104-154 | the bound 2N is exact if the queue can hold N messages until the replay |
| `Locks.HoldingIsTable` | internal/subscription/memory_queue.go:76-269 | where each operation holds each of the three locks |
| `Locks.LocksInOrder` | internal/subscription/memory_queue.go:76-269 | an operation waiting for a lock holds only locks earlier in the order eventsMu, consumersMu, dedupe; the queue is changed under the events write lock and replayed under its read lock; channels are closed under the consumers write lock and notified under its read lock |
| `Locks.WaitsAreAcyclic` | internal/subscription/memory_queue.go:76-269 | no chain of lock waits, announced writers included, returns to its start |
| `Locks.NoDeadlock` | internal/subscription/memory_queue.go:76-269 | in every state with an unfinished operation some operation can move |
| `Locks.NoSendOnClosedChannel` | internal/subscription/memory_queue.go:116-124 | in every run writers exclude all others, no notification sends on a closed channel, and outside the two statements of RemoveConsumer every registered channel is open |
| `ReplaySends.NoReplayOnClosedChannel` | internal/subscription/memory_queue.go:145-154 | no replay sends on a closed channel if every RemoveConsumer waits until the consumer was replayed to; a replay without messages left need not be waited for |
| `ReplaySends.EarlyRemovalOverruns` | internal/subscription/memory_queue.go:160-168 | in every reachable state a RemoveConsumer that does not wait can be followed by a replay that sends on a closed channel: at once if the replay has messages left, otherwise when it comes to a queue that is not empty |
| `PushLimiter.RateLimiter.GetShardIndex` | internal/subscription/processor.go:251-258 | the loop sums the first four bytes, or fewer, modulo sixteen |
| `PushLimiter.RateLimiter.MayPush` | internal/subscription/processor.go:279-290 | a push is refused exactly when the token has a record in its shard younger than the limit |
| `PushLimiter.RateLimiter.RecordPush` | internal/subscription/processor.go:334-339 | the token is recorded in its own shard and nothing else changes |
| `PushLimiter.RateLimiter.Cleanup` | internal/subscription/processor.go:117-140 | each shard loses exactly the records more than an hour old at its own clock reading |
| `PushLimiter.ShardsDisjoint` | internal/subscription/processor.go:251-258 | in every run of checks, records and sweeps a token is only ever in the shard its bytes select, so key sets are disjoint |
| `PushLimiter.SameDecisionsWithinHour` | internal/subscription/processor.go:117-140 | with a limit up to an hour, every check of every run is decided as by one token-to-time map that is never swept |
| `PushLimiter.RefinesPlainMapIffWithinHour` | internal/subscription/processor.go:279-290 | the two agree on all runs if and only if the limit is at most one clock tick above an hour; beyond that a concrete run differs |
| `PushSteps.WindowStep` | internal/subscription/processor.go:279-339 | every step of concurrent check, send and record keeps: pushes recorded in an open window plus calls in flight fit the number of calls |
| `PushSteps.PushesPerWindowBounded` | internal/subscription/processor.go:279-339 | with at most K calls in flight, any half-open window no longer than the limit and an hour records at most K pushes to one token, across all groups |
| `PushSteps.SequentialPushesSpaced` | internal/subscription/processor.go:279-339 | with one call at a time, recorded pushes to a token are at least the limit apart, up to an hour |
| `PushSteps.WindowBoundIsReached` | internal/subscription/processor.go:279-339 | the bound is exact: K concurrent calls can be recorded at one instant |
| `PushFailures.FailedSendsLeaveNoTrace` | internal/subscription/processor.go:327-339 | at every point of every run of concurrent calls, deleting all calls whose send fails leaves no failing send and leaves shards, log, clock, the other calls and every decision as they were |
| `Outcomes.PushIsOneCall` | internal/subscription/processor.go:279-339 | a push with a server and a token is one check, send and record of the concurrent model: refused exactly if the check is not enabled, delivered exactly if it records |
| `Req.ParseREQFromAbout` | internal/subscription/subscription_matcher.go:140-187 | the decoding loop and its checks in order: empty, not an array, too short, not REQ; a token that is not a string is empty, elements that do not decode are skipped |
| `Req.FiltersAreDecodableElements` | internal/subscription/subscription_matcher.go:168-184 | the filters are exactly the decodable elements, all of them and in order |
| `Req.FilterRoundTrip` | internal/subscription/subscription_matcher.go:170-184 | a filter encoded as a JSON object decodes to itself |
| `Req.DecodesIff` | internal/subscription/subscription_matcher.go:168-184 | an object decodes to a filter if and only if its known fields that are not null are the encoding of that filter; null decodes to the filter without conditions, nothing else decodes |
| `Req.AcceptedAbouts` | internal/subscription/subscription_matcher.go:140-187 | the Abouts that are subscriptions are exactly the arrays of at least three elements that begin with "REQ"; the token is the second element, or empty if that is not a string |
| `Matching.IntersectionOfConditions` | internal/subscription/subscription_matcher.go:126-137 | a filter matches exactly the events that all its conditions match one by one |
| `Matching.LongerListsGain` | internal/subscription/subscription_matcher.go:126-137 | longer lists of IDs, authors, kinds or tag values, or none, only gain matches |
| `Matching.NarrowerWindowLoses` | internal/subscription/subscription_matcher.go:126-137 | raising since or lowering until loses exactly the events outside the new bound |
| `Matching.WindowsSplit` | internal/subscription/subscription_matcher.go:126-137 | a window matches some event if and only if its ends are in order, contains both ends, and is the union of its halves at any point |
| `Matching.OwnFilterIdentifies` | internal/subscription/subscription_matcher.go:126-137 | the filter made of an event's own ID, author, kind and time matches exactly the events with all four |
| `Matching.TagConditionSeesItsTags` | internal/subscription/subscription_matcher.go:126-137 | a tag condition is met exactly by a tag of its name whose second element is listed, whatever the other tags are |
| `Req.MatchesIffElementMatches` | internal/subscription/subscription_matcher.go:117-137 | an event matches the decoded filters exactly when some decodable element matches it |
| `Req.ConcatenatedFiltersUnite` | internal/subscription/subscription_matcher.go:140-187 | appending filter elements to a request gives the union of the matches |
| `Req.RequestRoundTrip` | internal/subscription/subscription_matcher.go:140-187 | encoding a token and a non-empty filter list and parsing gives both back |
| `Matcher.FindFirstTag` | internal/subscription/group.go:63-70 | the first tag of that name that has a value, or the empty string |
| `Matcher.FirstTagIsFirst` | internal/subscription/group.go:63-70 | the result is the second element of the first tag of that name that has one, however long the tag, and empty if there is none |
| `Matcher.SubscriptionMatcher.AddGroup` | internal/subscription/subscription_matcher.go:42-49 | the group is known and its entry is a fresh parse of the About in the relay state |
| `Matcher.SubscriptionMatcher.UpdateGroup` | internal/subscription/subscription_matcher.go:62-69 | the same, from the state and not from the event |
| `Matcher.SubscriptionMatcher.RemoveGroup` | internal/subscription/subscription_matcher.go:52-59 | the group is forgotten in both maps, no other group changes |
| `Matcher.SubscriptionMatcher.ParseAndCache` | internal/subscription/subscription_matcher.go:72-97 | a missing group or an invalid About is cached as an error without token and filters |
| `Matcher.SubscriptionMatcher.RefreshAllCaches` | internal/subscription/subscription_matcher.go:286-300 | the loop re-parses every group of the relay and keeps nothing else; known IDs stay as they were |
| `Matcher.SubscriptionMatcher.ClearGroups` | internal/subscription/subscription_matcher.go:303-309 | both maps are empty |
| `Matcher.SubscriptionMatcher.GetMatchingGroups` | internal/subscription/subscription_matcher.go:100-137 | the result lists exactly the groups of the state whose entry has no error, at least one filter and a matching one, each once |
| `Matcher.SubscriptionMatcher.HandleGroupUpdate` | internal/subscription/group.go:21-47 | without an `h` value, an `about` value or a valid request in it nothing changes; otherwise the group is refreshed from the state |
| `Matcher.SubscriptionMatcher.HandleEvent` | internal/subscription/server.go:353-371 | kinds 9007, 9002 and 9008 refresh, conditionally refresh and remove; any other kind changes nothing |
| `Matcher.LastAcceptedWins` | internal/subscription/group.go:10-60 | in sequential runs a group is cached exactly while it has an accepted creation or update since its last deletion, with the parse of the About the state had then |
| `Matcher.FreshEntryMatches` | internal/subscription/subscription_matcher.go:117-137 | a freshly parsed entry matches an event exactly when the About it was parsed from does, and has its token |
| `Matcher.RejectedUpdateKeepsMatches` | internal/subscription/group.go:28-44 | a 9002 with a missing, empty or invalid About leaves every match as of the last accepted subscription, whatever the state holds now |
| `Matcher.HandledKinds` | internal/subscription/server.go:353-371 | a 9007, or a 9002 with a valid about tag, makes its group match as the About of the state then, a 9008 makes it match nothing, and nothing else changes any group's matches |
| `Matcher.RefreshAllKeySets` | internal/subscription/subscription_matcher.go:286-300 | after RefreshAllCaches the two key sets agree if and only if the known IDs were exactly the groups of the relay |
| `Matcher.RefreshAllMatches` | internal/subscription/subscription_matcher.go:286-300 | after RefreshAllCaches every group matches as its current About does and has its token |
| `MatcherSteps.ConvergingStep` | internal/subscription/subscription_matcher.go:42-97 | every disciplined step keeps, for each group of the state: its entry is the parse of its current About, or a refresh is still to come (loading owes one only to groups never deleted since it began), or the lock holder is about to store that parse |
| `Convergence.CacheConverges` | internal/subscription/subscription_matcher.go:100-137 | in every disciplined interleaving of state changes, handlers, startup loading and reloading, once nothing is pending a group matches an event exactly as its current About does |
| `Convergence.SettlesRightIffDisciplined` | internal/subscription/group.go:10-60 | from a converging state, an event leaves every settling schedule on the current Abouts if and only if it neither recreates a group whose removal is pending nor changes what an About parses to without a refresh of it |
| `Convergence.ConvergesIffDisciplined` | internal/subscription/group.go:10-60 | over every run from start-up: wherever moderation stops all settling schedules agree with the current Abouts, if and only if all its events are such |
| `MatcherSteps.MatchesAreGenuine` | internal/subscription/subscription_matcher.go:100-137 | in every interleaving at all, a group only matches by a valid About it had at some time, and while the lock is free groupIDs and parsedSubscriptions have equal keys |
| `MatcherSteps.HandlerAlone` | internal/subscription/subscription_matcher.go:42-97 | a handler that runs without interruption does what the sequential one does |
| `MatcherSteps.ReloadStartsOver` | internal/subscription/processor.go:417-424 | reloading empties the cache and leaves a refresh due for every group of the relay |
| `MatcherSteps.RecreationDiverges` | internal/subscription/group.go:10-60 | a group created again before its removal was handled can end up without an entry |
| `MatcherSteps.SilentUpdateDiverges` | internal/subscription/group.go:28-39 | an edit that changes the About without a valid tag, with no refresh due, can leave the entry of the old About |
| `DeviceStore.Store.Upsert` | internal/push/device_store.go:39-51 | the registration is stored, the previous one of the same device is removed, and a non-empty device ID points to the new one |
| `DeviceStore.Store.Get` | internal/push/device_store.go:54-59 | the registration under that ID, if any |
| `DeviceStore.Store.Delete` | internal/push/device_store.go:62-69 | a known registration leaves both indexes, an unknown ID changes nothing |
| `DeviceStore.MirroredAlways` | internal/push/device_store.go:39-69 | with fresh IDs, byDevice and byID restricted to non-empty device IDs are inverse to each other after any run |
| `DeviceStore.GetRefinesHistory` | internal/push/server.go:393-404 | with fresh IDs, a registration is found if and only if it was registered and neither deleted nor superseded by a later one of the same non-empty device |
| `Listener.RelayConnection.ConnectAndListen` | internal/subscription/listener.go:102-151 | any session that connects marks the connection as connected, and only cancellation is not a failure |
| `Listener.RelayConnection.Manage` | internal/subscription/listener.go:65-99 | the loop makes exactly the specified attempts, counts every failed session, successes in between never resetting the count, and ends connected exactly if the context ended its last session |
| `Listener.AttemptedIff` | internal/subscription/listener.go:65-99 | a turn is attempted if and only if the context is not done before it and every turn before it failed with the budget not used up and the context not done in its delay |
| `Listener.RetryBudget` | internal/subscription/listener.go:65-99 | with MaxRetries > 0 a connection is attempted at most MaxRetries times in its whole life, undisturbed exactly that often; without it every turn is an attempt |
| `Processor.Processor.PushNotification` | internal/subscription/processor.go:261-342 | which of no server, no token, rate limited, not serializable, failed or delivered happens, in that order of precedence; only a delivered push is recorded, at its own clock reading |
| `Processor.Processor.ForwardToGroup` | internal/subscription/processor.go:209-243 | a forward that serializes and signs is broadcast if the group ID is online and pushed otherwise; any other is dropped |
| `Processor.Processor.ForwardToMatching` | internal/subscription/processor.go:171-183 | every matching group is forwarded to exactly once, each forward seeing the records of those before |
| `Processor.Processor.ProcessMessages` | internal/subscription/processor.go:109-111 | messages are forwarded in order, each to all its groups before the next |
| `Processor.DispatchedAt` | internal/subscription/processor.go:109-111 | what is forwarded has an entry for every message and every group of its list, at its place in the order, and no other |
| `Processor.Processor.ReadAndProcess` | internal/subscription/processor.go:98-112 | one turn of the read loop reads the front of the processor channel, at most ten, and processes exactly what it read; a read that ends in an error is discarded |
| `Processor.Processor.Handle20285` | internal/subscription/server.go:373-404 | empty content forwards the event itself, parsed content the inner event, unparsable content nothing |
| `Processor.OnlyDeliveredPushesCount` | internal/subscription/processor.go:327-339 | with one forward after another, the limiter is as if only the delivered pushes had happened |
| `Pipeline.InvariantStep` | internal/subscription/processor.go:93-113 | with AddEvent, CreateConsumer and the other operations whole, each keeps: waiting messages are in acceptance order without repeats, a forwarded message lies before them or has that group ticked off, no message goes twice to a group |
| `Components.QueueIsRun` | internal/subscription/processor.go:98-112 | over every run the pipeline's queue is the queue after the operations made on it, so what is proved of queue runs holds end to end |
| `Components.MatcherIsRun` | internal/subscription/processor.go:171-172 | and its matcher is the sequential matcher after the stored events handled, each with the groups then |
| `Reads.NothingLostIffNeverDiscards` | internal/subscription/processor.go:98-112 | over every run, the messages received from the processor's channel are exactly those started and then those in hand, in order, if and only if no read that had received something was cancelled before it was full |
| `Outcomes.DroppedIffUnprepared` | internal/subscription/processor.go:210-230 | over every run, a forward is dropped if and only if its event does not serialize or its wrapper is not signed |
| `Outcomes.EveryOutcomeExplained` | internal/subscription/processor.go:261-342 | over every run whose readings follow the clock, the result of each push follows from the log before it: no server, no token, a delivered push to the token less than the limit ago, and otherwise whether it wraps and sends |
| `Outcomes.DeliveredPushesSpaced` | internal/subscription/processor.go:279-339 | two delivered pushes to one device are recorded at least the limit apart, up to an hour, whichever groups and events they are for, queued or injected |
| `Outcomes.SweptPushIsForgotten` | internal/subscription/processor.go:117-140 | after a sweep of its shard more than an hour later, a push refuses no further one, however long the limit |
| `Delivery.MessageForwardedOncePerGroup` | internal/subscription/processor.go:163-184 | in every run of whole operations each queued message is forwarded at most once to each group, as the event it was accepted with and not before its acceptance |
| `Routing.BroadcastIffLive` | internal/subscription/processor.go:232-240 | over every run of whole operations with the connections of a key in order, each forward to that group is dropped if it does not serialize or sign, otherwise broadcast if the group has a live counted connection then, and pushed if not |
| `Routing.RoutedIffInOrder` | internal/subscription/processor.go:232-248 | from accurate presence, a connection event leaves all later forwards to the group routed by its live connections if and only if it is in order |
| `AllGroups.EveryMatchingGroupIsReached` | internal/subscription/processor.go:171-183 | whatever whole operation happens after a message is started, it is only forwarded to groups that matched it then, and once the processor has moved on it has been forwarded to all of them |
| `Injected.EveryInjectedGroupIsReached` | internal/subscription/server.go:373-404 | whatever runs meanwhile, the handler of an injected event has forwarded it to groups that matched when it began, once each, and has exactly the others still to do |
| `Delivery.SpacedRun` | internal/subscription/memory_queue.go:76-83 | in every run of whole operations two acceptances of one ID are more than the TTL apart |
| `LateCopies.AtMostOnceIff` | internal/subscription/processor.go:93-113 | with whole operations and the processor registered, an accepted event is forwarded from the queue at most once per group until its TTL has passed, over every continuation, if and only if at most one waiting message carries its ID right after acceptance |
| `EarlyCopies.AtMostOnceIffOneReaches` | internal/subscription/processor.go:93-113 | the same for every state reachable by whole operations: the guarantee holds if and only if no two waiting copies can both reach the processor, that is, it has not registered and any two lie at least its channel length apart in the queue (or the TTL is negative) |
| `LateCopies.LaggingProcessorHoldsTwoCopies` | internal/subscription/processor.go:93-113 | the condition does fail, even with whole operations: a processor that reads nothing for longer than the TTL has two copies of one event waiting |
| `ForwardSteps.ForwardsPerEpochBounded` | internal/subscription/processor.go:93-113 | with producers, registration, replay, reading and forwarding interleaved, the copies of an event that N producers get queued while its ID stays cached are forwarded to one group at most 2N times |
| `ForwardSteps.ForwardsOfReadyBounded` | internal/subscription/processor.go:93-113 | and at most N times if the replay to the processor was over before the ID entered the cache, so at most once with one producer |
| `ForwardBounds.ReadyForwardsReached` | internal/subscription/processor.go:93-113 | the bound N is exact if the channel has room for N messages |
| `ForwardBounds.ForwardsReached` | internal/subscription/processor.go:93-113 | the bound 2N is exact if the queue has room for N messages and the channel for 2N |

## Left out

- Convergence.CacheConverges: does not interleave one `GetMatchingGroups` with state changes, because it is read as one step under the matcher's read lock; the relay library's group map is not protected by that lock.
- Pipeline.InvariantStep: does not interleave inside its operations, because it carries the properties of whole operations; what interleaving adds to them is bounded in ForwardSteps.
- ForwardSteps.ForwardsPerEpochBounded: does not say which groups match, because the bound holds for whatever list without repeats the matcher returns.
- QueueSteps.Step: does not remove consumers, because nothing in the repository calls RemoveConsumer; its locks and channels are in Locks and ReplaySends.
- Queue.MemoryQueue.RemoveConsumer: does not model reads from the channel after it is closed, because nothing in the repository reads after removal.
- Listener.RelayConnection.Manage: does not model how long a session lasts, because that is up to the relay; each session is given by how it ends.
- HTTP handlers, websockets, LMDB, the khatru and relay29 libraries and event signing: foreign code. The relay's groups are an abstract map from group ID to About.
- The push clients and device-token formats: wrappers around I/O.
- Configuration: the queue size, the TTL, the rate limit and the retry maximum are parameters.
- The notification text, the bolt11 amount and the payload cap: their values are overwritten before the send.
- Message ID strings, logging and statistics, with the slices of event IDs in log statements that need at least eight characters; of GetStats only the locks.
- The policy chain and the whitelist: single checks.
- Rounding of numbers beyond 2^53 in re-encoded filter elements.
- Fairness of the scheduler: the interleaved results are about safety, and `Locks.NoDeadlock` says that some operation can move, not that each one eventually does.
