/** Values shared by the model: relay events, and the NIP-01 filters they are
    matched against (section "Communication between clients and relays",
    "From client to relay: sending events and creating subscriptions"). */
module Nostr {

  datatype Option<+T> = None | Some(value: T)

  type EventId = string
  type Time = int

  const HOUR: Time := 3_600_000_000_000

  type Tag = seq<string>

  datatype Event = Event(id: EventId, pubkey: string, kind: int, createdAt: Time, tags: seq<Tag>, content: string)

  /** An absent condition is None; a tag condition is keyed by the tag name after `#`.
      `limit` bounds queries and plays no part in matching. */
  datatype Filter = Filter(
    ids: Option<seq<string>>,
    authors: Option<seq<string>>,
    kinds: Option<seq<int>>,
    tags: map<string, seq<string>>,
    since: Option<Time>,
    until: Option<Time>,
    limit: Option<int>)

  const ANYTHING := Filter(None, None, None, map[], None, None, None)

  predicate HasTagAmong(e: Event, name: string, values: seq<string>) {
    exists i | 0 <= i < |e.tags| :: |e.tags[i]| >= 2 && e.tags[i][0] == name && e.tags[i][1] in values
  }

  predicate FilterMatches(f: Filter, e: Event) {
    && (f.ids.Some? ==> e.id in f.ids.value)
    && (f.authors.Some? ==> e.pubkey in f.authors.value)
    && (f.kinds.Some? ==> e.kind in f.kinds.value)
    && (forall name | name in f.tags :: HasTagAmong(e, name, f.tags[name]))
    && (f.since.Some? ==> f.since.value <= e.createdAt)
    && (f.until.Some? ==> e.createdAt <= f.until.value)
  }

  /** A filter list is a disjunction. */
  predicate FiltersMatch(fs: seq<Filter>, e: Event) {
    exists i | 0 <= i < |fs| :: FilterMatches(fs[i], e)
  }
}
