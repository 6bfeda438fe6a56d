/** Laws of NIP-01 filter matching (section "From client to relay: sending events and creating
    subscriptions"). */
module Matching {
  import opened Nostr

  ghost predicate Within(f: Filter, g: Filter) {
    forall e :: FilterMatches(f, e) ==> FilterMatches(g, e)
  }

  // One condition at a time ---------------------------------------------------------------------------

  function TagCondition(name: string, values: seq<string>): Filter {
    ANYTHING.(tags := map[name := values])
  }

  /** The filters that have one of `f`'s conditions each. */
  function Conditions(f: Filter): set<Filter> {
    {ANYTHING.(ids := f.ids), ANYTHING.(authors := f.authors), ANYTHING.(kinds := f.kinds),
     ANYTHING.(since := f.since), ANYTHING.(until := f.until)}
    + set name | name in f.tags :: TagCondition(name, f.tags[name])
  }

  /** A filter matches exactly what all its conditions match; the limit plays no part. */
  lemma IntersectionOfConditions(f: Filter, e: Event)
    ensures FilterMatches(f, e) <==> forall c | c in Conditions(f) :: FilterMatches(c, e)
  {
    if forall c | c in Conditions(f) :: FilterMatches(c, e) {
      assert ANYTHING.(ids := f.ids) in Conditions(f) && ANYTHING.(authors := f.authors) in Conditions(f);
      assert ANYTHING.(kinds := f.kinds) in Conditions(f) && ANYTHING.(since := f.since) in Conditions(f);
      assert ANYTHING.(until := f.until) in Conditions(f);
      forall name | name in f.tags ensures HasTagAmong(e, name, f.tags[name]) {
        var c := TagCondition(name, f.tags[name]);
        assert c in Conditions(f) && name in c.tags && FilterMatches(c, e);
      }
    }
  }

  lemma NoConditionMatchesAll(e: Event, limit: Option<int>)
    ensures FilterMatches(ANYTHING.(limit := limit), e)
  {
  }

  // Lists -----------------------------------------------------------------------------------------------

  predicate Grows<T(==)>(a: Option<seq<T>>, b: Option<seq<T>>) {
    b.Some? ==> a.Some? && forall x | x in a.value :: x in b.value
  }

  /** Longer lists, or none at all, only gain matches. */
  predicate ListsGrow(f: Filter, g: Filter) {
    && Grows(f.ids, g.ids) && Grows(f.authors, g.authors) && Grows(f.kinds, g.kinds)
    && forall name | name in g.tags :: name in f.tags && forall v | v in f.tags[name] :: v in g.tags[name]
  }

  lemma LongerListsGain(f: Filter, g: Filter)
    requires ListsGrow(f, g) && f.since == g.since && f.until == g.until
    ensures Within(f, g)
  {
    forall e | FilterMatches(f, e) ensures FilterMatches(g, e) {
      forall name | name in g.tags ensures HasTagAmong(e, name, g.tags[name]) {
        assert HasTagAmong(e, name, f.tags[name]);
      }
    }
  }

  // Time ------------------------------------------------------------------------------------------------

  function Window(a: Time, b: Time): Filter {
    ANYTHING.(since := Some(a), until := Some(b))
  }

  /** Raising `since` or lowering `until` only loses matches, and loses the events in between. */
  lemma NarrowerWindowLoses(f: Filter, since: Time, until: Time)
    requires f.since.Some? ==> f.since.value <= since
    requires f.until.Some? ==> until <= f.until.value
    ensures Within(f.(since := Some(since)), f) && Within(f.(until := Some(until)), f)
    ensures forall e | FilterMatches(f, e) ::
      && (FilterMatches(f.(since := Some(since)), e) <==> since <= e.createdAt)
      && (FilterMatches(f.(until := Some(until)), e) <==> e.createdAt <= until)
  {
  }

  function EventAt(t: Time): Event {
    Event("", "", 0, t, [], "")
  }

  /** A window contains its ends, is empty exactly if they are in the wrong order, and is the
      union of its two halves wherever it is split. */
  lemma WindowsSplit(a: Time, b: Time, t: Time)
    ensures (exists e :: FilterMatches(Window(a, b), e)) <==> a <= b
    ensures a <= b ==> FilterMatches(Window(a, b), EventAt(a)) && FilterMatches(Window(a, b), EventAt(b))
    ensures a <= t <= b ==> forall e ::
      FilterMatches(Window(a, b), e) <==> FilterMatches(Window(a, t), e) || FilterMatches(Window(t, b), e)
    ensures forall e :: FilterMatches(Window(a, t), e) && FilterMatches(Window(t, b), e) ==> e.createdAt == t
  {
    if a <= b {
      assert FilterMatches(Window(a, b), EventAt(a));
    }
  }

  // An event's own filter --------------------------------------------------------------------------------

  function Own(e: Event): Filter {
    Filter(Some([e.id]), Some([e.pubkey]), Some([e.kind]), map[], Some(e.createdAt), Some(e.createdAt), None)
  }

  /** The filter made of an event's own fields matches the event, and no event with another ID,
      author, kind or time. */
  lemma OwnFilterIdentifies(e: Event, other: Event)
    ensures FilterMatches(Own(e), other) <==>
      other.id == e.id && other.pubkey == e.pubkey && other.kind == e.kind && other.createdAt == e.createdAt
  {
  }

  // Tags ------------------------------------------------------------------------------------------------

  /** The tags with this name. */
  function Named(tags: seq<Tag>, name: string): seq<Tag> {
    if tags == [] then []
    else
      var n := |tags| - 1;
      Named(tags[..n], name) + if tags[n] != [] && tags[n][0] == name then [tags[n]] else []
  }

  lemma {:induction false} NamedKeeps(tags: seq<Tag>, name: string, tag: Tag)
    ensures tag in Named(tags, name) <==> tag in tags && tag != [] && tag[0] == name
  {
    if tags == [] {
    } else {
      NamedKeeps(tags[..|tags| - 1], name, tag);
      assert tags == tags[..|tags| - 1] + [tags[|tags| - 1]];
    }
  }

  /** A tag condition looks at the tags of its name and at nothing else, at their second element
      only, and needs one of them to be listed. */
  lemma {:induction false} TagConditionSeesItsTags(e: Event, name: string, values: seq<string>)
    ensures FilterMatches(TagCondition(name, values), e) <==>
      FilterMatches(TagCondition(name, values), Event("", "", 0, 0, Named(e.tags, name), ""))
    ensures FilterMatches(TagCondition(name, values), e) <==>
      exists tag | tag in e.tags :: |tag| > 1 && tag[0] == name && tag[1] in values
  {
    var bare := Event("", "", 0, 0, Named(e.tags, name), "");
    HasTag(e, name, values);
    HasTag(bare, name, values);
    forall tag ensures tag in bare.tags <==> tag in e.tags && tag != [] && tag[0] == name {
      NamedKeeps(e.tags, name, tag);
    }
    assert TagCondition(name, values).tags.Keys == {name};
  }

  lemma HasTag(e: Event, name: string, values: seq<string>)
    ensures HasTagAmong(e, name, values) <==>
      exists tag | tag in e.tags :: |tag| > 1 && tag[0] == name && tag[1] in values
  {
    if tag :| tag in e.tags && |tag| > 1 && tag[0] == name && tag[1] in values {
      var i :| 0 <= i < |e.tags| && e.tags[i] == tag;
    }
  }
}
