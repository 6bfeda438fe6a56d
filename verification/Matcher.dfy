/** The subscription matcher cache of internal/subscription/subscription_matcher.go, the
    group event handlers of internal/subscription/group.go that drive it, and the kind
    dispatch of internal/subscription/server.go. */
module Matcher {
  import opened Nostr
  import opened Req

  type GroupId = string

  /** The relay's groups: each group's About field. */
  type Groups = map<GroupId, About>

  /** Reads the text of an `about` tag as JSON. */
  type JsonReader = string -> About

  datatype Entry = Entry(token: string, filters: seq<Filter>, error: Option<ParseError>)

  /** A fresh parse of a group's About field. */
  function FreshEntry(groups: Groups, g: GroupId): Entry {
    if g !in groups then Entry("", [], Some(GroupMissing))
    else
      match ParseAbout(groups[g])
      case Ok(r) => Entry(r.token, r.filters, None)
      case Err(error) => Entry("", [], Some(error))
  }

  predicate EntryMatches(entry: Entry, e: Event) {
    entry.error.None? && entry.filters != [] && FiltersMatch(entry.filters, e)
  }

  predicate GroupMatches(parsed: map<GroupId, Entry>, g: GroupId, e: Event) {
    g in parsed && EntryMatches(parsed[g], e)
  }

  datatype MatcherState = MatcherState(groupIDs: set<GroupId>, parsed: map<GroupId, Entry>)

  const EMPTY := MatcherState({}, map[])

  function Refreshed(s: MatcherState, groups: Groups, g: GroupId): MatcherState {
    MatcherState(s.groupIDs + {g}, s.parsed[g := FreshEntry(groups, g)])
  }

  function Removed(s: MatcherState, g: GroupId): MatcherState {
    MatcherState(s.groupIDs - {g}, s.parsed - {g})
  }

  function AllRefreshed(s: MatcherState, groups: Groups): MatcherState {
    s.(parsed := map g | g in groups :: FreshEntry(groups, g))
  }

  // Handlers ------------------------------------------------------------------------------

  const CREATE_GROUP := 9007
  const EDIT_METADATA := 9002
  const DELETE_GROUP := 9008

  /** The value of the first tag with this name and a value, or the empty string. */
  function FirstTag(tags: seq<Tag>, name: string): string {
    if tags == [] then ""
    else if |tags[0]| >= 2 && tags[0][0] == name then tags[0][1]
    else FirstTag(tags[1..], name)
  }

  /** A tag of this name that has a value. */
  predicate Names(tag: Tag, name: string) {
    |tag| >= 2 && tag[0] == name
  }

  /** The value of the tag at `i`, and no tag before it has this name and a value. */
  predicate FirstAt(tags: seq<Tag>, name: string, i: nat) {
    i < |tags| && Names(tags[i], name) && forall j | 0 <= j < i :: !Names(tags[j], name)
  }

  /** Whatever follows the value in a tag: the result is the second element of the first tag
      of this name that has one, and empty if there is none. */
  lemma {:induction false} FirstTagIsFirst(tags: seq<Tag>, name: string)
    ensures forall i: nat | FirstAt(tags, name, i) :: FirstTag(tags, name) == tags[i][1]
    ensures (forall i | 0 <= i < |tags| :: !Names(tags[i], name)) ==> FirstTag(tags, name) == ""
    ensures FirstTag(tags, name) != "" ==> exists i: nat :: FirstAt(tags, name, i)
  {
    if tags == [] {
    } else if Names(tags[0], name) {
      assert FirstAt(tags, name, 0);
      assert forall i: nat | FirstAt(tags, name, i) :: i == 0;
    } else {
      FirstTagIsFirst(tags[1..], name);
      forall i: nat | FirstAt(tags, name, i) ensures FirstTag(tags, name) == tags[i][1] {
        assert FirstAt(tags[1..], name, i - 1);
      }
      if FirstTag(tags, name) != "" {
        var i: nat :| FirstAt(tags[1..], name, i);
        assert FirstAt(tags, name, i + 1);
      }
    }
  }

  datatype Handler = Ignore | Refresh(g: GroupId) | Remove(g: GroupId)

  /** What the relay's event handlers do to the matcher for a stored event. */
  function HandlerOf(json: JsonReader, e: Event): Handler {
    var g, about := FirstTag(e.tags, "h"), FirstTag(e.tags, "about");
    if g == "" then Ignore
    else if e.kind == CREATE_GROUP then Refresh(g)
    else if e.kind == EDIT_METADATA then
      if about != "" && ParseAbout(json(about)).Ok? then Refresh(g) else Ignore
    else if e.kind == DELETE_GROUP then Remove(g)
    else Ignore
  }

  function Handled(json: JsonReader, s: MatcherState, groups: Groups, e: Event): MatcherState {
    match HandlerOf(json, e)
    case Ignore => s
    case Refresh(g) => Refreshed(s, groups, g)
    case Remove(g) => Removed(s, g)
  }

  /** extractGroupIDFromEvent, and the same scan for the `about` tag. */
  method FindFirstTag(tags: seq<Tag>, name: string) returns (value: string)
    ensures value == FirstTag(tags, name)
  {
    for i := 0 to |tags|
      invariant FirstTag(tags, name) == FirstTag(tags[i..], name)
    {
      if |tags[i]| >= 2 && tags[i][0] == name {
        return tags[i][1];
      }
    }
    value := "";
  }

  class RelayState {
    var groups: Groups

    constructor (groups: Groups)
      ensures this.groups == groups
    {
      this.groups := groups;
    }
  }

  class SubscriptionMatcher {
    const state: RelayState
    var groupIDs: set<GroupId>
    var parsed: map<GroupId, Entry>

    function State(): MatcherState
      reads this
    {
      MatcherState(groupIDs, parsed)
    }

    constructor (state: RelayState)
      ensures this.state == state && State() == EMPTY
    {
      this.state := state;
      groupIDs, parsed := {}, map[];
    }

    method AddGroup(g: GroupId)
      modifies this
      ensures State() == Refreshed(old(State()), state.groups, g)
    {
      groupIDs := groupIDs + {g};
      ParseAndCache(g);
    }

    method UpdateGroup(g: GroupId)
      modifies this
      ensures State() == Refreshed(old(State()), state.groups, g)
    {
      groupIDs := groupIDs + {g};
      ParseAndCache(g);
    }

    method RemoveGroup(g: GroupId)
      modifies this
      ensures State() == Removed(old(State()), g)
    {
      groupIDs := groupIDs - {g};
      parsed := parsed - {g};
    }

    method ClearGroups()
      modifies this
      ensures State() == EMPTY
    {
      groupIDs, parsed := {}, map[];
    }

    method ParseAndCache(g: GroupId)
      modifies this`parsed
      ensures parsed == old(parsed)[g := FreshEntry(state.groups, g)]
    {
      if g !in state.groups {
        parsed := parsed[g := Entry("", [], Some(GroupMissing))];
        return;
      }
      var result := ParseREQFromAbout(state.groups[g]);
      match result {
        case Ok(request) => parsed := parsed[g := Entry(request.token, request.filters, None)];
        case Err(error) => parsed := parsed[g := Entry("", [], Some(error))];
      }
    }

    method RefreshAllCaches()
      modifies this
      ensures State() == AllRefreshed(old(State()), state.groups)
    {
      parsed := map[];
      var pending := state.groups.Keys;
      while pending != {}
        invariant pending <= state.groups.Keys && groupIDs == old(groupIDs)
        invariant parsed == map g | g in state.groups.Keys - pending :: FreshEntry(state.groups, g)
        decreases |pending|
      {
        var g :| g in pending;
        ParseAndCache(g);
        pending := pending - {g};
      }
    }

    /** Ranges over the relay's groups in an arbitrary order. */
    method GetMatchingGroups(e: Event) returns (matching: seq<GroupId>)
      ensures forall g :: g in matching <==> g in state.groups && GroupMatches(parsed, g, e)
      ensures forall i, j | 0 <= i < j < |matching| :: matching[i] != matching[j]
    {
      matching := [];
      var pending := state.groups.Keys;
      while pending != {}
        invariant pending <= state.groups.Keys
        invariant forall g :: g in matching <==> g in state.groups && g !in pending && GroupMatches(parsed, g, e)
        invariant forall i, j | 0 <= i < j < |matching| :: matching[i] != matching[j]
        decreases |pending|
      {
        var g :| g in pending;
        if GroupMatches(parsed, g, e) {
          matching := matching + [g];
        }
        pending := pending - {g};
      }
    }

    method HandleGroupCreation(e: Event)
      modifies this
      ensures var g := FirstTag(e.tags, "h");
        State() == if g == "" then old(State()) else Refreshed(old(State()), state.groups, g)
    {
      var g := FindFirstTag(e.tags, "h");
      if g == "" {
        return;
      }
      AddGroup(g);
    }

    method HandleGroupUpdate(json: JsonReader, e: Event)
      modifies this
      ensures var g, about := FirstTag(e.tags, "h"), FirstTag(e.tags, "about");
        State() == if g == "" || about == "" || ParseAbout(json(about)).Err? then old(State())
                   else Refreshed(old(State()), state.groups, g)
    {
      var g := FindFirstTag(e.tags, "h");
      if g == "" {
        return;
      }
      var about := FindFirstTag(e.tags, "about");
      if about == "" {
        return;
      }
      var result := ParseREQFromAbout(json(about));
      if result.Err? {
        return;
      }
      UpdateGroup(g);
    }

    method HandleGroupDeletion(e: Event)
      modifies this
      ensures var g := FirstTag(e.tags, "h");
        State() == if g == "" then old(State()) else Removed(old(State()), g)
    {
      var g := FindFirstTag(e.tags, "h");
      if g == "" {
        return;
      }
      RemoveGroup(g);
    }

    /** The relay's OnEventSaved hook. */
    method HandleEvent(json: JsonReader, e: Event)
      modifies this
      ensures State() == Handled(json, old(State()), state.groups, e)
    {
      if e.kind == CREATE_GROUP {
        HandleGroupCreation(e);
      }
      if e.kind == EDIT_METADATA {
        HandleGroupUpdate(json, e);
      }
      if e.kind == DELETE_GROUP {
        HandleGroupDeletion(e);
      }
    }
  }

  // Sequential runs -------------------------------------------------------------------------

  /** A stored event, with the relay's groups as they are when its handler runs. */
  datatype Stored = Stored(event: Event, groups: Groups)

  function Run(json: JsonReader, log: seq<Stored>): MatcherState {
    if log == [] then EMPTY
    else
      var last := log[|log| - 1];
      Handled(json, Run(json, log[..|log| - 1]), last.groups, last.event)
  }

  /** The relay's groups at the last accepted creation or update of `g`, if it has not
      been deleted since. */
  function LastAccepted(json: JsonReader, log: seq<Stored>, g: GroupId): Option<Groups> {
    if log == [] then None
    else
      var last := log[|log| - 1];
      if HandlerOf(json, last.event) == Refresh(g) then Some(last.groups)
      else if HandlerOf(json, last.event) == Remove(g) then None
      else LastAccepted(json, log[..|log| - 1], g)
  }

  /** A group is cached exactly while it has an accepted subscription, its entry is the
      parse of the About it had then, and it matches accordingly. */
  lemma {:induction false} LastAcceptedWins(json: JsonReader, log: seq<Stored>, g: GroupId, e: Event)
    ensures var s := Run(json, log);
      var last := LastAccepted(json, log, g);
      && (g in s.parsed <==> last.Some?)
      && (g in s.groupIDs <==> last.Some?)
      && (last.Some? ==> s.parsed[g] == FreshEntry(last.value, g))
      && (GroupMatches(s.parsed, g, e) <==> last.Some? && g in last.value && AboutMatches(last.value[g], e))
  {
    if log == [] {
    } else {
      LastAcceptedWins(json, log[..|log| - 1], g, e);
    }
    if LastAccepted(json, log, g).Some? {
      FreshEntryMatches(LastAccepted(json, log, g).value, g, e);
    }
  }

  lemma FreshEntryMatches(groups: Groups, g: GroupId, e: Event)
    ensures EntryMatches(FreshEntry(groups, g), e) <==> g in groups && AboutMatches(groups[g], e)
    ensures FreshEntry(groups, g).token ==
      if g in groups && ParseAbout(groups[g]).Ok? then ParseAbout(groups[g]).request.token else ""
  {
    if g in groups && AboutMatches(groups[g], e) {
      var fs := ParseAbout(groups[g]).request.filters;
      assert fs != [];
    }
  }

  /** A 9002 event whose first `about` tag is missing, empty or invalid changes no group's
      matches, whatever it did to the relay's own About field. */
  lemma {:induction false} RejectedUpdateKeepsMatches(json: JsonReader, log: seq<Stored>, update: Stored,
          g: GroupId, e: Event)
    requires update.event.kind == EDIT_METADATA
    requires var about := FirstTag(update.event.tags, "about"); about == "" || ParseAbout(json(about)).Err?
    ensures GroupMatches(Run(json, log + [update]).parsed, g, e) <==>
      (var last := LastAccepted(json, log, g); last.Some? && g in last.value && AboutMatches(last.value[g], e))
  {
    assert (log + [update])[..|log|] == log;
    LastAcceptedWins(json, log, g, e);
  }

  /** A 9007 always takes effect, a 9002 exactly if its first `about` tag holds a valid request,
      and a 9008 ends the subscription; no event of another kind, or for another group, changes
      a group's matches. */
  lemma {:induction false} HandledKinds(json: JsonReader, log: seq<Stored>, next: Stored, g: GroupId, e: Event)
    ensures var about := FirstTag(next.event.tags, "about");
      var named := g != "" && FirstTag(next.event.tags, "h") == g;
      var accepted := next.event.kind == 9007 ||
                      (next.event.kind == 9002 && about != "" && ParseAbout(json(about)).Ok?);
      GroupMatches(Run(json, log + [next]).parsed, g, e) <==>
        if named && accepted then g in next.groups && AboutMatches(next.groups[g], e)
        else if named && next.event.kind == 9008 then false
        else GroupMatches(Run(json, log).parsed, g, e)
  {
    assert (log + [next])[..|log|] == log;
    FreshEntryMatches(next.groups, g, e);
  }

  /** After a refresh of all caches every group matches as its current About does, and has the
      token of that About. */
  lemma RefreshAllMatches(s: MatcherState, groups: Groups, g: GroupId, e: Event)
    ensures var t := AllRefreshed(s, groups);
      && (GroupMatches(t.parsed, g, e) <==> g in groups && AboutMatches(groups[g], e))
      && (g in groups && ParseAbout(groups[g]).Ok? ==> t.parsed[g].token == ParseAbout(groups[g]).request.token)
  {
    FreshEntryMatches(groups, g, e);
  }

  /** Refreshing all caches re-parses every group of the relay but leaves the set of known
      group IDs alone: the two key sets then agree if and only if exactly the relay's groups
      were known. */
  lemma RefreshAllKeySets(s: MatcherState, groups: Groups)
    ensures var t := AllRefreshed(s, groups);
      t.parsed.Keys == t.groupIDs <==> groups.Keys == s.groupIDs
  {
    assert AllRefreshed(s, groups).parsed.Keys == groups.Keys;
  }
}
