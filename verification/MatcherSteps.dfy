/** The matcher cache with concurrent handlers: the relay applies a moderation event to its
    groups first, the event's handler runs later, in any order with other handlers, and
    startup loading visits the groups meanwhile. Parsing and caching are separate steps
    under the matcher's lock. */
module MatcherSteps {
  import opened Nostr
  import opened Req
  import opened Matcher

  /** One handler invocation; `Parsed` holds the matcher's lock with a parsed entry that is
      not cached yet. */
  datatype Task = Waiting(handler: Handler) | Parsed(g: GroupId, entry: Entry) | Done

  /** `toLoad` are the groups startup loading must visit: those there when it began and never
      deleted since, for loading may have passed a group while it was absent. `visited` are
      those it has visited. `had` is the history of every About each group has had. */
  datatype State = State(
    groups: Groups, matcher: MatcherState, tasks: seq<Task>, lock: Option<nat>,
    toLoad: set<GroupId>, visited: set<GroupId>, had: set<(GroupId, About)>)

  function Start(groups: Groups): State {
    State(groups, EMPTY, [], None, groups.Keys, {}, set g | g in groups :: (g, groups[g]))
  }

  datatype Action =
    | Apply(event: Event, about: About)
    | Visit(g: GroupId)
    | Begin(i: nat)
    | Finish(i: nat)
    | Reload

  function WithTask(s: State, h: Handler): State {
    s.(tasks := s.tasks + [Waiting(h)])
  }

  /** The relay changes its groups, then schedules the handler of the stored event. The
      About the relay stores need not be the one in the event. */
  function ApplyStep(json: JsonReader, s: State, e: Event, about: About): State {
    var g := FirstTag(e.tags, "h");
    var t := WithTask(s, HandlerOf(json, e));
    if g == "" then s
    else if (e.kind == CREATE_GROUP && g !in s.groups) || (e.kind == EDIT_METADATA && g in s.groups) then
      t.(groups := s.groups[g := about], had := s.had + {(g, about)})
    else if e.kind == DELETE_GROUP && g in s.groups then
      t.(groups := s.groups - {g}, toLoad := s.toLoad - {g})
    else s
  }

  /** A step that is not enabled does nothing, so every sequence of actions is a run. */
  function Step(json: JsonReader, s: State, a: Action): State {
    match a
    case Apply(e, about) => ApplyStep(json, s, e, about)
    case Visit(g) =>
      if g in s.groups && g !in s.visited then WithTask(s, Refresh(g)).(visited := s.visited + {g}) else s
    case Begin(i) =>
      if i < |s.tasks| && s.tasks[i].Waiting? && s.lock.None? then
        match s.tasks[i].handler
        case Ignore => s.(tasks := s.tasks[i := Done])
        case Remove(g) => s.(tasks := s.tasks[i := Done], matcher := Removed(s.matcher, g))
        case Refresh(g) =>
          s.(tasks := s.tasks[i := Parsed(g, FreshEntry(s.groups, g))], lock := Some(i),
             matcher := s.matcher.(groupIDs := s.matcher.groupIDs + {g}))
      else s
    case Finish(i) =>
      if i < |s.tasks| && s.tasks[i].Parsed? then
        s.(tasks := s.tasks[i := Done], lock := None,
           matcher := s.matcher.(parsed := s.matcher.parsed[s.tasks[i].g := s.tasks[i].entry]))
      else s
    case Reload =>
      if s.lock.None? then s.(matcher := EMPTY, toLoad := s.groups.Keys, visited := {}) else s
  }

  function Run(json: JsonReader, s: State, actions: seq<Action>): State {
    if actions == [] then s else Step(json, Run(json, s, actions[..|actions| - 1]), actions[|actions| - 1])
  }

  /** A handler that runs without interruption does what the sequential one does. */
  lemma HandlerAlone(json: JsonReader, s: State, i: nat)
    requires i < |s.tasks| && s.tasks[i].Waiting? && s.lock.None?
    ensures var t := Step(json, Step(json, s, Begin(i)), Finish(i));
      && t.lock.None? && t.tasks == s.tasks[i := Done] && t.groups == s.groups
      && t.matcher == match s.tasks[i].handler {
           case Ignore => s.matcher
           case Refresh(g) => Refreshed(s.matcher, s.groups, g)
           case Remove(g) => Removed(s.matcher, g)
         }
  {
  }

  // When the cache converges -------------------------------------------------------------------

  /** A refresh of `g` is still to come. */
  predicate RefreshDue(s: State, g: GroupId) {
    || (g in s.toLoad && g !in s.visited)
    || (exists i | 0 <= i < |s.tasks| :: s.tasks[i] == Waiting(Refresh(g)))
  }

  predicate RemovalDue(s: State, g: GroupId) {
    exists i | 0 <= i < |s.tasks| :: s.tasks[i] == Waiting(Remove(g))
  }

  /** The event creates a group whose earlier removal is still to be handled. */
  predicate RecreatesEarly(s: State, e: Event) {
    var g := FirstTag(e.tags, "h");
    g != "" && e.kind == CREATE_GROUP && g !in s.groups && RemovalDue(s, g)
  }

  /** The event changes what a group's About parses to, and nothing will refresh the entry. */
  predicate EditsSilently(json: JsonReader, s: State, e: Event, about: About) {
    var g := FirstTag(e.tags, "h");
    && g != "" && e.kind == EDIT_METADATA && g in s.groups
    && FreshEntry(s.groups[g := about], g) != FreshEntry(s.groups, g)
    && !HandlerOf(json, e).Refresh? && !RefreshDue(s, g)
  }

  predicate Disciplined(json: JsonReader, s: State, a: Action) {
    a.Apply? ==> !RecreatesEarly(s, a.event) && !EditsSilently(json, s, a.event, a.about)
  }

  predicate AlwaysDisciplined(json: JsonReader, s: State, actions: seq<Action>) {
    actions == [] ||
    (var before := actions[..|actions| - 1];
     AlwaysDisciplined(json, s, before) && Disciplined(json, Run(json, s, before), actions[|actions| - 1]))
  }

  // Invariants -----------------------------------------------------------------------------------

  predicate LockHeld(s: State) {
    && (forall i: nat | i < |s.tasks| && s.tasks[i].Parsed? :: s.lock == Some(i))
    && (s.lock.Some? ==> s.lock.value < |s.tasks| && s.tasks[s.lock.value].Parsed?)
  }

  /** Removals are pending only for groups that are gone. */
  predicate RemovalsAreFinal(s: State) {
    forall i | 0 <= i < |s.tasks| && s.tasks[i].Waiting? && s.tasks[i].handler.Remove? ::
        s.tasks[i].handler.g !in s.groups
  }

  predicate Holds(s: State, g: GroupId) {
    s.lock.Some? && s.lock.value < |s.tasks| && s.tasks[s.lock.value].Parsed? && s.tasks[s.lock.value].g == g
  }

  /** The cache agrees with the group's About, or is about to be corrected. */
  predicate UpToDate(s: State, g: GroupId) {
    || RefreshDue(s, g)
    || (if Holds(s, g) then s.tasks[s.lock.value].entry == FreshEntry(s.groups, g)
        else g in s.matcher.parsed && s.matcher.parsed[g] == FreshEntry(s.groups, g))
  }

  predicate Converging(s: State) {
    LockHeld(s) && RemovalsAreFinal(s) && forall g | g in s.groups :: UpToDate(s, g)
  }

  /** Reloading starts over: until the groups are visited again nothing matches, not even a group
      that was deleted without its handler, and every group of the relay is due. */
  lemma ReloadStartsOver(json: JsonReader, s: State, g: GroupId, e: Event)
    requires s.lock.None?
    ensures var t := Step(json, s, Reload);
      !GroupMatches(t.matcher.parsed, g, e) && g !in t.matcher.groupIDs && (g in t.groups ==> RefreshDue(t, g))
  {
  }

  lemma StructureStep(json: JsonReader, s: State, a: Action)
    requires LockHeld(s) && RemovalsAreFinal(s) && Disciplined(json, s, a)
    ensures LockHeld(Step(json, s, a)) && RemovalsAreFinal(Step(json, s, a))
  {
  }

  lemma RefreshStillDue(s: State, t: State, g: GroupId)
    requires RefreshDue(s, g)
    requires (g in s.toLoad ==> g in t.toLoad) && t.visited == s.visited
    requires forall i | 0 <= i < |s.tasks| && s.tasks[i] == Waiting(Refresh(g)) ::
        i < |t.tasks| && t.tasks[i] == s.tasks[i]
    ensures RefreshDue(t, g)
  {
    if !(g in s.toLoad && g !in s.visited) {
      var i :| 0 <= i < |s.tasks| && s.tasks[i] == Waiting(Refresh(g));
      assert t.tasks[i] == Waiting(Refresh(g));
    }
  }

  lemma UpToDateApply(json: JsonReader, s: State, e: Event, about: About, g: GroupId)
    requires LockHeld(s) && Disciplined(json, s, Apply(e, about))
    requires g in s.groups ==> UpToDate(s, g)
    requires g in ApplyStep(json, s, e, about).groups
    ensures UpToDate(ApplyStep(json, s, e, about), g)
  {
    var t := ApplyStep(json, s, e, about);
    if t != s {
      if g == FirstTag(e.tags, "h") && HandlerOf(json, e) == Refresh(g) {
        assert t.tasks[|s.tasks|] == Waiting(Refresh(g));
      } else if RefreshDue(s, g) {
        RefreshStillDue(s, t, g);
      } else {
        assert FreshEntry(t.groups, g) == FreshEntry(s.groups, g);
      }
    }
  }

  lemma UpToDateTask(json: JsonReader, s: State, a: Action, g: GroupId)
    requires LockHeld(s) && RemovalsAreFinal(s) && (a.Begin? || a.Finish?)
    requires g in s.groups && UpToDate(s, g)
    ensures UpToDate(Step(json, s, a), g)
  {
    var t := Step(json, s, a);
    if t != s {
      if a.Begin? && s.tasks[a.i] == Waiting(Refresh(g)) {
        assert Holds(t, g);
      } else if RefreshDue(s, g) {
        RefreshStillDue(s, t, g);
      }
    }
  }

  lemma UpToDateLoad(json: JsonReader, s: State, a: Action, g: GroupId)
    requires LockHeld(s) && (a.Visit? || a.Reload?)
    requires g in s.groups && UpToDate(s, g)
    ensures UpToDate(Step(json, s, a), g)
  {
    var t := Step(json, s, a);
    if a.Visit? && t != s {
      if a.g == g {
        assert t.tasks[|s.tasks|] == Waiting(Refresh(g));
      } else if exists i | 0 <= i < |s.tasks| :: s.tasks[i] == Waiting(Refresh(g)) {
        var i :| 0 <= i < |s.tasks| && s.tasks[i] == Waiting(Refresh(g));
        assert t.tasks[i] == Waiting(Refresh(g));
      }
    }
  }

  lemma ConvergingStep(json: JsonReader, s: State, a: Action)
    requires Converging(s) && Disciplined(json, s, a)
    ensures Converging(Step(json, s, a))
  {
    StructureStep(json, s, a);
    forall g | g in Step(json, s, a).groups ensures UpToDate(Step(json, s, a), g) {
      match a
      case Apply(e, about) => UpToDateApply(json, s, e, about, g);
      case Begin(_) => UpToDateTask(json, s, a, g);
      case Finish(_) => UpToDateTask(json, s, a, g);
      case _ => UpToDateLoad(json, s, a, g);
    }
  }

  lemma {:induction false} ConvergingAlways(json: JsonReader, groups: Groups, actions: seq<Action>)
    requires AlwaysDisciplined(json, Start(groups), actions)
    ensures Converging(Run(json, Start(groups), actions))
  {
    if actions == [] {
    } else {
      ConvergingAlways(json, groups, actions[..|actions| - 1]);
      ConvergingStep(json, Run(json, Start(groups), actions[..|actions| - 1]), actions[|actions| - 1]);
    }
  }

  // Convergence --------------------------------------------------------------------------------------

  /** No handler is pending or running, and loading has visited what it must. */
  predicate Settled(s: State) {
    && (forall i | 0 <= i < |s.tasks| :: s.tasks[i].Done?)
    && (forall g | g in s.toLoad && g in s.groups :: g in s.visited)
  }

  // Safety in every interleaving -------------------------------------------------------------------

  /** An entry without error is the parse of an About its group really had. */
  ghost predicate Genuine(s: State, g: GroupId, entry: Entry) {
    entry.error.None? ==>
      exists about :: (g, about) in s.had && ParseAbout(about) == Ok(Request(entry.token, entry.filters))
  }

  ghost predicate Sound(s: State) {
    && LockHeld(s)
    && (forall g | g in s.groups :: (g, s.groups[g]) in s.had)
    && (forall g | g in s.matcher.parsed :: Genuine(s, g, s.matcher.parsed[g]))
    && (forall i | 0 <= i < |s.tasks| && s.tasks[i].Parsed? :: Genuine(s, s.tasks[i].g, s.tasks[i].entry))
    && (forall g | g in s.matcher.groupIDs :: g in s.matcher.parsed || Holds(s, g))
    && (forall g | g in s.matcher.parsed :: g in s.matcher.groupIDs)
    && (forall i | 0 <= i < |s.tasks| && s.tasks[i].Parsed? :: s.tasks[i].g in s.matcher.groupIDs)
  }

  lemma FreshIsGenuine(s: State, g: GroupId)
    requires forall g | g in s.groups :: (g, s.groups[g]) in s.had
    ensures Genuine(s, g, FreshEntry(s.groups, g))
  {
  }

  lemma GenuineGrows(s: State, t: State, g: GroupId, entry: Entry)
    requires Genuine(s, g, entry) && s.had <= t.had
    ensures Genuine(t, g, entry)
  {
  }

  lemma GenuineStays(s: State, t: State)
    requires s.had <= t.had
    ensures forall g, entry | Genuine(s, g, entry) :: Genuine(t, g, entry)
  {
    forall g, entry | Genuine(s, g, entry) ensures Genuine(t, g, entry) {
      GenuineGrows(s, t, g, entry);
    }
  }

  lemma SoundTask(json: JsonReader, s: State, a: Action)
    requires Sound(s) && (a.Begin? || a.Finish?)
    ensures Sound(Step(json, s, a))
  {
    var t := Step(json, s, a);
    GenuineStays(s, t);
    forall g ensures Genuine(s, g, FreshEntry(s.groups, g)) {
      FreshIsGenuine(s, g);
    }
  }

  lemma SoundStep(json: JsonReader, s: State, a: Action)
    requires Sound(s)
    ensures Sound(Step(json, s, a))
  {
    if a.Begin? || a.Finish? {
      SoundTask(json, s, a);
    } else {
      GenuineStays(s, Step(json, s, a));
    }
  }

  lemma {:induction false} SoundAlways(json: JsonReader, groups: Groups, actions: seq<Action>)
    ensures Sound(Run(json, Start(groups), actions))
  {
    if actions == [] {
    } else {
      SoundAlways(json, groups, actions[..|actions| - 1]);
      SoundStep(json, Run(json, Start(groups), actions[..|actions| - 1]), actions[|actions| - 1]);
    }
  }

  /** The groups GetMatchingGroups returns for an event. */
  function Matching(s: State, e: Event): set<GroupId> {
    set g | g in s.groups && GroupMatches(s.matcher.parsed, g, e)
  }

  /** In every run, disciplined or not, a group only ever matches by filters of a valid
      About it had at some time, and while no handler holds the lock the known group IDs
      are exactly the cached ones. */
  lemma {:induction false} MatchesAreGenuine(json: JsonReader, groups: Groups, actions: seq<Action>, e: Event,
          g: GroupId)
    ensures var s := Run(json, Start(groups), actions);
      && (g in Matching(s, e) ==> exists about :: (g, about) in s.had && AboutMatches(about, e))
      && (s.lock.None? ==> s.matcher.groupIDs == s.matcher.parsed.Keys)
  {
    SoundAlways(json, groups, actions);
    var s := Run(json, Start(groups), actions);
    if g in Matching(s, e) {
      assert Genuine(s, g, s.matcher.parsed[g]);
    }
  }

  // Where convergence fails --------------------------------------------------------------------------

  lemma {:induction false} RunMore(json: JsonReader, s: State, actions: seq<Action>, a: Action)
    ensures Run(json, s, actions + [a]) == Step(json, Run(json, s, actions), a)
  {
    assert (actions + [a])[..|actions|] == actions;
  }

  /** An event of the given kind naming the group and carrying no other tag. */
  function GroupEvent(kind: int, g: GroupId): Event {
    Event("", "", kind, 0, [["h", g]], "")
  }

  lemma GroupEventHandler(json: JsonReader, kind: int, g: GroupId)
    requires g != ""
    ensures FirstTag(GroupEvent(kind, g).tags, "h") == g
    ensures HandlerOf(json, GroupEvent(kind, g)) ==
      if kind == CREATE_GROUP then Refresh(g) else if kind == DELETE_GROUP then Remove(g) else Ignore
  {
    var tags := GroupEvent(kind, g).tags;
    assert tags[0][0] == "h" && tags[0][1] == g && tags[1..] == [];
    assert |"h"| == 1 && |"about"| == 5;
    assert FirstTag(tags, "about") == FirstTag(tags[1..], "about") == "";
  }

  /** A settled run whose cache does not hold the parse of some current About. */
  predicate SettledStale(s: State, g: GroupId) {
    Settled(s) && g in s.groups && !(g in s.matcher.parsed && s.matcher.parsed[g] == FreshEntry(s.groups, g))
  }

  /** Startup loading of the only group. */
  lemma Loaded(json: JsonReader, g: GroupId, about: About) returns (actions: seq<Action>)
    ensures var groups := map[g := about];
      Run(json, Start(groups), actions) == State(
        groups, MatcherState({g}, map[g := FreshEntry(groups, g)]), [Done], None, {g}, {g}, {(g, about)})
  {
    var s0 := Start(map[g := about]);
    RunMore(json, s0, [], Visit(g));
    RunMore(json, s0, [] + [Visit(g)], Begin(0));
    RunMore(json, s0, [] + [Visit(g)] + [Begin(0)], Finish(0));
    actions := [] + [Visit(g)] + [Begin(0)] + [Finish(0)];
    var s1 := Run(json, s0, [] + [Visit(g)]);
    assert s1.tasks == [Waiting(Refresh(g))] && s1.visited == {g} && s1.lock == None;
    var s2 := Run(json, s0, [] + [Visit(g)] + [Begin(0)]);
    assert s2.tasks == [Parsed(g, FreshEntry(s0.groups, g))];
  }

  lemma DeletedAndRecreated(json: JsonReader, g: GroupId, about: About) returns (actions: seq<Action>)
    requires g != ""
    ensures var groups := map[g := about];
      Run(json, Start(groups), actions) == State(
        groups, MatcherState({g}, map[g := FreshEntry(groups, g)]), [Done, Waiting(Remove(g)), Waiting(Refresh(g))],
        None, {}, {g}, {(g, about)})
  {
    var delete, create := GroupEvent(DELETE_GROUP, g), GroupEvent(CREATE_GROUP, g);
    GroupEventHandler(json, DELETE_GROUP, g);
    GroupEventHandler(json, CREATE_GROUP, g);
    var s0 := Start(map[g := about]);
    var a := Loaded(json, g, about);
    RunMore(json, s0, a, Apply(delete, about));
    RunMore(json, s0, a + [Apply(delete, about)], Apply(create, about));
    actions := a + [Apply(delete, about)] + [Apply(create, about)];
    assert Run(json, s0, a + [Apply(delete, about)]).groups == map[];
  }

  /** A group deleted and created again whose handlers run in the opposite order ends up
      without a cache entry. */
  lemma RecreationDiverges(json: JsonReader, g: GroupId, about: About)
    requires g != ""
    ensures exists actions :: SettledStale(Run(json, Start(map[g := about]), actions), g)
  {
    var s0 := Start(map[g := about]);
    var a := DeletedAndRecreated(json, g, about);
    RunMore(json, s0, a, Begin(2));
    RunMore(json, s0, a + [Begin(2)], Finish(2));
    RunMore(json, s0, a + [Begin(2)] + [Finish(2)], Begin(1));
    assert Run(json, s0, a + [Begin(2)] + [Finish(2)]).tasks == [Done, Waiting(Remove(g)), Done];
    assert SettledStale(Run(json, s0, a + [Begin(2)] + [Finish(2)] + [Begin(1)]), g);
  }

  /** A metadata event without an `about` tag whose application changes the About leaves
      the cache at the old one. */
  lemma SilentUpdateDiverges(json: JsonReader, g: GroupId, before: About, after: About)
    requires g != "" && FreshEntry(map[g := before], g) != FreshEntry(map[g := after], g)
    ensures exists actions :: SettledStale(Run(json, Start(map[g := before]), actions), g)
  {
    var edit := GroupEvent(EDIT_METADATA, g);
    GroupEventHandler(json, EDIT_METADATA, g);
    var s0 := Start(map[g := before]);
    var a := Loaded(json, g, before);
    RunMore(json, s0, a, Apply(edit, after));
    a := a + [Apply(edit, after)];
    assert Run(json, s0, a).tasks == [Done, Waiting(Ignore)] && Run(json, s0, a).groups == map[g := after];
    RunMore(json, s0, a, Begin(1));
    assert SettledStale(Run(json, s0, a + [Begin(1)]), g);
  }
}
