/** Exactly when the matcher cache converges: which moderation events leave a state from which
    handlers and loading always settle on the current About fields. */
module Convergence {
  import opened Nostr
  import opened MatcherSteps
  import Matcher
  import Req

  type GroupId = Matcher.GroupId
  type Groups = Matcher.Groups
  type About = Req.About
  type JsonReader = Matcher.JsonReader

  /** Every group's cached entry is the parse of its current About. */
  predicate Agrees(s: State) {
    forall g | g in s.groups :: g in s.matcher.parsed && s.matcher.parsed[g] == Matcher.FreshEntry(s.groups, g)
  }

  /** No further moderation event is applied. */
  predicate Calm(actions: seq<Action>) {
    forall a | a in actions :: !a.Apply?
  }

  /** If moderation stops here, every schedule of the handlers and of loading that settles
      settles on the current About fields. */
  ghost predicate SettlesRight(json: JsonReader, s: State) {
    forall actions | Calm(actions) && Settled(Run(json, s, actions)) :: Agrees(Run(json, s, actions))
  }

  lemma {:induction false} ConvergingWhileCalm(json: JsonReader, s: State, actions: seq<Action>)
    requires Converging(s) && Calm(actions)
    ensures Converging(Run(json, s, actions))
  {
    if actions == [] {
    } else {
      ConvergingWhileCalm(json, s, actions[..|actions| - 1]);
      ConvergingStep(json, Run(json, s, actions[..|actions| - 1]), actions[|actions| - 1]);
    }
  }

  lemma ConvergingSettles(json: JsonReader, s: State)
    requires Converging(s)
    ensures SettlesRight(json, s)
  {
    forall actions | Calm(actions) && Settled(Run(json, s, actions)) ensures Agrees(Run(json, s, actions)) {
      ConvergingWhileCalm(json, s, actions);
    }
  }

  // A schedule that settles everything but one task ------------------------------------------------

  lemma {:induction false} RunConcat(json: JsonReader, s: State, a: seq<Action>, b: seq<Action>)
    ensures Run(json, s, a + b) == Run(json, Run(json, s, a), b)
  {
    if b == [] {
      assert a + b == a;
    } else {
      assert (a + b)[..|a + b| - 1] == a + b[..|b| - 1];
      RunConcat(json, s, a, b[..|b| - 1]);
    }
  }

  lemma {:induction false} RunOne(json: JsonReader, s: State, a: Action)
    ensures Run(json, s, [a]) == Step(json, s, a)
  {
    assert [a][..0] == [];
  }

  /** The cache will miss `g`'s current About: its entry is wrong and nothing will correct it,
      or the task at `held` will remove it. */
  predicate Stuck(s: State, g: GroupId, held: Option<nat>) {
    && g in s.groups
    && if held.Some? then held.value < |s.tasks| && s.tasks[held.value] == Waiting(Matcher.Remove(g))
       else !UpToDate(s, g)
  }

  /** Loading what must be loaded, finishing, and beginning any task but the held one. */
  predicate Scheduled(s: State, a: Action, held: Option<nat>) {
    match a
    case Visit(h) => h in s.toLoad && h !in s.visited
    case Begin(i) => held != Some(i)
    case Finish(_) => true
    case _ => false
  }

  lemma UndueAfter(json: JsonReader, s: State, a: Action, g: GroupId)
    requires !RefreshDue(s, g) && Scheduled(s, a, None)
    ensures !RefreshDue(Step(json, s, a), g)
  {
    var t := Step(json, s, a);
    forall i | 0 <= i < |t.tasks| ensures t.tasks[i] != Waiting(Matcher.Refresh(g)) {
      if i < |s.tasks| {
        assert s.tasks[i] != Waiting(Matcher.Refresh(g));
      }
    }
  }

  lemma StuckStep(json: JsonReader, s: State, a: Action, g: GroupId, held: Option<nat>)
    requires LockHeld(s) && Stuck(s, g, held) && Scheduled(s, a, held)
    ensures var t := Step(json, s, a);
      LockHeld(t) && Stuck(t, g, held) && t.groups == s.groups && t.toLoad == s.toLoad
  {
    if held.None? {
      UndueAfter(json, s, a, g);
    }
  }

  /** The groups that loading still has to visit. */
  function Unvisited(s: State): set<GroupId> {
    set h | h in s.toLoad && h in s.groups && h !in s.visited
  }

  predicate OnTheWay(s: State, t: State, g: GroupId, held: Option<nat>) {
    LockHeld(t) && Stuck(t, g, held) && t.groups == s.groups
  }

  lemma {:induction false} VisitAll(json: JsonReader, s: State, g: GroupId,
          held: Option<nat>) returns (actions: seq<Action>)
    requires LockHeld(s) && Stuck(s, g, held)
    ensures var t := Run(json, s, actions); Calm(actions) && OnTheWay(s, t, g, held) && Unvisited(t) == {}
    decreases |Unvisited(s)|
  {
    if Unvisited(s) == {} {
      actions := [];
    } else {
      var h :| h in Unvisited(s);
      var t := Step(json, s, Visit(h));
      StuckStep(json, s, Visit(h), g, held);
      assert Unvisited(t) == Unvisited(s) - {h};
      var rest := VisitAll(json, t, g, held);
      actions := [Visit(h)] + rest;
      RunOne(json, s, Visit(h));
      RunConcat(json, s, [Visit(h)], rest);
    }
  }

  lemma FinishLock(json: JsonReader, s: State, g: GroupId, held: Option<nat>) returns (actions: seq<Action>)
    requires LockHeld(s) && Stuck(s, g, held)
    ensures var t := Run(json, s, actions);
      Calm(actions) && OnTheWay(s, t, g, held) && Unvisited(t) == Unvisited(s) && t.lock.None?
  {
    if s.lock.None? {
      actions := [];
    } else {
      actions := [Finish(s.lock.value)];
      RunOne(json, s, Finish(s.lock.value));
      StuckStep(json, s, Finish(s.lock.value), g, held);
    }
  }

  /** The first `n` tasks are done, except the held one. */
  predicate DoneBut(s: State, n: nat, held: Option<nat>) {
    n <= |s.tasks| && forall i: nat | i < n && held != Some(i) :: s.tasks[i].Done?
  }

  lemma FinishTask(json: JsonReader, s: State, n: nat, g: GroupId, held: Option<nat>) returns (actions: seq<Action>)
    requires LockHeld(s) && Stuck(s, g, held) && s.lock.None? && n < |s.tasks| && DoneBut(s, n, held)
    ensures var t := Run(json, s, actions);
      && Calm(actions) && OnTheWay(s, t, g, held) && Unvisited(t) == Unvisited(s) && t.lock.None?
      && |t.tasks| == |s.tasks| && DoneBut(t, n + 1, held)
  {
    if s.tasks[n].Done? || held == Some(n) {
      actions := [];
    } else {
      var u := Step(json, s, Begin(n));
      StuckStep(json, s, Begin(n), g, held);
      RunOne(json, s, Begin(n));
      if u.tasks[n].Done? {
        actions := [Begin(n)];
      } else {
        StuckStep(json, u, Finish(n), g, held);
        RunOne(json, u, Finish(n));
        actions := [Begin(n)] + [Finish(n)];
        RunConcat(json, s, [Begin(n)], [Finish(n)]);
      }
    }
  }

  lemma {:induction false} FinishAll(json: JsonReader, s: State, n: nat, g: GroupId,
          held: Option<nat>) returns (actions: seq<Action>)
    requires LockHeld(s) && Stuck(s, g, held) && s.lock.None? && DoneBut(s, n, held)
    ensures var t := Run(json, s, actions);
      && Calm(actions) && OnTheWay(s, t, g, held) && Unvisited(t) == Unvisited(s) && t.lock.None?
      && DoneBut(t, |t.tasks|, held)
    decreases |s.tasks| - n
  {
    if n == |s.tasks| {
      actions := [];
    } else {
      var first := FinishTask(json, s, n, g, held);
      var rest := FinishAll(json, Run(json, s, first), n + 1, g, held);
      actions := first + rest;
      RunConcat(json, s, first, rest);
    }
  }

  /** A stuck state settles, on some schedule, without its group's current About. */
  lemma StuckSettlesWrong(json: JsonReader, s: State, g: GroupId, held: Option<nat>)
    requires LockHeld(s) && Stuck(s, g, held)
    ensures !SettlesRight(json, s)
  {
    var first := VisitAll(json, s, g, held);
    var u := Run(json, s, first);
    var second := FinishLock(json, u, g, held);
    var v := Run(json, u, second);
    var third := FinishAll(json, v, 0, g, held);
    var w := Run(json, v, third);
    var last := RunHeld(json, w, g, held);
    RunConcat(json, s, first, second);
    RunConcat(json, s, first + second, third);
    RunConcat(json, s, first + second + third, last);
    var actions := first + second + third + last;
    assert Calm(actions) && Settled(Run(json, s, actions)) && !Agrees(Run(json, s, actions));
  }

  lemma RunHeld(json: JsonReader, s: State, g: GroupId, held: Option<nat>) returns (actions: seq<Action>)
    requires LockHeld(s) && Stuck(s, g, held) && s.lock.None? && Unvisited(s) == {} && DoneBut(s, |s.tasks|, held)
    ensures var t := Run(json, s, actions); Calm(actions) && Settled(t) && !Agrees(t)
  {
    forall h | h in s.toLoad && h in s.groups ensures h in s.visited {
      assert h !in Unvisited(s);
    }
    if held.Some? {
      actions := [Begin(held.value)];
      RunOne(json, s, Begin(held.value));
    } else {
      actions := [];
    }
  }

  // Main results ---------------------------------------------------------------------------------------

  lemma UndisciplinedIsStuck(json: JsonReader, s: State, e: Event, about: About) returns (g: GroupId, held: Option<nat>)
    requires Converging(s) && !Disciplined(json, s, Apply(e, about))
    ensures LockHeld(Step(json, s, Apply(e, about))) && Stuck(Step(json, s, Apply(e, about)), g, held)
  {
    g := Matcher.FirstTag(e.tags, "h");
    var t := Step(json, s, Apply(e, about));
    if RecreatesEarly(s, e) {
      var r: nat :| r < |s.tasks| && s.tasks[r] == Waiting(Matcher.Remove(g));
      held := Some(r);
      assert t.tasks[r] == s.tasks[r];
    } else {
      held := None;
      SilentEditIsStuck(json, s, e, about, g);
    }
  }

  lemma SilentEditIsStuck(json: JsonReader, s: State, e: Event, about: About, g: GroupId)
    requires Converging(s) && EditsSilently(json, s, e, about) && g == Matcher.FirstTag(e.tags, "h")
    ensures LockHeld(Step(json, s, Apply(e, about))) && Stuck(Step(json, s, Apply(e, about)), g, None)
  {
    var t := Step(json, s, Apply(e, about));
    assert UpToDate(s, g);
    forall i | 0 <= i < |t.tasks| ensures t.tasks[i] != Waiting(Matcher.Refresh(g)) {
      if i < |s.tasks| {
        assert s.tasks[i] != Waiting(Matcher.Refresh(g));
      }
    }
  }

  /** From a converging state, moderation may stop after an event, with every schedule settling
      on the current About fields, if and only if the event is disciplined: it neither creates
      a group again before its removal was handled, nor silently changes what an About means. */
  lemma SettlesRightIffDisciplined(json: JsonReader, s: State, a: Action)
    requires Converging(s)
    ensures SettlesRight(json, Step(json, s, a)) <==> Disciplined(json, s, a)
  {
    if Disciplined(json, s, a) {
      ConvergingStep(json, s, a);
      ConvergingSettles(json, Step(json, s, a));
    } else {
      var g, held := UndisciplinedIsStuck(json, s, a.event, a.about);
      StuckSettlesWrong(json, Step(json, s, a), g, held);
    }
  }

  /** Wherever moderation stops in the run, every schedule settles right. */
  ghost predicate AlwaysSettlesRight(json: JsonReader, s: State, actions: seq<Action>) {
    && SettlesRight(json, Run(json, s, actions))
    && (actions == [] || AlwaysSettlesRight(json, s, actions[..|actions| - 1]))
  }

  /** Over every run from start-up: it can be stopped anywhere and always settles right if and
      only if all its moderation events are disciplined. */
  lemma {:induction false} ConvergesIffDisciplined(json: JsonReader, groups: Groups, actions: seq<Action>)
    ensures AlwaysSettlesRight(json, Start(groups), actions) <==> AlwaysDisciplined(json, Start(groups), actions)
  {
    var start := Start(groups);
    if actions == [] {
      ConvergingAlways(json, groups, []);
      ConvergingSettles(json, start);
    } else {
      var before := actions[..|actions| - 1];
      ConvergesIffDisciplined(json, groups, before);
      if AlwaysDisciplined(json, start, before) {
        ConvergingAlways(json, groups, before);
        SettlesRightIffDisciplined(json, Run(json, start, before), actions[|actions| - 1]);
      }
    }
  }

  /** Then, once everything has settled, every group matches an event exactly as its current
      About, parsed afresh, does: however applications, handlers and loading interleaved. */
  lemma {:induction false} CacheConverges(json: JsonReader, groups: Groups, actions: seq<Action>, g: GroupId, e: Event)
    requires AlwaysDisciplined(json, Start(groups), actions)
    requires Settled(Run(json, Start(groups), actions))
    ensures var s := Run(json, Start(groups), actions);
      g in s.groups ==> (Matcher.GroupMatches(s.matcher.parsed, g, e) <==> Req.AboutMatches(s.groups[g], e))
  {
    ConvergingAlways(json, groups, actions);
    Matcher.FreshEntryMatches(Run(json, Start(groups), actions).groups, g, e);
  }
}
