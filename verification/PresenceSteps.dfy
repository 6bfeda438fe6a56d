/** The online map of internal/subscription/presence.go one map or atomic operation
    at a time. Map values are references to counter cells, so a cell that was deleted
    from the map may still be added to by goroutines that loaded it before. */
module PresenceSteps {
  import opened Presence

  type CellId = nat

  /** The connect hook's polling goroutine: idle, between LoadOrStore and the add,
      or after the add. */
  datatype Increment = Waiting | Stored(cell: CellId) | Added(cell: CellId)

  /** The disconnect hook: not started, after Load, between an add that came to zero
      or less and the Delete, or finished (having loaded a cell or none). */
  datatype Decrement =
    | NotStarted
    | Loaded(cell: CellId)
    | Deleting(cell: CellId)
    | Finished(cell: CellId)
    | FoundNothing

  /** The keys that the two hooks read can differ. An empty one is never counted, or nothing
      is to be decremented. A disconnect hook that runs again is a connection of its own that
      is never counted. */
  datatype Conn = Conn(pubkey: Pubkey, closesAs: Pubkey, inc: Increment, dec: Decrement)

  datatype State = State(online: map<Pubkey, CellId>, cells: seq<int>, conns: seq<Conn>)

  const EMPTY := State(map[], [], [])

  datatype Action =
    | Connect(pubkey: Pubkey, closesAs: Pubkey)
    | LoadOrStore(k: ConnId)
    | LateLoadOrStore(k: ConnId)
    | AddOne(k: ConnId)
    | Load(k: ConnId)
    | SubtractOne(k: ConnId)
    | Delete(k: ConnId)

  function WithConn(s: State, k: ConnId, c: Conn): State
    requires k < |s.conns|
  {
    s.(conns := s.conns[k := c])
  }

  function DoLoadOrStore(s: State, k: ConnId): State
    requires k < |s.conns|
  {
    var conn := s.conns[k];
    if conn.pubkey in s.online then
      WithConn(s, k, conn.(inc := Stored(s.online[conn.pubkey])))
    else
      State(s.online[conn.pubkey := |s.cells|], s.cells + [0],
            s.conns[k := conn.(inc := Stored(|s.cells|))])
  }

  /** One atomic operation; an operation whose goroutine is not at that point does
      nothing, so every sequence of actions is a run. `LateLoadOrStore` is an
      increment that begins after the connection's disconnect hook has begun. */
  function Step(s: State, a: Action): State {
    if a.Connect? then
      s.(conns := s.conns + [Conn(a.pubkey, a.closesAs, Waiting, NotStarted)])
    else if a.k >= |s.conns| then s
    else
      var conn := s.conns[a.k];
      match a
      case LoadOrStore(k) =>
        if conn.pubkey != "" && conn.inc.Waiting? && conn.dec.NotStarted? then DoLoadOrStore(s, k) else s
      case LateLoadOrStore(k) =>
        if conn.pubkey != "" && conn.inc.Waiting? && !conn.dec.NotStarted? then DoLoadOrStore(s, k) else s
      case AddOne(k) =>
        if conn.inc.Stored? && conn.inc.cell < |s.cells| then
          WithConn(s, k, conn.(inc := Added(conn.inc.cell)))
          .(cells := s.cells[conn.inc.cell := Wrap32(s.cells[conn.inc.cell] + 1)])
        else s
      case Load(k) =>
        if !conn.dec.NotStarted? then s
        else if conn.closesAs != "" && conn.closesAs in s.online then
          WithConn(s, k, conn.(dec := Loaded(s.online[conn.closesAs])))
        else WithConn(s, k, conn.(dec := FoundNothing))
      case SubtractOne(k) =>
        if conn.dec.Loaded? && conn.dec.cell < |s.cells| then
          var c := conn.dec.cell;
          var left := Wrap32(s.cells[c] - 1);
          WithConn(s, k, conn.(dec := if left <= 0 then Deleting(c) else Finished(c)))
          .(cells := s.cells[c := left])
        else s
      case Delete(k) =>
        if conn.dec.Deleting? then
          WithConn(s, k, conn.(dec := Finished(conn.dec.cell))).(online := s.online - {conn.closesAs})
        else s
      case Connect(_, _) => s
  }

  function Run(actions: seq<Action>): State {
    if actions == [] then EMPTY else Step(Run(actions[..|actions| - 1]), actions[|actions| - 1])
  }

  /** The action begins an increment of this key. */
  predicate Counts(s: State, a: Action, p: Pubkey) {
    && (a.LoadOrStore? || a.LateLoadOrStore?) && a.k < |s.conns| && s.conns[a.k].pubkey == p
    && s.conns[a.k].inc.Waiting? && (a.LoadOrStore? <==> s.conns[a.k].dec.NotStarted?)
  }

  /** The action begins an increment of this key that its connection's disconnect hook will
      not undo: the hook has begun already, or it reads another key. */
  predicate CountsAstray(s: State, a: Action, p: Pubkey) {
    Counts(s, a, p) && (a.LateLoadOrStore? || s.conns[a.k].closesAs != p)
  }

  predicate NoneAstray(actions: seq<Action>, p: Pubkey) {
    actions == [] ||
    (var before := actions[..|actions| - 1];
     NoneAstray(before, p) && !CountsAstray(Run(before), actions[|actions| - 1], p))
  }

  // Who has touched a cell ----------------------------------------------------

  predicate TookCell(conn: Conn, c: CellId) {
    !conn.inc.Waiting? && conn.inc.cell == c
  }

  predicate SawCell(conn: Conn, c: CellId) {
    conn.dec == Loaded(c) || conn.dec == Deleting(c) || conn.dec == Finished(c)
  }

  predicate Subtracted(conn: Conn, c: CellId) {
    conn.dec == Deleting(c) || conn.dec == Finished(c)
  }

  function Adders(s: State, c: CellId): set<ConnId> {
    set k | 0 <= k < |s.conns| && s.conns[k].inc == Added(c)
  }

  function Subtracters(s: State, c: CellId): set<ConnId> {
    set k | 0 <= k < |s.conns| && Subtracted(s.conns[k], c)
  }

  // Invariants ----------------------------------------------------------------

  predicate CellsExist(s: State) {
    && (forall k | 0 <= k < |s.conns| :: !s.conns[k].inc.Waiting? ==> s.conns[k].inc.cell < |s.cells|)
    && (forall k | 0 <= k < |s.conns| ::
          s.conns[k].dec.Loaded? || s.conns[k].dec.Deleting? || s.conns[k].dec.Finished? ==>
            s.conns[k].dec.cell < |s.cells|)
    && (forall p | p in s.online :: s.online[p] < |s.cells|)
  }

  /** A cell's value is its additions minus its subtractions. */
  predicate Balanced(s: State) {
    forall c | 0 <= c < |s.cells| :: s.cells[c] == |Adders(s, c)| - |Subtracters(s, c)|
  }

  /** A mapped cell is taken and loaded under its key only, and belongs to one key. */
  predicate Owned(s: State) {
    && (forall p, k | p in s.online && 0 <= k < |s.conns| && TookCell(s.conns[k], s.online[p]) ::
          s.conns[k].pubkey == p)
    && (forall p, k | p in s.online && 0 <= k < |s.conns| && SawCell(s.conns[k], s.online[p]) ::
          s.conns[k].closesAs == p)
    && (forall p, q | p in s.online && q in s.online && p != q :: s.online[p] != s.online[q])
  }

  /** The connection's disconnect hook has loaded this cell, or has not begun and will look
      under the key the cell was taken under. */
  predicate ReturnsTo(conn: Conn, c: CellId) {
    SawCell(conn, c) || (conn.dec.NotStarted? && conn.closesAs == conn.pubkey)
  }

  /** Some connection took the cell, and every taker returns to it. */
  predicate Tracked(s: State, c: CellId) {
    && (exists k | 0 <= k < |s.conns| :: TookCell(s.conns[k], c))
    && (forall k | 0 <= k < |s.conns| && TookCell(s.conns[k], c) :: ReturnsTo(s.conns[k], c))
  }

  /** A cell that was ever subtracted from is positive or its entry is about to be deleted. */
  predicate Guarded(s: State, c: CellId)
    requires c < |s.cells|
  {
    || s.cells[c] > 0
    || (forall k | 0 <= k < |s.conns| :: !Subtracted(s.conns[k], c))
    || (exists k | 0 <= k < |s.conns| :: s.conns[k].dec == Deleting(c))
  }

  /** What holds of all keys, and of the given one. */
  predicate Invariant(s: State, p: Pubkey) {
    && CellsExist(s) && Balanced(s) && Owned(s)
    && (p in s.online ==> Tracked(s, s.online[p]) && Guarded(s, s.online[p]))
  }

  function Indices(n: nat): (r: set<ConnId>)
    ensures |r| == n && forall k: nat :: k in r <==> k < n
  {
    if n == 0 then {} else Indices(n - 1) + {n - 1}
  }

  lemma CellInRange(s: State, c: CellId)
    requires Balanced(s) && c < |s.cells|
    ensures -|s.conns| <= s.cells[c] <= |s.conns|
  {
    Subset(Adders(s, c), Indices(|s.conns|));
    Subset(Subtracters(s, c), Indices(|s.conns|));
  }

  /** Additions to, and subtractions from, one cell stay clear of the int32 limits. */
  lemma NoWrap(s: State, c: CellId)
    requires Balanced(s) && c < |s.cells| && |s.conns| < INT32_MAX
    ensures Wrap32(s.cells[c] + 1) == s.cells[c] + 1 && Wrap32(s.cells[c] - 1) == s.cells[c] - 1
  {
    CellInRange(s, c);
  }

  /** Replacing one connection changes the adders of a cell at that connection only. */
  lemma AdderChange(s: State, t: State, k: ConnId, c: CellId)
    requires k < |s.conns| == |t.conns| && t.conns == s.conns[k := t.conns[k]]
    ensures s.conns[k].inc != Added(c) && t.conns[k].inc == Added(c) ==> |Adders(t, c)| == |Adders(s, c)| + 1
    ensures (s.conns[k].inc == Added(c) <==> t.conns[k].inc == Added(c)) ==> Adders(t, c) == Adders(s, c)
  {
    if t.conns[k].inc == Added(c) {
      assert Adders(t, c) == Adders(s, c) + {k};
    } else if s.conns[k].inc != Added(c) {
      assert Adders(t, c) == Adders(s, c);
    }
  }

  lemma SubtracterChange(s: State, t: State, k: ConnId, c: CellId)
    requires k < |s.conns| == |t.conns| && t.conns == s.conns[k := t.conns[k]]
    ensures !Subtracted(s.conns[k], c) && Subtracted(t.conns[k], c) ==> |Subtracters(t, c)| == |Subtracters(s, c)| + 1
    ensures (Subtracted(s.conns[k], c) <==> Subtracted(t.conns[k], c)) ==> Subtracters(t, c) == Subtracters(s, c)
  {
    if Subtracted(t.conns[k], c) {
      assert Subtracters(t, c) == Subtracters(s, c) + {k};
    } else if !Subtracted(s.conns[k], c) {
      assert Subtracters(t, c) == Subtracters(s, c);
    }
  }

  lemma CellsExistStep(s: State, a: Action)
    requires CellsExist(s)
    ensures CellsExist(Step(s, a))
  {
  }

  lemma BalancedConnect(s: State, p: Pubkey, q: Pubkey)
    requires Balanced(s)
    ensures Balanced(Step(s, Connect(p, q)))
  {
    var t := Step(s, Connect(p, q));
    forall c | 0 <= c < |s.cells| ensures Adders(t, c) == Adders(s, c) && Subtracters(t, c) == Subtracters(s, c) {}
  }

  lemma BalancedStep(s: State, a: Action)
    requires CellsExist(s) && Balanced(s) && |s.conns| < INT32_MAX
    ensures CellsExist(Step(s, a)) && Balanced(Step(s, a))
  {
    var t := Step(s, a);
    CellsExistStep(s, a);
    if a.Connect? {
      BalancedConnect(s, a.pubkey, a.closesAs);
    } else if t != s {
      forall c | 0 <= c < |t.cells| ensures t.cells[c] == |Adders(t, c)| - |Subtracters(t, c)| {
        BalancedCell(s, a, c);
      }
    }
  }

  lemma BalancedCell(s: State, a: Action, c: CellId)
    requires CellsExist(s) && Balanced(s) && |s.conns| < INT32_MAX && !a.Connect? && Step(s, a) != s
    requires c < |Step(s, a).cells|
    ensures var t := Step(s, a); t.cells[c] == |Adders(t, c)| - |Subtracters(t, c)|
  {
    var t := Step(s, a);
    AdderChange(s, t, a.k, c);
    SubtracterChange(s, t, a.k, c);
    if c < |s.cells| {
      NoWrap(s, c);
    } else {
      assert Adders(s, c) == {} && Subtracters(s, c) == {};
    }
  }

  lemma OwnedLoadOrStore(s: State, k: ConnId)
    requires CellsExist(s) && Owned(s) && k < |s.conns| && s.conns[k].inc.Waiting?
    ensures Owned(DoLoadOrStore(s, k))
  {
  }

  lemma OwnedLoad(s: State, k: ConnId)
    requires CellsExist(s) && Owned(s)
    ensures Owned(Step(s, Load(k)))
  {
  }

  /** Any other operation lets no connection touch a new cell and maps no key anew. */
  lemma OwnedOther(s: State, a: Action)
    requires CellsExist(s) && Owned(s) && !a.LoadOrStore? && !a.LateLoadOrStore? && !a.Load?
    ensures Owned(Step(s, a))
  {
  }

  lemma OwnedStep(s: State, a: Action)
    requires CellsExist(s) && Owned(s)
    ensures Owned(Step(s, a))
  {
    if a.LoadOrStore? || a.LateLoadOrStore? {
      if Step(s, a) != s {
        OwnedLoadOrStore(s, a.k);
      }
    } else if a.Load? {
      OwnedLoad(s, a.k);
    } else {
      OwnedOther(s, a);
    }
  }

  /** `Tracked` survives the replacement of one connection that keeps the cell it took and
      returns to it. */
  lemma TrackedFrame(s: State, t: State, k: ConnId, c: CellId)
    requires Tracked(s, c)
    requires k < |s.conns| == |t.conns| && t.conns == s.conns[k := t.conns[k]]
    requires TookCell(s.conns[k], c) ==> TookCell(t.conns[k], c)
    requires TookCell(t.conns[k], c) ==> ReturnsTo(t.conns[k], c)
    ensures Tracked(t, c)
  {
    var w :| 0 <= w < |s.conns| && TookCell(s.conns[w], c);
    assert TookCell(t.conns[w], c);
  }

  lemma TrackedFresh(s: State, t: State, k: ConnId, c: CellId)
    requires CellsExist(s) && c == |s.cells|
    requires k < |s.conns| == |t.conns| && t.conns == s.conns[k := t.conns[k]]
    requires TookCell(t.conns[k], c) && ReturnsTo(t.conns[k], c)
    ensures Tracked(t, c)
  {
    assert TookCell(t.conns[k], c);
  }

  lemma TrackedLoadOrStore(s: State, k: ConnId, p: Pubkey)
    requires CellsExist(s) && Owned(s) && k < |s.conns| && s.conns[k].inc.Waiting?
    requires s.conns[k].pubkey == p ==> s.conns[k].dec.NotStarted? && s.conns[k].closesAs == p
    requires p in s.online ==> Tracked(s, s.online[p])
    requires p in DoLoadOrStore(s, k).online
    ensures Tracked(DoLoadOrStore(s, k), DoLoadOrStore(s, k).online[p])
  {
    var t := DoLoadOrStore(s, k);
    if p !in s.online {
      TrackedFresh(s, t, k, t.online[p]);
    } else {
      TrackedFrame(s, t, k, t.online[p]);
    }
  }

  lemma TrackedLoad(s: State, k: ConnId, p: Pubkey)
    requires CellsExist(s) && Owned(s) && k < |s.conns| && s.conns[k].dec.NotStarted?
    requires p != "" && p in s.online && Tracked(s, s.online[p])
    ensures Tracked(Step(s, Load(k)), s.online[p])
  {
    TrackedFrame(s, Step(s, Load(k)), k, s.online[p]);
  }

  lemma TrackedConnect(s: State, p: Pubkey, q: Pubkey, c: CellId)
    requires CellsExist(s) && Tracked(s, c)
    ensures Tracked(Step(s, Connect(p, q)), c)
  {
    var w :| 0 <= w < |s.conns| && TookCell(s.conns[w], c);
    assert TookCell(Step(s, Connect(p, q)).conns[w], c);
  }

  lemma TrackedStep(s: State, a: Action, p: Pubkey)
    requires p != "" && CellsExist(s) && Owned(s) && !CountsAstray(s, a, p)
    requires p in s.online ==> Tracked(s, s.online[p])
    requires p in Step(s, a).online
    ensures Tracked(Step(s, a), Step(s, a).online[p])
  {
    var t := Step(s, a);
    if t != s {
      if a.LoadOrStore? || a.LateLoadOrStore? {
        TrackedLoadOrStore(s, a.k, p);
      } else if a.Load? {
        TrackedLoad(s, a.k, p);
      } else if a.Connect? {
        TrackedConnect(s, a.pubkey, a.closesAs, s.online[p]);
      } else {
        TrackedFrame(s, t, a.k, s.online[p]);
      }
    }
  }

  /** `Guarded` survives any replacement that keeps a pending delete of the cell and
      leaves the cell positive or adds a pending delete whenever it subtracts. */
  lemma GuardedFrame(s: State, t: State, k: ConnId, c: CellId)
    requires c < |s.cells| && c < |t.cells| && Guarded(s, c)
    requires k < |s.conns| == |t.conns| && t.conns == s.conns[k := t.conns[k]]
    requires s.conns[k].dec == Deleting(c) ==> t.conns[k].dec == Deleting(c)
    requires (t.cells[c] >= s.cells[c] && (Subtracted(t.conns[k], c) ==> Subtracted(s.conns[k], c)))
      || t.cells[c] > 0 || t.conns[k].dec == Deleting(c)
    ensures Guarded(t, c)
  {
    if exists w | 0 <= w < |s.conns| :: s.conns[w].dec == Deleting(c) {
      var w :| 0 <= w < |s.conns| && s.conns[w].dec == Deleting(c);
      assert t.conns[w].dec == Deleting(c);
    } else if t.conns[k].dec == Deleting(c) {
      assert Guarded(t, c);
    }
  }

  lemma GuardedConnect(s: State, p: Pubkey, q: Pubkey, c: CellId)
    requires c < |s.cells| && Guarded(s, c)
    ensures Guarded(Step(s, Connect(p, q)), c)
  {
    if exists w | 0 <= w < |s.conns| :: s.conns[w].dec == Deleting(c) {
      var w :| 0 <= w < |s.conns| && s.conns[w].dec == Deleting(c);
      assert Step(s, Connect(p, q)).conns[w].dec == Deleting(c);
    }
  }

  lemma GuardedDelete(s: State, k: ConnId, p: Pubkey)
    requires CellsExist(s) && Owned(s) && p in s.online && Guarded(s, s.online[p]) && p in Step(s, Delete(k)).online
    ensures Guarded(Step(s, Delete(k)), s.online[p])
  {
    var t, c := Step(s, Delete(k)), s.online[p];
    if t != s {
      assert !SawCell(s.conns[k], c);
      GuardedFrame(s, t, k, c);
    }
  }

  lemma GuardedLoadOrStore(s: State, k: ConnId, c: CellId)
    requires k < |s.conns| && c < |s.cells| && Guarded(s, c)
    ensures Guarded(DoLoadOrStore(s, k), c)
  {
    GuardedFrame(s, DoLoadOrStore(s, k), k, c);
  }

  lemma GuardedStep(s: State, a: Action, p: Pubkey)
    requires CellsExist(s) && Owned(s) && Balanced(s) && |s.conns| < INT32_MAX
    requires p in s.online && Guarded(s, s.online[p])
    requires p in Step(s, a).online
    ensures Step(s, a).online[p] < |Step(s, a).cells| && Guarded(Step(s, a), Step(s, a).online[p])
  {
    var t, c := Step(s, a), s.online[p];
    if a.Connect? {
      GuardedConnect(s, a.pubkey, a.closesAs, c);
    } else if a.Delete? {
      GuardedDelete(s, a.k, p);
    } else if t != s {
      if a.LoadOrStore? || a.LateLoadOrStore? {
        GuardedLoadOrStore(s, a.k, c);
      } else {
        GuardedOther(s, a, c);
      }
    }
  }

  lemma GuardedOther(s: State, a: Action, c: CellId)
    requires Balanced(s) && |s.conns| < INT32_MAX && c < |s.cells| && Guarded(s, c)
    requires a.AddOne? || a.Load? || a.SubtractOne?
    ensures |Step(s, a).cells| == |s.cells| && Guarded(Step(s, a), c)
  {
    if Step(s, a) != s {
      NoWrap(s, c);
      if a.SubtractOne? {
        GuardedSubtract(s, a.k, c);
      } else {
        GuardedFrame(s, Step(s, a), a.k, c);
      }
    }
  }

  lemma GuardedSubtract(s: State, k: ConnId, c: CellId)
    requires c < |s.cells| && Guarded(s, c) && Wrap32(s.cells[c] - 1) == s.cells[c] - 1
    requires k < |s.conns| && s.conns[k].dec.Loaded? && s.conns[k].dec.cell < |s.cells|
    ensures Guarded(Step(s, SubtractOne(k)), c)
  {
    GuardedFrame(s, Step(s, SubtractOne(k)), k, c);
  }

  lemma GuardedFresh(s: State, a: Action, p: Pubkey)
    requires CellsExist(s) && p !in s.online && p in Step(s, a).online
    ensures Step(s, a).online[p] < |Step(s, a).cells| && Guarded(Step(s, a), Step(s, a).online[p])
  {
  }

  lemma InvariantStep(s: State, a: Action, p: Pubkey)
    requires p != "" && Invariant(s, p) && !CountsAstray(s, a, p) && |s.conns| < INT32_MAX
    ensures Invariant(Step(s, a), p)
  {
    BalancedStep(s, a);
    OwnedStep(s, a);
    if p in Step(s, a).online {
      TrackedStep(s, a, p);
      if p in s.online {
        GuardedStep(s, a, p);
      } else {
        GuardedFresh(s, a, p);
      }
    }
  }

  lemma ConnsGrow(s: State, a: Action)
    ensures |Step(s, a).conns| <= |s.conns| + 1
  {
  }

  lemma {:induction false} InvariantAlways(actions: seq<Action>, p: Pubkey)
    requires p != "" && NoneAstray(actions, p) && |actions| < INT32_MAX
    ensures Invariant(Run(actions), p) && |Run(actions).conns| <= |actions|
  {
    if actions == [] {
    } else {
      var before := Run(actions[..|actions| - 1]);
      InvariantAlways(actions[..|actions| - 1], p);
      InvariantStep(before, actions[|actions| - 1], p);
      ConnsGrow(before, actions[|actions| - 1]);
    }
  }

  // Main results --------------------------------------------------------------

  predicate HookOver(conn: Conn) {
    conn.dec.Finished? || conn.dec.FoundNothing?
  }

  /** No disconnect hook for this key is to come or in flight. */
  predicate Unclosing(s: State, p: Pubkey) {
    forall k | 0 <= k < |s.conns| && s.conns[k].closesAs == p :: HookOver(s.conns[k])
  }

  /** No connection of this key is live, and none of its operations is in flight. */
  predicate Quiet(s: State, p: Pubkey) {
    && Unclosing(s, p)
    && forall k | 0 <= k < |s.conns| && s.conns[k].pubkey == p :: !s.conns[k].inc.Stored? && HookOver(s.conns[k])
  }

  /** However the map and atomic operations interleave, a key whose connections are all gone
      has no entry left, provided no increment of that key goes astray: none begins after its
      own connection's disconnect hook or under another key than the hook reads. Other keys do
      not matter. */
  lemma {:induction false} QuietKeyIsOffline(actions: seq<Action>, p: Pubkey)
    requires p != "" && NoneAstray(actions, p) && |actions| < INT32_MAX
    requires Quiet(Run(actions), p)
    ensures p !in Run(actions).online
  {
    InvariantAlways(actions, p);
    var s := Run(actions);
    if p in s.online {
      QuietCellUnguarded(s, p, s.online[p]);
    }
  }

  lemma QuietCellUnguarded(s: State, p: Pubkey, c: CellId)
    requires c < |s.cells| && Owned(s) && p in s.online && c == s.online[p] && Tracked(s, c)
    requires s.cells[c] == |Adders(s, c)| - |Subtracters(s, c)|
    requires Quiet(s, p)
    ensures !Guarded(s, c)
  {
    var k :| 0 <= k < |s.conns| && TookCell(s.conns[k], c);
    assert Subtracted(s.conns[k], c);
    assert Adders(s, c) <= Subtracters(s, c);
    Subset(Adders(s, c), Subtracters(s, c));
  }

  // What one increment astray leads to ----------------------------------------------

  /** A connection arrives whose disconnect hook will read this key. */
  predicate Joins(a: Action, p: Pubkey) {
    a.Connect? && a.closesAs == p
  }

  /** Some increment of this key that follows the run `before` begins in `after`. */
  predicate CountsIn(before: seq<Action>, after: seq<Action>, p: Pubkey) {
    after != [] &&
    (var n := |after| - 1;
     CountsIn(before, after[..n], p) || Counts(Run(before + after[..n]), after[n], p))
  }

  lemma UnclosingStep(s: State, a: Action, p: Pubkey)
    requires p != "" && Unclosing(s, p) && !Joins(a, p)
    ensures Unclosing(Step(s, a), p)
    ensures p in Step(s, a).online <==> p in s.online || Counts(s, a, p)
    ensures Counts(s, a, p) ==> CountsAstray(s, a, p)
  {
  }

  /** From every state in which no hook for the key is to come or in flight, and in every
      continuation without a new one: the key has an entry if it had one or an increment of it
      has begun since. Each such increment is astray, so its entry outlives its connection. */
  lemma {:induction false} StrayIncrementsLeaveEntries(before: seq<Action>, after: seq<Action>, p: Pubkey)
    requires p != "" && Unclosing(Run(before), p) && forall a | a in after :: !Joins(a, p)
    ensures Unclosing(Run(before + after), p)
    ensures p in Run(before + after).online <==> p in Run(before).online || CountsIn(before, after, p)
    ensures CountsIn(before, after, p) ==> !NoneAstray(before + after, p)
  {
    if after == [] {
      assert before + after == before;
    } else {
      var n := |after| - 1;
      assert (before + after)[..|before + after| - 1] == before + after[..n];
      StrayIncrementsLeaveEntries(before, after[..n], p);
      UnclosingStep(Run(before + after[..n]), after[n], p);
    }
  }

  /** Once a key is quiet, an increment that begins after its connection's hook leaves an entry
      that nobody will delete. */
  lemma LateIncrementLeavesEntry(s: State, k: ConnId, p: Pubkey)
    requires p != "" && CellsExist(s) && Quiet(s, p)
    requires k < |s.conns| && s.conns[k].pubkey == p && s.conns[k].inc.Waiting?
    ensures var t := Step(Step(s, LateLoadOrStore(k)), AddOne(k)); Quiet(t, p) && p in t.online
  {
    UnclosingStep(s, LateLoadOrStore(k), p);
    var u := Step(s, LateLoadOrStore(k));
    UnclosingStep(u, AddOne(k), p);
    assert Step(u, AddOne(k)).conns[k].inc.Added?;
  }

  /** Every connection but `n` is as in a quiet state, and the key has an entry. */
  predicate QuietBut(s: State, n: ConnId, p: Pubkey) {
    && p in s.online && CellsExist(s) && Unclosing(s, p) && n < |s.conns|
    && forall k | 0 <= k < |s.conns| && k != n && s.conns[k].pubkey == p ::
         !s.conns[k].inc.Stored? && HookOver(s.conns[k])
  }

  lemma QuietButStep(s: State, a: Action, n: ConnId, p: Pubkey)
    requires p != "" && QuietBut(s, n, p) && !a.Connect? && a.k == n
    ensures QuietBut(Step(s, a), n, p)
  {
    CellsExistStep(s, a);
    UnclosingStep(s, a, p);
  }

  /** And so does a connection that is counted under it and closes under another key. */
  lemma SwitchedKeyLeavesEntry(s: State, p: Pubkey, q: Pubkey)
    requires p != "" && q != p && CellsExist(s) && Quiet(s, p)
    ensures var n := |s.conns|;
      var counted := Step(Step(Step(s, Connect(p, q)), LoadOrStore(n)), AddOne(n));
      var t := Step(Step(Step(counted, Load(n)), SubtractOne(n)), Delete(n));
      Quiet(t, p) && p in t.online
  {
    var n := |s.conns|;
    var stored := Step(Step(s, Connect(p, q)), LoadOrStore(n));
    assert QuietBut(stored, n, p);
    var counted := Step(stored, AddOne(n));
    QuietButStep(stored, AddOne(n), n, p);
    assert counted.conns[n].inc.Added? && counted.conns[n].dec.NotStarted?;
    HookRuns(counted, n, p);
  }

  lemma HookRuns(s: State, n: ConnId, p: Pubkey)
    requires p != "" && QuietBut(s, n, p) && s.conns[n].inc.Added? && s.conns[n].dec.NotStarted?
    ensures var t := Step(Step(Step(s, Load(n)), SubtractOne(n)), Delete(n)); Quiet(t, p) && p in t.online
  {
    var loaded := Step(s, Load(n));
    QuietButStep(s, Load(n), n, p);
    var subtracted := Step(loaded, SubtractOne(n));
    QuietButStep(loaded, SubtractOne(n), n, p);
    QuietButStep(subtracted, Delete(n), n, p);
    assert HookOver(Step(subtracted, Delete(n)).conns[n]);
  }

  /** In every interleaving at all, cells exist and belong to one key. */
  lemma {:induction false} CellsAlways(actions: seq<Action>)
    ensures CellsExist(Run(actions)) && Owned(Run(actions)) && Separate(Run(actions).online)
  {
    if actions == [] {
    } else {
      var before := actions[..|actions| - 1];
      CellsAlways(before);
      CellsExistStep(Run(before), actions[|actions| - 1]);
      OwnedStep(Run(before), actions[|actions| - 1]);
    }
  }

  // One hook at a time ---------------------------------------------------------------

  /** The counters that IsOnline and OnlineCount see. */
  function CountsAt(online: map<Pubkey, CellId>, cells: seq<int>): Counts {
    map p | p in online && online[p] < |cells| :: cells[online[p]]
  }

  function CountsOf(s: State): Counts {
    CountsAt(s.online, s.cells)
  }

  predicate Separate(online: map<Pubkey, CellId>) {
    forall p, q | p in online && q in online && p != q :: online[p] != online[q]
  }

  lemma CellChanges(online: map<Pubkey, CellId>, cells: seq<int>, p: Pubkey, n: int)
    requires Separate(online) && p in online && online[p] < |cells|
    ensures CountsAt(online, cells[online[p] := n]) == CountsAt(online, cells)[p := n]
    ensures CountsAt(online - {p}, cells[online[p] := n]) == CountsAt(online, cells) - {p}
  {
  }

  lemma CellAppears(online: map<Pubkey, CellId>, cells: seq<int>, p: Pubkey)
    requires p !in online && forall q | q in online :: online[q] < |cells|
    ensures CountsAt(online[p := |cells|], cells + [0]) == CountsAt(online, cells)[p := 0]
  {
  }

  /** A whole increment, without interruption. */
  function IncrementDone(s: State, k: ConnId): State
    requires k < |s.conns|
  {
    Step(Step(s, if s.conns[k].dec.NotStarted? then LoadOrStore(k) else LateLoadOrStore(k)), AddOne(k))
  }

  /** An increment that runs alone is the atomic one. */
  lemma IncrementAlone(s: State, k: ConnId)
    requires CellsExist(s) && Separate(s.online) && k < |s.conns| && s.conns[k].pubkey != "" && s.conns[k].inc.Waiting?
    ensures CountsOf(IncrementDone(s, k)) == Incremented(CountsOf(s), s.conns[k].pubkey)
  {
    BeginsIncrement(s, k);
    StoreAlone(s, k);
    AddAlone(DoLoadOrStore(s, k), k, s.conns[k].pubkey);
    var u := DoLoadOrStore(s, k);
    IncrementedTwice(CountsOf(s), CountsOf(u), CountsOf(Step(u, AddOne(k))), s.conns[k].pubkey);
  }

  lemma BeginsIncrement(s: State, k: ConnId)
    requires k < |s.conns| && s.conns[k].pubkey != "" && s.conns[k].inc.Waiting?
    ensures IncrementDone(s, k) == Step(DoLoadOrStore(s, k), AddOne(k))
  {
  }

  /** Creating a counter at zero first makes no difference. */
  lemma IncrementedTwice(counts: Counts, stored: Counts, added: Counts, p: Pubkey)
    requires p != "" && stored == counts[p := CountOf(counts, p)] && added == stored[p := Wrap32(stored[p] + 1)]
    ensures added == Incremented(counts, p)
  {
  }

  lemma StoreAlone(s: State, k: ConnId)
    requires CellsExist(s) && Separate(s.online) && k < |s.conns| && s.conns[k].inc.Waiting?
    ensures var p, u := s.conns[k].pubkey, DoLoadOrStore(s, k);
      && Separate(u.online) && p in u.online && u.online[p] < |u.cells| && u.conns[k].inc == Stored(u.online[p])
      && CountsOf(u) == CountsOf(s)[p := CountOf(CountsOf(s), p)]
  {
    if s.conns[k].pubkey !in s.online {
      CellAppears(s.online, s.cells, s.conns[k].pubkey);
    }
  }

  lemma AddAlone(s: State, k: ConnId, p: Pubkey)
    requires Separate(s.online) && k < |s.conns| && p in s.online && s.online[p] < |s.cells|
    requires s.conns[k].inc == Stored(s.online[p])
    ensures CountsOf(Step(s, AddOne(k))) == CountsOf(s)[p := Wrap32(CountsOf(s)[p] + 1)]
  {
    CellChanges(s.online, s.cells, p, Wrap32(s.cells[s.online[p]] + 1));
  }

  /** The whole disconnect hook of a connection, without interruption. */
  function HookDone(s: State, k: ConnId): State {
    Step(Step(Step(s, Load(k)), SubtractOne(k)), Delete(k))
  }

  /** A disconnect hook that runs alone is the atomic decrement. */
  lemma DecrementAlone(s: State, k: ConnId)
    requires CellsExist(s) && Separate(s.online) && k < |s.conns| && s.conns[k].dec.NotStarted?
    ensures CountsOf(HookDone(s, k)) == Decremented(CountsOf(s), s.conns[k].closesAs)
  {
    HookAlone(s, k);
    DecrementedCells(s.online, s.cells, s.conns[k].closesAs);
  }

  /** What the hook leaves: the cells, and the map. */
  function CellsAfter(online: map<Pubkey, CellId>, cells: seq<int>, p: Pubkey): (seq<int>, map<Pubkey, CellId>)
    requires p in online ==> online[p] < |cells|
  {
    if p == "" || p !in online then (cells, online)
    else
      var left := Wrap32(cells[online[p]] - 1);
      (cells[online[p] := left], if left <= 0 then online - {p} else online)
  }

  lemma DecrementedCells(online: map<Pubkey, CellId>, cells: seq<int>, p: Pubkey)
    requires Separate(online) && (p in online ==> online[p] < |cells|)
    ensures var (cells', online') := CellsAfter(online, cells, p);
      CountsAt(online', cells') == Decremented(CountsAt(online, cells), p)
  {
    if p != "" && p in online {
      CellChanges(online, cells, p, Wrap32(cells[online[p]] - 1));
    }
  }

  lemma HookAlone(s: State, k: ConnId)
    requires CellsExist(s) && k < |s.conns| && s.conns[k].dec.NotStarted?
    ensures (HookDone(s, k).cells, HookDone(s, k).online) == CellsAfter(s.online, s.cells, s.conns[k].closesAs)
  {
  }

  /** The hook's own subtraction, at step `n` of the run, brought the cell to zero or below. */
  predicate EmptiedBy(actions: seq<Action>, n: nat, k: ConnId, c: CellId) {
    && n < |actions| && actions[n] == SubtractOne(k) && k < |Run(actions[..n]).conns|
    && Run(actions[..n]).conns[k].dec == Loaded(c)
    && c < |Run(actions[..n + 1]).cells| && Run(actions[..n + 1]).cells[c] <= 0
  }

  /** In every interleaving a hook deletes the entry only if its own subtraction emptied the cell. */
  lemma {:induction false} DeletesOnlyWhatItEmptied(actions: seq<Action>, k: ConnId, c: CellId) returns (n: nat)
    requires k < |Run(actions).conns| && Run(actions).conns[k].dec == Deleting(c)
    ensures EmptiedBy(actions, n, k, c)
  {
    var m := |actions| - 1;
    var before := Run(actions[..m]);
    if k < |before.conns| && before.conns[k].dec == Deleting(c) {
      n := DeletesOnlyWhatItEmptied(actions[..m], k, c);
      assert actions[..m][..n] == actions[..n] && actions[..m][..n + 1] == actions[..n + 1];
    } else {
      n := m;
      StartsDeleting(before, actions[m], k, c);
      assert actions[..m + 1] == actions;
    }
  }

  lemma StartsDeleting(s: State, a: Action, k: ConnId, c: CellId)
    requires k < |Step(s, a).conns| && Step(s, a).conns[k].dec == Deleting(c)
    requires k < |s.conns| ==> s.conns[k].dec != Deleting(c)
    ensures a == SubtractOne(k) && k < |s.conns| && s.conns[k].dec == Loaded(c)
    ensures c < |Step(s, a).cells| && Step(s, a).cells[c] <= 0
  {
  }

  // Live connections -------------------------------------------------------------------

  /** A connection of this key is counted and its hook has not begun. */
  predicate LiveOf(s: State, k: ConnId, p: Pubkey) {
    k < |s.conns| && s.conns[k].pubkey == p && s.conns[k].inc.Added? && s.conns[k].dec.NotStarted?
  }

  predicate LiveIsOnline(s: State, p: Pubkey) {
    (exists k: ConnId | k < |s.conns| :: LiveOf(s, k, p)) ==> p in s.online
  }

  /** The action deletes the key's entry under a live connection, or counts a connection in a
      cell that is no longer mapped while the key has no entry. */
  predicate HidesLive(s: State, a: Action, p: Pubkey) {
    || (a.Delete? && a.k < |s.conns| && s.conns[a.k].dec.Deleting? && s.conns[a.k].closesAs == p
        && exists k: ConnId | k < |s.conns| :: LiveOf(s, k, p))
    || (a.AddOne? && a.k < |s.conns| && s.conns[a.k].inc.Stored? && s.conns[a.k].inc.cell < |s.cells|
        && s.conns[a.k].pubkey == p && s.conns[a.k].dec.NotStarted? && p !in s.online)
  }

  lemma LiveStep(s: State, a: Action, p: Pubkey)
    requires LiveIsOnline(s, p)
    ensures LiveIsOnline(Step(s, a), p) <==> !HidesLive(s, a, p)
  {
    var t := Step(s, a);
    if a.Delete? && t != s {
      forall k: ConnId | k < |s.conns| ensures LiveOf(s, k, p) <==> LiveOf(t, k, p) {}
    } else if HidesLive(s, a, p) {
      assert LiveOf(t, a.k, p);
    } else if k: ConnId :| k < |t.conns| && LiveOf(t, k, p) {
      assert !LiveOf(s, k, p) ==> a == AddOne(k);
    }
  }

  predicate AlwaysLiveOnline(actions: seq<Action>, p: Pubkey) {
    LiveIsOnline(Run(actions), p) && (actions == [] || AlwaysLiveOnline(actions[..|actions| - 1], p))
  }

  predicate NeverHidesLive(actions: seq<Action>, p: Pubkey) {
    actions == [] ||
    (var before := actions[..|actions| - 1];
     NeverHidesLive(before, p) && !HidesLive(Run(before), actions[|actions| - 1], p))
  }

  /** In every interleaving, a live connection is always reported online if and only if no hook
      deletes the entry under one and none is counted in a cell whose entry is gone. */
  lemma {:induction false} LiveOnlineIffNeverHidden(actions: seq<Action>, p: Pubkey)
    ensures AlwaysLiveOnline(actions, p) <==> NeverHidesLive(actions, p)
  {
    if actions == [] {
    } else {
      var before := actions[..|actions| - 1];
      LiveOnlineIffNeverHidden(before, p);
      if AlwaysLiveOnline(before, p) {
        LiveStep(Run(before), actions[|actions| - 1], p);
      }
    }
  }

  /** It is not always so: from every state in which a key has no entry, the hook of one new
      connection and the increment of another can overlap so that the second, counted and
      live, is offline. */
  lemma OverlapHidesLive(s: State, p: Pubkey)
    requires p != "" && p !in s.online
    ensures var a, b := |s.conns|, |s.conns| + 1;
      var closing := Step(Step(Step(Step(Opened(s, p), LoadOrStore(a)), AddOne(a)), Load(a)), SubtractOne(a));
      var t := Step(Step(Step(closing, LoadOrStore(b)), AddOne(b)), Delete(a));
      LiveOf(t, b, p) && p !in t.online
  {
    var a, b, c := |s.conns|, |s.conns| + 1, |s.cells|;
    var both := Opened(s, p);
    var one := both.conns[a];
    var stored := Step(both, LoadOrStore(a));
    assert stored == State(s.online[p := c], s.cells + [0], both.conns[a := one.(inc := Stored(c))]);
    var added := Step(stored, AddOne(a));
    assert added.cells[c] == 1 && added.online == stored.online && added.conns[a].inc == Added(c);
    assert added.conns[b] == Conn(p, p, Waiting, NotStarted) && added.conns[a].dec.NotStarted?;
    OverlapEnds(added, a, b, c, p);
  }

  function Opened(s: State, p: Pubkey): State {
    Step(Step(s, Connect(p, p)), Connect(p, p))
  }

  lemma OverlapEnds(s: State, a: ConnId, b: ConnId, c: CellId, p: Pubkey)
    requires a < b < |s.conns| && c < |s.cells| && p != "" && p in s.online && s.online[p] == c && s.cells[c] == 1
    requires s.conns[a].dec.NotStarted? && s.conns[a].closesAs == p && s.conns[b] == Conn(p, p, Waiting, NotStarted)
    ensures var closing := Step(Step(s, Load(a)), SubtractOne(a));
      var t := Step(Step(Step(closing, LoadOrStore(b)), AddOne(b)), Delete(a));
      LiveOf(t, b, p) && p !in t.online
  {
    var closing := Step(Step(s, Load(a)), SubtractOne(a));
    assert closing.conns[a].dec == Deleting(c) && closing.online == s.online && closing.conns[b] == s.conns[b];
    var t := Step(Step(closing, LoadOrStore(b)), AddOne(b));
    assert t.conns[b].inc == Added(c) && t.conns[a] == closing.conns[a];
  }
}
