/** The device registry of internal/push/device_store.go: two indexes that mirror each
    other, and the history they stand for. */
module DeviceStore {
  import opened Nostr

  type RegistrationId = string
  type DeviceId = string

  datatype Registration = Registration(id: RegistrationId, deviceId: DeviceId, pubkey: string, platform: string,
                                       tokenType: string, token: string, appVersion: string, createdAt: Time)

  datatype Indexes = Indexes(byId: map<RegistrationId, Registration>, byDevice: map<DeviceId, RegistrationId>)

  const EMPTY := Indexes(map[], map[])

  function Upserted(s: Indexes, reg: Registration): Indexes {
    var replaced := reg.deviceId in s.byDevice && s.byDevice[reg.deviceId] != reg.id;
    var stale := if replaced then {s.byDevice[reg.deviceId]} else {};
    Indexes((s.byId - stale)[reg.id := reg],
            if reg.deviceId != "" then s.byDevice[reg.deviceId := reg.id] else s.byDevice)
  }

  function Deleted(s: Indexes, id: RegistrationId): Indexes {
    if id in s.byId then Indexes(s.byId - {id}, s.byDevice - {s.byId[id].deviceId}) else s
  }

  class Store {
    var byId: map<RegistrationId, Registration>
    var byDevice: map<DeviceId, RegistrationId>

    function State(): Indexes
      reads this
    {
      Indexes(byId, byDevice)
    }

    constructor ()
      ensures State() == EMPTY
    {
      byId, byDevice := map[], map[];
    }

    method Upsert(reg: Registration)
      modifies this
      ensures State() == Upserted(old(State()), reg)
    {
      if reg.deviceId in byDevice {
        var oldId := byDevice[reg.deviceId];
        if oldId != reg.id {
          byId := byId - {oldId};
        }
      }
      byId := byId[reg.id := reg];
      if reg.deviceId != "" {
        byDevice := byDevice[reg.deviceId := reg.id];
      }
    }

    method Get(id: RegistrationId) returns (reg: Option<Registration>)
      ensures reg == if id in byId then Some(byId[id]) else None
    {
      if id in byId {
        return Some(byId[id]);
      }
      reg := None;
    }

    method Delete(id: RegistrationId)
      modifies this
      ensures State() == Deleted(old(State()), id)
    {
      if id in byId {
        byDevice := byDevice - {byId[id].deviceId};
        byId := byId - {id};
      }
    }
  }

  // Runs -------------------------------------------------------------------------------------

  datatype Op = Register(reg: Registration) | Delete(id: RegistrationId)

  function Step(s: Indexes, op: Op): Indexes {
    match op
    case Register(reg) => Upserted(s, reg)
    case Delete(id) => Deleted(s, id)
  }

  function Run(ops: seq<Op>): Indexes {
    if ops == [] then EMPTY else Step(Run(ops[..|ops| - 1]), ops[|ops| - 1])
  }

  /** Every registration has an ID of its own. */
  predicate FreshIds(ops: seq<Op>) {
    forall i, j | 0 <= i < j < |ops| && ops[i].Register? && ops[j].Register? :: ops[i].reg.id != ops[j].reg.id
  }

  /** byDevice and byId, restricted to registrations with a device ID, are inverse. */
  predicate Mirrored(s: Indexes) {
    && (forall id | id in s.byId :: s.byId[id].id == id)
    && (forall d | d in s.byDevice :: d != "" && s.byDevice[d] in s.byId && s.byId[s.byDevice[d]].deviceId == d)
    && (forall id | id in s.byId && s.byId[id].deviceId != "" ::
          s.byId[id].deviceId in s.byDevice && s.byDevice[s.byId[id].deviceId] == id)
  }

  /** Ends a registration: its own deletion, or a later registration of the same device. */
  predicate Ends(op: Op, reg: Registration) {
    match op
    case Register(other) => other.deviceId == reg.deviceId && reg.deviceId != ""
    case Delete(id) => id == reg.id
  }

  predicate NotEndedAfter(ops: seq<Op>, i: nat, reg: Registration) {
    forall j | i < j < |ops| :: !Ends(ops[j], reg)
  }

  /** Registered at step `i` and neither deleted nor superseded since. */
  predicate LiveSince(ops: seq<Op>, i: nat, reg: Registration) {
    i < |ops| && ops[i] == Register(reg) && NotEndedAfter(ops, i, reg)
  }

  predicate IdsFrom(s: Indexes, ops: seq<Op>) {
    forall id | id in s.byId :: exists i | 0 <= i < |ops| :: ops[i] == Register(s.byId[id])
  }

  lemma MirroredStep(s: Indexes, reg: Registration)
    requires Mirrored(s) && reg.id !in s.byId
    ensures Mirrored(Upserted(s, reg))
  {
  }

  lemma MirroredDelete(s: Indexes, id: RegistrationId)
    requires Mirrored(s)
    ensures Mirrored(Deleted(s, id))
  {
  }

  lemma {:induction false} UnusedId(before: seq<Op>, reg: Registration)
    requires FreshIds(before + [Register(reg)]) && IdsFrom(Run(before), before)
    requires forall id | id in Run(before).byId :: Run(before).byId[id].id == id
    ensures reg.id !in Run(before).byId
  {
    forall id | id in Run(before).byId ensures id != reg.id {
      var i :| 0 <= i < |before| && before[i] == Register(Run(before).byId[id]);
      assert (before + [Register(reg)])[i] == before[i] && (before + [Register(reg)])[|before|] == Register(reg);
    }
  }

  lemma IdsFromStep(s: Indexes, before: seq<Op>, op: Op)
    requires IdsFrom(s, before)
    ensures IdsFrom(Step(s, op), before + [op])
  {
    var t, ops := Step(s, op), before + [op];
    forall id | id in t.byId ensures exists i | 0 <= i < |ops| :: ops[i] == Register(t.byId[id]) {
      if id in s.byId && s.byId[id] == t.byId[id] {
        var i :| 0 <= i < |before| && before[i] == Register(s.byId[id]);
        assert ops[i] == Register(t.byId[id]);
      } else {
        assert ops[|before|] == Register(t.byId[id]);
      }
    }
  }

  lemma {:induction false} MirroredAlways(ops: seq<Op>)
    requires FreshIds(ops)
    ensures Mirrored(Run(ops)) && IdsFrom(Run(ops), ops)
  {
    if ops == [] {
    } else {
      var before, op := ops[..|ops| - 1], ops[|ops| - 1];
      MirroredAlways(before);
      assert ops == before + [op];
      IdsFromStep(Run(before), before, op);
      if op.Register? {
        UnusedId(before, op.reg);
        MirroredStep(Run(before), op.reg);
      } else {
        MirroredDelete(Run(before), op.id);
      }
    }
  }

  lemma LiveSinceExtends(ops: seq<Op>, i: nat, reg: Registration)
    requires ops != []
    ensures var before, op := ops[..|ops| - 1], ops[|ops| - 1];
      LiveSince(ops, i, reg) <==>
        (i == |ops| - 1 && op == Register(reg)) || (LiveSince(before, i, reg) && !Ends(op, reg))
  {
    var before, op := ops[..|ops| - 1], ops[|ops| - 1];
    if LiveSince(ops, i, reg) && i < |ops| - 1 {
      forall j | i < j < |before| ensures !Ends(before[j], reg) {
        assert before[j] == ops[j];
      }
    }
  }

  /** Get finds a registration if and only if its ID was registered and the registration has
      been neither deleted nor superseded by a later one of the same device. */
  lemma {:induction false} GetRefinesHistory(ops: seq<Op>, id: RegistrationId, reg: Registration)
    requires FreshIds(ops)
    ensures (id in Run(ops).byId && Run(ops).byId[id] == reg) <==>
      (reg.id == id && exists i: nat :: LiveSince(ops, i, reg))
  {
    if ops == [] {
    } else {
      var before, op := ops[..|ops| - 1], ops[|ops| - 1];
      GetRefinesHistory(before, id, reg);
      MirroredAlways(before);
      MirroredAlways(ops);
      forall i: nat ensures LiveSince(ops, i, reg) <==>
        (i == |ops| - 1 && op == Register(reg)) || (LiveSince(before, i, reg) && !Ends(op, reg))
      {
        LiveSinceExtends(ops, i, reg);
      }
      LiveOneStep(before, op, id, reg);
      if op == Register(reg) {
        assert LiveSince(ops, |ops| - 1, reg);
      }
    }
  }

  /** What one operation does to one registration. */
  lemma {:induction false} LiveOneStep(before: seq<Op>, op: Op, id: RegistrationId, reg: Registration)
    requires Mirrored(Run(before)) && IdsFrom(Run(before), before) && FreshIds(before + [op])
    ensures Run(before + [op]) == Step(Run(before), op)
    ensures var s, t := Run(before), Run(before + [op]);
      (id in t.byId && t.byId[id] == reg) <==>
        (op == Register(reg) && reg.id == id) || (id in s.byId && s.byId[id] == reg && !Ends(op, reg))
  {
    assert (before + [op])[..|before|] == before;
    var s := Run(before);
    forall known | op.Register? && known in s.byId ensures known != op.reg.id {
      var i :| 0 <= i < |before| && before[i] == Register(s.byId[known]);
      assert (before + [op])[i] == before[i];
      assert (before + [op])[|before|] == op;
    }
  }
}
