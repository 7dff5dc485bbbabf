/**
 * Cancelling a mission: its row and its history go in one transaction, and a mission created again under
 * the same id counts its versions from one. That is the one way in which a versioned write can replace a
 * mission its writer never read.
 */
module MissionCancel {
  import opened Prelude
  import opened MissionWorkflow
  import opened MissionWriters

  /** One transaction of any writer. */
  datatype Op = Put(mission: Mission, expected: Option<Version>, event: Option<LaneEvent>) | Cancel(id: Id)

  /** The history without one mission's events. */
  function Without(events: seq<LaneEvent>, id: Id): seq<LaneEvent> {
    if events == [] then []
    else
      var rest := Without(events[..|events| - 1], id);
      if events[|events| - 1].mission == id then rest else rest + [events[|events| - 1]]
  }

  /** An integrated mission is never cancelled. */
  function CancelMission(s: Store, id: Id): Store {
    if id in s.rows && s.rows[id].mission.status.Done? then s else Store(s.rows - {id}, Without(s.events, id))
  }

  function Do(s: Store, op: Op): Store {
    match op
    case Put(m, expected, event) =>
      var written := if event.Some? then SaveWithTransition(s, m, expected, event.value) else Save(s, m, expected);
      if written.Saved? then written.store else s
    case Cancel(id) => CancelMission(s, id)
  }

  function DoAll(s: Store, ops: seq<Op>): Store {
    if ops == [] then s else Do(DoAll(s, ops[..|ops| - 1]), ops[|ops| - 1])
  }

  lemma {:induction false} WithoutKeepsOthers(events: seq<LaneEvent>, id: Id)
    ensures forall e :: e in Without(events, id) <==> e in events && e.mission != id
  {
    if events != [] { WithoutKeepsOthers(events[..|events| - 1], id); }
  }

  /** Cancelling removes a mission that is not done, with its own events and no others; a done one stays. */
  lemma CancelErasesExactly(s: Store, id: Id)
    ensures var t := CancelMission(s, id);
      && (id in s.rows && s.rows[id].mission.status.Done? ==> t == s)
      && (id in s.rows && !s.rows[id].mission.status.Done? ==>
            && t.rows == s.rows - {id}
            && (forall e :: e in t.events <==> e in s.events && e.mission != id))
  {
    WithoutKeepsOthers(s.events, id);
  }

  predicate Spares(ops: seq<Op>, id: Id) {
    forall i :: 0 <= i < |ops| ==> ops[i] != Cancel(id)
  }

  /** A compare-and-swap on version `v` would succeed. */
  predicate Swaps(s: Store, id: Id, v: Version) { id in s.rows && s.rows[id].version == v }

  /** Without a cancel of the mission, a version that is still current is still what was read. */
  lemma {:induction false} UncancelledReadHolds(s: Store, id: Id, ops: seq<Op>)
    requires RowsOk(s) && id in s.rows && Spares(ops, id)
    ensures var t := DoAll(s, ops);
      && RowsOk(t) && id in t.rows && t.rows[id].version >= s.rows[id].version
      && (t.rows[id].version == s.rows[id].version ==> t.rows[id] == s.rows[id])
  {
    if ops != [] { UncancelledReadHolds(s, id, ops[..|ops| - 1]); }
  }

  lemma DoSnoc(s: Store, ops: seq<Op>, op: Op)
    ensures DoAll(s, ops + [op]) == Do(DoAll(s, ops), op)
  {
    assert (ops + [op])[..|ops|] == ops;
  }

  /** Plain edits take a mission from version 1 to any version. */
  lemma {:induction false} EditedTo(s: Store, ops: seq<Op>, m: Mission, v: Version) returns (more: seq<Op>)
    requires v >= 1 && m.id in DoAll(s, ops).rows && DoAll(s, ops).rows[m.id] == Row(m, 1)
    ensures m.id in DoAll(s, more).rows && DoAll(s, more).rows[m.id] == Row(m, v)
  {
    more := ops;
    for n := 1 to v
      invariant m.id in DoAll(s, more).rows && DoAll(s, more).rows[m.id] == Row(m, n)
    {
      DoSnoc(s, more, Put(m, Some(n), None));
      more := more + [Put(m, Some(n), None)];
    }
  }

  /** Cancelled and created again: at the version that was read stands a mission that was not. */
  lemma RecreatedMissionIsSwapped(s: Store, id: Id) returns (ops: seq<Op>)
    requires RowsOk(s) && id in s.rows
    ensures Swaps(DoAll(s, ops), id, s.rows[id].version) && DoAll(s, ops).rows[id] != s.rows[id]
  {
    var row := s.rows[id];
    var other := row.mission.(evidence := row.mission.evidence + 1);
    var open := Put(row.mission.(status := Active), Some(row.version), None);
    DoSnoc(s, [], open);
    ops := [] + [open];
    DoSnoc(s, ops, Cancel(id));
    ops := ops + [Cancel(id)];
    DoSnoc(s, ops, Put(other, None, None));
    ops := ops + [Put(other, None, None)];
    ops := EditedTo(s, ops, other, row.version);
  }

  /**
   * A versioned write replaces exactly the mission its writer read, whatever transactions come between the
   * read and the write, if and only if none of them may cancel that mission.
   */
  lemma NoLostUpdateExactlyWithoutCancel(s: Store, id: Id, cancels: bool)
    requires RowsOk(s) && id in s.rows
    ensures !cancels <==>
      forall ops :: ((cancels || Spares(ops, id)) && Swaps(DoAll(s, ops), id, s.rows[id].version)
                     ==> DoAll(s, ops).rows[id] == s.rows[id])
  {
    if cancels {
      var ops := RecreatedMissionIsSwapped(s, id);
    } else {
      forall ops | Spares(ops, id) && Swaps(DoAll(s, ops), id, s.rows[id].version)
        ensures DoAll(s, ops).rows[id] == s.rows[id]
      {
        UncancelledReadHolds(s, id, ops);
      }
    }
  }
}
