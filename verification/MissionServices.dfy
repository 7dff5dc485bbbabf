/**
 * The mission commands in the form they run in, over a store that is updated in place. Before each
 * store call the other commands make any number of steps; which of its own calls throw is given.
 */
module MissionServices {
  import opened Prelude
  import opened MissionWorkflow
  import opened MissionWriters

  /** What the calls of one command will answer: whether each is served, and what the two probes find. */
  datatype Calls = Calls(
    load: bool, save: bool, replay: bool, resave: bool, history: bool, merged: bool, landing: Option<Landing>, readBack: bool)

  function ServedIf(ok: bool): Reply { if ok then Served else Throws }

  /** The reply to what a command awaits at `pc`. */
  function ReplyAt(pc: Pc, calls: Calls): Reply {
    match pc
    case Loading(_) => ServedIf(calls.load)
    case Probing(_) => Merged(calls.merged)
    case ReadingHistory(_, _) => ServedIf(calls.history)
    case ProvingLanded(_) => Landed(calls.landing)
    case Saving(_) => ServedIf(calls.save)
    case CheckingReplay(_) => ServedIf(calls.replay)
    case Resaving(_) => ServedIf(calls.resave)
    case ReadingBack(_, _) => ServedIf(calls.readBack)
    case Ended(_) => Served
  }

  /** Command `p` takes in this move the reply that its call gives. */
  ghost predicate Hears(w: World, move: Move, p: Process, calls: Calls) {
    move.Resume? && move.process == p ==> p in w.processes && move.reply == ReplyAt(w.processes[p], calls)
  }

  /** `moves` goes on from `past`, and in it `p` hears what `calls` says. */
  ghost predicate Given(past: seq<Move>, moves: seq<Move>, p: Process, calls: Calls) {
    past <= moves && forall i {:trigger moves[i]} :: |past| <= i < |moves| ==> Hears(Execute(Empty, moves[..i]), moves[i], p, calls)
  }

  lemma GivenSnoc(past: seq<Move>, moves: seq<Move>, move: Move, p: Process, calls: Calls)
    requires Given(past, moves, p, calls) && Hears(Execute(Empty, moves), move, p, calls)
    ensures Given(past, moves + [move], p, calls)
  {
    var more := moves + [move];
    forall i | |past| <= i < |more| ensures Hears(Execute(Empty, more[..i]), more[i], p, calls) {
      assert more[..i] == moves[..i];
      if i < |moves| { assert more[i] == moves[i]; } else { assert moves[..i] == moves; }
    }
  }

  class MissionStore {
    var rows: map<Id, Row>
    var events: seq<LaneEvent>
    var commits: seq<Commit>
    var others: map<Process, Pc>
    /** Process numbers that nobody else starts a command under. */
    const reserved: set<Process>

    constructor (reserved: set<Process>)
      ensures World() == Empty && this.reserved == reserved
    {
      rows, events, commits, others := map[], [], [], map[];
      this.reserved := reserved;
    }

    /** `moves` goes on from `past`, under reserved numbers only with what command `p` hears. */
    ghost predicate Extends(past: seq<Move>, moves: seq<Move>, p: Process) {
      past <= moves && forall k :: |past| <= k < |moves| && moves[k].process in reserved ==> moves[k].process == p && moves[k].Resume?
    }

    function State(): Store
      reads this
    {
      Store(rows, events)
    }

    function World(): MissionWriters.World
      reads this
    {
      MissionWriters.World(State(), commits, others)
    }

    method Adopt(w: MissionWriters.World)
      modifies this`rows, this`events, this`commits, this`others
      ensures World() == w
    {
      rows, events, commits, others := w.store.rows, w.store.events, w.commits, w.processes;
    }

    /** The command under number `p` is over. */
    method Conclude(p: Process, outcome: Outcome)
      modifies this`others
      ensures others == old(others)[p := Ended(outcome)]
    {
      others := others[p := Ended(outcome)];
    }

    /** The world with command `p` at `pc`. */
    function View(p: Process, pc: Pc): MissionWriters.World
      reads this
    {
      MissionWriters.World(State(), commits, others[p := pc])
    }

    ghost predicate At(moves: seq<Move>, p: Process, pc: Pc)
      reads this
    {
      View(p, pc) == Execute(Empty, moves)
    }

    /** `p` waits at `pc` while the other commands move. */
    method Await(ghost origin: seq<Move>, ghost past: seq<Move>, p: Process, pc: Pc, ghost calls: Calls) returns (ghost moves: seq<Move>)
      requires At(past, p, pc)
      requires Given(origin, past, p, calls)
      modifies this
      ensures At(moves, p, pc) && Extends(past, moves, p) && Given(origin, moves, p, calls)
    {
      moves := past;
      var foreign: seq<Move> := *;
      for i := 0 to |foreign|
        invariant At(moves, p, pc) && Extends(past, moves, p) && Given(origin, moves, p, calls)
      {
        if foreign[i].process != p && foreign[i].process !in reserved {
          Hear(origin, moves, foreign[i], p, calls);
          MoveOther(p, pc, foreign[i]);
          moves := moves + [foreign[i]];
        }
      }
    }

    /** The call that `p` awaits throws. */
    ghost method CallThrows(origin: seq<Move>, past: seq<Move>, p: Process, calls: Calls, pc: Pc) returns (moves: seq<Move>)
      requires At(past, p, pc) && Given(origin, past, p, calls) && !pc.Ended? && ReplyAt(pc, calls).Throws?
      ensures At(moves, p, Ended(Thrown(pc))) && past <= moves && Extends(past, moves, p) && Given(origin, moves, p, calls)
    {
      Hear(origin, past, Resume(p, Throws), p, calls);
      moves := past + [Resume(p, Throws)];
    }

    method MoveOther(p: Process, pc: Pc, move: Move)
      requires move.process != p
      modifies this
      ensures View(p, pc) == Step(old(View(p, pc)), move)
    {
      var w := Step(View(p, pc), move);
      ForeignKeepsPc(View(p, pc), p, move);
      rows, events, commits, others := w.store.rows, w.store.events, w.commits, w.processes;
      assert others[p := pc] == others;
    }

    /** Insert or compare and swap; a refused write leaves the store alone. */
    method SaveMission(m: Mission, expected: Option<Version>) returns (version: Option<Version>)
      modifies this`rows
      ensures var written := Save(old(State()), m, expected);
        && (version.Some? <==> written.Saved?)
        && (written.Saved? ==> State() == written.store && version.value == written.version)
        && (!written.Saved? ==> rows == old(rows))
    {
      if expected.None? {
        if m.id in rows { return None; }
        rows := rows[m.id := Row(m, 1)];
        return Some(1);
      }
      if m.id !in rows || rows[m.id].version != expected.value { return None; }
      rows := rows[m.id := Row(m, expected.value + 1)];
      version := Some(expected.value + 1);
    }

    /** One transaction: the write is rolled back when its event is already recorded. */
    method SaveMissionWithTransition(m: Mission, expected: Option<Version>, e: LaneEvent) returns (written: Written)
      modifies this`rows, this`events
      ensures written == SaveWithTransition(old(State()), m, expected, e)
      ensures State() == if written.Saved? then written.store else old(State())
    {
      var before := rows;
      var version := SaveMission(m, expected);
      if version.None? { return Stale; }
      var i := 0;
      while i < |events| && !(events[i].repository == e.repository && events[i].key == e.key)
        invariant 0 <= i <= |events|
        invariant forall k :: 0 <= k < i ==> events[k].repository != e.repository || events[k].key != e.key
      {
        i := i + 1;
      }
      if i < |events| {
        rows := before;
        return Duplicate;
      }
      events := events + [e];
      written := Saved(State(), version.value);
    }

    /** Search the mission's history for the transition a refused event describes. */
    method IsReplayed(e: LaneEvent) returns (replayed: bool)
      ensures replayed == Replayed(events, e)
    {
      for i := 0 to |events|
        invariant !Replayed(events[..i], e)
      {
        var entry := events[i];
        if entry.mission == e.mission && entry.key == e.key && entry.trigger == e.trigger && entry.from == e.from && entry.to == e.to {
          return true;
        }
      }
      replayed := false;
      assert events[..|events|] == events;
    }

    /** Write the plan, with this event or with none; `next` is where that leaves the command. */
    method WritePlan(p: Process, plan: Plan, event: Option<LaneEvent>) returns (next: Pc)
      modifies this`rows, this`events, this`commits
      ensures View(p, next) == Write(old(View(p, Resaving(plan))), p, plan, event)
      ensures next.Ended? || (next.CheckingReplay? && next.plan == plan && event.Some? && MayReplay(plan))
              || (next.ReadingBack? && next.plan == plan && plan.cause.RecoverLanded?)
      ensures next.Ended? && next.outcome.Completed? ==>
        next.outcome.plan == plan && next.outcome.version == (if plan.expected.Some? then plan.expected.value + 1 else 1)
    {
      var before := |events|;
      var written;
      if event.Some? {
        written := SaveMissionWithTransition(plan.mission, plan.expected, event.value);
      } else {
        var version := SaveMission(plan.mission, plan.expected);
        written := if version.Some? then Saved(State(), version.value) else Stale;
      }
      match written {
        case Saved(_, version) =>
          commits := commits + [Commit(p, plan.cause, plan.mission, version, before, |events|)];
          next := AfterSaved(plan, version);
        case Stale => next := Ended(Conflict);
        case Duplicate =>
          next := if MayReplay(plan) then CheckingReplay(plan) else Ended(if plan.cause.Intake? then Conflict else Failed);
      }
    }

    /** The first write of a plan. */
    method TryWrite(ghost origin: seq<Move>, ghost past: seq<Move>, p: Process, calls: Calls, plan: Plan) returns (next: Pc, ghost moves: seq<Move>)
      requires At(past, p, Saving(plan))
      requires Given(origin, past, p, calls)
      modifies this
      ensures At(moves, p, next) && Extends(past, moves, p)
      ensures Given(origin, moves, p, calls)
      ensures next.Ended? || (next.CheckingReplay? && next.plan == plan && MayReplay(plan))
              || (next.ReadingBack? && next.plan == plan && plan.cause.RecoverLanded?)
      ensures next.Ended? && next.outcome.Completed? ==>
        next.outcome.plan == plan && next.outcome.version == (if plan.expected.Some? then plan.expected.value + 1 else 1)
    {
      moves := Await(origin, past, p, Saving(plan), calls);
      if !calls.save {
        moves := CallThrows(origin, moves, p, calls, Saving(plan));
        return Ended(Failed), moves;
      }
      Hear(origin, moves, Resume(p, Served), p, calls);
      moves := moves + [Resume(p, Served)];
      next := WritePlan(p, plan, plan.event);
    }

    /** A refused duplicate: when the history already records this transition, only the state is saved. */
    method Replay(ghost origin: seq<Move>, ghost past: seq<Move>, p: Process, calls: Calls, plan: Plan) returns (outcome: Outcome, ghost moves: seq<Move>)
      requires At(past, p, CheckingReplay(plan)) && plan.event.Some? && !plan.cause.RecoverLanded?
      requires Given(origin, past, p, calls)
      modifies this
      ensures At(moves, p, Ended(outcome)) && Extends(past, moves, p)
      ensures Given(origin, moves, p, calls)
    {
      moves := Await(origin, past, p, CheckingReplay(plan), calls);
      if !calls.replay {
        moves := CallThrows(origin, moves, p, calls, CheckingReplay(plan));
        return Failed, moves;
      }
      Hear(origin, moves, Resume(p, Served), p, calls);
      moves := moves + [Resume(p, Served)];
      var replayed := IsReplayed(plan.event.value);
      if !replayed { return Conflict, moves; }
      outcome, moves := SaveAgain(origin, moves, p, calls, plan);
    }

    method SaveAgain(ghost origin: seq<Move>, ghost past: seq<Move>, p: Process, calls: Calls, plan: Plan) returns (outcome: Outcome, ghost moves: seq<Move>)
      requires At(past, p, Resaving(plan)) && !plan.cause.RecoverLanded?
      requires Given(origin, past, p, calls)
      modifies this
      ensures At(moves, p, Ended(outcome)) && Extends(past, moves, p)
      ensures Given(origin, moves, p, calls)
    {
      moves := Await(origin, past, p, Resaving(plan), calls);
      if !calls.resave {
        moves := CallThrows(origin, moves, p, calls, Resaving(plan));
        return Failed, moves;
      }
      Hear(origin, moves, Resume(p, Served), p, calls);
      moves := moves + [Resume(p, Served)];
      var next := WritePlan(p, plan, None);
      outcome := next.outcome;
    }
  }

  /** Activation and every other command of the state machine. */
  class MissionLifecycleService {
    const store: MissionStore

    constructor (store: MissionStore)
      ensures this.store == store
    {
      this.store := store;
    }

    method Transition(ghost origin: seq<Move>, ghost past: seq<Move>, p: Process, calls: Calls, id: Id, c: Command, at: string, key: Option<string>, expected: Option<Version>)
      returns (outcome: Outcome, ghost moves: seq<Move>)
      requires store.At(past, p, Loading(Decision(id, c, at, key, expected)))
      requires Given(origin, past, p, calls)
      modifies store
      ensures store.At(moves, p, Ended(outcome)) && store.Extends(past, moves, p)
      ensures Given(origin, moves, p, calls)
    {
      var r := Decision(id, c, at, key, expected);
      moves := store.Await(origin, past, p, Loading(r), calls);
      if !calls.load {
        moves := store.CallThrows(origin, moves, p, calls, Loading(r));
        return Unavailable, moves;
      }
      Hear(origin, moves, Resume(p, Served), p, calls);
      moves := moves + [Resume(p, Served)];
      if id !in store.rows { return Unavailable, moves; }
      var row := store.rows[id];
      if expected.Some? && expected.value != row.version { return Conflict, moves; }
      var decided := Decide(row.mission, c);
      if decided.None? { return Invalid, moves; }
      var event := LaneEventOf(row.mission, decided.value, c, at, key);
      var plan := Plan(MissionWriters.Transition(c), Some(row.mission), Some(row.version), decided.value, event);
      outcome, moves := Record(origin, moves, p, calls, plan);
    }

    method Record(ghost origin: seq<Move>, ghost past: seq<Move>, p: Process, calls: Calls, plan: Plan) returns (outcome: Outcome, ghost moves: seq<Move>)
      requires store.At(past, p, Saving(plan)) && !plan.cause.RecoverLanded?
      requires Given(origin, past, p, calls)
      modifies store
      ensures store.At(moves, p, Ended(outcome)) && store.Extends(past, moves, p)
      ensures Given(origin, moves, p, calls)
    {
      var next;
      next, moves := store.TryWrite(origin, past, p, calls, plan);
      if next.Ended? { return next.outcome, moves; }
      outcome, moves := store.Replay(origin, moves, p, calls, plan);
    }
  }

  /** Recording new missions. */
  class MissionIntakeService {
    const store: MissionStore

    constructor (store: MissionStore)
      ensures this.store == store
    {
      this.store := store;
    }

    /** A mission that exists is a conflict; a second insert or a key in use loses to the first. */
    method Execute(ghost origin: seq<Move>, ghost past: seq<Move>, p: Process, calls: Calls, id: Id, repository: Repository, assignee: Option<Agent>,
                   evidence: Evidence, at: string, key: Option<string>)
      returns (outcome: Outcome, ghost moves: seq<Move>)
      requires store.At(past, p, Loading(NewMission(id, repository, assignee, evidence, at, key)))
      requires Given(origin, past, p, calls)
      modifies store
      ensures store.At(moves, p, Ended(outcome)) && Given(origin, moves, p, calls)
      ensures outcome.Completed? ==> outcome.plan.mission == IntakeMission(id, repository, assignee, evidence)
      ensures outcome.Completed? ==> outcome.plan.event.Some? && outcome.version == 1
    {
      var r := NewMission(id, repository, assignee, evidence, at, key);
      moves := store.Await(origin, past, p, Loading(r), calls);
      if !calls.load {
        moves := store.CallThrows(origin, moves, p, calls, Loading(r));
        return Unavailable, moves;
      }
      Hear(origin, moves, Resume(p, Served), p, calls);
      moves := moves + [Resume(p, Served)];
      if id in store.rows { return Conflict, moves; }
      var m := IntakeMission(id, repository, assignee, evidence);
      var event := EventFor(m, None, Intake(m), KeyFor(key, id, ByIntake, at));
      var plan := Plan(Intake(m), None, None, m, Some(event));
      var next;
      next, moves := store.TryWrite(origin, moves, p, calls, plan);
      outcome := next.outcome;
    }
  }

  /** Closing and recovering missions. */
  class MissionClosureService {
    const store: MissionStore

    constructor (store: MissionStore)
      ensures this.store == store
    {
      this.store := store;
    }

    method Close(ghost origin: seq<Move>, ghost past: seq<Move>, p: Process, calls: Calls, id: Id, closedAt: Option<Instant>, expected: Option<Version>)
      returns (outcome: Outcome, ghost moves: seq<Move>)
      requires store.At(past, p, Loading(MissionWriters.Close(id, closedAt, expected)))
      requires Given(origin, past, p, calls)
      modifies store
      ensures store.At(moves, p, Ended(outcome)) && Given(origin, moves, p, calls)
    {
      moves := store.Await(origin, past, p, Loading(MissionWriters.Close(id, closedAt, expected)), calls);
      if !calls.load {
        moves := store.CallThrows(origin, moves, p, calls, Loading(MissionWriters.Close(id, closedAt, expected)));
        return Unavailable, moves;
      }
      Hear(origin, moves, Resume(p, Served), p, calls);
      moves := moves + [Resume(p, Served)];
      if id !in store.rows { return Unavailable, moves; }
      var row := store.rows[id];
      if expected.Some? && expected.value != row.version { return Conflict, moves; }
      var closed := CloseMission(row.mission, closedAt);
      if closed.None? { return Invalid, moves; }
      var next;
      next, moves := store.TryWrite(origin, moves, p, calls, Plan(Closing(closedAt), Some(row.mission), Some(row.version), closed.value, None));
      outcome := next.outcome;
    }

    /** A finished mission whose task is active again: reopen it unless its integration is recorded. */
    method ReopenUnlessIntegrated(ghost origin: seq<Move>, ghost past: seq<Move>, p: Process, calls: Calls, r: Request, row: Row)
      returns (outcome: Outcome, ghost moves: seq<Move>)
      requires r.Recovery? && row.mission.status.Done? && store.At(past, p, ReadingHistory(r, row))
      requires Given(origin, past, p, calls)
      modifies store
      ensures store.At(moves, p, Ended(outcome)) && Given(origin, moves, p, calls)
    {
      moves := store.Await(origin, past, p, ReadingHistory(r, row), calls);
      if !calls.history {
        moves := store.CallThrows(origin, moves, p, calls, ReadingHistory(r, row));
        return Failed, moves;
      }
      Hear(origin, moves, Resume(p, Served), p, calls);
      moves := moves + [Resume(p, Served)];
      if Integrated(store.events, row.mission.id) { return RefusedIntegrated, moves; }
      outcome, moves := Reopen(origin, moves, p, calls, row, RecoverDone, r.at);
    }

    method Reopen(ghost origin: seq<Move>, ghost past: seq<Move>, p: Process, calls: Calls, row: Row, cause: Cause, at: string)
      returns (outcome: Outcome, ghost moves: seq<Move>)
      requires (cause.RecoverDone? && row.mission.status.Done?) || (cause.RecoverRefined? && row.mission.status.Refined?)
      requires store.At(past, p, PlanRecovery(row, cause, at))
      requires Given(origin, past, p, calls)
      modifies store
      ensures store.At(moves, p, Ended(outcome)) && Given(origin, moves, p, calls)
    {
      var recovered := if cause.RecoverDone? then row.mission.(status := Active, closedAt := None) else row.mission.(status := Active);
      var event := EventFor(recovered, Some(row.mission.status), cause, Joined(row.mission.id, TriggerName(ByRecoverActive), at));
      var next;
      next, moves := store.TryWrite(origin, past, p, calls, Plan(cause, Some(row.mission), Some(row.version), recovered, Some(event)));
      outcome := next.outcome;
    }

    /** Reconcile a mission with its task; nothing is launched. */
    method Recover(ghost origin: seq<Move>, ghost past: seq<Move>, p: Process, calls: Calls, id: Id, task: Task, at: string, closedAt: Option<Instant>, probe: bool, proof: bool)
      returns (outcome: Outcome, ghost moves: seq<Move>)
      requires store.At(past, p, Loading(Recovery(id, task, at, closedAt, probe, proof)))
      requires Given(origin, past, p, calls)
      modifies store
      ensures store.At(moves, p, Ended(outcome)) && Given(origin, moves, p, calls)
    {
      var r := Recovery(id, task, at, closedAt, probe, proof);
      moves := store.Await(origin, past, p, Loading(r), calls);
      if !calls.load {
        moves := store.CallThrows(origin, moves, p, calls, Loading(r));
        return Failed, moves;
      }
      Hear(origin, moves, Resume(p, Served), p, calls);
      moves := moves + [Resume(p, Served)];
      if id !in store.rows {
        outcome, moves := RecoverMissing(origin, moves, p, calls, r);
        return;
      }
      var row := store.rows[id];
      outcome, moves := RecoverFound(origin, moves, p, calls, r, row);
    }

    method RecoverFound(ghost origin: seq<Move>, ghost past: seq<Move>, p: Process, calls: Calls, r: Request, row: Row)
      returns (outcome: Outcome, ghost moves: seq<Move>)
      requires r.Recovery? && store.At(past, p, AfterFound(r, row))
      requires Given(origin, past, p, calls)
      modifies store
      ensures store.At(moves, p, Ended(outcome)) && Given(origin, moves, p, calls)
    {
      if !r.task.TaskActive? { return NothingToDo, past; }
      match row.mission.status {
        case Active =>
          if !r.probe { return NothingToDo, past; }
          moves := store.Await(origin, past, p, Probing(r), calls);
          var merged := calls.merged;
          Hear(origin, moves, Resume(p, Merged(merged)), p, calls);
          moves := moves + [Resume(p, Merged(merged))];
          outcome := if merged then RefusedIntegrated else NothingToDo;
        case Refined => outcome, moves := Reopen(origin, past, p, calls, row, RecoverRefined, r.at);
        case Done => outcome, moves := ReopenUnlessIntegrated(origin, past, p, calls, r, row);
        case _ => outcome, moves := NothingToDo, past;
      }
    }

    /** No mission at all: rebuild it closed when its payload is proven to have landed. */
    method RecoverMissing(ghost origin: seq<Move>, ghost past: seq<Move>, p: Process, calls: Calls, r: Request) returns (outcome: Outcome, ghost moves: seq<Move>)
      requires r.Recovery? && store.At(past, p, AfterMissing(r))
      requires Given(origin, past, p, calls)
      modifies store
      ensures store.At(moves, p, Ended(outcome)) && Given(origin, moves, p, calls)
    {
      if !r.task.TaskCompleted? { return Conflict, past; }
      if !r.proof { return Unavailable, past; }
      moves := store.Await(origin, past, p, ProvingLanded(r), calls);
      var landing := calls.landing;
      Hear(origin, moves, Resume(p, Landed(landing)), p, calls);
      moves := moves + [Resume(p, Landed(landing))];
      match landing {
        case None => return Conflict, moves;
        case Some(l) =>
          if r.closedAt.None? { return Failed, moves; }
          var m := Mission(r.id, l.repository, Done, l.assignee, r.closedAt, false, l.evidence);
          var event := EventFor(m, None, RecoverLanded(m), Joined(r.id, TriggerName(ByClose), r.at));
          outcome, moves := WriteAndReadBack(origin, moves, p, calls, Plan(RecoverLanded(m), None, None, m, Some(event)));
      }
    }

    method WriteAndReadBack(ghost origin: seq<Move>, ghost past: seq<Move>, p: Process, calls: Calls, plan: Plan) returns (outcome: Outcome, ghost moves: seq<Move>)
      requires plan.cause.RecoverLanded? && store.At(past, p, Saving(plan))
      requires Given(origin, past, p, calls)
      modifies store
      ensures store.At(moves, p, Ended(outcome)) && Given(origin, moves, p, calls)
    {
      var next;
      next, moves := store.TryWrite(origin, past, p, calls, plan);
      if next.Ended? { return next.outcome, moves; }
      var version := next.version;
      moves := store.Await(origin, moves, p, next, calls);
      if !calls.readBack {
        moves := store.CallThrows(origin, moves, p, calls, next);
        return Failed, moves;
      }
      Hear(origin, moves, Resume(p, Served), p, calls);
      moves := moves + [Resume(p, Served)];
      var closed := plan.mission.id in store.rows && IsClosed(store.rows[plan.mission.id].mission);
      outcome := if closed then Completed(plan, version) else Unavailable;
    }
  }

  /** The next move, which takes the given reply if it is the command's own. */
  lemma Hear(past: seq<Move>, moves: seq<Move>, move: Move, p: Process, calls: Calls)
    requires Given(past, moves, p, calls) && Hears(Execute(Empty, moves), move, p, calls)
    ensures Given(past, moves + [move], p, calls)
    ensures Execute(Empty, moves + [move]) == Step(Execute(Empty, moves), move)
  {
    GivenSnoc(past, moves, move, p, calls);
    Snoc(moves, move);
  }

  lemma Snoc(moves: seq<Move>, move: Move)
    ensures Execute(Empty, moves + [move]) == Step(Execute(Empty, moves), move)
  {
    assert (moves + [move])[..|moves|] == moves;
  }
}
