/**
 * Running one mission in the form it is written: the activation, the provider's start and the rollback
 * are decided on the command's own fields, over a store that everybody else writes to meanwhile. The order
 * and what the calls of the execution answer are given.
 */
module ExecutionService {
  import opened Prelude
  import opened MissionWorkflow
  import opened MissionWriters
  import opened MissionServices
  import opened ActivationSaga

  /** What the caller asks for; `later` is the time of a compensation. */
  datatype Order = Order(fixing: bool, admitted: bool, evidence: Evidence, at: string, key: string, later: string)

  /** What the calls of one execution will answer. */
  datatype Answers = Answers(load: bool, start: Calls, launches: bool, finishes: bool, reread: bool, abort: Calls)

  /** The execution does in this action what its order says and its calls answer. */
  ghost predicate Heeds(s: Saga, a: Action, order: Order, answers: Answers) {
    match a
    case Elsewhere(move) => Hears(s.world, move, s.first, answers.start) && Hears(s.world, move, s.second, answers.abort)
    case Read(_, _, _, _, _) =>
      && (s.pc.Reading? ==> answers.load && a == Read(order.fixing, order.admitted, order.evidence, order.at, order.key))
      && (s.pc.RereadingForUndo? ==> answers.reread && a == Read(false, true, 0, order.later, ""))
    case Return => true
    case ProviderStarts => answers.launches && !s.started
    case Fails =>
      && (s.pc.Reading? ==> !answers.load)
      && (s.pc.Running? ==> !(if s.started then answers.finishes else answers.launches))
      && (s.pc.RereadingForUndo? ==> !answers.reread)
    case Succeeds => s.started && answers.finishes
  }

  /** The actions lead from `start` through these sagas, as ordered and answered. */
  ghost predicate Path(start: Saga, actions: seq<Action>, sagas: seq<Saga>, order: Order, answers: Answers) {
    && |sagas| == |actions| + 1 && sagas[0] == start
    && (forall i {:trigger actions[i]} :: 0 <= i < |actions| ==>
          sagas[i + 1] == Advance(sagas[i], actions[i]) && Heeds(sagas[i], actions[i], order, answers))
  }

  lemma {:induction false} PathAdvances(start: Saga, actions: seq<Action>, sagas: seq<Saga>, order: Order, answers: Answers)
    requires Path(start, actions, sagas, order, answers)
    ensures sagas[|actions|] == AdvanceAll(start, actions)
  {
    if actions != [] {
      var n := |actions| - 1;
      forall i | 0 <= i < n
        ensures sagas[..n + 1][i + 1] == Advance(sagas[..n + 1][i], actions[..n][i])
                && Heeds(sagas[..n + 1][i], actions[..n][i], order, answers)
      {
        assert actions[i] == actions[..n][i];
      }
      PathAdvances(start, actions[..n], sagas[..n + 1], order, answers);
      assert actions[n] == actions[|actions| - 1];
    }
  }

  lemma PathGrows(start: Saga, actions: seq<Action>, sagas: seq<Saga>, order: Order, answers: Answers, a: Action, s: Saga)
    requires Path(start, actions, sagas, order, answers)
    requires s == Advance(sagas[|actions|], a) && Heeds(sagas[|actions|], a, order, answers)
    ensures Path(start, actions + [a], sagas + [s], order, answers)
  {
    var more, all := actions + [a], sagas + [s];
    forall i | 0 <= i < |more| ensures all[i + 1] == Advance(all[i], more[i]) && Heeds(all[i], more[i], order, answers) {
      if i < |actions| { assert more[i] == actions[i]; }
    }
  }

  /** What a start reports: the mission before it and the version it left. */
  datatype Started = Started(from: Status, previousAssignee: Option<Agent>, version: Version)

  class ExecuteMission {
    const store: MissionStore
    const lifecycle: MissionLifecycleService
    const mission: Id
    const agent: Agent
    const first: Process
    const second: Process
    const authorized: bool
    const order: Order
    const answers: Answers
    var agentStarted: bool
    ghost const start: Saga
    ghost var actions: seq<Action>
    ghost var sagas: seq<Saga>
    ghost var saga: Saga
    ghost var moves: seq<MissionWriters.Move>

    constructor (lifecycle: MissionLifecycleService, ghost start: Saga, ghost past: seq<MissionWriters.Move>,
                 mission: Id, agent: Agent, first: Process, second: Process, authorized: bool, order: Order, answers: Answers)
      requires Fresh(start) && lifecycle.store.reserved == {first, second}
      requires start == Saga(lifecycle.store.World(), mission, agent, first, second, authorized, false, Reading)
      requires start.world == MissionWriters.Execute(Empty, past)
      ensures this.lifecycle == lifecycle && store == lifecycle.store && this.start == start && Is(Reading) && !agentStarted
      ensures this.order == order && this.answers == answers
    {
      this.lifecycle, store := lifecycle, lifecycle.store;
      this.mission, this.agent, this.first, this.second, this.authorized := mission, agent, first, second, authorized;
      this.order, this.answers, agentStarted := order, answers, false;
      this.start, actions, sagas, saga, moves := start, [], [start], start, past;
    }

    /** `saga` is what the actions so far lead to, over a store that the writers' moves lead to. */
    ghost predicate Went()
      reads this
    {
      && store == lifecycle.store && store.reserved == {first, second} && first != second
      && saga.first == first && saga.second == second
      && Path(start, actions, sagas, order, answers) && sagas[|actions|] == saga && SagaInv(saga)
      && saga.world == MissionWriters.Execute(Empty, moves)
    }

    /** The saga stands at `pc` and is this command over this store. */
    ghost predicate Is(pc: ActivationSaga.Pc)
      reads this, store
    {
      Went() && saga == Saga(store.World(), mission, agent, first, second, authorized, agentStarted, pc)
    }

    ghost method Take(a: Action, s: Saga)
      requires Went() && s == Advance(saga, a) && s.world == MissionWriters.Execute(Empty, moves) && Heeds(saga, a, order, answers)
      modifies this`actions, this`sagas, this`saga
      ensures Went() && saga == s
    {
      AdvanceKeepsInv(saga, a);
      PathGrows(start, actions, sagas, order, answers, a, s);
      actions, sagas, saga := actions + [a], sagas + [s], s;
    }

    /** One move of some writer. */
    ghost method Elsewhere(move: MissionWriters.Move, w: World)
      requires Went() && w == MissionWriters.Step(saga.world, move)
      requires !(move.Start? && move.process in store.reserved)
      requires Hears(saga.world, move, first, answers.start) && Hears(saga.world, move, second, answers.abort)
      modifies this`actions, this`sagas, this`saga, this`moves
      ensures Went() && saga == old(saga).(world := w) && moves == old(moves) + [move]
    {
      ghost var a := Action.Elsewhere(move);
      AdvanceKeepsInv(saga, a);
      PathGrows(start, actions, sagas, order, answers, a, saga.(world := w));
      Snoc(moves, move);
      actions, sagas, saga := actions + [a], sagas + [saga.(world := w)], saga.(world := w);
      moves := moves + [move];
    }

    /** What the calls of the command under number `p` answer. */
    function CallsOf(p: Process): Calls { if p == first then answers.start else answers.abort }

    /** The writers' moves up to `after` happened, while the command under number `p` ran. */
    ghost method Elsewheres(after: seq<MissionWriters.Move>, p: Process)
      requires Went() && p in {first, second} && store.Extends(moves, after, p) && Given(moves, after, p, CallsOf(p))
      modifies this`actions, this`sagas, this`saga, this`moves
      ensures Went() && moves == after && saga == old(saga).(world := MissionWriters.Execute(Empty, after))
    {
      while |moves| < |after|
        invariant Went() && moves <= after && store.Extends(moves, after, p) && Given(moves, after, p, CallsOf(p))
        invariant saga == old(saga).(world := saga.world)
        decreases |after| - |moves|
      {
        var move := after[|moves|];
        assert after[..|moves|] == moves;
        Elsewhere(move, MissionWriters.Step(saga.world, move));
      }
    }

    /** Other writers move. */
    method Await(ghost pc: ActivationSaga.Pc)
      requires Is(pc)
      modifies this`actions, this`sagas, this`saga, this`moves, store
      ensures Is(pc)
    {
      var foreign: seq<MissionWriters.Move> := *;
      for i := 0 to |foreign|
        invariant Is(pc)
      {
        if foreign[i].process != first && foreign[i].process != second {
          var w := MissionWriters.Step(store.World(), foreign[i]);
          Elsewhere(foreign[i], w);
          store.Adopt(w);
        }
      }
    }

    function Ordered(): Action { Read(order.fixing, order.admitted, order.evidence, order.at, order.key) }

    /** Load the mission, activate it (or return a review that is being fixed) and report the start. */
    method StartExecution()
      returns (started: Option<Started>, ghost activation: Activation)
      requires Is(Reading) && !agentStarted
      modifies this`actions, this`sagas, this`saga, this`moves, store
      ensures started.None? ==> Is(Over(false, None))
      ensures started.Some? ==> Is(Running(activation)) && !agentStarted
      ensures started.Some? ==>
        started.value == Started(activation.before.status, activation.before.assignee, activation.version + 1)
    {
      Await(Reading);
      activation := Activation(Activate(agent, true), Mission(mission, "", Backlog, None, None, false, 0), 0);
      if !answers.load {
        Take(Fails, saga.(pc := Over(false, None)));
        return None, activation;
      }
      if mission !in store.rows {
        Take(Ordered(), saga.(pc := Over(false, None)));
        return None, activation;
      }
      var row := store.rows[mission];
      if authorized {
        activation := Activation(Activate(agent, true), row.mission, row.version);
        Take(Ordered(), saga.(pc := Running(activation)));
        return Some(Started(row.mission.status, row.mission.assignee, row.version + 1)), activation;
      }
      var c := if row.mission.status.Review? && order.fixing then ReboundToActive(agent, order.admitted, order.evidence)
               else Activate(agent, order.admitted);
      started, activation := ActivateMission(row, c);
    }

    /** The versioned transition that starts the execution. */
    method ActivateMission(row: Row, c: Command)
      returns (started: Option<Started>, ghost activation: Activation)
      requires Is(Reading) && !agentStarted && !authorized && mission in store.rows && store.rows[mission] == row
      requires answers.load && c == StartCommand(row.mission, agent, order.fixing, order.admitted, order.evidence)
      modifies this`actions, this`sagas, this`saga, this`moves, store
      ensures started.None? ==> Is(Over(false, None))
      ensures started.Some? ==> Is(Running(activation)) && !agentStarted
      ensures started.Some? ==>
        started.value == Started(activation.before.status, activation.before.assignee, activation.version + 1)
    {
      activation := Activation(c, row.mission, row.version);
      ghost var r := Decision(mission, c, order.at, Some(order.key + ":activate"), Some(row.version));
      BeginCommand(Ordered(), first, r, Activating(activation));
      var outcome := RunCommand(first, c, order.at, Some(order.key + ":activate"), row.version, Activating(activation));
      if !outcome.Completed? {
        Take(Return, saga.(pc := Over(false, None)));
        return None, activation;
      }
      ActivationReported(saga, activation);
      Take(Return, saga.(pc := Running(activation)));
      started := Some(Started(outcome.plan.read.value.status, outcome.plan.read.value.assignee, outcome.version));
    }

    /** The saga issues a command of its own. */
    ghost method BeginCommand(a: Action, p: Process, r: Request, pc: ActivationSaga.Pc)
      requires Went() && p in {first, second} && p !in store.others && saga.world == store.World()
      requires !a.Elsewhere? && Heeds(saga, a, order, answers)
      requires Advance(saga, a) == saga.(world := store.World().(processes := store.others[p := Loading(r)]), pc := pc)
      modifies this`actions, this`sagas, this`saga, this`moves
      ensures Went() && saga == old(saga).(world := store.View(p, Loading(r)), pc := pc)
    {
      AdvanceKeepsInv(saga, a);
      PathGrows(start, actions, sagas, order, answers, a, Advance(saga, a));
      Snoc(moves, MissionWriters.Start(p, r));
      actions, sagas, saga := actions + [a], sagas + [Advance(saga, a)], Advance(saga, a);
      moves := moves + [MissionWriters.Start(p, r)];
    }

    /** It runs like everybody's commands, until it has an outcome. */
    method RunCommand(p: Process, c: Command, at: string, key: Option<string>, version: Version, ghost pc: ActivationSaga.Pc)
      returns (outcome: Outcome)
      requires p in {first, second}
      requires Went() && saga == Saga(store.View(p, Loading(Decision(mission, c, at, key, Some(version)))),
                                      mission, agent, first, second, authorized, agentStarted, pc)
      modifies this`actions, this`sagas, this`saga, this`moves, store
      ensures Is(pc) && p in store.others && store.others[p] == Ended(outcome)
    {
      ghost var after;
      outcome, after := lifecycle.Transition(moves, moves, p, CallsOf(p), mission, c, at, key, Some(version));
      Elsewheres(after, p);
      store.Conclude(p, outcome);
    }

    /** Launch the agent; whatever fails before it started rolls the activation back. */
    method Execute() returns (ok: bool)
      requires Is(Reading) && !agentStarted
      modifies this, store
      ensures Went() && saga.pc.Over? && saga.pc.ok == ok && saga == AdvanceAll(start, actions)
    {
      var started: Option<Started>;
      ghost var activation: Activation;
      started, activation := StartExecution();
      ok := false;
      if started.Some? { ok := RunAgent(started.value, activation); }
      PathAdvances(start, actions, sagas, order, answers);
    }

    method RunAgent(started: Started, ghost activation: Activation) returns (ok: bool)
      requires Is(Running(activation)) && !agentStarted
      requires started == Started(activation.before.status, activation.before.assignee, activation.version + 1)
      modifies this`agentStarted, this`actions, this`sagas, this`saga, this`moves, store
      ensures Went() && saga.pc.Over? && saga.pc.ok == ok
    {
      Await(Running(activation));
      ok := false;
      if answers.launches {
        ReportStarted(activation);
        Await(Running(activation));
        ok := answers.finishes;
      }
      if ok { Succeed(activation); } else { FailedExecution(started, activation); }
    }

    method ReportStarted(ghost activation: Activation)
      requires Is(Running(activation)) && answers.launches && !agentStarted
      modifies this`agentStarted, this`actions, this`sagas, this`saga
      ensures Is(Running(activation)) && agentStarted
    {
      Take(ProviderStarts, saga.(started := true));
      agentStarted := true;
    }

    ghost method Succeed(activation: Activation)
      requires Is(Running(activation)) && agentStarted && answers.finishes
      modifies this`actions, this`sagas, this`saga
      ensures Went() && saga.pc == Over(true, None)
    {
      Take(Succeeds, saga.(pc := Over(true, None)));
    }

    /** Compensate only an activation of its own, from refined, before any provider started. */
    method FailedExecution(started: Started, ghost activation: Activation)
      requires Is(Running(activation)) && !(if agentStarted then answers.finishes else answers.launches)
      requires started == Started(activation.before.status, activation.before.assignee, activation.version + 1)
      modifies this`actions, this`sagas, this`saga, this`moves, store
      ensures Went() && saga.pc.Over? && !saga.pc.ok
    {
      if !authorized && started.from.Refined? && !agentStarted {
        Take(Fails, saga.(pc := RereadingForUndo(activation)));
        Compensate(started, activation);
      } else {
        Take(Fails, saga.(pc := Over(false, None)));
      }
    }

    /** A later write belongs to later work: the abort is made only on the version the activation left. */
    method Compensate(started: Started, ghost activation: Activation)
      requires Is(RereadingForUndo(activation))
      requires started == Started(activation.before.status, activation.before.assignee, activation.version + 1)
      modifies this`actions, this`sagas, this`saga, this`moves, store
      ensures Went() && saga.pc.Over? && !saga.pc.ok
    {
      Await(RereadingForUndo(activation));
      ghost var a := Read(false, true, 0, order.later, "");
      if !answers.reread {
        Take(Fails, saga.(pc := Over(false, None)));
        return;
      }
      if mission !in store.rows || !store.rows[mission].mission.status.Active? || store.rows[mission].version != started.version {
        Take(a, saga.(pc := Over(false, None)));
        return;
      }
      Abort(started, activation);
    }

    method Abort(started: Started, ghost activation: Activation)
      requires Is(RereadingForUndo(activation)) && answers.reread && mission in store.rows
      requires store.rows[mission].mission.status.Active? && store.rows[mission].version == started.version
      requires started == Started(activation.before.status, activation.before.assignee, activation.version + 1)
      modifies this`actions, this`sagas, this`saga, this`moves, store
      ensures Went() && saga.pc.Over? && !saga.pc.ok
    {
      var undo := AbortActivation(started.previousAssignee);
      BeginCommand(Read(false, true, 0, order.later, ""), second, Decision(mission, undo, order.later, None, Some(started.version)),
                   Undoing(activation));
      var outcome := RunCommand(second, undo, order.later, None, started.version, Undoing(activation));
      Take(Return, saga.(pc := Over(false, Some(activation))));
    }
  }

  /** A finished activation reports the mission it read and the version it left. */
  lemma ActivationReported(s: Saga, a: Activation)
    requires SagaInv(s) && s.pc == Activating(a) && EndedWell(s.world, s.first)
    ensures var outcome := s.world.processes[s.first].outcome;
      outcome.plan.read == Some(a.before) && outcome.version == a.version + 1
  {
    assert Serves(s.world, s.first, a.command, a.version, a.before);
  }
}
