/**
 * When a rollback goes through. A command that expects a version can be stopped by exactly three things:
 * one of its calls throws, somebody writes the mission first, or its event key is taken by another
 * transition.
 */
module Rollback {
  import opened Prelude
  import opened MissionWorkflow
  import opened MissionWriters
  import opened ActivationSaga

  // ---------------------------------------------------------------- what can stop a command

  /** What its calls have met so far. */
  datatype Fate = Fate(threw: bool, overtaken: bool, refused: bool)

  const Unhindered := Fate(false, false, false)

  predicate Pending(w: World, p: Process) { p in w.processes && !w.processes[p].Ended? }

  /** Somebody wrote the mission: it is past the version this command expects. */
  predicate MovedOn(s: Store, pc: MissionWriters.Pc) {
    match pc
    case Loading(r) => r.Decision? && r.expected.Some? && VersionOf(s.rows, r.id) != r.expected.value
    case Saving(plan) => plan.expected.Some? && VersionOf(s.rows, plan.mission.id) != plan.expected.value
    case CheckingReplay(plan) => plan.expected.Some? && VersionOf(s.rows, plan.mission.id) != plan.expected.value
    case Resaving(plan) => plan.expected.Some? && VersionOf(s.rows, plan.mission.id) != plan.expected.value
    case _ => false
  }

  /** The key of the planned event is recorded, and not for this very transition. */
  predicate KeyTaken(s: Store, plan: Plan) {
    plan.event.Some? && Recorded(s.events, plan.event.value.repository, plan.event.value.key)
    && !Replayed(s.events, plan.event.value)
  }

  /** A move adds to the fate of command `p` only if it answers one of its calls. */
  function Meets(f: Fate, w: World, p: Process, move: MissionWriters.Move): Fate {
    if !move.Resume? || move.process != p || !Pending(w, p) then f
    else
      var pc := w.processes[p];
      match move.reply
      case Throws => f.(threw := true)
      case Served =>
        f.(overtaken := f.overtaken || MovedOn(w.store, pc),
           refused := f.refused || (pc.Saving? && !MovedOn(w.store, pc) && KeyTaken(w.store, pc.plan)))
      case _ => f
  }

  /** Its fate and its state agree: it is over and completed exactly when nothing stopped it. */
  ghost predicate Judged(w: World, p: Process, f: Fate) {
    p in w.processes && match w.processes[p]
      case Loading(_) => f == Unhindered
      case Saving(_) => f == Unhindered
      case CheckingReplay(plan) =>
        && !f.threw && !f.overtaken && plan.event.Some?
        && var e := plan.event.value;
           && Recorded(w.store.events, e.repository, e.key) && (f.refused <==> !Replayed(w.store.events, e))
           && e.mission in w.store.rows && w.store.rows[e.mission].mission.repository == e.repository
      case Resaving(plan) => !f.threw && !f.refused && (f.overtaken ==> MovedOn(w.store, Resaving(plan)))
      case Ended(outcome) => outcome.Completed? <==> f == Unhindered
      case _ => false
  }

  // ---------------------------------------------------------------- no move breaks the agreement

  /** A mission never changes its repository. */
  lemma WriteKeepsRepository(s: Store, plan: Plan, event: Option<LaneEvent>, id: Id)
    requires RowsOk(s) && PlanOk(s, plan) && WriteTo(s, plan, event).Saved? && id in s.rows
    ensures id in WriteTo(s, plan, event).store.rows
    ensures WriteTo(s, plan, event).store.rows[id].mission.repository == s.rows[id].mission.repository
  {
    ReadsPredecessor(s, plan, event);
    if plan.read.Some? { DecisionsKeepRepository(plan.cause, plan.read.value); }
  }

  lemma StepKeepsRepository(w: World, move: MissionWriters.Move, id: Id)
    requires Inv(w) && id in w.store.rows
    ensures id in Step(w, move).store.rows
    ensures Step(w, move).store.rows[id].mission.repository == w.store.rows[id].mission.repository
  {
    if move.Resume? && move.process in w.processes {
      var pc := w.processes[move.process];
      assert PcOk(w.store, pc);
      if pc.Saving? && WriteTo(w.store, pc.plan, pc.plan.event).Saved? { WriteKeepsRepository(w.store, pc.plan, pc.plan.event, id); }
      else if pc.Resaving? && WriteTo(w.store, pc.plan, None).Saved? { WriteKeepsRepository(w.store, pc.plan, None, id); }
    }
  }

  /** Other commands' moves: a version only goes up, and a taken key stays taken. */
  lemma ForeignKeepsJudged(w: World, p: Process, f: Fate, c: Command, v: Version, m: Mission, move: MissionWriters.Move)
    requires Inv(w) && EventsPlaced(w.store) && Serves(w, p, c, v, m) && Judged(w, p, f) && move.process != p
    ensures Judged(Step(w, move), p, f)
  {
    var u := Step(w, move);
    ForeignKeepsPc(w, p, move);
    StepGrows(w, move);
    if w.processes[p].CheckingReplay? { ForeignKeepsLookup(w, p, f, w.processes[p].plan, move); }
  }

  lemma ForeignKeepsLookup(w: World, p: Process, f: Fate, plan: Plan, move: MissionWriters.Move)
    requires Inv(w) && EventsPlaced(w.store) && Judged(w, p, f) && w.processes[p] == CheckingReplay(plan) && move.process != p
    ensures Judged(Step(w, move), p, f)
  {
    var u := Step(w, move);
    var e := plan.event.value;
    ForeignKeepsPc(w, p, move);
    StepGrows(w, move);
    StepKeepsInv(w, move);
    StepKeepsPlaced(w, move);
    StepKeepsRepository(w, move, e.mission);
    if Replayed(w.store.events, e) { ReplayedLater(w.store, u.store, e); } else { TakenKeyStaysTaken(w.store, u.store, e); }
    var i :| 0 <= i < |w.store.events| && w.store.events[i].repository == e.repository && w.store.events[i].key == e.key;
    assert u.store.events[i] == w.store.events[i];
  }

  lemma LoadJudged(w: World, p: Process, f: Fate, c: Command, v: Version, m: Mission)
    requires Inv(w) && Serves(w, p, c, v, m) && Judged(w, p, f) && w.processes[p].Loading? && Decide(m, c).Some?
    ensures Judged(Step(w, Resume(p, Served)), p, Meets(f, w, p, Resume(p, Served)))
  {
    assert w.store.rows[m.id].mission.id == m.id;
  }

  lemma WriteJudged(w: World, p: Process, f: Fate, c: Command, v: Version, m: Mission)
    requires Inv(w) && Serves(w, p, c, v, m) && Judged(w, p, f) && w.processes[p].Saving?
    ensures Judged(Step(w, Resume(p, Served)), p, Meets(f, w, p, Resume(p, Served)))
  {
    var plan := w.processes[p].plan;
    assert PcOk(w.store, w.processes[p]);
    IdentityKept(m, c);
    var u := Step(w, Resume(p, Served));
    if MovedOn(w.store, Saving(plan)) { assert u.processes[p] == Ended(Conflict); }
    else if plan.event.Some? && Recorded(w.store.events, plan.event.value.repository, plan.event.value.key) {
      assert u == To(w, p, CheckingReplay(plan));
    } else {
      assert u.processes[p].Ended? && u.processes[p].outcome.Completed?;
    }
  }

  lemma LookupJudged(w: World, p: Process, f: Fate, c: Command, v: Version, m: Mission)
    requires Inv(w) && Serves(w, p, c, v, m) && Judged(w, p, f) && w.processes[p].CheckingReplay?
    ensures Judged(Step(w, Resume(p, Served)), p, Meets(f, w, p, Resume(p, Served)))
  {
  }

  lemma RewriteJudged(w: World, p: Process, f: Fate, c: Command, v: Version, m: Mission)
    requires Inv(w) && Serves(w, p, c, v, m) && Judged(w, p, f) && w.processes[p].Resaving?
    ensures Judged(Step(w, Resume(p, Served)), p, Meets(f, w, p, Resume(p, Served)))
  {
    IdentityKept(m, c);
  }

  lemma AnswerJudged(w: World, p: Process, f: Fate, c: Command, v: Version, m: Mission, reply: Reply)
    requires Inv(w) && Serves(w, p, c, v, m) && Judged(w, p, f) && Decide(m, c).Some?
    ensures Judged(Step(w, Resume(p, reply)), p, Meets(f, w, p, Resume(p, reply)))
  {
    if reply.Served? {
      match w.processes[p]
      case Loading(_) => LoadJudged(w, p, f, c, v, m);
      case Saving(_) => WriteJudged(w, p, f, c, v, m);
      case CheckingReplay(_) => LookupJudged(w, p, f, c, v, m);
      case Resaving(_) => RewriteJudged(w, p, f, c, v, m);
      case _ =>
    }
  }

  lemma StepKeepsJudged(w: World, p: Process, f: Fate, c: Command, v: Version, m: Mission, move: MissionWriters.Move)
    requires Inv(w) && EventsPlaced(w.store) && Serves(w, p, c, v, m) && Judged(w, p, f) && Decide(m, c).Some?
    ensures Judged(Step(w, move), p, Meets(f, w, p, move))
  {
    if move.process != p { ForeignKeepsJudged(w, p, f, c, v, m, move); }
    else if move.Resume? { AnswerJudged(w, p, f, c, v, m, move.reply); }
  }

  // ---------------------------------------------------------------- the undo of a saga

  /** What the calls of the saga's undo met, over these actions. */
  function FateOf(s: Saga, actions: seq<Action>): Fate {
    if actions == [] then Unhindered
    else
      var earlier := actions[..|actions| - 1];
      var last := actions[|actions| - 1];
      var f := FateOf(s, earlier);
      if last.Elsewhere? then Meets(f, AdvanceAll(s, earlier).world, s.second, last.move) else f
  }

  /** The mission is past the version the activation left, once some call of the undo found it so. */
  ghost predicate Passed(s: Saga, a: Activation, f: Fate) {
    f.overtaken ==> VersionOf(s.world.store.rows, s.mission) > a.version + 1
  }

  ghost predicate FateInv(s: Saga, f: Fate) {
    && EventsPlaced(s.world.store)
    && match s.pc
       case Undoing(a) => Judged(s.world, s.second, f) && Passed(s, a, f)
       case Over(_, Some(a)) => Judged(s.world, s.second, f) && Passed(s, a, f) && !Pending(s.world, s.second)
       case _ => f == Unhindered && s.second !in s.world.processes
  }

  lemma UndoCommandIsDecided(s: Saga, a: Activation)
    requires Undoes(s, a)
    ensures Decide(Activated(a), AbortActivation(a.before.assignee)) == Some(a.before)
    ensures Activated(a).id == s.mission
  {
    AbortUndoesActivation(a.before, a.command.agent, a.command.admitted);
  }

  lemma MeetsKeepsPassed(s: Saga, a: Activation, f: Fate, move: MissionWriters.Move)
    requires MissionWriters.Inv(s.world) && Undoes(s, a) && Passed(s, a, f)
    ensures Passed(s.(world := Step(s.world, move)), a, Meets(f, s.world, s.second, move))
  {
    UndoCommandIsDecided(s, a);
    StepGrows(s.world, move);
    assert ReadOk(s.world.store.rows, Activated(a), a.version + 1);
  }

  lemma UndoStaysJudged(s: Saga, a: Activation, f: Fate, move: MissionWriters.Move)
    requires MissionWriters.Inv(s.world) && EventsPlaced(s.world.store) && Undoes(s, a)
    requires Judged(s.world, s.second, f) && Passed(s, a, f)
    ensures var t := s.(world := Step(s.world, move));
      var g := Meets(f, s.world, s.second, move);
      Judged(t.world, t.second, g) && Passed(t, a, g) && EventsPlaced(t.world.store)
  {
    UndoCommandIsDecided(s, a);
    StepKeepsJudged(s.world, s.second, f, AbortActivation(a.before.assignee), a.version + 1, Activated(a), move);
    MeetsKeepsPassed(s, a, f, move);
    StepKeepsPlaced(s.world, move);
  }

  lemma OverStays(w: World, p: Process, move: MissionWriters.Move)
    requires p in w.processes && w.processes[p].Ended?
    ensures p in Step(w, move).processes && Step(w, move).processes[p] == w.processes[p]
  {
    if move.process != p { ForeignKeepsPc(w, p, move); }
  }

  lemma ElsewhereKeepsFate(s: Saga, f: Fate, move: MissionWriters.Move)
    requires SagaInv(s) && FateInv(s, f) && !(move.Start? && (move.process == s.first || move.process == s.second))
    ensures FateInv(s.(world := Step(s.world, move)), Meets(f, s.world, s.second, move))
  {
    StepKeepsPlaced(s.world, move);
    match s.pc
    case Undoing(a) => UndoStaysJudged(s, a, f, move);
    case Over(_, Some(a)) =>
      UndoStaysJudged(s, a, f, move);
      OverStays(s.world, s.second, move);
    case _ =>
      if move.process != s.second { OthersLeaveUnused(s.world, s.second, move); }
  }

  lemma OthersLeaveUnused(w: World, p: Process, move: MissionWriters.Move)
    requires p !in w.processes && move.process != p
    ensures p !in Step(w, move).processes
  {
  }

  lemma ReadKeepsFate(s: Saga, f: Fate, a: Action)
    requires SagaInv(s) && FateInv(s, f) && a.Read?
    ensures FateInv(Advance(s, a), f)
  {
  }

  lemma AdvanceKeepsFate(s: Saga, f: Fate, a: Action)
    requires SagaInv(s) && FateInv(s, f)
    ensures FateInv(Advance(s, a), if a.Elsewhere? then Meets(f, s.world, s.second, a.move) else f)
  {
    match a
    case Elsewhere(move) =>
      if !(move.Start? && (move.process == s.first || move.process == s.second)) { ElsewhereKeepsFate(s, f, move); }
    case Read(_, _, _, _, _) => ReadKeepsFate(s, f, a);
    case _ =>
  }

  lemma {:induction false} RunKeepsFate(s: Saga, actions: seq<Action>)
    requires Fresh(s) && EventsPlaced(s.world.store)
    ensures FateInv(AdvanceAll(s, actions), FateOf(s, actions))
  {
    if actions != [] {
      var earlier := actions[..|actions| - 1];
      RunKeepsSagaInv(s, earlier);
      RunKeepsIdentity(s, earlier);
      RunKeepsFate(s, earlier);
      AdvanceKeepsFate(AdvanceAll(s, earlier), FateOf(s, earlier), actions[|actions| - 1]);
    }
  }

  // ---------------------------------------------------------------- main result

  /** The undo wrote: its commit brings back exactly the mission the activation replaced. */
  ghost predicate RolledBack(s: Saga, a: Activation) {
    exists i :: 0 <= i < |s.world.commits| && s.world.commits[i].author == s.second
      && s.world.commits[i].mission == a.before && s.world.commits[i].version == a.version + 2
  }

  /** Somebody else made the write that follows the activation. */
  ghost predicate WrittenByAnother(s: Saga, a: Activation) {
    exists i :: 0 <= i < |s.world.commits| && s.world.commits[i].author != s.second
      && s.world.commits[i].mission.id == s.mission && s.world.commits[i].version == a.version + 2
  }

  /**
   * In every interleaving with any writers of any missions, a rollback that was issued brings the mission
   * back exactly if no call of it threw, nobody wrote the mission between the activation and its write,
   * and at that write its event key was new or recorded this very rollback. Whatever stopped it, it wrote
   * nothing; and if it was overtaken, somebody else made the write after the activation.
   */
  lemma RollbackGoesThroughExactly(s0: Saga, actions: seq<Action>)
    requires Fresh(s0) && EventsPlaced(s0.world.store)
    requires AdvanceAll(s0, actions).pc.Over? && AdvanceAll(s0, actions).pc.undone.Some?
    ensures var s := AdvanceAll(s0, actions);
      var a := s.pc.undone.value;
      var f := FateOf(s0, actions);
      && (RolledBack(s, a) <==> !f.threw && !f.overtaken && !f.refused)
      && (RolledBack(s, a) <==> EndedWell(s.world, s.second))
      && (!RolledBack(s, a) ==> NoCommit(s.world, s.second))
      && (f.overtaken ==> WrittenByAnother(s, a))
  {
    RunKeepsSagaInv(s0, actions);
    RunKeepsFate(s0, actions);
    var s := AdvanceAll(s0, actions);
    var a := s.pc.undone.value;
    if EndedWell(s.world, s.second) { CompletedUndoRestores(s, a); }
    else { RefusedUndoWritesNothing(s, a, FateOf(s0, actions)); }
  }

  lemma CompletedUndoRestores(s: Saga, a: Activation)
    requires Undoes(s, a) && EndedWell(s.world, s.second)
    ensures RolledBack(s, a)
  {
    UndoCommandIsDecided(s, a);
    var c, v, m := AbortActivation(a.before.assignee), a.version + 1, Activated(a);
    assert Wrote(s.world, s.second, c, v, m);
    var i :| 0 <= i < |s.world.commits| && WroteOnce(s.world, s.second, c, v, m, i);
    assert s.world.commits[i].mission == a.before;
  }

  lemma RefusedUndoWritesNothing(s: Saga, a: Activation, f: Fate)
    requires MissionWriters.Inv(s.world) && Undoes(s, a) && Passed(s, a, f)
    requires s.second in s.world.processes && s.world.processes[s.second].Ended? && !EndedWell(s.world, s.second)
    ensures NoCommit(s.world, s.second) && !RolledBack(s, a)
    ensures f.overtaken ==> WrittenByAnother(s, a)
  {
    assert NoCommit(s.world, s.second);
    if f.overtaken {
      assert s.world.commits[..|s.world.commits|] == s.world.commits;
      WrittenOnce(s.world, |s.world.commits|, s.mission, a.version + 2);
    }
  }

  /** Versions have no gaps: a mission at or past a version has a write that made it. */
  lemma {:induction false} WrittenOnce(w: World, n: nat, id: Id, v: Version)
    requires HistoryOk(w) && n <= |w.commits| && 1 <= v <= VersionOf(RowsAfter(w.commits[..n]), id)
    ensures exists i :: 0 <= i < |w.commits| && w.commits[i].mission.id == id && w.commits[i].version == v
  {
    assert w.commits[..0] == [];
    var i := n - 1;
    assert w.commits[..n][..i] == w.commits[..i] && w.commits[..n][i] == w.commits[i];
    assert SoundCommit(w.store.events, w.commits, i);
    if w.commits[i].mission.id != id || w.commits[i].version > v { WrittenOnce(w, i, id, v); }
  }

  // ---------------------------------------------------------------- a run in which it is stopped

  lemma {:induction false} RunKeepsPlaced(moves: seq<MissionWriters.Move>)
    ensures EventsPlaced(MissionWriters.Execute(Empty, moves).store)
  {
    if moves != [] {
      var earlier := moves[..|moves| - 1];
      RunKeepsInv(earlier);
      RunKeepsPlaced(earlier);
      StepKeepsPlaced(MissionWriters.Execute(Empty, earlier), moves[|moves| - 1]);
    }
  }

  /** A command from its start through its load and its write. */
  function Ran(w: World, p: Process, r: Request): World {
    Step(Step(Step(w, Start(p, r)), Resume(p, Served)), Resume(p, Served))
  }

  lemma RanExecutes(moves: seq<MissionWriters.Move>, p: Process, r: Request) returns (more: seq<MissionWriters.Move>)
    ensures MissionWriters.Execute(Empty, more) == Ran(MissionWriters.Execute(Empty, moves), p, r)
  {
    WriterSnoc(moves, Start(p, r));
    WriterSnoc(moves + [Start(p, r)], Resume(p, Served));
    WriterSnoc(moves + [Start(p, r)] + [Resume(p, Served)], Resume(p, Served));
    more := moves + [Start(p, r)] + [Resume(p, Served)] + [Resume(p, Served)];
  }

  lemma WriterSnoc(moves: seq<MissionWriters.Move>, move: MissionWriters.Move)
    ensures MissionWriters.Execute(Empty, moves + [move]) == Step(MissionWriters.Execute(Empty, moves), move)
  {
    assert (moves + [move])[..|moves|] == moves;
  }

  lemma IntakeRuns(w: World, p: Process, id: Id, repository: Repository, key: string)
    requires p !in w.processes && id !in w.store.rows && !Recorded(w.store.events, repository, key)
    ensures var m := IntakeMission(id, repository, None, 0);
      var u := Ran(w, p, NewMission(id, repository, None, 0, "0", Some(key)));
      && u.store == Store(w.store.rows[id := Row(m, 1)], w.store.events + [EventFor(m, None, Intake(m), key)])
      && u.processes.Keys == w.processes.Keys + {p} && |u.commits| == |w.commits| + 1 && u.commits[..|w.commits|] == w.commits
      && u.commits[|w.commits|].author == p
  {
    var m := IntakeMission(id, repository, None, 0);
    var r := NewMission(id, repository, None, 0, "0", Some(key));
    var w1 := Step(w, Start(p, r));
    var w2 := Step(w1, Resume(p, Served));
    assert w2.processes[p] == PlanInsert(Intake(m), m, key) && w2.store == w.store && w2.commits == w.commits;
  }

  lemma RefineRuns(w: World, p: Process, id: Id, key: string)
    requires p !in w.processes && id in w.store.rows && w.store.rows[id].mission.id == id
    requires w.store.rows[id].mission.status.Backlog? && !Recorded(w.store.events, w.store.rows[id].mission.repository, key)
    ensures var row := w.store.rows[id];
      var m := row.mission.(status := Refined);
      var u := Ran(w, p, Decision(id, Refine(true), "0", Some(key), None));
      && u.store == Store(w.store.rows[id := Row(m, row.version + 1)],
                          w.store.events + [EventFor(m, Some(Backlog), Transition(Refine(true)), key)])
      && u.processes.Keys == w.processes.Keys + {p} && |u.commits| == |w.commits| + 1 && u.commits[..|w.commits|] == w.commits
      && u.commits[|w.commits|].author == p
  {
    var row := w.store.rows[id];
    var m := row.mission.(status := Refined);
    var r := Decision(id, Refine(true), "0", Some(key), None);
    var w1 := Step(w, Start(p, r));
    var w2 := Step(w1, Resume(p, Served));
    var e := EventFor(m, Some(Backlog), Transition(Refine(true)), key);
    assert w2.processes[p] == Saving(Plan(Transition(Refine(true)), Some(row.mission), Some(row.version), m, Some(e)));
    assert w2.store == w.store && w2.commits == w.commits;
  }

  /** The key of the abort that mission "a" would record at time "t". */
  function AbortKey(): string { Joined("a", TriggerName(ByAbortActivation), "t") }

  lemma AbortKeyIsLong()
    ensures |AbortKey()| > 1 && AbortKey()[0] == 'a'
  {
  }

  /** Nobody has used the two processes of the execution. */
  ghost predicate Untried(w: World) {
    0 !in w.processes && 1 !in w.processes && NoCommit(w, 0) && NoCommit(w, 1)
  }

  function RefinedA(): Mission { IntakeMission("a", "r", None, 0).(status := Refined) }

  /** Everything a finished command of process `p` adds to a world. */
  ghost predicate Adds(w: World, u: World, p: Process, row: Row, e: LaneEvent) {
    && u.store == Store(w.store.rows[row.mission.id := row], w.store.events + [e])
    && u.processes.Keys == w.processes.Keys + {p} && |u.commits| == |w.commits| + 1 && u.commits[..|w.commits|] == w.commits
    && u.commits[|w.commits|].author == p
  }

  lemma AddsKeepsUntried(w: World, u: World, p: Process, row: Row, e: LaneEvent)
    requires Untried(w) && Adds(w, u, p, row, e) && p > 1
    ensures Untried(u)
  {
    forall i | 0 <= i < |u.commits| ensures u.commits[i].author != 0 && u.commits[i].author != 1 {
      if i < |w.commits| { assert u.commits[i] == w.commits[i]; }
    }
  }

  lemma IntakeAfter(past: seq<MissionWriters.Move>, w: World, p: Process, id: Id, key: string)
    returns (moves: seq<MissionWriters.Move>, u: World)
    requires w == MissionWriters.Execute(Empty, past)
    requires p !in w.processes && id !in w.store.rows && !Recorded(w.store.events, "r", key)
    ensures u == MissionWriters.Execute(Empty, moves)
    ensures var m := IntakeMission(id, "r", None, 0); Adds(w, u, p, Row(m, 1), EventFor(m, None, Intake(m), key))
  {
    var r := NewMission(id, "r", None, 0, "0", Some(key));
    IntakeRuns(w, p, id, "r", key);
    moves := RanExecutes(past, p, r);
    u := Ran(w, p, r);
  }

  lemma RefineAfter(past: seq<MissionWriters.Move>, w: World, p: Process, id: Id, key: string)
    returns (moves: seq<MissionWriters.Move>, u: World)
    requires w == MissionWriters.Execute(Empty, past) && p !in w.processes
    requires id in w.store.rows && w.store.rows[id].mission == IntakeMission(id, "r", None, 0) && !Recorded(w.store.events, "r", key)
    ensures u == MissionWriters.Execute(Empty, moves)
    ensures var m := IntakeMission(id, "r", None, 0).(status := Refined);
      Adds(w, u, p, Row(m, w.store.rows[id].version + 1), EventFor(m, Some(Backlog), Transition(Refine(true)), key))
  {
    var r := Decision(id, Refine(true), "0", Some(key), None);
    RefineRuns(w, p, id, key);
    moves := RanExecutes(past, p, r);
    u := Ran(w, p, r);
  }

  /** Mission "a" is refined, and somebody created mission "b" under the key of its abort. */
  lemma TakenKeyWorld() returns (moves: seq<MissionWriters.Move>, w: World)
    ensures w == MissionWriters.Execute(Empty, moves) && Untried(w)
    ensures "a" in w.store.rows && w.store.rows["a"] == Row(RefinedA(), 2)
    ensures |w.store.events| == 3 && w.store.events[0].key == "1" && w.store.events[1].key == "2"
    ensures w.store.events[2].key == AbortKey() && w.store.events[2].mission == "b" && w.store.events[2].repository == "r"
  {
    AbortKeyIsLong();
    var m1, w1 := IntakeAfter([], Empty, 10, "a", "1");
    AddsKeepsUntried(Empty, w1, 10, Row(IntakeMission("a", "r", None, 0), 1), w1.store.events[0]);
    var m2, w2 := RefineAfter(m1, w1, 11, "a", "2");
    AddsKeepsUntried(w1, w2, 11, Row(RefinedA(), 2), w2.store.events[1]);
    moves, w := IntakeAfter(m2, w2, 12, "b", AbortKey());
    AddsKeepsUntried(w2, w, 12, Row(IntakeMission("b", "r", None, 0), 1), w.store.events[2]);
  }

  function Trial(w: World): Saga { Saga(w, "a", "agent", 0, 1, false, false, Reading) }

  const TrialRead := Read(false, true, 0, "s", "k")
  const TrialServe := Elsewhere(Resume(0, Served))

  /** The activation is made, and the run fails before a provider started. */
  lemma TrialFailsEarly(w: World)
    requires 0 !in w.processes && 1 !in w.processes
    requires "a" in w.store.rows && w.store.rows["a"] == Row(RefinedA(), 2)
    requires !Recorded(w.store.events, "r", "k" + ":activate")
    ensures var s := Advance(Advance(Advance(Advance(Advance(Trial(w), TrialRead), TrialServe), TrialServe), Return), Fails);
      && s.pc.RereadingForUndo? && s.pc.activation.version == 2
      && s.pc.activation.before == RefinedA()
      && "a" in s.world.store.rows && s.world.store.rows["a"].version == 3 && s.world.store.rows["a"].mission.status.Active?
      && |s.world.store.events| == |w.store.events| + 1 && s.world.store.events[..|w.store.events|] == w.store.events
      && s.world.store.events[|w.store.events|].key == "k" + ":activate"
      && s.mission == "a" && s.second == 1
  {
    var m := w.store.rows["a"].mission;
    var c := Activate("agent", true);
    var s1 := Advance(Trial(w), TrialRead);
    assert s1.world.processes[0] == Loading(Decision("a", c, "s", Some("k" + ":activate"), Some(2)));
    var s2 := Advance(s1, TrialServe);
    var active := m.(status := Active, assignee := Some("agent"));
    var e := EventFor(active, Some(Refined), Transition(c), "k" + ":activate");
    assert s2.world.processes[0] == Saving(Plan(Transition(c), Some(m), Some(2), active, Some(e)));
    assert s2.world.store == w.store;
    var s3 := Advance(s2, TrialServe);
    assert s3.world.processes[0].Ended? && s3.world.processes[0].outcome.Completed?;
  }

  /** No answer of the undo threw among these actions. */
  lemma {:induction false} NothingThrew(s: Saga, actions: seq<Action>)
    requires forall i :: 0 <= i < |actions| ==> actions[i] != Elsewhere(Resume(s.second, Throws))
    ensures !FateOf(s, actions).threw
  {
    if actions != [] { NothingThrew(s, actions[..|actions| - 1]); }
  }

  lemma Advances(s: Saga, actions: seq<Action>, a: Action)
    ensures AdvanceAll(s, actions + [a]) == Advance(AdvanceAll(s, actions), a)
  {
    assert (actions + [a])[..|actions|] == actions;
  }

  const TrialUndo := Read(false, true, 0, "t", "")
  const TrialServeUndo := Elsewhere(Resume(1, Served))

  lemma TrialActions(s0: Saga) returns (actions: seq<Action>)
    ensures AdvanceAll(s0, actions) == Advance(Advance(Advance(Advance(Advance(s0, TrialRead), TrialServe), TrialServe), Return), Fails)
    ensures forall i :: 0 <= i < |actions| ==> actions[i] != Elsewhere(Resume(1, Throws))
  {
    actions := [];
    Advances(s0, actions, TrialRead); actions := actions + [TrialRead];
    Advances(s0, actions, TrialServe); actions := actions + [TrialServe];
    Advances(s0, actions, TrialServe); actions := actions + [TrialServe];
    Advances(s0, actions, Return); actions := actions + [Return];
    Advances(s0, actions, Fails); actions := actions + [Fails];
  }

  lemma UndoActions(s0: Saga, past: seq<Action>) returns (actions: seq<Action>)
    requires AdvanceAll(s0, past).second == 1
    requires forall i :: 0 <= i < |past| ==> past[i] != Elsewhere(Resume(1, Throws))
    ensures AdvanceAll(s0, actions) == Advance(Elsewheres(Advance(AdvanceAll(s0, past), TrialUndo), 4), Return)
    ensures forall i :: 0 <= i < |actions| ==> actions[i] != Elsewhere(Resume(1, Throws))
  {
    Advances(s0, past, TrialUndo);
    actions := past + [TrialUndo];
    var s := AdvanceAll(s0, actions);
    assert s.second == 1;
    for n := 0 to 4
      invariant AdvanceAll(s0, actions) == Elsewheres(s, n)
      invariant forall i :: 0 <= i < |actions| ==> actions[i] != Elsewhere(Resume(1, Throws))
    {
      Advances(s0, actions, TrialServeUndo);
      actions := actions + [TrialServeUndo];
    }
    Advances(s0, actions, Return);
    actions := actions + [Return];
  }

  /**
   * Somebody created another mission under the key of the abort: the rollback is refused although nobody
   * wrote the mission and nothing threw, and the mission stays active.
   */
  lemma TakenKeyStopsRollback() returns (s0: Saga, actions: seq<Action>)
    ensures Fresh(s0) && EventsPlaced(s0.world.store)
    ensures var s := AdvanceAll(s0, actions);
      && s.pc.Over? && s.pc.undone.Some?
      && FateOf(s0, actions) == Fate(false, false, true)
      && !RolledBack(s, s.pc.undone.value)
      && "a" in s.world.store.rows && s.world.store.rows["a"].mission.status.Active?
  {
    var early;
    s0, early := TrialReachesRollback();
    UndisturbedRollback(s0, early, TrialUndo);
    actions := UndoActions(s0, early);
    RunKeepsIdentity(s0, early);
    RunKeepsIdentity(s0, actions);
    StoppedByKey(s0, actions);
  }

  /** The execution of "a" is about to roll back, and the key of its abort is taken. */
  lemma TrialReachesRollback() returns (s0: Saga, early: seq<Action>)
    ensures Fresh(s0) && EventsPlaced(s0.world.store) && s0.second == 1
    ensures forall i :: 0 <= i < |early| ==> early[i] != Elsewhere(Resume(1, Throws))
    ensures var s := AdvanceAll(s0, early);
      && s.pc.RereadingForUndo? && s.pc.activation.before == RefinedA() && s.mission == "a" && s.second == 1
      && "a" in s.world.store.rows && s.world.store.rows["a"].version == s.pc.activation.version + 1
      && s.world.store.rows["a"].mission.status.Active?
      && !UndoAccepted(s.world.store.events, RefinedA(), "t")
  {
    AbortKeyIsLong();
    var moves, w := TakenKeyWorld();
    RunKeepsInv(moves);
    RunKeepsPlaced(moves);
    s0 := Trial(w);
    TrialFailsEarly(w);
    early := TrialActions(s0);
    var events := AdvanceAll(s0, early).world.store.events;
    assert forall i :: 0 <= i < 3 ==> events[i] == w.store.events[i];
    NotAccepted(AdvanceAll(s0, early));
  }

  /** The abort's key is recorded for mission "b", so it is neither new nor this rollback's. */
  lemma NotAccepted(s: Saga)
    requires |s.world.store.events| == 4 && s.world.store.events[0].key == "1" && s.world.store.events[1].key == "2"
    requires s.world.store.events[2].key == AbortKey() && s.world.store.events[2].mission == "b"
    requires s.world.store.events[2].repository == "r" && s.world.store.events[3].key == "k" + ":activate"
    ensures !UndoAccepted(s.world.store.events, RefinedA(), "t")
  {
    AbortKeyIsLong();
    var e := UndoEvent(RefinedA(), "t");
    assert e.key == AbortKey() && e.mission == "a";
    assert Recorded(s.world.store.events, "r", e.key);
  }

  lemma StoppedByKey(s0: Saga, actions: seq<Action>)
    requires Fresh(s0) && EventsPlaced(s0.world.store) && s0.second == 1
    requires forall i :: 0 <= i < |actions| ==> actions[i] != Elsewhere(Resume(1, Throws))
    requires var s := AdvanceAll(s0, actions);
      && s.pc.Over? && s.pc.undone.Some?
      && s.mission in s.world.store.rows && s.world.store.rows[s.mission].version == s.pc.undone.value.version + 1
    ensures FateOf(s0, actions) == Fate(false, false, true) && !RolledBack(AdvanceAll(s0, actions), AdvanceAll(s0, actions).pc.undone.value)
  {
    var s := AdvanceAll(s0, actions);
    RunKeepsSagaInv(s0, actions);
    RunKeepsIdentity(s0, actions);
    RunKeepsFate(s0, actions);
    NothingThrew(s0, actions);
    RollbackGoesThroughExactly(s0, actions);
    if EndedWell(s.world, s.second) { CompletedVersion(s); }
  }

  /** A completed undo has moved the mission on. */
  lemma CompletedVersion(s: Saga)
    requires SagaInv(s) && s.pc.Over? && s.pc.undone.Some? && EndedWell(s.world, s.second)
    ensures VersionOf(s.world.store.rows, s.mission) >= s.pc.undone.value.version + 2
  {
    var a := s.pc.undone.value;
    UndoCommandIsDecided(s, a);
    assert Serves(s.world, s.second, AbortActivation(a.before.assignee), a.version + 1, Activated(a));
  }
}
