/**
 * Starting an execution: activate the mission, run the agent, and undo the activation when the run
 * failed before any provider started. The two writes are commands like everybody else's.
 */
module ActivationSaga {
  import opened Prelude
  import opened MissionWorkflow
  import opened MissionWriters

  // ---------------------------------------------------------------- one command's own write

  ghost predicate NoCommit(w: World, p: Process) {
    forall i :: 0 <= i < |w.commits| ==> w.commits[i].author != p
  }

  /** The one write of `p`: command `c` applied to `m`, which was current at version `v`. */
  ghost predicate WroteOnce(w: World, p: Process, c: Command, v: Version, m: Mission, i: nat) {
    && i < |w.commits| && w.commits[i].author == p
    && w.commits[i].version == v + 1 && Decide(m, c) == Some(w.commits[i].mission)
    && m.id in RowsAfter(w.commits[..i]) && RowsAfter(w.commits[..i])[m.id] == Row(m, v)
    && forall j :: 0 <= j < |w.commits| && w.commits[j].author == p ==> j == i
  }

  ghost predicate Wrote(w: World, p: Process, c: Command, v: Version, m: Mission) {
    exists i :: 0 <= i < |w.commits| && WroteOnce(w, p, c, v, m, i)
  }

  predicate Serving(plan: Plan, c: Command, v: Version, m: Mission) {
    plan.cause == Transition(c) && plan.read == Some(m) && plan.expected == Some(v) && Decide(m, c) == Some(plan.mission)
  }

  /** Process `p` runs command `c`, expecting version `v`, at which the mission is `m`. */
  ghost predicate Serves(w: World, p: Process, c: Command, v: Version, m: Mission) {
    && p in w.processes && ReadOk(w.store.rows, m, v)
    && match w.processes[p]
       case Loading(r) => r.Decision? && r.id == m.id && r.command == c && r.expected == Some(v) && NoCommit(w, p)
       case Saving(plan) => Serving(plan, c, v, m) && NoCommit(w, p)
       case CheckingReplay(plan) => Serving(plan, c, v, m) && NoCommit(w, p)
       case Resaving(plan) => Serving(plan, c, v, m) && NoCommit(w, p)
       case Ended(outcome) =>
         if outcome.Completed? then
           && Serving(outcome.plan, c, v, m) && outcome.version == v + 1 && Wrote(w, p, c, v, m)
           && ReadOk(w.store.rows, outcome.plan.mission, v + 1)
         else NoCommit(w, p)
       case _ => false
  }

  lemma ReadStaysOk(s: Store, t: Store, m: Mission, v: Version)
    requires Grows(s, t) && ReadOk(s.rows, m, v)
    ensures ReadOk(t.rows, m, v)
  {
  }

  lemma ForeignKeepsServed(w: World, p: Process, c: Command, v: Version, m: Mission, move: Move)
    requires Inv(w) && Serves(w, p, c, v, m) && w.processes[p].Ended? && move.process != p
    ensures Serves(Step(w, move), p, c, v, m)
  {
    var u := Step(w, move);
    StepGrows(w, move);
    ReadStaysOk(w.store, u.store, m, v);
    ForeignKeepsPc(w, p, move);
    if w.processes[p].outcome.Completed? {
      ForeignCommits(w, p, move);
      ReadStaysOk(w.store, u.store, w.processes[p].outcome.plan.mission, v + 1);
      WroteLater(w, u, p, c, v, m);
    } else {
      NoCommitStays(w, p, move);
    }
  }

  lemma NoCommitStays(w: World, p: Process, move: Move)
    requires NoCommit(w, p) && move.process != p
    ensures NoCommit(Step(w, move), p)
  {
    ForeignCommits(w, p, move);
    forall i | 0 <= i < |Step(w, move).commits| ensures Step(w, move).commits[i].author != p {
      if i < |w.commits| { assert Step(w, move).commits[i] == w.commits[i]; }
    }
  }

  /** Everybody else's step leaves a command where it was. */
  lemma ForeignKeepsServing(w: World, p: Process, c: Command, v: Version, m: Mission, move: Move)
    requires Inv(w) && Serves(w, p, c, v, m) && move.process != p
    ensures Serves(Step(w, move), p, c, v, m)
  {
    if w.processes[p].Ended? { ForeignKeepsServed(w, p, c, v, m, move); }
    else {
      StepGrows(w, move);
      ReadStaysOk(w.store, Step(w, move).store, m, v);
      ForeignKeepsPc(w, p, move);
      NoCommitStays(w, p, move);
    }
  }

  lemma ForeignCommits(w: World, p: Process, move: Move)
    requires move.process != p
    ensures var u := Step(w, move);
      && |w.commits| <= |u.commits| && u.commits[..|w.commits|] == w.commits
      && forall i :: |w.commits| <= i < |u.commits| ==> u.commits[i].author != p
  {
  }

  lemma WroteLater(w: World, u: World, p: Process, c: Command, v: Version, m: Mission)
    requires Wrote(w, p, c, v, m) && |w.commits| <= |u.commits| && u.commits[..|w.commits|] == w.commits
    requires forall i :: |w.commits| <= i < |u.commits| ==> u.commits[i].author != p
    ensures Wrote(u, p, c, v, m)
  {
    var i :| 0 <= i < |w.commits| && WroteOnce(w, p, c, v, m, i);
    assert u.commits[..i] == w.commits[..i];
    forall j | 0 <= j < |u.commits| && u.commits[j].author == p ensures j == i {
      assert j < |w.commits| && u.commits[j] == w.commits[j];
    }
    assert WroteOnce(u, p, c, v, m, i);
  }

  lemma ServedWrite(w: World, p: Process, c: Command, v: Version, m: Mission, plan: Plan, event: Option<LaneEvent>)
    requires Inv(w) && p in w.processes && Serving(plan, c, v, m) && NoCommit(w, p)
    requires PlanOk(w.store, plan) && MayWrite(w.store, plan, event)
    ensures Serves(Write(w, p, plan, event), p, c, v, m)
  {
    if WriteTo(w.store, plan, event).Saved? {
      var u := Write(w, p, plan, event);
      SaveGrows(w.store, plan.mission, plan.expected, event);
      ReadStaysOk(w.store, u.store, m, v);
      assert u.commits[..|w.commits|] == w.commits;
      assert WroteOnce(u, p, c, v, m, |w.commits|);
    }
  }

  lemma OwnStepKeepsServing(w: World, p: Process, c: Command, v: Version, m: Mission, reply: Reply)
    requires Inv(w) && Serves(w, p, c, v, m)
    ensures Serves(Step(w, Resume(p, reply)), p, c, v, m)
  {
    assert PcOk(w.store, w.processes[p]);
    match w.processes[p]
    case Saving(plan) => if reply.Served? { ServedWrite(w, p, c, v, m, plan, plan.event); }
    case Resaving(plan) => if reply.Served? { ServedWrite(w, p, c, v, m, plan, None); }
    case _ =>
  }

  lemma StepKeepsServing(w: World, p: Process, c: Command, v: Version, m: Mission, move: Move)
    requires Inv(w) && Serves(w, p, c, v, m)
    ensures Serves(Step(w, move), p, c, v, m)
  {
    if move.process != p { ForeignKeepsServing(w, p, c, v, m, move); }
    else if move.Resume? { OwnStepKeepsServing(w, p, c, v, m, move.reply); }
  }

  // ---------------------------------------------------------------- the saga

  /** `before` was current at `version`; the activation that replaced it is `command`. */
  datatype Activation = Activation(command: Command, before: Mission, version: Version)

  datatype Pc =
    | Reading
    | Activating(activation: Activation)
    | Running(activation: Activation)
    | RereadingForUndo(activation: Activation)
    | Undoing(activation: Activation)
    | Over(ok: bool, undone: Option<Activation>)

  /**
   * One execution of `mission` by `agent`; it activates as process `first` and compensates as process
   * `second`. An authorized execution continues a start that somebody else owns.
   */
  datatype Saga = Saga(
    world: World, mission: Id, agent: Agent, first: Process, second: Process, authorized: bool,
    started: bool, pc: Pc)

  datatype Action =
    | Elsewhere(move: MissionWriters.Move)
    | Read(fixing: bool, admitted: bool, evidence: Evidence, at: string, key: string)
    | Return
    | ProviderStarts
    | Fails
    | Succeeds

  /** An execution of a review that is being fixed returns it to implementation instead. */
  function StartCommand(m: Mission, agent: Agent, fixing: bool, admitted: bool, evidence: Evidence): Command {
    if m.status.Review? && fixing then ReboundToActive(agent, admitted, evidence) else Activate(agent, admitted)
  }

  function Begin(s: Saga, p: Process, c: Command, v: Version, at: string, key: Option<string>): World {
    Step(s.world, Start(p, Decision(s.mission, c, at, key, Some(v))))
  }

  function ReadForStart(s: Saga, a: Action): Saga
    requires a.Read?
  {
    if s.mission !in s.world.store.rows then s.(pc := Over(false, None))
    else
      var row := s.world.store.rows[s.mission];
      if s.authorized then s.(pc := Running(Activation(Activate(s.agent, true), row.mission, row.version)))
      else
        var c := StartCommand(row.mission, s.agent, a.fixing, a.admitted, a.evidence);
        s.(world := Begin(s, s.first, c, row.version, a.at, Some(a.key + ":activate")),
           pc := Activating(Activation(c, row.mission, row.version)))
  }

  /** Only a mission that is still exactly as the activation left it is rolled back. */
  function ReadForUndo(s: Saga, a: Action): Saga
    requires a.Read? && s.pc.RereadingForUndo?
  {
    var activation := s.pc.activation;
    var rows := s.world.store.rows;
    if s.mission !in rows || !rows[s.mission].mission.status.Active? || rows[s.mission].version != activation.version + 1
    then s.(pc := Over(false, None))
    else
      s.(world := Begin(s, s.second, AbortActivation(activation.before.assignee), rows[s.mission].version, a.at, None),
         pc := Undoing(activation))
  }

  function Undo(s: Saga): Saga
    requires s.pc.Running?
  {
    if !s.authorized && s.pc.activation.before.status.Refined? && !s.started
    then s.(pc := RereadingForUndo(s.pc.activation))
    else s.(pc := Over(false, None))
  }

  function EndedWell(w: World, p: Process): bool {
    p in w.processes && w.processes[p].Ended? && w.processes[p].outcome.Completed?
  }

  function Advance(s: Saga, a: Action): Saga {
    match a
    case Elsewhere(move) =>
      if move.Start? && (move.process == s.first || move.process == s.second) then s
      else s.(world := Step(s.world, move))
    case Read(_, _, _, _, _) =>
      if s.pc.Reading? then ReadForStart(s, a) else if s.pc.RereadingForUndo? then ReadForUndo(s, a) else s
    case Return =>
      if s.pc.Activating? && s.first in s.world.processes && s.world.processes[s.first].Ended? then
        s.(pc := if EndedWell(s.world, s.first) then Running(s.pc.activation) else Over(false, None))
      else if s.pc.Undoing? && s.second in s.world.processes && s.world.processes[s.second].Ended? then
        s.(pc := Over(false, Some(s.pc.activation)))
      else s
    case ProviderStarts => if s.pc.Running? then s.(started := true) else s
    case Fails =>
      if s.pc.Running? then Undo(s)
      else if s.pc.Reading? || s.pc.RereadingForUndo? then s.(pc := Over(false, None))
      else s
    case Succeeds => if s.pc.Running? && s.started then s.(pc := Over(true, None)) else s
  }

  function AdvanceAll(s: Saga, actions: seq<Action>): Saga {
    if actions == [] then s else Advance(AdvanceAll(s, actions[..|actions| - 1]), actions[|actions| - 1])
  }

  ghost predicate Fresh(s: Saga) {
    && Inv(s.world) && s.pc.Reading? && !s.started && s.first != s.second
    && s.first !in s.world.processes && s.second !in s.world.processes
    && NoCommit(s.world, s.first) && NoCommit(s.world, s.second)
  }

  // ---------------------------------------------------------------- invariant

  /** What the activation left. */
  function Activated(a: Activation): Mission { Decided(a.before, a.command) }

  ghost predicate Unused(w: World, p: Process) { p !in w.processes && NoCommit(w, p) }

  /** Its own activation is committed. */
  ghost predicate OwnActivation(s: Saga, a: Activation) {
    && !s.authorized && a.before.id == s.mission && EndedWell(s.world, s.first)
    && Serves(s.world, s.first, a.command, a.version, a.before)
    && (a.before.status.Refined? ==> a.command.Activate?)
  }

  ghost predicate Undoes(s: Saga, a: Activation) {
    && OwnActivation(s, a) && a.before.status.Refined? && !s.started
    && Serves(s.world, s.second, AbortActivation(a.before.assignee), a.version + 1, Activated(a))
  }

  ghost predicate PhaseOk(s: Saga) {
    match s.pc
    case Reading => Unused(s.world, s.first) && Unused(s.world, s.second) && !s.started
    case Activating(a) =>
      && !s.authorized && a.before.id == s.mission && (a.before.status.Refined? ==> a.command.Activate?)
      && Serves(s.world, s.first, a.command, a.version, a.before)
      && Unused(s.world, s.second) && !s.started
    case Running(a) => Unused(s.world, s.second) && (s.authorized || OwnActivation(s, a))
    case RereadingForUndo(a) => Unused(s.world, s.second) && OwnActivation(s, a) && a.before.status.Refined? && !s.started
    case Undoing(a) => Undoes(s, a)
    case Over(_, Some(a)) => Undoes(s, a)
    case Over(_, None) => NoCommit(s.world, s.second) && s.second !in s.world.processes
  }

  ghost predicate SagaInv(s: Saga) {
    s.first != s.second && MissionWriters.Inv(s.world) && PhaseOk(s)
  }

  lemma UnusedStays(w: World, p: Process, move: MissionWriters.Move)
    requires Unused(w, p) && !(move.Start? && move.process == p)
    ensures Unused(Step(w, move), p)
  {
    if move.process != p { NoCommitStays(w, p, move); }
  }

  lemma EndedStays(w: World, p: Process, move: MissionWriters.Move)
    requires EndedWell(w, p)
    ensures EndedWell(Step(w, move), p)
  {
    if move.process != p { ForeignKeepsPc(w, p, move); }
  }

  lemma OwnActivationStays(s: Saga, a: Activation, move: MissionWriters.Move)
    requires MissionWriters.Inv(s.world) && OwnActivation(s, a)
    ensures OwnActivation(s.(world := Step(s.world, move)), a)
  {
    EndedStays(s.world, s.first, move);
    StepKeepsServing(s.world, s.first, a.command, a.version, a.before, move);
  }

  lemma UndoesStays(s: Saga, a: Activation, move: MissionWriters.Move)
    requires MissionWriters.Inv(s.world) && Undoes(s, a)
    ensures Undoes(s.(world := Step(s.world, move)), a)
  {
    OwnActivationStays(s, a, move);
    StepKeepsServing(s.world, s.second, AbortActivation(a.before.assignee), a.version + 1, Activated(a), move);
  }

  lemma ElsewhereKeepsInv(s: Saga, move: MissionWriters.Move)
    requires SagaInv(s) && !(move.Start? && (move.process == s.first || move.process == s.second))
    ensures SagaInv(s.(world := Step(s.world, move)))
  {
    StepKeepsInv(s.world, move);
    match s.pc
    case Reading => UnusedStays(s.world, s.first, move); UnusedStays(s.world, s.second, move);
    case Activating(a) =>
      StepKeepsServing(s.world, s.first, a.command, a.version, a.before, move);
      UnusedStays(s.world, s.second, move);
    case Running(a) =>
      UnusedStays(s.world, s.second, move);
      if !s.authorized { OwnActivationStays(s, a, move); }
    case RereadingForUndo(a) => UnusedStays(s.world, s.second, move); OwnActivationStays(s, a, move);
    case Undoing(a) => UndoesStays(s, a, move);
    case Over(_, Some(a)) => UndoesStays(s, a, move);
    case Over(_, None) => UnusedStays(s.world, s.second, move);
  }

  /** Issuing a command on a row that was just read. */
  lemma BeginServes(s: Saga, p: Process, c: Command, at: string, key: Option<string>)
    requires MissionWriters.Inv(s.world) && Unused(s.world, p) && s.mission in s.world.store.rows
    ensures var row := s.world.store.rows[s.mission];
      Serves(Begin(s, p, c, row.version, at, key), p, c, row.version, row.mission)
  {
    assert s.world.store.rows[s.mission].mission.id == s.mission;
  }

  lemma ReadForStartKeepsInv(s: Saga, a: Action)
    requires SagaInv(s) && s.pc.Reading? && a.Read?
    ensures SagaInv(ReadForStart(s, a))
  {
    if s.mission in s.world.store.rows && !s.authorized {
      var row := s.world.store.rows[s.mission];
      assert row.mission.id == s.mission;
      var c := StartCommand(row.mission, s.agent, a.fixing, a.admitted, a.evidence);
      var move := Start(s.first, Decision(s.mission, c, a.at, Some(a.key + ":activate"), Some(row.version)));
      StepKeepsInv(s.world, move);
      BeginServes(s, s.first, c, a.at, Some(a.key + ":activate"));
      UnusedStays(s.world, s.second, move);
    }
  }

  lemma UndoBegins(s: Saga, activation: Activation, at: string)
    requires MissionWriters.Inv(s.world) && Unused(s.world, s.second) && s.first != s.second
    requires OwnActivation(s, activation) && activation.before.status.Refined? && !s.started
    requires s.mission in s.world.store.rows && s.world.store.rows[s.mission].version == activation.version + 1
    ensures Undoes(s.(world := Begin(s, s.second, AbortActivation(activation.before.assignee), activation.version + 1, at, None)), activation)
  {
    var undo := AbortActivation(activation.before.assignee);
    assert s.world.store.rows[s.mission].mission == Activated(activation);
    OwnActivationStays(s, activation, Start(s.second, Decision(s.mission, undo, at, None, Some(activation.version + 1))));
    BeginServes(s, s.second, undo, at, None);
  }

  lemma ReadForUndoKeepsInv(s: Saga, a: Action)
    requires SagaInv(s) && s.pc.RereadingForUndo? && a.Read?
    ensures SagaInv(ReadForUndo(s, a))
  {
    var activation := s.pc.activation;
    var rows := s.world.store.rows;
    if s.mission in rows && rows[s.mission].mission.status.Active? && rows[s.mission].version == activation.version + 1 {
      UndoBegins(s, activation, a.at);
      var undo := AbortActivation(activation.before.assignee);
      StepKeepsInv(s.world, Start(s.second, Decision(s.mission, undo, a.at, None, Some(activation.version + 1))));
    }
  }

  lemma AdvanceKeepsInv(s: Saga, a: Action)
    requires SagaInv(s)
    ensures SagaInv(Advance(s, a))
  {
    match a
    case Elsewhere(move) =>
      if !(move.Start? && (move.process == s.first || move.process == s.second)) { ElsewhereKeepsInv(s, move); }
    case Read(_, _, _, _, _) =>
      if s.pc.Reading? { ReadForStartKeepsInv(s, a); } else if s.pc.RereadingForUndo? { ReadForUndoKeepsInv(s, a); }
    case _ =>
  }

  lemma {:induction false} RunKeepsSagaInv(s: Saga, actions: seq<Action>)
    requires Fresh(s)
    ensures SagaInv(AdvanceAll(s, actions))
  {
    if actions != [] {
      RunKeepsSagaInv(s, actions[..|actions| - 1]);
      AdvanceKeepsInv(AdvanceAll(s, actions[..|actions| - 1]), actions[|actions| - 1]);
    }
  }

  // ---------------------------------------------------------------- main results

  /** `i` undoes `j`: it directly follows it in the mission's history and brings back what `j` replaced. */
  ghost predicate Restores(w: World, id: Id, j: nat, i: nat)
    requires j < |w.commits| && i < |w.commits|
  {
    && w.commits[i].version == w.commits[j].version + 1
    && id in RowsAfter(w.commits[..j]) && RowsAfter(w.commits[..j])[id].mission == w.commits[i].mission
    && id in RowsAfter(w.commits[..i]) && RowsAfter(w.commits[..i])[id] == Row(w.commits[j].mission, w.commits[j].version)
    && w.commits[i].mission.status.Refined?
  }

  lemma EndIsFinal(s: Saga, a: Action)
    requires s.pc.Over?
    ensures Advance(s, a).pc == s.pc
  {
  }

  lemma OnlySuccessSucceeds(s: Saga, a: Action)
    requires Advance(s, a).pc.Over? && Advance(s, a).pc.ok
    ensures s.pc == Advance(s, a).pc || (a.Succeeds? && s.pc.Running? && s.started)
    ensures s.started ==> Advance(s, a).started
  {
  }

  /** An execution succeeds only when its provider had started and then ended well, and what it reports is final. */
  lemma {:induction false} SuccessMeansProviderEndedWell(s0: Saga, actions: seq<Action>)
    requires Fresh(s0) && AdvanceAll(s0, actions).pc.Over? && AdvanceAll(s0, actions).pc.ok
    ensures AdvanceAll(s0, actions).started
    ensures exists i :: 0 <= i < |actions| && actions[i].Succeeds? && AdvanceAll(s0, actions[..i]).pc.Running? && AdvanceAll(s0, actions[..i]).started
  {
    var n := |actions| - 1;
    var s := AdvanceAll(s0, actions[..n]);
    OnlySuccessSucceeds(s, actions[n]);
    if s.pc == AdvanceAll(s0, actions).pc {
      SuccessMeansProviderEndedWell(s0, actions[..n]);
      var i :| 0 <= i < n && actions[..n][i].Succeeds? && AdvanceAll(s0, actions[..n][..i]).pc.Running? && AdvanceAll(s0, actions[..n][..i]).started;
      assert actions[..n][..i] == actions[..i] && actions[i].Succeeds?;
    }
  }

  /**
   * In every interleaving with any other writers: a rollback is written at most once, only when no
   * provider had started, only directly on top of the activation it undoes, and it restores the
   * mission exactly as it was. If anybody wrote after the activation, there is no rollback.
   */
  lemma RollbackIsExact(s0: Saga, actions: seq<Action>, i: nat)
    requires Fresh(s0)
    requires i < |AdvanceAll(s0, actions).world.commits| && AdvanceAll(s0, actions).world.commits[i].author == s0.second
    ensures var s := AdvanceAll(s0, actions);
      && !s.started && !s.authorized
      && exists j :: 0 <= j < |s.world.commits| && s.world.commits[j].author == s0.first && Restores(s.world, s0.mission, j, i)
  {
    RunKeepsSagaInv(s0, actions);
    RunKeepsIdentity(s0, actions);
    var s := AdvanceAll(s0, actions);
    assert !NoCommit(s.world, s.second);
    var a := if s.pc.Undoing? then s.pc.activation else s.pc.undone.value;
    assert Undoes(s, a);
    UndoRestores(s, a, i);
  }

  lemma UndoRestores(s: Saga, a: Activation, i: nat)
    requires MissionWriters.Inv(s.world) && Undoes(s, a) && i < |s.world.commits| && s.world.commits[i].author == s.second
    ensures exists j :: 0 <= j < |s.world.commits| && s.world.commits[j].author == s.first && Restores(s.world, s.mission, j, i)
  {
    var w := s.world;
    assert !NoCommit(w, s.second);
    assert Wrote(w, s.second, AbortActivation(a.before.assignee), a.version + 1, Activated(a));
    assert WroteOnce(w, s.second, AbortActivation(a.before.assignee), a.version + 1, Activated(a), i);
    var j :| 0 <= j < |w.commits| && WroteOnce(w, s.first, a.command, a.version, a.before, j);
    AbortUndoesActivation(a.before, a.command.agent, a.command.admitted);
    assert Restores(w, s.mission, j, i);
  }

  lemma {:induction false} RunKeepsIdentity(s: Saga, actions: seq<Action>)
    ensures var t := AdvanceAll(s, actions);
      t.mission == s.mission && t.first == s.first && t.second == s.second && t.authorized == s.authorized
  {
    if actions != [] { RunKeepsIdentity(s, actions[..|actions| - 1]); }
  }

  /** The lane event of a rollback. */
  function UndoEvent(before: Mission, at: string): LaneEvent {
    EventFor(before, Some(Active), Transition(AbortActivation(before.assignee)), Joined(before.id, TriggerName(ByAbortActivation), at))
  }

  /** The rollback's event is new, or the history already records exactly this rollback. */
  predicate UndoAccepted(events: seq<LaneEvent>, before: Mission, at: string) {
    !Recorded(events, before.repository, UndoEvent(before, at).key) || Replayed(events, UndoEvent(before, at))
  }

  function UndoPlan(before: Mission, activated: Mission, version: Version, at: string): Plan {
    Plan(Transition(AbortActivation(before.assignee)), Some(activated), Some(version), before, Some(UndoEvent(before, at)))
  }

  /** Three more answers after the load: write, and where the key is taken look it up and write again. */
  function ServeThrice(w: World, p: Process): World {
    Step(Step(Step(w, Resume(p, Served)), Resume(p, Served)), Resume(p, Served))
  }

  lemma UndoSaves(w: World, p: Process, before: Mission, activated: Mission, version: Version, at: string)
    requires p in w.processes && w.processes[p] == Saving(UndoPlan(before, activated, version, at))
    requires before.id in w.store.rows && w.store.rows[before.id].version == version
    ensures var t := ServeThrice(w, p);
      && p in t.processes && t.processes[p].Ended?
      && before.id in t.store.rows
      && t.store.rows[before.id] == (if UndoAccepted(w.store.events, before, at) then Row(before, version + 1) else w.store.rows[before.id])
  {
    var plan := UndoPlan(before, activated, version, at);
    var e := UndoEvent(before, at);
    var w1 := Step(w, Resume(p, Served));
    if Recorded(w.store.events, e.repository, e.key) {
      assert w1 == To(w, p, CheckingReplay(plan));
      var w2 := Step(w1, Resume(p, Served));
      if Replayed(w.store.events, e) { assert w2.processes[p] == Resaving(plan) && w2.store == w.store; }
      else { assert w2.processes[p] == Ended(Conflict); }
    } else {
      assert w1.processes[p].Ended?;
    }
  }

  lemma UndoLoads(w: World, p: Process, before: Mission, agent: Agent, admitted: bool, version: Version, at: string)
    requires before.status.Refined? && Decide(before, Activate(agent, admitted)).Some?
    requires var m := Decide(before, Activate(agent, admitted)).value;
      before.id in w.store.rows && w.store.rows[before.id] == Row(m, version)
      && p in w.processes && w.processes[p] == Loading(Decision(before.id, AbortActivation(before.assignee), at, None, Some(version)))
    ensures var m := Decide(before, Activate(agent, admitted)).value;
      Step(w, Resume(p, Served)) == To(w, p, Saving(UndoPlan(before, m, version, at)))
  {
    AbortUndoesActivation(before, agent, admitted);
  }

  function Elsewheres(s: Saga, n: nat): Saga {
    if n == 0 then s else Advance(Elsewheres(s, n - 1), Elsewhere(Resume(s.second, Served)))
  }

  lemma ElsewheresServe(s: Saga)
    ensures Elsewheres(s, 4) == s.(world := ServeThrice(Step(s.world, Resume(s.second, Served)), s.second))
  {
    var move := Elsewhere(Resume(s.second, Served));
    var s1 := Advance(s, move);
    var s2 := Advance(s1, move);
    var s3 := Advance(s2, move);
    assert Elsewheres(s, 1) == s1 by { assert Elsewheres(s, 0) == s; }
    assert Elsewheres(s, 2) == s2;
    assert Elsewheres(s, 3) == s3;
  }

  /**
   * In every reachable saga whose run failed before any provider started: when nobody wrote since the
   * activation, nobody interferes and every call is served, the mission is again exactly what it was
   * before the activation if and only if the abort's event is new or already records this very rollback;
   * otherwise the mission stays as it is.
   */
  lemma UndisturbedRollback(s0: Saga, actions: seq<Action>, a: Action)
    requires Fresh(s0) && a.Read?
    requires var s := AdvanceAll(s0, actions);
      s.pc.RereadingForUndo? && s.mission in s.world.store.rows
      && s.world.store.rows[s.mission].version == s.pc.activation.version + 1
    ensures var s := AdvanceAll(s0, actions);
      var t := Advance(Elsewheres(Advance(s, a), 4), Return);
      var before := s.pc.activation.before;
      && t.pc == Over(false, Some(s.pc.activation)) && s.mission in t.world.store.rows
      && (t.world.store.rows[s.mission].mission == before <==> UndoAccepted(s.world.store.events, before, a.at))
      && (!UndoAccepted(s.world.store.events, before, a.at) ==> t.world.store.rows == s.world.store.rows)
  {
    RunKeepsSagaInv(s0, actions);
    ServedRollback(AdvanceAll(s0, actions), a);
  }

  lemma UndoIsIssued(s: Saga, a: Action)
    requires SagaInv(s) && s.pc.RereadingForUndo? && a.Read?
    requires s.mission in s.world.store.rows && s.world.store.rows[s.mission].version == s.pc.activation.version + 1
    ensures var activation := s.pc.activation;
      var before := activation.before;
      var u := Advance(s, a);
      && s.world.store.rows[s.mission] == Row(Activated(activation), activation.version + 1)
      && before.id == s.mission && before.status.Refined? && activation.command.Activate?
      && Decide(before, activation.command) == Some(Activated(activation))
      && u.pc == Undoing(activation) && u.world.store == s.world.store && u.second == s.second && s.second in u.world.processes
      && u.world.processes[s.second]
         == Loading(Decision(s.mission, AbortActivation(before.assignee), a.at, None, Some(activation.version + 1)))
  {
    assert s.world.store.rows[s.mission].mission == Activated(s.pc.activation);
  }

  lemma ServedRollback(s: Saga, a: Action)
    requires SagaInv(s) && s.pc.RereadingForUndo? && a.Read?
    requires s.mission in s.world.store.rows && s.world.store.rows[s.mission].version == s.pc.activation.version + 1
    ensures var t := Advance(Elsewheres(Advance(s, a), 4), Return);
      var before := s.pc.activation.before;
      && t.pc == Over(false, Some(s.pc.activation)) && s.mission in t.world.store.rows
      && (t.world.store.rows[s.mission].mission == before <==> UndoAccepted(s.world.store.events, before, a.at))
      && (!UndoAccepted(s.world.store.events, before, a.at) ==> t.world.store.rows == s.world.store.rows)
  {
    var activation := s.pc.activation;
    var before, version := activation.before, activation.version + 1;
    UndoIsIssued(s, a);
    var u := Advance(s, a);
    UndoLoads(u.world, s.second, before, activation.command.agent, activation.command.admitted, version, a.at);
    var w := Step(u.world, Resume(s.second, Served));
    UndoSaves(w, s.second, before, Activated(activation), version, a.at);
    ElsewheresServe(u);
    RefusedUndoLeavesRows(w, s.second, before, Activated(activation), version, a.at);
  }

  lemma RefusedUndoLeavesRows(w: World, p: Process, before: Mission, activated: Mission, version: Version, at: string)
    requires p in w.processes && w.processes[p] == Saving(UndoPlan(before, activated, version, at))
    requires before.id in w.store.rows && w.store.rows[before.id].version == version
    ensures !UndoAccepted(w.store.events, before, at) ==> ServeThrice(w, p).store.rows == w.store.rows
  {
    var plan := UndoPlan(before, activated, version, at);
    if !UndoAccepted(w.store.events, before, at) {
      var w1 := Step(w, Resume(p, Served));
      assert w1 == To(w, p, CheckingReplay(plan));
      assert Step(w1, Resume(p, Served)) == To(w1, p, Ended(Conflict));
    }
  }
}
