/**
 * What the recorded history of a mission says about it: which command made each move from lane to lane,
 * on whose evidence, and what a command that is served does.
 */
module MissionHistory {
  import opened Prelude
  import opened MissionWorkflow
  import opened MissionWriters

  // ---------------------------------------------------------------- every move is earned

  /** What a write that takes a mission from one lane to another, or records it in its first, was decided by. */
  predicate Earns(cause: Cause, from: Option<Status>, m: Mission) {
    match (from, m.status)
    case (None, Backlog) => cause == Intake(m) && m.closedAt.None?
    case (None, Done) => cause == RecoverLanded(m) && m.closedAt.Some?
    case (Some(Backlog), Refined) => cause == Transition(Refine(true))
    case (Some(Refined), Active) =>
      cause.RecoverRefined?
      || (cause.Transition? && cause.command.Activate? && cause.command.admitted && m.assignee == Some(cause.command.agent))
    case (Some(Active), Refined) => cause == Transition(AbortActivation(m.assignee))
    case (Some(Active), Review) =>
      cause.Transition?
      && (cause.command.BeginReviewPreparation?
          || (cause.command.SubmitForReview? && cause.command.admitted && cause.command.evidence == m.evidence)
          || (cause.command.RevokeApproval? && cause.command.admitted && cause.command.evidence == m.evidence))
    case (Some(Review), Active) =>
      cause.Transition? && (cause.command.RequestChanges? || cause.command.ReboundToActive?)
      && cause.command.admitted && cause.command.evidence == m.evidence
    case (Some(Integration), Active) => cause.Transition? && cause.command.ReboundToActive? && cause.command.admitted
    case (Some(Integration), Review) =>
      cause.Transition?
      && (cause.command.BeginReviewPreparation? || (cause.command.RevokeApproval? && cause.command.admitted))
    case (Some(from), Integration) => (from.Review? || from.Active?) && cause == Transition(Approve(true, m.evidence))
    case (Some(Integration), Done) => cause == Transition(Integrate) && m.closedAt.None?
    case (Some(Done), Active) => cause.RecoverDone? && m.closedAt.None?
    case _ => false
  }

  lemma DecisionsEarn(read: Mission, c: Command)
    requires Decide(read, c).Some? && Decide(read, c).value.status != read.status
    ensures Earns(Transition(c), Some(read.status), Decide(read, c).value)
  {
  }

  lemma WritesEarn(cause: Cause, read: Option<Mission>)
    requires Apply(cause, read).Some?
    requires read.None? || read.value.status != Apply(cause, read).value.status
    ensures Earns(cause, if read.None? then None else Some(read.value.status), Apply(cause, read).value)
  {
    if read.Some? && cause.Transition? { DecisionsEarn(read.value, cause.command); }
  }

  /**
   * In every run, whatever interleaves: each commit that puts a mission into a lane it was not in was made
   * by the one kind of command that may, with its evidence accepted and recorded. In particular, nothing
   * reaches integration without an accepted approval, or done without an integration or a proven landing.
   */
  lemma LaneMovesAreEarned(moves: seq<Move>, i: nat)
    requires i < |Execute(Empty, moves).commits|
    ensures var commits := Execute(Empty, moves).commits;
      var m := commits[i].mission;
      var before := RowsAfter(commits[..i]);
      var from := if m.id in before then Some(before[m.id].mission.status) else None;
      from != Some(m.status) ==> Earns(commits[i].cause, from, m)
  {
    VersionedHistory(moves);
    var commits := Execute(Empty, moves).commits;
    assert AppliesToPredecessor(commits, i);
    var read := ReadOf(RowsAfter(commits[..i]), commits[i].mission.id);
    if read.None? || read.value.status != commits[i].mission.status { WritesEarn(commits[i].cause, read); }
  }

  /** No commit carries a refused command: its evidence was accepted and the mission it met was open. */
  lemma CommandsWereAdmitted(moves: seq<Move>, i: nat)
    requires i < |Execute(Empty, moves).commits| && Execute(Empty, moves).commits[i].cause.Transition?
    ensures var commits := Execute(Empty, moves).commits;
      var m := commits[i].mission;
      var before := RowsAfter(commits[..i]);
      && m.id in before
      && (before[m.id].mission.status.Done? ==> before[m.id].mission.closedAt.None?)
      && match commits[i].cause.command
         case Refine(admitted) => admitted
         case Activate(_, admitted) => admitted
         case RecordImplementer(_, admitted, _) => admitted
         case ReboundToActive(_, admitted, _) => admitted
         case SubmitForReview(admitted, _, _) => admitted
         case RequestChanges(admitted, _) => admitted
         case Approve(admitted, _) => admitted
         case RevokeApproval(admitted, _, _) => admitted
         case _ => true
  {
    VersionedHistory(moves);
    var commits := Execute(Empty, moves).commits;
    assert AppliesToPredecessor(commits, i);
    AcceptedExactly(RowsAfter(commits[..i])[commits[i].mission.id].mission, commits[i].cause.command);
  }

  /** The name that an event, and a key made from a trigger, carries: the command's own. */
  lemma EventsNameTheirCommand(c: Command)
    ensures TriggerName(CommandTrigger(c)) == match c
      case Refine(_) => "refine"
      case Activate(_, _) => "activate"
      case BeginReviewPreparation => "begin-review-preparation"
      case RecordImplementer(_, _, _) => "record-implementer"
      case AbortActivation(_) => "abort-activation"
      case ReboundToActive(_, _, _) => "rebound-to-active"
      case SubmitForReview(_, _, _) => "submit-for-review"
      case RequestChanges(_, _) => "request-changes"
      case Approve(_, _) => "approve"
      case RevokeApproval(_, _, _) => "revoke-approval"
      case Integrate => "integrate"
  {
  }

  // ---------------------------------------------------------------- a served command

  function Served3(moves: seq<Move>, p: Process, r: Request): seq<Move> {
    moves + [Start(p, r)] + [Resume(p, Served)] + [Resume(p, Served)]
  }

  lemma ExecuteSnoc(moves: seq<Move>, move: Move)
    ensures Execute(Empty, moves + [move]) == Step(Execute(Empty, moves), move)
  {
    assert (moves + [move])[..|moves|] == moves;
  }

  lemma ServedIsPlanned(moves: seq<Move>, p: Process, r: Request)
    requires p !in Execute(Empty, moves).processes && r.id in Execute(Empty, moves).store.rows
    ensures var w := Execute(Empty, moves);
      Execute(Empty, moves + [Start(p, r)] + [Resume(p, Served)]) == To(To(w, p, Loading(r)), p, AfterFound(r, w.store.rows[r.id]))
  {
    ExecuteSnoc(moves, Start(p, r));
    ExecuteSnoc(moves + [Start(p, r)], Resume(p, Served));
  }

  lemma RowKnowsItsId(moves: seq<Move>, id: Id)
    requires id in Execute(Empty, moves).store.rows
    ensures Execute(Empty, moves).store.rows[id].mission.id == id
  {
    RunKeepsInv(moves);
  }

  /** The key is not in use in this repository. */
  ghost predicate Fresh(s: Store, repository: Repository, key: string) {
    forall e :: e in s.events ==> e.repository != repository || e.key != key
  }

  lemma FreshIsUnrecorded(s: Store, repository: Repository, key: string)
    requires Fresh(s, repository, key)
    ensures !Recorded(s.events, repository, key)
  {
    forall i | 0 <= i < |s.events| ensures s.events[i].repository != repository || s.events[i].key != key {
      assert s.events[i] in s.events;
    }
  }

  /** The planned write meets the version it was planned on, and a free key. */
  ghost predicate Unhindered(s: Store, plan: Plan) {
    && !plan.cause.RecoverLanded?
    && plan.expected.Some? && plan.mission.id in s.rows && s.rows[plan.mission.id].version == plan.expected.value
    && (plan.event.Some? ==> Fresh(s, plan.event.value.repository, plan.event.value.key))
  }

  lemma PlannedIsSaved(w: World, p: Process, plan: Plan)
    requires p in w.processes && w.processes[p] == Saving(plan) && Unhindered(w.store, plan)
    ensures var u := Step(w, Resume(p, Served));
      && u.store.rows == w.store.rows[plan.mission.id := Row(plan.mission, plan.expected.value + 1)]
      && u.store.events == w.store.events + (if plan.event.Some? then [plan.event.value] else [])
      && u.processes == w.processes[p := Ended(Completed(plan, plan.expected.value + 1))]
  {
    if plan.event.Some? { FreshIsUnrecorded(w.store, plan.event.value.repository, plan.event.value.key); }
  }

  /** The plan is in the store, one version on, with its event. */
  ghost predicate Carried(w: World, u: World, p: Process, plan: Plan)
    requires plan.expected.Some?
  {
    && u.store.rows == w.store.rows[plan.mission.id := Row(plan.mission, plan.expected.value + 1)]
    && u.store.events == w.store.events + (if plan.event.Some? then [plan.event.value] else [])
    && p in u.processes && u.processes[p] == Ended(Completed(plan, plan.expected.value + 1))
  }

  /** Three served steps carry out what the request plans to write. */
  lemma PlanIsCarriedOut(moves: seq<Move>, p: Process, r: Request, plan: Plan)
    requires p !in Execute(Empty, moves).processes && r.id in Execute(Empty, moves).store.rows
    requires AfterFound(r, Execute(Empty, moves).store.rows[r.id]) == Saving(plan)
    requires Unhindered(Execute(Empty, moves).store, plan)
    ensures Carried(Execute(Empty, moves), Execute(Empty, Served3(moves, p, r)), p, plan)
  {
    ServedIsPlanned(moves, p, r);
    ExecuteSnoc(moves + [Start(p, r)] + [Resume(p, Served)], Resume(p, Served));
    PlannedIsSaved(Execute(Empty, moves + [Start(p, r)] + [Resume(p, Served)]), p, plan);
  }

  /** What an accepted command plans to write. */
  function PlanOf(row: Row, c: Command, key: string): Plan
    requires Decide(row.mission, c).Some?
  {
    var m, d := row.mission, Decide(row.mission, c).value;
    Plan(Transition(c), Some(m), Some(row.version), d,
         if d.status == m.status then None else Some(LaneEvent(m.id, m.repository, Some(m.status), d.status, CommandTrigger(c), key)))
  }

  lemma AcceptedIsPlanned(row: Row, r: Request)
    requires r.Decision? && r.key.Some? && Decide(row.mission, r.command).Some? && (r.expected.Some? ==> r.expected.value == row.version)
    ensures AfterFound(r, row) == Saving(PlanOf(row, r.command, r.key.value))
  {
    IdentityKept(row.mission, r.command);
    if Decide(row.mission, r.command).value.status != row.mission.status { EveryLaneChangeHasTrigger(row.mission, r.command); }
  }

  /** What a command that went through left. */
  ghost predicate Commanded(w: World, u: World, p: Process, r: Request)
    requires r.Decision? && r.key.Some?
  {
    && r.id in w.store.rows
    && var m, version := w.store.rows[r.id].mission, w.store.rows[r.id].version;
       && Decide(m, r.command).Some?
       && var d := Decide(m, r.command).value;
          && u.store.rows == w.store.rows[r.id := Row(d, version + 1)]
          && u.store.events == w.store.events
               + (if d.status == m.status then []
                  else [LaneEvent(r.id, m.repository, Some(m.status), d.status, CommandTrigger(r.command), r.key.value)])
          && p in u.processes && u.processes[p].Ended? && u.processes[p].outcome.Completed?
  }

  lemma CarriedIsCommanded(w: World, u: World, p: Process, r: Request, row: Row)
    requires r.Decision? && r.key.Some? && Decide(row.mission, r.command).Some?
    requires r.id in w.store.rows && w.store.rows[r.id] == row && row.mission.id == r.id
    requires Carried(w, u, p, PlanOf(row, r.command, r.key.value))
    ensures Commanded(w, u, p, r)
  {
    IdentityKept(row.mission, r.command);
  }

  /**
   * A command that the mission's state and evidence allow, on the version the caller expects if any, is
   * carried out when the store serves it: the decided mission is stored one version on, and a change of
   * lane is recorded under its key.
   */
  lemma ServedCommandCommits(moves: seq<Move>, p: Process, r: Request)
    requires r.Decision? && r.key.Some? && p !in Execute(Empty, moves).processes && r.id in Execute(Empty, moves).store.rows
    requires var row := Execute(Empty, moves).store.rows[r.id];
      && Fresh(Execute(Empty, moves).store, row.mission.repository, r.key.value)
      && (r.expected.Some? ==> r.expected.value == row.version)
      && Decide(row.mission, r.command).Some?
    ensures Commanded(Execute(Empty, moves), Execute(Empty, Served3(moves, p, r)), p, r)
  {
    RowKnowsItsId(moves, r.id);
    var row := Execute(Empty, moves).store.rows[r.id];
    PlanFitsItsRow(Execute(Empty, moves).store, row, r);
    AcceptedIsPlanned(row, r);
    PlanIsCarriedOut(moves, p, r, PlanOf(row, r.command, r.key.value));
    CarriedIsCommanded(Execute(Empty, moves), Execute(Empty, Served3(moves, p, r)), p, r, row);
  }

  lemma PlanFitsItsRow(s: Store, row: Row, r: Request)
    requires r.Decision? && r.key.Some? && Decide(row.mission, r.command).Some?
    requires r.id in s.rows && s.rows[r.id] == row && row.mission.id == r.id && Fresh(s, row.mission.repository, r.key.value)
    ensures Unhindered(s, PlanOf(row, r.command, r.key.value))
  {
    IdentityKept(row.mission, r.command);
  }

  /** An accepted approval of an open mission under review is carried out: integration, on its evidence. */
  lemma AcceptedApprovalIntegrates(moves: seq<Move>, p: Process, r: Request, evidence: Evidence)
    requires r.Decision? && r.key.Some? && r.expected.None? && r.command == Approve(true, evidence)
    requires p !in Execute(Empty, moves).processes && r.id in Execute(Empty, moves).store.rows
    requires var row := Execute(Empty, moves).store.rows[r.id];
      && Fresh(Execute(Empty, moves).store, row.mission.repository, r.key.value)
      && (row.mission.status.Review? || row.mission.status.Active?)
    ensures var row := Execute(Empty, moves).store.rows[r.id];
      var u := Execute(Empty, Served3(moves, p, r));
      && r.id in u.store.rows
      && u.store.rows[r.id] == Row(row.mission.(status := Integration, evidence := evidence), row.version + 1)
      && (exists e :: e in u.store.events && e.mission == r.id && e.key == r.key.value && e.to.Integration? && e.trigger.ByApprove?)
  {
    AcceptedExactly(Execute(Empty, moves).store.rows[r.id].mission, r.command);
    ServedCommandCommits(moves, p, r);
    ApprovalIntegrates(Execute(Empty, moves), Execute(Empty, Served3(moves, p, r)), p, r);
  }

  lemma ApprovalIntegrates(w: World, u: World, p: Process, r: Request)
    requires r.Decision? && r.key.Some? && r.command.Approve? && Commanded(w, u, p, r)
    requires w.store.rows[r.id].mission.status.Review? || w.store.rows[r.id].mission.status.Active?
    ensures r.id in u.store.rows
    ensures u.store.rows[r.id]
      == Row(w.store.rows[r.id].mission.(status := Integration, evidence := r.command.evidence), w.store.rows[r.id].version + 1)
    ensures exists e :: e in u.store.events && e.mission == r.id && e.key == r.key.value && e.to.Integration? && e.trigger.ByApprove?
  {
    assert u.store.events[|u.store.events| - 1] in u.store.events;
  }

  /** A refused command leaves the store alone, and the caller is told. */
  lemma RefusedCommandChangesNothing(moves: seq<Move>, p: Process, id: Id, c: Command, at: string, key: Option<string>, expected: Option<Version>)
    requires var w := Execute(Empty, moves);
      && p !in w.processes && id in w.store.rows && Decide(w.store.rows[id].mission, c).None?
    ensures var w := Execute(Empty, moves);
      var u := Execute(Empty, moves + [Start(p, Decision(id, c, at, key, expected))] + [Resume(p, Served)]);
      && u.store == w.store && p in u.processes
      && (u.processes[p] == Ended(Invalid) || (u.processes[p] == Ended(Conflict) && expected.Some? && expected.value != w.store.rows[id].version))
  {
    ServedIsPlanned(moves, p, Decision(id, c, at, key, expected));
  }

  /** Whoever expects another version than the mission has is told so, and nothing is written. */
  lemma StaleRequestConflicts(moves: seq<Move>, p: Process, r: Request)
    requires r.Decision? || r.Close? || r.Assign?
    requires p !in Execute(Empty, moves).processes && r.id in Execute(Empty, moves).store.rows
    requires r.expected.Some? && r.expected.value != Execute(Empty, moves).store.rows[r.id].version
    ensures var w, u := Execute(Empty, moves), Execute(Empty, moves + [Start(p, r)] + [Resume(p, Served)]);
      u.store == w.store && p in u.processes && u.processes[p] == Ended(Conflict)
  {
    ServedIsPlanned(moves, p, r);
  }

  /** What an assignment, an edit or a closing makes of the mission. */
  function EditOf(row: Row, r: Request): Option<Plan> {
    var m := row.mission;
    match r
    case Assign(_, assignee, _) => Some(Plan(Assignment(assignee), Some(m), Some(row.version), m.(assignee := assignee), None))
    case Update(_, evidence) => Some(Plan(Edit(evidence), Some(m), Some(row.version), m.(evidence := evidence), None))
    case Close(_, at, _) =>
      if m.status.Done? && m.closedAt.None? && at.Some?
      then Some(Plan(Closing(at), Some(m), Some(row.version), m.(closedAt := at), None)) else None
    case _ => None
  }

  lemma EditIsPlanned(row: Row, r: Request)
    requires EditOf(row, r).Some? && (r.Assign? || r.Close? ==> r.expected.Some? ==> r.expected.value == row.version)
    ensures AfterFound(r, row) == Saving(EditOf(row, r).value)
  {
  }

  lemma EditFitsItsRow(s: Store, row: Row, r: Request)
    requires EditOf(row, r).Some? && r.id in s.rows && s.rows[r.id] == row && row.mission.id == r.id
    ensures Unhindered(s, EditOf(row, r).value)
  {
  }

  /** Served on the version it expects, if any, it is stored one version on, without a lane event. */
  lemma ServedEditCommits(moves: seq<Move>, p: Process, r: Request)
    requires p !in Execute(Empty, moves).processes && r.id in Execute(Empty, moves).store.rows
    requires var row := Execute(Empty, moves).store.rows[r.id];
      EditOf(row, r).Some? && (r.Assign? || r.Close? ==> r.expected.Some? ==> r.expected.value == row.version)
    ensures Carried(Execute(Empty, moves), Execute(Empty, Served3(moves, p, r)), p, EditOf(Execute(Empty, moves).store.rows[r.id], r).value)
  {
    RowKnowsItsId(moves, r.id);
    var row := Execute(Empty, moves).store.rows[r.id];
    EditIsPlanned(row, r);
    EditFitsItsRow(Execute(Empty, moves).store, row, r);
    PlanIsCarriedOut(moves, p, r, EditOf(row, r).value);
  }

  predicate Landed(pc: Pc) { pc.Ended? && pc.outcome.Completed? && pc.outcome.plan.cause.RecoverLanded? }

  lemma StepReportsLanding(w: World, move: Move, p: Process)
    requires p in Step(w, move).processes && Landed(Step(w, move).processes[p])
    requires p !in w.processes || !Landed(w.processes[p])
    ensures var m := Step(w, move).processes[p].outcome.plan.mission;
      m.id in w.store.rows && w.store.rows[m.id].mission.status.Done? && w.store.rows[m.id].mission.closedAt.Some?
  {
    assert move.process == p && move.Resume? && p in w.processes;
    var pc := w.processes[p];
    if !pc.ReadingBack? { OnlyReadingBackLands(w, p, move.reply); }
  }

  lemma OnlyReadingBackLands(w: World, p: Process, reply: Reply)
    requires p in w.processes && !w.processes[p].ReadingBack? && !Landed(w.processes[p])
    ensures !Landed(Step(w, Resume(p, reply)).processes[p])
  {
  }

  /** A recovery reports a landed mission only when the store, read back, shows it closed. */
  lemma LandingIsReadBack(moves: seq<Move>, move: Move, p: Process)
    requires var u := Execute(Empty, moves + [move]); p in u.processes && Landed(u.processes[p])
    requires var w := Execute(Empty, moves); p !in w.processes || !Landed(w.processes[p])
    ensures var m := Execute(Empty, moves + [move]).processes[p].outcome.plan.mission;
      var rows := Execute(Empty, moves).store.rows;
      m.id in rows && rows[m.id].mission.status.Done? && rows[m.id].mission.closedAt.Some?
  {
    ExecuteSnoc(moves, move);
    StepReportsLanding(Execute(Empty, moves), move, p);
  }

  function Reopening(row: Row, cause: Cause, at: string): Plan {
    var m := row.mission;
    Plan(cause, Some(m), Some(row.version), m.(status := Active, closedAt := if m.status.Done? then None else m.closedAt),
         Some(LaneEvent(m.id, m.repository, Some(m.status), Active, ByRecoverActive, m.id + ":" + "recover-active" + ":" + at)))
  }

  lemma RefinedIsPlanned(row: Row, r: Request)
    requires r.Recovery? && r.task.TaskActive? && row.mission.status.Refined?
    ensures AfterFound(r, row) == Saving(Reopening(row, RecoverRefined, r.at))
  {
  }

  lemma ReopeningFitsItsRow(s: Store, row: Row, at: string)
    requires row.mission.id in s.rows && s.rows[row.mission.id] == row
    requires Fresh(s, row.mission.repository, row.mission.id + ":" + "recover-active" + ":" + at)
    ensures Unhindered(s, Reopening(row, RecoverRefined, at))
  {
  }

  /** A refined mission whose task is active is made active. */
  lemma ServedRecoveryActivates(moves: seq<Move>, p: Process, r: Request)
    requires r.Recovery? && r.task.TaskActive? && p !in Execute(Empty, moves).processes && r.id in Execute(Empty, moves).store.rows
    requires var row := Execute(Empty, moves).store.rows[r.id];
      row.mission.status.Refined?
      && Fresh(Execute(Empty, moves).store, row.mission.repository, r.id + ":" + "recover-active" + ":" + r.at)
    ensures Carried(Execute(Empty, moves), Execute(Empty, Served3(moves, p, r)), p,
                    Reopening(Execute(Empty, moves).store.rows[r.id], RecoverRefined, r.at))
  {
    RowKnowsItsId(moves, r.id);
    var row := Execute(Empty, moves).store.rows[r.id];
    RefinedIsPlanned(row, r);
    ReopeningFitsItsRow(Execute(Empty, moves).store, row, r.at);
    PlanIsCarriedOut(moves, p, r, Reopening(row, RecoverRefined, r.at));
  }

  lemma HistoryIsReadAndSaved(w: World, p: Process, r: Request, row: Row)
    requires p in w.processes && w.processes[p] == ReadingHistory(r, row) && r.Recovery? && row.mission.status.Done?
    requires forall e :: e in w.store.events && e.mission == row.mission.id ==> !e.trigger.ByIntegrate?
    requires row.mission.id in w.store.rows && w.store.rows[row.mission.id] == row
    requires Fresh(w.store, row.mission.repository, row.mission.id + ":" + "recover-active" + ":" + r.at)
    ensures var u := Step(Step(w, Resume(p, Served)), Resume(p, Served));
      u.store.rows == w.store.rows[row.mission.id := Row(row.mission.(status := Active, closedAt := None), row.version + 1)]
  {
    forall i | 0 <= i < |w.store.events| && w.store.events[i].mission == row.mission.id
      ensures !w.store.events[i].trigger.ByIntegrate?
    {
      assert w.store.events[i] in w.store.events;
    }
    assert !Integrated(w.store.events, row.mission.id);
    var v := Step(w, Resume(p, Served));
    assert v == To(w, p, Saving(Reopening(row, RecoverDone, r.at)));
    PlannedIsSaved(v, p, Reopening(row, RecoverDone, r.at));
  }

  /** A finished mission whose task is active is reopened when no integration of it is on record. */
  lemma ServedRecoveryReopens(moves: seq<Move>, p: Process, r: Request)
    requires var w := Execute(Empty, moves);
      && p !in w.processes && r.Recovery? && r.task.TaskActive? && r.id in w.store.rows
      && w.store.rows[r.id].mission.status.Done?
      && (forall e :: e in w.store.events && e.mission == r.id ==> !e.trigger.ByIntegrate?)
      && Fresh(w.store, w.store.rows[r.id].mission.repository, r.id + ":" + "recover-active" + ":" + r.at)
    ensures var w := Execute(Empty, moves);
      var u := Execute(Empty, Served3(moves, p, r) + [Resume(p, Served)]);
      u.store.rows == w.store.rows[r.id := Row(w.store.rows[r.id].mission.(status := Active, closedAt := None), w.store.rows[r.id].version + 1)]
  {
    RowKnowsItsId(moves, r.id);
    ServedIsPlanned(moves, p, r);
    var v := Execute(Empty, moves + [Start(p, r)] + [Resume(p, Served)]);
    ExecuteSnoc(moves + [Start(p, r)] + [Resume(p, Served)], Resume(p, Served));
    ExecuteSnoc(Served3(moves, p, r), Resume(p, Served));
    HistoryIsReadAndSaved(v, p, r, Execute(Empty, moves).store.rows[r.id]);
  }
}
