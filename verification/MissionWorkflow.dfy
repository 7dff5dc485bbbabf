/**
 * What the Mission domain decides: the commands of the state machine, closing, intake and recovery.
 *
 * Contract completeness, review rounds and other evidence live in `evidence`, which this model does not
 * look into: a command carries whether its evidence was accepted and the evidence it leaves behind.
 */
module MissionWorkflow {
  import opened Prelude

  type Id = string
  type Repository = string
  type Agent = string
  type Instant = string
  type Evidence = nat

  datatype Status = Backlog | Refined | Active | Review | Integration | Done

  datatype Mission = Mission(
    id: Id, repository: Repository, status: Status, assignee: Option<Agent>,
    closedAt: Option<Instant>, preparationPending: bool, evidence: Evidence)

  datatype Command =
    | Refine(admitted: bool)
    | Activate(agent: Agent, admitted: bool)
    | BeginReviewPreparation
    | RecordImplementer(agent: Agent, admitted: bool, evidence: Evidence)
    | AbortActivation(assignee: Option<Agent>)
    | ReboundToActive(agent: Agent, admitted: bool, evidence: Evidence)
    | SubmitForReview(admitted: bool, prepared: bool, evidence: Evidence)
    | RequestChanges(admitted: bool, evidence: Evidence)
    | Approve(admitted: bool, evidence: Evidence)
    | RevokeApproval(admitted: bool, gateRepair: bool, evidence: Evidence)
    | Integrate

  datatype Trigger =
    | ByRefine | ByActivate | ByBeginReviewPreparation | ByRecordImplementer | ByAbortActivation
    | ByRebound | BySubmitForReview | ByRequestChanges | ByApprove | ByRevokeApproval | ByIntegrate
    | ByIntake | ByClose | ByRecoverActive

  predicate IsClosed(m: Mission) { m.status.Done? && m.closedAt.Some? }

  /** The statuses a command may start from. */
  function Allowed(c: Command): set<Status> {
    match c
    case Refine(_) => {Backlog, Refined}
    case Activate(_, _) => {Refined, Active}
    case BeginReviewPreparation => {Active, Review, Integration}
    case RecordImplementer(_, _, _) => {Active, Review}
    case AbortActivation(_) => {Refined, Active}
    case ReboundToActive(_, _, _) => {Integration, Review, Active}
    case SubmitForReview(_, _, _) => {Active, Review}
    case RequestChanges(_, _) => {Review}
    case Approve(_, _) => {Review, Active}
    case RevokeApproval(_, _, _) => {Integration, Active, Review}
    case Integrate => {Integration}
  }

  predicate Admitted(c: Command) {
    c.BeginReviewPreparation? || c.AbortActivation? || c.Integrate? || c.admitted
  }

  /** The mission an accepted command leaves. */
  function Decided(m: Mission, c: Command): Mission {
    match c
    case Refine(_) => m.(status := Refined)
    case Activate(agent, _) => m.(status := Active, assignee := Some(agent))
    case BeginReviewPreparation => m.(status := Review, preparationPending := m.status.Active? || m.preparationPending)
    case RecordImplementer(agent, _, evidence) => m.(assignee := Some(agent), evidence := evidence)
    case AbortActivation(assignee) => if m.status.Refined? then m else m.(status := Refined, assignee := assignee)
    case ReboundToActive(agent, _, evidence) => m.(status := Active, assignee := Some(agent), evidence := evidence)
    case SubmitForReview(_, prepared, evidence) =>
      m.(status := Review, evidence := evidence, preparationPending := m.preparationPending && !prepared)
    case RequestChanges(_, evidence) => m.(status := Active, evidence := evidence)
    case Approve(_, evidence) => m.(status := Integration, evidence := evidence)
    case RevokeApproval(_, gateRepair, evidence) =>
      m.(status := if gateRepair && m.status.Active? then Active else Review, evidence := evidence)
    case Integrate => m.(status := Done, closedAt := None)
  }

  function Decide(m: Mission, c: Command): Option<Mission> {
    if IsClosed(m) || m.status !in Allowed(c) || !Admitted(c) then None else Some(Decided(m, c))
  }

  /** Closing records the time of an integrated mission, once. */
  function CloseMission(m: Mission, at: Option<Instant>): Option<Mission> {
    if IsClosed(m) || !m.status.Done? || at.None? then None else Some(m.(closedAt := at))
  }

  function IntakeMission(id: Id, repository: Repository, assignee: Option<Agent>, evidence: Evidence): Mission {
    Mission(id, repository, Backlog, assignee, None, false, evidence)
  }

  function CommandTrigger(c: Command): Trigger {
    match c
    case Refine(_) => ByRefine
    case Activate(_, _) => ByActivate
    case BeginReviewPreparation => ByBeginReviewPreparation
    case RecordImplementer(_, _, _) => ByRecordImplementer
    case AbortActivation(_) => ByAbortActivation
    case ReboundToActive(_, _, _) => ByRebound
    case SubmitForReview(_, _, _) => BySubmitForReview
    case RequestChanges(_, _) => ByRequestChanges
    case Approve(_, _) => ByApprove
    case RevokeApproval(_, _, _) => ByRevokeApproval
    case Integrate => ByIntegrate
  }

  /** The lane changes the board knows a trigger for. */
  function TriggerFromTransition(from: Option<Status>, to: Status): Option<Trigger> {
    if from == Some(Backlog) && to == Refined then Some(ByRefine)
    else if from == Some(Refined) && to == Active then Some(ByActivate)
    else if from == Some(Active) && to == Active then Some(ByActivate)
    else if from == None && to == Active then Some(ByActivate)
    else if from == Some(Active) && to == Refined then Some(ByAbortActivation)
    else if from == Some(Active) && to == Review then Some(BySubmitForReview)
    else if from == Some(Review) && to == Active then Some(ByRequestChanges)
    else if from == Some(Review) && to == Integration then Some(ByApprove)
    else if from == Some(Active) && to == Integration then Some(ByApprove)
    else if from == Some(Integration) && to == Active then Some(ByRebound)
    else if from == Some(Integration) && to == Review then Some(ByRevokeApproval)
    else if from == Some(Integration) && to == Done then Some(ByIntegrate)
    else None
  }

  // ---------------------------------------------------------------- what every decision keeps

  /** No command and no closing touches a closed mission, so a recorded closure time is final. */
  lemma ClosedIsFinal(m: Mission, c: Command, at: Option<Instant>)
    requires IsClosed(m)
    ensures Decide(m, c).None? && CloseMission(m, at).None?
  {
  }

  lemma IdentityKept(m: Mission, c: Command)
    requires Decide(m, c).Some?
    ensures Decide(m, c).value.id == m.id && Decide(m, c).value.repository == m.repository
  {
  }

  /** A command is accepted exactly on an open mission, in its lanes, with its evidence accepted. */
  lemma AcceptedExactly(m: Mission, c: Command)
    ensures Decide(m, c).Some? <==>
      && !(m.status.Done? && m.closedAt.Some?)
      && match c
         case Refine(admitted) => admitted && (m.status.Backlog? || m.status.Refined?)
         case Activate(_, admitted) => admitted && (m.status.Refined? || m.status.Active?)
         case BeginReviewPreparation => m.status.Active? || m.status.Review? || m.status.Integration?
         case RecordImplementer(_, admitted, _) => admitted && (m.status.Active? || m.status.Review?)
         case AbortActivation(_) => m.status.Refined? || m.status.Active?
         case ReboundToActive(_, admitted, _) => admitted && (m.status.Integration? || m.status.Review? || m.status.Active?)
         case SubmitForReview(admitted, _, _) => admitted && (m.status.Active? || m.status.Review?)
         case RequestChanges(admitted, _) => admitted && m.status.Review?
         case Approve(admitted, _) => admitted && (m.status.Review? || m.status.Active?)
         case RevokeApproval(admitted, _, _) => admitted && (m.status.Integration? || m.status.Active? || m.status.Review?)
         case Integrate => m.status.Integration?
  {
  }

  /** Where each command leads, and what else it may change: nothing that it does not speak of. */
  lemma DecisionChanges(m: Mission, c: Command)
    requires Decide(m, c).Some?
    ensures var d := Decide(m, c).value;
      && d.id == m.id && d.repository == m.repository
      && d.status == (match c
          case Refine(_) => Refined
          case AbortActivation(_) => Refined
          case Activate(_, _) => Active
          case ReboundToActive(_, _, _) => Active
          case RequestChanges(_, _) => Active
          case BeginReviewPreparation => Review
          case SubmitForReview(_, _, _) => Review
          case RevokeApproval(_, gateRepair, _) => if gateRepair && m.status.Active? then Active else Review
          case Approve(_, _) => Integration
          case Integrate => Done
          case RecordImplementer(_, _, _) => m.status)
      && d.assignee == (match c
          case Activate(agent, _) => Some(agent)
          case RecordImplementer(agent, _, _) => Some(agent)
          case ReboundToActive(agent, _, _) => Some(agent)
          case AbortActivation(prior) => if m.status.Active? then prior else m.assignee
          case _ => m.assignee)
      && d.evidence == (match c
          case RecordImplementer(_, _, evidence) => evidence
          case ReboundToActive(_, _, evidence) => evidence
          case SubmitForReview(_, _, evidence) => evidence
          case RequestChanges(_, evidence) => evidence
          case Approve(_, evidence) => evidence
          case RevokeApproval(_, _, evidence) => evidence
          case _ => m.evidence)
      && d.closedAt == (if c.Integrate? then None else m.closedAt)
      && (d.preparationPending && !m.preparationPending <==> c.BeginReviewPreparation? && m.status.Active? && !m.preparationPending)
      && (!d.preparationPending && m.preparationPending <==> c.SubmitForReview? && c.prepared && m.preparationPending)
  {
  }

  /** The lanes of an open mission, and what may lead from one to the next. */
  predicate Road(from: Status, to: Status) {
    match from
    case Backlog => to.Refined?
    case Refined => to.Refined? || to.Active?
    case Active => to.Refined? || to.Active? || to.Review? || to.Integration?
    case Review => to.Active? || to.Review? || to.Integration?
    case Integration => to.Active? || to.Review? || to.Done?
    case Done => false
  }

  function Example(from: Status): Mission { Mission("m", "r", from, None, None, false, 0) }

  function Along(from: Status, to: Status): Command
    requires Road(from, to)
  {
    match to
    case Refined => if from.Active? then AbortActivation(None) else Refine(true)
    case Active => if from.Refined? then Activate("a", true) else ReboundToActive("a", true, 0)
    case Review => BeginReviewPreparation
    case Integration => Approve(true, 0)
    case _ => Integrate
  }

  lemma CommandsStayOnRoads(m: Mission, c: Command)
    requires Decide(m, c).Some?
    ensures Road(m.status, Decide(m, c).value.status)
  {
  }

  /** Some command leads from one lane to another exactly along these roads. */
  lemma LanesAreJoinedExactly(from: Status, to: Status)
    ensures Road(from, to) <==> exists m: Mission, c: Command :: m.status == from && Decide(m, c).Some? && Decide(m, c).value.status == to
  {
    if Road(from, to) {
      assert Decide(Example(from), Along(from, to)).Some? && Decide(Example(from), Along(from, to)).value.status == to;
    }
    forall m: Mission, c: Command | m.status == from && Decide(m, c).Some? && Decide(m, c).value.status == to ensures Road(from, to) {
      CommandsStayOnRoads(m, c);
    }
  }

  /** Closing is accepted exactly on a finished mission that has no readable closing time yet. */
  lemma ClosingExactly(m: Mission, at: Option<Instant>)
    ensures CloseMission(m, at).Some? <==> m.status.Done? && m.closedAt.None? && at.Some?
    ensures CloseMission(m, at).Some? ==> CloseMission(m, at).value == m.(closedAt := at)
  {
  }

  /** Only `integrate` finishes a mission, only from the integration lane, and nothing leaves `done`. */
  lemma DoneOnlyByIntegration(m: Mission, c: Command)
    requires Decide(m, c).Some?
    ensures !m.status.Done?
    ensures Decide(m, c).value.status.Done? <==> c.Integrate?
    ensures c.Integrate? ==> m.status.Integration?
  {
  }

  /** Every lane change a command can make has a trigger, so its lane event is never skipped. */
  lemma EveryLaneChangeHasTrigger(m: Mission, c: Command)
    requires Decide(m, c).Some? && Decide(m, c).value.status != m.status
    ensures TriggerFromTransition(Some(m.status), Decide(m, c).value.status).Some?
  {
  }

  /** The moves the board knows, and no others. */
  lemma KnownMoves(from: Option<Status>, to: Status)
    ensures TriggerFromTransition(from, to) == match (from, to)
      case (None, Active) => Some(ByActivate)
      case (Some(Backlog), Refined) => Some(ByRefine)
      case (Some(Refined), Active) => Some(ByActivate)
      case (Some(Active), Active) => Some(ByActivate)
      case (Some(Active), Refined) => Some(ByAbortActivation)
      case (Some(Active), Review) => Some(BySubmitForReview)
      case (Some(Active), Integration) => Some(ByApprove)
      case (Some(Review), Active) => Some(ByRequestChanges)
      case (Some(Review), Integration) => Some(ByApprove)
      case (Some(Integration), Active) => Some(ByRebound)
      case (Some(Integration), Review) => Some(ByRevokeApproval)
      case (Some(Integration), Done) => Some(ByIntegrate)
      case _ => None
  {
  }

  /** A lane move whose derived trigger is not the command that made it. */
  predicate Aliased(m: Mission, c: Command) {
    || c.BeginReviewPreparation?
    || (c.ReboundToActive? && m.status.Review?)
    || (c.RevokeApproval? && m.status.Active?)
  }

  /** The derived trigger names the command except for exactly these three moves. */
  lemma DerivedTriggerNamesCommand(m: Mission, c: Command)
    requires Decide(m, c).Some? && Decide(m, c).value.status != m.status
    ensures TriggerFromTransition(Some(m.status), Decide(m, c).value.status) == Some(CommandTrigger(c)) <==> !Aliased(m, c)
  {
  }

  /** Undoing an activation restores the refined mission exactly, status, assignee and everything else. */
  lemma AbortUndoesActivation(m: Mission, agent: Agent, admitted: bool)
    requires m.status.Refined? && Decide(m, Activate(agent, admitted)).Some?
    ensures Decide(Decide(m, Activate(agent, admitted)).value, AbortActivation(m.assignee)) == Some(m)
  {
  }
}
