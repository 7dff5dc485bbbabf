/**
 * The versioned mission store with its lane history, and the commands that write to it. Every store
 * call is one atomic step; between two of them any other command may run, and any call may fail.
 */
module MissionWriters {
  import opened Prelude
  import opened MissionWorkflow

  type Process = nat
  type Version = nat

  // ---------------------------------------------------------------- the store

  datatype Row = Row(mission: Mission, version: Version)

  datatype LaneEvent = LaneEvent(
    mission: Id, repository: Repository, from: Option<Status>, to: Status, trigger: Trigger, key: string)

  datatype Store = Store(rows: map<Id, Row>, events: seq<LaneEvent>)

  datatype Written = Saved(store: Store, version: Version) | Stale | Duplicate

  /** Insert when nothing is expected, otherwise compare and swap on the version. */
  function Save(s: Store, m: Mission, expected: Option<Version>): Written {
    match expected
    case None => if m.id in s.rows then Stale else Saved(s.(rows := s.rows[m.id := Row(m, 1)]), 1)
    case Some(v) =>
      if m.id in s.rows && s.rows[m.id].version == v
      then Saved(s.(rows := s.rows[m.id := Row(m, v + 1)]), v + 1)
      else Stale
  }

  predicate Recorded(events: seq<LaneEvent>, repository: Repository, key: string) {
    exists i :: 0 <= i < |events| && events[i].repository == repository && events[i].key == key
  }

  /** The write and its lane event commit together or not at all. */
  function SaveWithTransition(s: Store, m: Mission, expected: Option<Version>, e: LaneEvent): Written {
    match Save(s, m, expected)
    case Saved(t, version) =>
      if Recorded(s.events, e.repository, e.key) then Duplicate
      else Saved(t.(events := s.events + [e]), version)
    case _ => Stale
  }

  /** The history already records exactly this transition under this key. */
  predicate Replayed(events: seq<LaneEvent>, e: LaneEvent) {
    exists i :: 0 <= i < |events| && events[i].mission == e.mission && events[i].key == e.key
      && events[i].trigger == e.trigger && events[i].from == e.from && events[i].to == e.to
  }

  predicate Integrated(events: seq<LaneEvent>, id: Id) {
    exists i :: 0 <= i < |events| && events[i].mission == id && events[i].trigger.ByIntegrate?
  }

  // ---------------------------------------------------------------- commands

  /** What a committed write was decided by. */
  datatype Cause =
    | Transition(command: Command)
    | Closing(at: Option<Instant>)
    | Edit(evidence: Evidence)
    | Assignment(assignee: Option<Agent>)
    | RecoverRefined
    | RecoverDone
    | Intake(mission: Mission)
    | RecoverLanded(mission: Mission)

  /** The decision function: what `cause` makes of the mission it read. */
  function Apply(cause: Cause, read: Option<Mission>): Option<Mission> {
    match read
    case Some(m) => (
      match cause
      case Transition(c) => Decide(m, c)
      case Closing(at) => CloseMission(m, at)
      case Edit(evidence) => Some(m.(evidence := evidence))
      case Assignment(assignee) => Some(m.(assignee := assignee))
      case RecoverRefined => if m.status.Refined? then Some(m.(status := Active)) else None
      case RecoverDone => if m.status.Done? then Some(m.(status := Active, closedAt := None)) else None
      case _ => None)
    case None => (
      match cause
      case Intake(m) => if m == IntakeMission(m.id, m.repository, m.assignee, m.evidence) then Some(m) else None
      case RecoverLanded(m) => if IsClosed(m) then Some(m) else None
      case _ => None)
  }

  function TriggerOf(cause: Cause): Trigger {
    match cause
    case Transition(c) => CommandTrigger(c)
    case Intake(_) => ByIntake
    case RecoverLanded(_) => ByClose
    case RecoverRefined => ByRecoverActive
    case RecoverDone => ByRecoverActive
    case Closing(_) => ByClose
    case Edit(_) => ByClose
    case Assignment(_) => ByClose
  }

  datatype Task = TaskActive | TaskCompleted | TaskOther

  datatype Request =
    | Decision(id: Id, command: Command, at: string, key: Option<string>, expected: Option<Version>)
    | Close(id: Id, closedAt: Option<Instant>, expected: Option<Version>)
    | Update(id: Id, evidence: Evidence)
    | Assign(id: Id, assignee: Option<Agent>, expected: Option<Version>)
    | NewMission(id: Id, repository: Repository, assignee: Option<Agent>, evidence: Evidence, at: string, key: Option<string>)
    | Recovery(id: Id, task: Task, at: string, closedAt: Option<Instant>, probe: bool, proof: bool)

  /** A write about to be made: what was read, at which version, and what replaces it. */
  datatype Plan = Plan(
    cause: Cause, read: Option<Mission>, expected: Option<Version>, mission: Mission, event: Option<LaneEvent>)

  /** What the proof of a landing says of the mission; `closedAt` is the command's own readable time. */
  datatype Landing = Landing(repository: Repository, assignee: Option<Agent>, evidence: Evidence)

  datatype Outcome =
    | Completed(plan: Plan, version: Version)
    | NothingToDo
    | RefusedIntegrated
    | Invalid
    | Conflict
    | Unavailable
    | Failed

  datatype Pc =
    | Loading(request: Request)
    | Probing(request: Request)
    | ReadingHistory(request: Request, row: Row)
    | ProvingLanded(request: Request)
    | Saving(plan: Plan)
    | CheckingReplay(plan: Plan)
    | Resaving(plan: Plan)
    | ReadingBack(plan: Plan, version: Version)
    | Ended(outcome: Outcome)

  datatype Reply = Served | Throws | Merged(merged: bool) | Landed(landing: Option<Landing>)

  /** One committed write: who made it, its cause, the mission and version it left, and the history length it saw. */
  datatype Commit = Commit(author: Process, cause: Cause, mission: Mission, version: Version, before: nat, after: nat)

  datatype World = World(store: Store, commits: seq<Commit>, processes: map<Process, Pc>)

  datatype Move = Start(process: Process, request: Request) | Resume(process: Process, reply: Reply)

  // ---------------------------------------------------------------- plans

  function Joined(id: Id, trigger: string, at: string): string { id + ":" + trigger + ":" + at }

  function TriggerName(t: Trigger): string {
    match t
    case ByRefine => "refine"
    case ByActivate => "activate"
    case ByBeginReviewPreparation => "begin-review-preparation"
    case ByRecordImplementer => "record-implementer"
    case ByAbortActivation => "abort-activation"
    case ByRebound => "rebound-to-active"
    case BySubmitForReview => "submit-for-review"
    case ByRequestChanges => "request-changes"
    case ByApprove => "approve"
    case ByRevokeApproval => "revoke-approval"
    case ByIntegrate => "integrate"
    case ByIntake => "intake"
    case ByClose => "close"
    case ByRecoverActive => "recover-active"
  }

  function KeyFor(key: Option<string>, id: Id, t: Trigger, at: string): string {
    if key.Some? then key.value else Joined(id, TriggerName(t), at)
  }

  function EventFor(m: Mission, from: Option<Status>, cause: Cause, key: string): LaneEvent {
    LaneEvent(m.id, m.repository, from, m.status, TriggerOf(cause), key)
  }

  /**
   * A lane event exists only when the recorded lane moves; its default key is made from the trigger
   * that the lane pair implies, while the event itself carries the command.
   */
  function LaneEventOf(read: Mission, decided: Mission, c: Command, at: string, key: Option<string>): Option<LaneEvent> {
    if decided.status == read.status then None
    else
      var derived := TriggerFromTransition(Some(read.status), decided.status);
      if derived.None? then None
      else Some(EventFor(decided, Some(read.status), Transition(c), KeyFor(key, read.id, derived.value, at)))
  }

  function PlanDecision(r: Request, row: Row): Pc
    requires r.Decision?
  {
    var decided := Decide(row.mission, r.command);
    if decided.None? then Ended(Invalid)
    else
      var event := LaneEventOf(row.mission, decided.value, r.command, r.at, r.key);
      Saving(Plan(Transition(r.command), Some(row.mission), Some(row.version), decided.value, event))
  }

  function PlanRecovery(row: Row, cause: Cause, at: string): Pc {
    var decided := Apply(cause, Some(row.mission));
    if decided.None? then Ended(Failed)
    else
      var key := Joined(row.mission.id, TriggerName(ByRecoverActive), at);
      Saving(Plan(cause, Some(row.mission), Some(row.version), decided.value,
                  Some(EventFor(decided.value, Some(row.mission.status), cause, key))))
  }

  function PlanInsert(cause: Cause, m: Mission, key: string): Pc {
    Saving(Plan(cause, None, None, m, Some(EventFor(m, None, cause, key))))
  }

  function AfterFound(r: Request, row: Row): Pc {
    match r
    case Decision(_, _, _, _, expected) =>
      if expected.Some? && expected.value != row.version then Ended(Conflict) else PlanDecision(r, row)
    case Close(_, at, expected) =>
      if expected.Some? && expected.value != row.version then Ended(Conflict)
      else
        var closed := CloseMission(row.mission, at);
        if closed.None? then Ended(Invalid)
        else Saving(Plan(Closing(at), Some(row.mission), Some(row.version), closed.value, None))
    case Update(_, evidence) =>
      Saving(Plan(Edit(evidence), Some(row.mission), Some(row.version), row.mission.(evidence := evidence), None))
    case Assign(_, assignee, expected) =>
      if expected.Some? && expected.value != row.version then Ended(Conflict)
      else Saving(Plan(Assignment(assignee), Some(row.mission), Some(row.version), row.mission.(assignee := assignee), None))
    case NewMission(_, _, _, _, _, _) => Ended(Conflict)
    case Recovery(_, task, at, _, probe, _) =>
      if task.TaskActive? && row.mission.status.Active? && probe then Probing(r)
      else if task.TaskActive? && row.mission.status.Refined? then PlanRecovery(row, RecoverRefined, at)
      else if task.TaskActive? && row.mission.status.Done? then ReadingHistory(r, row)
      else Ended(NothingToDo)
  }

  function AfterMissing(r: Request): Pc {
    match r
    case NewMission(id, repository, assignee, evidence, at, key) =>
      var m := IntakeMission(id, repository, assignee, evidence);
      PlanInsert(Intake(m), m, KeyFor(key, id, ByIntake, at))
    case Recovery(_, task, _, _, _, proof) =>
      if !task.TaskCompleted? then Ended(Conflict)
      else if !proof then Ended(Unavailable)
      else ProvingLanded(r)
    case _ => Ended(Unavailable)
  }

  function AfterProof(r: Request, landing: Option<Landing>): Pc
    requires r.Recovery?
  {
    if landing.None? then Ended(Conflict)
    else if r.closedAt.None? then Ended(Failed)
    else
      var l := landing.value;
      var m := Mission(r.id, l.repository, Done, l.assignee, r.closedAt, false, l.evidence);
      PlanInsert(RecoverLanded(m), m, Joined(r.id, TriggerName(ByClose), r.at))
  }

  /** A refused duplicate may be a replay only for lifecycle commands and integration. */
  predicate MayReplay(plan: Plan) { plan.cause.Transition? && plan.event.Some? }

  function AfterHistory(r: Request, row: Row, events: seq<LaneEvent>): Pc {
    if Integrated(events, row.mission.id) then Ended(RefusedIntegrated)
    else PlanRecovery(row, RecoverDone, if r.Recovery? then r.at else "")
  }

  // ---------------------------------------------------------------- steps

  function To(w: World, p: Process, pc: Pc): World {
    w.(processes := w.processes[p := pc])
  }

  function AfterSaved(plan: Plan, version: Version): Pc {
    if plan.cause.RecoverLanded? then ReadingBack(plan, version) else Ended(Completed(plan, version))
  }

  function Committed(w: World, p: Process, plan: Plan, written: Written): World
    requires written.Saved?
  {
    World(written.store,
          w.commits + [Commit(p, plan.cause, plan.mission, written.version, |w.store.events|, |written.store.events|)],
          w.processes[p := AfterSaved(plan, written.version)])
  }

  function Write(w: World, p: Process, plan: Plan, event: Option<LaneEvent>): World {
    var written := if event.Some? then SaveWithTransition(w.store, plan.mission, plan.expected, event.value)
                   else Save(w.store, plan.mission, plan.expected);
    match written
    case Saved(_, _) => Committed(w, p, plan, written)
    case Stale => To(w, p, Ended(Conflict))
    case Duplicate => To(w, p, if MayReplay(plan) then CheckingReplay(plan) else Ended(if plan.cause.Intake? then Conflict else Failed))
  }

  /** The outcome of a store call that threw. */
  function Thrown(pc: Pc): Outcome {
    if pc.Loading? && !pc.request.Recovery? then Unavailable else Failed
  }

  function AfterReply(w: World, p: Process, reply: Reply): World
    requires p in w.processes
  {
    match w.processes[p]
    case Loading(r) =>
      if !reply.Served? then w
      else if r.id in w.store.rows then To(w, p, AfterFound(r, w.store.rows[r.id])) else To(w, p, AfterMissing(r))
    case Probing(_) =>
      if reply.Merged? then To(w, p, Ended(if reply.merged then RefusedIntegrated else NothingToDo)) else w
    case ReadingHistory(r, row) => if reply.Served? then To(w, p, AfterHistory(r, row, w.store.events)) else w
    case ProvingLanded(r) => if reply.Landed? && r.Recovery? then To(w, p, AfterProof(r, reply.landing)) else w
    case Saving(plan) => if reply.Served? then Write(w, p, plan, plan.event) else w
    case CheckingReplay(plan) =>
      if !reply.Served? || plan.event.None? then w
      else To(w, p, if Replayed(w.store.events, plan.event.value) then Resaving(plan) else Ended(Conflict))
    case Resaving(plan) => if reply.Served? then Write(w, p, plan, None) else w
    case ReadingBack(plan, version) =>
      if !reply.Served? then w
      else
        var closed := plan.mission.id in w.store.rows && IsClosed(w.store.rows[plan.mission.id].mission);
        To(w, p, Ended(if closed then Completed(plan, version) else Unavailable))
    case Ended(_) => w
  }

  /** One atomic step of the world; an impossible move changes nothing. */
  function Step(w: World, move: Move): World {
    match move
    case Start(p, request) => if p in w.processes then w else To(w, p, Loading(request))
    case Resume(p, reply) =>
      if p !in w.processes || w.processes[p].Ended? then w
      else if reply.Throws? then To(w, p, Ended(Thrown(w.processes[p])))
      else AfterReply(w, p, reply)
  }

  function Execute(w: World, moves: seq<Move>): World {
    if moves == [] then w else Step(Execute(w, moves[..|moves| - 1]), moves[|moves| - 1])
  }

  const Empty := World(Store(map[], []), [], map[])

  // ---------------------------------------------------------------- the serial history

  /** The rows that committing these writes one after another leaves. */
  function RowsAfter(commits: seq<Commit>): map<Id, Row> {
    if commits == [] then map[]
    else
      var c := commits[|commits| - 1];
      RowsAfter(commits[..|commits| - 1])[c.mission.id := Row(c.mission, c.version)]
  }

  function ReadOf(rows: map<Id, Row>, id: Id): Option<Mission> {
    if id in rows then Some(rows[id].mission) else None
  }

  function VersionOf(rows: map<Id, Row>, id: Id): Version {
    if id in rows then rows[id].version else 0
  }

  /** No lost update: the write is its decision applied to the mission it replaced, one version on. */
  ghost predicate AppliesToPredecessor(commits: seq<Commit>, i: nat)
    requires i < |commits|
  {
    var rows := RowsAfter(commits[..i]);
    var c := commits[i];
    && Apply(c.cause, ReadOf(rows, c.mission.id)) == Some(c.mission)
    && c.version == VersionOf(rows, c.mission.id) + 1
  }

  /** An event that describes this change of lane. */
  predicate Describes(e: LaneEvent, c: Commit, from: Option<Status>) {
    e.mission == c.mission.id && e.from == from && e.to == c.mission.status && e.trigger == TriggerOf(c.cause)
  }

  function StatusOf(rows: map<Id, Row>, id: Id): Option<Status> {
    if id in rows then Some(rows[id].mission.status) else None
  }

  /** Every change of lane has a recorded event, at the latest committed with the change itself. */
  ghost predicate Witnessed(events: seq<LaneEvent>, commits: seq<Commit>, i: nat)
    requires i < |commits|
  {
    var c := commits[i];
    var from := StatusOf(RowsAfter(commits[..i]), c.mission.id);
    from != Some(c.mission.status) ==> exists k :: 0 <= k < c.after && k < |events| && Describes(events[k], c, from)
  }

  /** Recovery from done commits only while the history holds no integration of that mission. */
  ghost predicate RecoversUnintegrated(events: seq<LaneEvent>, commits: seq<Commit>, i: nat)
    requires i < |commits|
  {
    var c := commits[i];
    c.cause.RecoverDone? ==> forall k :: 0 <= k < c.before && k < |events| && events[k].mission == c.mission.id ==> !events[k].trigger.ByIntegrate?
  }

  ghost predicate SoundCommit(events: seq<LaneEvent>, commits: seq<Commit>, i: nat)
    requires i < |commits|
  {
    && AppliesToPredecessor(commits, i) && Witnessed(events, commits, i) && RecoversUnintegrated(events, commits, i)
    && commits[i].before <= commits[i].after <= |events|
  }

  ghost predicate UniqueKeys(events: seq<LaneEvent>) {
    forall i, j :: 0 <= i < j < |events| ==> events[i].repository != events[j].repository || events[i].key != events[j].key
  }

  // ---------------------------------------------------------------- invariant

  /** What was read is at most the current version, and is the current mission if nobody wrote since. */
  ghost predicate ReadOk(rows: map<Id, Row>, read: Mission, version: Version) {
    && read.id in rows && rows[read.id].version >= version
    && (rows[read.id].version == version ==> rows[read.id].mission == read)
  }

  ghost predicate EventOk(plan: Plan) {
    var from := if plan.read.Some? then Some(plan.read.value.status) else None;
    && (plan.event.Some? ==>
          && plan.event.value.mission == plan.mission.id && plan.event.value.from == from
          && plan.event.value.repository == plan.mission.repository
          && plan.event.value.to == plan.mission.status && plan.event.value.trigger == TriggerOf(plan.cause))
    && (plan.event.None? ==> from == Some(plan.mission.status))
  }

  ghost predicate PlanOk(s: Store, plan: Plan) {
    && Apply(plan.cause, plan.read) == Some(plan.mission)
    && (plan.read.Some? <==> plan.expected.Some?)
    && (plan.read.Some? ==> plan.read.value.id == plan.mission.id && ReadOk(s.rows, plan.read.value, plan.expected.value))
    && EventOk(plan)
    && (plan.cause.RecoverDone? && plan.expected.Some? && VersionOf(s.rows, plan.mission.id) == plan.expected.value ==>
          !Integrated(s.events, plan.mission.id))
  }

  ghost predicate PcOk(s: Store, pc: Pc) {
    match pc
    case Saving(plan) => PlanOk(s, plan)
    case CheckingReplay(plan) => PlanOk(s, plan) && plan.event.Some?
    case Resaving(plan) => PlanOk(s, plan) && plan.event.Some? && Replayed(s.events, plan.event.value)
    case ReadingHistory(r, row) => row.mission.status.Done? && ReadOk(s.rows, row.mission, row.version)
    case _ => true
  }

  ghost predicate RowsOk(s: Store) {
    forall id <- s.rows :: s.rows[id].mission.id == id && s.rows[id].version >= 1
  }

  ghost predicate HistoryOk(w: World) {
    && w.store.rows == RowsAfter(w.commits)
    && (forall i :: 0 <= i < |w.commits| ==> SoundCommit(w.store.events, w.commits, i))
    && UniqueKeys(w.store.events)
  }

  ghost predicate Inv(w: World) {
    RowsOk(w.store) && HistoryOk(w) && forall p <- w.processes :: PcOk(w.store, w.processes[p])
  }

  // ---------------------------------------------------------------- stores only grow

  ghost predicate Grows(s: Store, t: Store) {
    && (forall id <- s.rows :: id in t.rows && t.rows[id].version >= s.rows[id].version
                               && (t.rows[id].version == s.rows[id].version ==> t.rows[id] == s.rows[id]))
    && |s.events| <= |t.events| && t.events[..|s.events|] == s.events
    && (forall id <- s.rows :: t.rows[id].version == s.rows[id].version && Integrated(t.events, id) ==> Integrated(s.events, id))
  }

  lemma ReplayedLater(s: Store, t: Store, e: LaneEvent)
    requires Grows(s, t) && Replayed(s.events, e)
    ensures Replayed(t.events, e)
  {
    var i :| 0 <= i < |s.events| && s.events[i].mission == e.mission && s.events[i].key == e.key
      && s.events[i].trigger == e.trigger && s.events[i].from == e.from && s.events[i].to == e.to;
    assert t.events[i] == s.events[i];
  }

  lemma PcStaysOk(s: Store, t: Store, pc: Pc)
    requires Grows(s, t) && PcOk(s, pc)
    ensures PcOk(t, pc)
  {
    if pc.Resaving? { ReplayedLater(s, t, pc.plan.event.value); }
  }

  lemma IntegratedBefore(events: seq<LaneEvent>, e: LaneEvent, id: Id)
    requires Integrated(events + [e], id) && e.mission != id
    ensures Integrated(events, id)
  {
    var i :| 0 <= i < |events + [e]| && (events + [e])[i].mission == id && (events + [e])[i].trigger.ByIntegrate?;
    assert events[i].mission == id;
  }

  lemma SaveGrows(s: Store, m: Mission, expected: Option<Version>, e: Option<LaneEvent>)
    requires e.Some? ==> e.value.mission == m.id
    requires (if e.Some? then SaveWithTransition(s, m, expected, e.value) else Save(s, m, expected)).Saved?
    ensures var w := if e.Some? then SaveWithTransition(s, m, expected, e.value) else Save(s, m, expected);
      Grows(s, w.store)
  {
    var t := (if e.Some? then SaveWithTransition(s, m, expected, e.value) else Save(s, m, expected)).store;
    forall id <- s.rows | t.rows[id].version == s.rows[id].version && Integrated(t.events, id)
      ensures Integrated(s.events, id)
    {
      if e.Some? { IntegratedBefore(s.events, e.value, id); }
    }
  }

  // ---------------------------------------------------------------- a write extends the history soundly

  function WriteTo(s: Store, plan: Plan, event: Option<LaneEvent>): Written {
    if event.Some? then SaveWithTransition(s, plan.mission, plan.expected, event.value)
    else Save(s, plan.mission, plan.expected)
  }

  /** The event to commit is the planned one, unless the history already records it. */
  predicate MayWrite(s: Store, plan: Plan, event: Option<LaneEvent>) {
    event == plan.event || (event.None? && plan.event.Some? && Replayed(s.events, plan.event.value))
  }

  lemma ReadsPredecessor(s: Store, plan: Plan, event: Option<LaneEvent>)
    requires RowsOk(s) && PlanOk(s, plan) && WriteTo(s, plan, event).Saved?
    ensures ReadOf(s.rows, plan.mission.id) == plan.read
    ensures WriteTo(s, plan, event).version == VersionOf(s.rows, plan.mission.id) + 1
    ensures plan.expected.Some? ==> VersionOf(s.rows, plan.mission.id) == plan.expected.value
  {
  }

  function CommitOf(s: Store, p: Process, plan: Plan, event: Option<LaneEvent>): Commit
    requires WriteTo(s, plan, event).Saved?
  {
    var written := WriteTo(s, plan, event);
    Commit(p, plan.cause, plan.mission, written.version, |s.events|, |written.store.events|)
  }

  lemma NewCommitWitnessed(s: Store, commits: seq<Commit>, p: Process, plan: Plan, event: Option<LaneEvent>)
    requires RowsOk(s) && s.rows == RowsAfter(commits)
    requires PlanOk(s, plan) && MayWrite(s, plan, event) && WriteTo(s, plan, event).Saved?
    ensures Witnessed(WriteTo(s, plan, event).store.events, commits + [CommitOf(s, p, plan, event)], |commits|)
  {
    ReadsPredecessor(s, plan, event);
    var c := CommitOf(s, p, plan, event);
    assert (commits + [c])[..|commits|] == commits;
    if StatusOf(s.rows, c.mission.id) != Some(c.mission.status) { DescribedByEvent(s, p, plan, event); }
  }

  /** A write that moves the lane has its event, just appended or recorded before. */
  lemma DescribedByEvent(s: Store, p: Process, plan: Plan, event: Option<LaneEvent>)
    requires EventOk(plan) && MayWrite(s, plan, event) && WriteTo(s, plan, event).Saved?
    requires ReadOf(s.rows, plan.mission.id) == plan.read
    requires StatusOf(s.rows, plan.mission.id) != Some(plan.mission.status)
    ensures var c := CommitOf(s, p, plan, event);
      var events := WriteTo(s, plan, event).store.events;
      exists k :: 0 <= k < c.after && k < |events| && Describes(events[k], c, StatusOf(s.rows, plan.mission.id))
  {
    var c := CommitOf(s, p, plan, event);
    var events := WriteTo(s, plan, event).store.events;
    var from := StatusOf(s.rows, plan.mission.id);
    if event.Some? {
      assert Describes(events[|s.events|], c, from);
    } else {
      var e := plan.event.value;
      var k :| 0 <= k < |s.events| && s.events[k].mission == e.mission && s.events[k].key == e.key
        && s.events[k].trigger == e.trigger && s.events[k].from == e.from && s.events[k].to == e.to;
      assert Describes(events[k], c, from);
    }
  }

  lemma NewCommitSound(s: Store, commits: seq<Commit>, p: Process, plan: Plan, event: Option<LaneEvent>)
    requires RowsOk(s) && s.rows == RowsAfter(commits)
    requires PlanOk(s, plan) && MayWrite(s, plan, event) && WriteTo(s, plan, event).Saved?
    ensures SoundCommit(WriteTo(s, plan, event).store.events, commits + [CommitOf(s, p, plan, event)], |commits|)
  {
    NewCommitWitnessed(s, commits, p, plan, event);
    ReadsPredecessor(s, plan, event);
    var c := CommitOf(s, p, plan, event);
    var t := WriteTo(s, plan, event).store;
    assert (commits + [c])[..|commits|] == commits;
    forall k | c.cause.RecoverDone? && 0 <= k < c.before && k < |t.events| && t.events[k].mission == c.mission.id
      ensures !t.events[k].trigger.ByIntegrate?
    {
      assert t.events[k] == s.events[k];
    }
  }

  lemma OldCommitsSound(s: Store, t: Store, commits: seq<Commit>, c: Commit, i: nat)
    requires Grows(s, t) && i < |commits| && SoundCommit(s.events, commits, i)
    ensures SoundCommit(t.events, commits + [c], i)
  {
    assert (commits + [c])[..i] == commits[..i];
    var d := commits[i];
    var from := StatusOf(RowsAfter(commits[..i]), d.mission.id);
    assert forall k :: 0 <= k < |s.events| ==> t.events[k] == s.events[k];
    if from != Some(d.mission.status) {
      var k :| 0 <= k < d.after && k < |s.events| && Describes(s.events[k], d, from);
      assert Describes(t.events[k], d, from);
    }
  }

  lemma KeysStayUnique(s: Store, plan: Plan, event: Option<LaneEvent>)
    requires UniqueKeys(s.events) && WriteTo(s, plan, event).Saved?
    ensures UniqueKeys(WriteTo(s, plan, event).store.events)
  {
    var t := WriteTo(s, plan, event).store;
    forall i, j | 0 <= i < j < |t.events|
      ensures t.events[i].repository != t.events[j].repository || t.events[i].key != t.events[j].key
    {
      if event.Some? && j == |s.events| { assert !Recorded(s.events, event.value.repository, event.value.key); }
    }
  }

  lemma CommittedKeepsHistory(w: World, p: Process, plan: Plan, event: Option<LaneEvent>)
    requires RowsOk(w.store) && HistoryOk(w)
    requires PlanOk(w.store, plan) && MayWrite(w.store, plan, event) && WriteTo(w.store, plan, event).Saved?
    ensures HistoryOk(Committed(w, p, plan, WriteTo(w.store, plan, event)))
  {
    var s, t := w.store, WriteTo(w.store, plan, event).store;
    var c := CommitOf(s, p, plan, event);
    SaveGrows(s, plan.mission, plan.expected, event);
    NewCommitSound(s, w.commits, p, plan, event);
    KeysStayUnique(s, plan, event);
    assert (w.commits + [c])[..|w.commits|] == w.commits;
    AllCommitsSound(s, t, w.commits, c);
  }

  lemma AllCommitsSound(s: Store, t: Store, commits: seq<Commit>, c: Commit)
    requires Grows(s, t) && (forall i :: 0 <= i < |commits| ==> SoundCommit(s.events, commits, i))
    requires SoundCommit(t.events, commits + [c], |commits|)
    ensures forall i :: 0 <= i < |commits + [c]| ==> SoundCommit(t.events, commits + [c], i)
  {
    forall i | 0 <= i < |commits + [c]| ensures SoundCommit(t.events, commits + [c], i) {
      if i < |commits| { OldCommitsSound(s, t, commits, c, i); }
    }
  }

  lemma CommittedKeepsInv(w: World, p: Process, plan: Plan, event: Option<LaneEvent>)
    requires Inv(w) && PlanOk(w.store, plan) && MayWrite(w.store, plan, event) && WriteTo(w.store, plan, event).Saved?
    ensures Inv(Committed(w, p, plan, WriteTo(w.store, plan, event)))
  {
    CommittedKeepsHistory(w, p, plan, event);
    var v := Committed(w, p, plan, WriteTo(w.store, plan, event));
    SaveGrows(w.store, plan.mission, plan.expected, event);
    forall q <- v.processes ensures PcOk(v.store, v.processes[q]) {
      if q != p { PcStaysOk(w.store, v.store, w.processes[q]); }
    }
  }

  lemma MovedKeepsInv(w: World, p: Process, pc: Pc)
    requires Inv(w) && PcOk(w.store, pc)
    ensures Inv(To(w, p, pc))
  {
    var v := To(w, p, pc);
    assert HistoryOk(v);
  }

  lemma WriteKeepsInv(w: World, p: Process, plan: Plan, event: Option<LaneEvent>)
    requires Inv(w) && PlanOk(w.store, plan) && MayWrite(w.store, plan, event)
    ensures Inv(Write(w, p, plan, event))
  {
    match WriteTo(w.store, plan, event)
    case Saved(_, _) => CommittedKeepsInv(w, p, plan, event);
    case Stale => MovedKeepsInv(w, p, Ended(Conflict));
    case Duplicate =>
      MovedKeepsInv(w, p, CheckingReplay(plan));
      MovedKeepsInv(w, p, Ended(if plan.cause.Intake? then Conflict else Failed));
  }

  // ---------------------------------------------------------------- plans are made from what was read

  lemma PlanDecisionOk(s: Store, r: Request, row: Row)
    requires RowsOk(s) && r.Decision? && row.mission.id in s.rows && s.rows[row.mission.id] == row
    ensures PcOk(s, PlanDecision(r, row))
  {
    if Decide(row.mission, r.command).Some? {
      IdentityKept(row.mission, r.command);
      if Decide(row.mission, r.command).value.status != row.mission.status {
        EveryLaneChangeHasTrigger(row.mission, r.command);
      }
    }
  }

  lemma PlanRecoveryOk(s: Store, row: Row, cause: Cause, at: string)
    requires cause.RecoverRefined? || cause.RecoverDone?
    requires ReadOk(s.rows, row.mission, row.version)
    requires cause.RecoverDone? ==> !Integrated(s.events, row.mission.id)
    ensures PcOk(s, PlanRecovery(row, cause, at))
  {
  }

  lemma AfterFoundOk(s: Store, r: Request)
    requires RowsOk(s) && r.id in s.rows
    ensures PcOk(s, AfterFound(r, s.rows[r.id]))
  {
    var row := s.rows[r.id];
    if r.Decision? { PlanDecisionOk(s, r, row); }
    else if r.Recovery? && row.mission.status.Refined? { PlanRecoveryOk(s, row, RecoverRefined, r.at); }
  }

  lemma LoadedOk(w: World, p: Process, r: Request)
    requires Inv(w)
    ensures Inv(To(w, p, if r.id in w.store.rows then AfterFound(r, w.store.rows[r.id]) else AfterMissing(r)))
  {
    if r.id in w.store.rows { AfterFoundOk(w.store, r); }
    MovedKeepsInv(w, p, if r.id in w.store.rows then AfterFound(r, w.store.rows[r.id]) else AfterMissing(r));
  }

  lemma HistoryReadOk(w: World, p: Process, r: Request, row: Row)
    requires Inv(w) && ReadOk(w.store.rows, row.mission, row.version) && row.mission.status.Done?
    ensures Inv(To(w, p, AfterHistory(r, row, w.store.events)))
  {
    if !Integrated(w.store.events, row.mission.id) {
      PlanRecoveryOk(w.store, row, RecoverDone, if r.Recovery? then r.at else "");
    }
    MovedKeepsInv(w, p, AfterHistory(r, row, w.store.events));
  }

  lemma ReplyKeepsInv(w: World, p: Process, reply: Reply)
    requires Inv(w) && p in w.processes
    ensures Inv(AfterReply(w, p, reply))
  {
    var v := AfterReply(w, p, reply);
    assert PcOk(w.store, w.processes[p]);
    match w.processes[p]
    case Loading(r) => if reply.Served? { LoadedOk(w, p, r); }
    case ReadingHistory(r, row) => if reply.Served? { HistoryReadOk(w, p, r, row); }
    case Saving(plan) => if reply.Served? { WriteKeepsInv(w, p, plan, plan.event); }
    case Resaving(plan) => if reply.Served? { WriteKeepsInv(w, p, plan, None); }
    case Ended(_) =>
    case _ => if v != w { MovedKeepsInv(w, p, v.processes[p]); }
  }

  lemma StepKeepsInv(w: World, move: Move)
    requires Inv(w)
    ensures Inv(Step(w, move))
  {
    match move
    case Start(p, request) => if p !in w.processes { MovedKeepsInv(w, p, Loading(request)); }
    case Resume(p, reply) =>
      if p in w.processes && !w.processes[p].Ended? {
        if reply.Throws? { MovedKeepsInv(w, p, Ended(Thrown(w.processes[p]))); } else { ReplyKeepsInv(w, p, reply); }
      }
  }

  lemma {:induction false} RunKeepsInv(moves: seq<Move>)
    ensures Inv(Execute(Empty, moves))
  {
    if moves != [] {
      RunKeepsInv(moves[..|moves| - 1]);
      StepKeepsInv(Execute(Empty, moves[..|moves| - 1]), moves[|moves| - 1]);
    }
  }

  // ---------------------------------------------------------------- every event belongs to a write

  /** The write that committed event `k` made exactly the change of lane the event describes. */
  ghost predicate Owned(events: seq<LaneEvent>, commits: seq<Commit>, k: nat)
    requires k < |events|
  {
    exists i :: 0 <= i < |commits| && Records(events, commits, k, i)
  }

  ghost predicate Records(events: seq<LaneEvent>, commits: seq<Commit>, k: nat, i: nat)
    requires k < |events| && i < |commits|
  {
    && commits[i].before == k && commits[i].after == k + 1
    && Describes(events[k], commits[i], StatusOf(RowsAfter(commits[..i]), commits[i].mission.id))
  }

  ghost predicate AllOwned(w: World) {
    forall k :: 0 <= k < |w.store.events| ==> Owned(w.store.events, w.commits, k)
  }

  lemma OwnedLater(events: seq<LaneEvent>, more: seq<LaneEvent>, commits: seq<Commit>, c: Commit, k: nat)
    requires k < |events| && Owned(events, commits, k)
    ensures Owned(events + more, commits + [c], k)
  {
    var i :| 0 <= i < |commits| && Records(events, commits, k, i);
    assert (commits + [c])[..i] == commits[..i];
    assert Records(events + more, commits + [c], k, i);
  }

  lemma CommittedKeepsOwned(w: World, p: Process, plan: Plan, event: Option<LaneEvent>)
    requires Inv(w) && AllOwned(w)
    requires PlanOk(w.store, plan) && MayWrite(w.store, plan, event) && WriteTo(w.store, plan, event).Saved?
    ensures AllOwned(Committed(w, p, plan, WriteTo(w.store, plan, event)))
  {
    ReadsPredecessor(w.store, plan, event);
    var c := CommitOf(w.store, p, plan, event);
    var more := if event.Some? then [event.value] else [];
    assert WriteTo(w.store, plan, event).store.events == w.store.events + more;
    forall k | 0 <= k < |w.store.events + more| ensures Owned(w.store.events + more, w.commits + [c], k) {
      if k < |w.store.events| {
        OwnedLater(w.store.events, more, w.commits, c, k);
      } else {
        assert (w.commits + [c])[..|w.commits|] == w.commits;
        assert Records(w.store.events + more, w.commits + [c], k, |w.commits|);
      }
    }
  }

  lemma WriteKeepsOwned(w: World, p: Process, plan: Plan, event: Option<LaneEvent>)
    requires Inv(w) && AllOwned(w) && PlanOk(w.store, plan) && MayWrite(w.store, plan, event)
    ensures AllOwned(Write(w, p, plan, event))
  {
    if WriteTo(w.store, plan, event).Saved? { CommittedKeepsOwned(w, p, plan, event); }
  }

  lemma StepKeepsOwned(w: World, move: Move)
    requires Inv(w) && AllOwned(w)
    ensures AllOwned(Step(w, move))
  {
    if move.Resume? && move.process in w.processes {
      var pc := w.processes[move.process];
      assert PcOk(w.store, pc);
      if pc.Saving? { WriteKeepsOwned(w, move.process, pc.plan, pc.plan.event); }
      else if pc.Resaving? { WriteKeepsOwned(w, move.process, pc.plan, None); }
    }
  }

  lemma {:induction false} RunKeepsOwned(moves: seq<Move>)
    ensures AllOwned(Execute(Empty, moves))
  {
    if moves != [] {
      var earlier := moves[..|moves| - 1];
      RunKeepsInv(earlier);
      RunKeepsOwned(earlier);
      StepKeepsOwned(Execute(Empty, earlier), moves[|moves| - 1]);
    }
  }

  // ---------------------------------------------------------------- main results

  /**
   * Under any interleaving of transitions, integrations, closings, edits, intakes and recoveries, and
   * any failing store call: the store is the serial history of its writes, no write overwrites one it
   * did not read, event keys are unique, every change of lane is witnessed, and no event is invented.
   */
  lemma VersionedHistory(moves: seq<Move>)
    ensures var w := Execute(Empty, moves);
      && w.store.rows == RowsAfter(w.commits)
      && (forall i :: 0 <= i < |w.commits| ==>
            && AppliesToPredecessor(w.commits, i) && Witnessed(w.store.events, w.commits, i))
      && UniqueKeys(w.store.events)
      && (forall k :: 0 <= k < |w.store.events| ==> Owned(w.store.events, w.commits, k))
  {
    RunKeepsInv(moves);
    RunKeepsOwned(moves);
    var w := Execute(Empty, moves);
    forall i | 0 <= i < |w.commits|
      ensures AppliesToPredecessor(w.commits, i) && Witnessed(w.store.events, w.commits, i)
    {
      assert SoundCommit(w.store.events, w.commits, i);
    }
  }

  /**
   * A recovery that reopens a finished mission commits only while no integration of that mission is
   * recorded, whoever integrates between its load, its read of the history and its write.
   */
  lemma RecoveryNeverUndoesIntegration(moves: seq<Move>, i: nat, k: nat)
    requires i < |Execute(Empty, moves).commits| && Execute(Empty, moves).commits[i].cause.RecoverDone?
    requires k < Execute(Empty, moves).commits[i].before
    ensures var w := Execute(Empty, moves);
      && k < |w.store.events|
      && (w.store.events[k].mission == w.commits[i].mission.id ==> !w.store.events[k].trigger.ByIntegrate?)
  {
    RunKeepsInv(moves);
    var w := Execute(Empty, moves);
    assert SoundCommit(w.store.events, w.commits, i);
  }

  /** A mission the board shows as done was integrated on record, or proven landed by recovery. */
  ghost predicate DoneOnRecord(w: World, id: Id) {
    exists k :: 0 <= k < |w.store.events| && w.store.events[k].mission == id
      && w.store.events[k].to.Done? && (w.store.events[k].trigger.ByIntegrate? || w.store.events[k].trigger.ByClose?)
  }

  lemma DoneCauses(cause: Cause, read: Option<Mission>)
    requires Apply(cause, read).Some? && Apply(cause, read).value.status.Done?
    ensures (read.Some? && read.value.status.Done?) || TriggerOf(cause).ByIntegrate? || TriggerOf(cause).ByClose?
  {
    if cause.Transition? && read.Some? { DoneOnlyByIntegration(read.value, cause.command); }
  }

  lemma {:induction false} DoneIsOnRecordAfter(w: World, n: nat, id: Id)
    requires HistoryOk(w) && n <= |w.commits|
    requires id in RowsAfter(w.commits[..n]) && RowsAfter(w.commits[..n])[id].mission.status.Done?
    ensures DoneOnRecord(w, id)
  {
    assert w.commits[..0] == [];
    var i := n - 1;
    assert w.commits[..n][..i] == w.commits[..i];
    var c := w.commits[i];
    assert SoundCommit(w.store.events, w.commits, i);
    var rows := RowsAfter(w.commits[..i]);
    if c.mission.id != id || (id in rows && rows[id].mission.status.Done?) {
      DoneIsOnRecordAfter(w, i, id);
    } else {
      DoneCauses(c.cause, ReadOf(rows, id));
      var k :| 0 <= k < c.after && k < |w.store.events| && Describes(w.store.events[k], c, StatusOf(rows, id));
      assert w.store.events[k].mission == id;
    }
  }

  lemma DoneMissionsAreOnRecord(moves: seq<Move>, id: Id)
    requires id in Execute(Empty, moves).store.rows && Execute(Empty, moves).store.rows[id].mission.status.Done?
    ensures DoneOnRecord(Execute(Empty, moves), id)
  {
    RunKeepsInv(moves);
    var w := Execute(Empty, moves);
    assert w.commits[..|w.commits|] == w.commits;
    DoneIsOnRecordAfter(w, |w.commits|, id);
  }

  // ---------------------------------------------------------------- other writers

  lemma WriteGrows(w: World, p: Process, plan: Plan, event: Option<LaneEvent>)
    requires event.Some? ==> event.value.mission == plan.mission.id
    ensures Grows(w.store, Write(w, p, plan, event).store)
  {
    if WriteTo(w.store, plan, event).Saved? { SaveGrows(w.store, plan.mission, plan.expected, event); }
  }

  lemma ReplyGrows(w: World, p: Process, reply: Reply)
    requires Inv(w) && p in w.processes
    ensures Grows(w.store, AfterReply(w, p, reply).store)
  {
    var pc := w.processes[p];
    assert PcOk(w.store, pc);
    if pc.Saving? { WriteGrows(w, p, pc.plan, pc.plan.event); }
    else if pc.Resaving? { WriteGrows(w, p, pc.plan, None); }
    else { assert AfterReply(w, p, reply).store == w.store; }
  }

  /** Whatever a step does, versions and history only grow, and an unchanged version is an unchanged mission. */
  lemma StepGrows(w: World, move: Move)
    requires Inv(w)
    ensures Grows(w.store, Step(w, move).store)
  {
    if move.Resume? && move.process in w.processes && !move.reply.Throws? { ReplyGrows(w, move.process, move.reply); }
  }

  lemma ForeignKeepsPc(w: World, p: Process, move: Move)
    requires p in w.processes && move.process != p
    ensures p in Step(w, move).processes && Step(w, move).processes[p] == w.processes[p]
  {
  }

  // ---------------------------------------------------------------- events stay with their missions

  /** The mission of every event exists, in the repository of the event. */
  ghost predicate EventsPlaced(s: Store) {
    forall i :: 0 <= i < |s.events| ==>
      s.events[i].mission in s.rows && s.rows[s.events[i].mission].mission.repository == s.events[i].repository
  }

  lemma DecisionsKeepRepository(cause: Cause, m: Mission)
    requires Apply(cause, Some(m)).Some?
    ensures Apply(cause, Some(m)).value.repository == m.repository
  {
    if cause.Transition? { IdentityKept(m, cause.command); }
  }

  lemma WriteKeepsPlaced(s: Store, plan: Plan, event: Option<LaneEvent>)
    requires RowsOk(s) && EventsPlaced(s) && PlanOk(s, plan) && MayWrite(s, plan, event) && WriteTo(s, plan, event).Saved?
    ensures EventsPlaced(WriteTo(s, plan, event).store)
  {
    var t := WriteTo(s, plan, event).store;
    ReadsPredecessor(s, plan, event);
    if plan.read.Some? { DecisionsKeepRepository(plan.cause, plan.read.value); }
    forall i | 0 <= i < |t.events|
      ensures t.events[i].mission in t.rows && t.rows[t.events[i].mission].mission.repository == t.events[i].repository
    {
      if i < |s.events| { assert t.events[i] == s.events[i]; }
    }
  }

  lemma StepKeepsPlaced(w: World, move: Move)
    requires Inv(w) && EventsPlaced(w.store)
    ensures EventsPlaced(Step(w, move).store)
  {
    if move.Resume? && move.process in w.processes {
      var pc := w.processes[move.process];
      assert PcOk(w.store, pc);
      if pc.Saving? && WriteTo(w.store, pc.plan, pc.plan.event).Saved? { WriteKeepsPlaced(w.store, pc.plan, pc.plan.event); }
      else if pc.Resaving? && WriteTo(w.store, pc.plan, None).Saved? { WriteKeepsPlaced(w.store, pc.plan, None); }
    }
  }

  /** A key that is taken by another transition stays so: nothing can record this one under it any more. */
  lemma TakenKeyStaysTaken(s: Store, t: Store, e: LaneEvent)
    requires Grows(s, t) && EventsPlaced(t) && UniqueKeys(t.events)
    requires e.mission in s.rows && Recorded(s.events, e.repository, e.key) && !Replayed(s.events, e)
    requires t.rows[e.mission].mission.repository == e.repository
    ensures !Replayed(t.events, e)
  {
    var i :| 0 <= i < |s.events| && s.events[i].repository == e.repository && s.events[i].key == e.key;
    assert t.events[i] == s.events[i];
    assert forall j :: 0 <= j < |t.events| && t.events[j].mission == e.mission && t.events[j].key == e.key ==> j == i;
  }
}
