/**
 * The landing protocol: any number of `px integrate` processes rebase, gate and publish mission
 * branches onto one shared base.
 *
 * A process is a sequence of atomic segments, one for the code between two awaits. Everything the
 * code awaits (git, gates, agents, lock service) is the `Answer` of the move that resumes it. People and
 * agents commit to mission branches whenever they like, whether or not the mission is being integrated.
 */
module MergeQueue {
  import opened Prelude

  type Mission = string
  type Process = nat

  const LANDING_ATTEMPTS: nat := 3

  /** The tip of a mission branch: how many base commits it contains, and which commit it is. */
  datatype Candidate = Candidate(base: nat, commit: nat)

  /** Which rebase-and-gate round of a run this is. */
  datatype Stage = First | Recheck | Attempt(index: nat)

  datatype Landing = Landed | BaseMoved | Aborted

  /** Why a run may end well without landing anything. */
  datatype Reason = ForHuman | AlreadyLanded

  /** Where a run is suspended; gates run on the tree captured when they start. */
  datatype Phase =
    | Preparing
    | Rebasing(stage: Stage)
    | Gating(stage: Stage, tree: Candidate)
    | Restoring
    | Claiming(attempt: nat)
    | Publishing(attempt: nat)
    | Closing(attempt: nat)
    | Releasing(attempt: nat, landing: Landing)
    | Recovering(attempt: nat)
    | Ending(exit: nat)
    | Ended(exit: nat)

  datatype Run = Run(mission: Mission, dryRun: bool, phase: Phase)

  datatype Event =
    | Rebased(process: Process, onTip: bool)
    | Gated(process: Process, candidate: Candidate, repaired: bool)
    | Checked(process: Process)
    | FoundMoved(process: Process)
    | Published(process: Process, mission: Mission, candidate: Candidate, repaired: bool)
    | Resumed(process: Process)
    | Closed(process: Process)
    | StashLost(process: Process)
    | Stopped(process: Process, reason: Reason)
    | EffectFailed(process: Process)
    | TurnedAway(process: Process)
    | BaseAdvanced
    | Developed(mission: Mission, onTip: bool)

  /** `commits` numbers every commit made so far, so a new commit is told from all others. */
  datatype World = World(
    exclusive: bool,
    tip: nat,
    commits: nat,
    branches: map<Mission, Candidate>,
    holder: Option<Process>,
    claims: map<Mission, Process>,
    runs: map<Process, Run>,
    trace: seq<Event>)

  /** The outcome of the effect a suspended run awaits; a repair is an agent's new commit. */
  datatype Answer = Ok(candidate: Candidate) | Repaired | StashFails | Settled(reason: Reason) | Fail

  datatype Move =
    | Start(process: Process, mission: Mission, dryRun: bool)
    | Resume(process: Process, answer: Answer)
    | AdvanceBase
    | Develop(mission: Mission, candidate: Candidate)

  // ---------------------------------------------------------------- steps

  function At(w: World, p: Process, phase: Phase): World
    requires p in w.runs
  {
    w.(runs := w.runs[p := w.runs[p].(phase := phase)])
  }

  function Log(w: World, e: Event): World {
    w.(trace := w.trace + [e])
  }

  /** The base is not an ancestor of the mission branch, so a rebase is needed. */
  predicate RebaseNeeded(w: World, m: Mission) {
    m in w.branches && w.branches[m].base != w.tip
  }

  function SetBranch(w: World, m: Mission, c: Candidate): World {
    w.(branches := w.branches[m := c], commits := if c.commit == w.commits then w.commits + 1 else w.commits)
  }

  /** A branch tip that work on `m` can leave: the tip it was, or a new commit on at least the same base. */
  predicate Reachable(w: World, m: Mission, c: Candidate) {
    m in w.branches && (c == w.branches[m] || (c.commit == w.commits && w.branches[m].base <= c.base <= w.tip))
  }

  /** The rebase workflow returned; it must have ended on the tip as it now is. */
  function FinishRebase(w: World, p: Process, stage: Stage, c: Candidate): World
    requires p in w.runs
  {
    var moved := Log(SetBranch(w, w.runs[p].mission, c), Rebased(p, c.base == w.tip));
    At(moved, p, if c.base == w.tip then Gating(stage, c) else Ending(1))
  }

  /** The suspension point after gates passed. */
  function AfterGates(w: World, m: Mission, stage: Stage): Phase {
    match stage
    case First => if RebaseNeeded(w, m) then Rebasing(Recheck) else Restoring
    case Recheck => Restoring
    case Attempt(i) => Recovering(i)
  }

  /** The gates passed on the tree they were started on, whatever the branch has become. */
  function PassGates(w: World, p: Process, stage: Stage, tree: Candidate): World
    requires p in w.runs
  {
    At(Log(w, Gated(p, tree, false)), p, AfterGates(w, w.runs[p].mission, stage))
  }

  /** An agent repaired the mission with a new commit, and the same gates passed on that. */
  function PassRepaired(w: World, p: Process, stage: Stage): World
    requires p in w.runs && w.runs[p].mission in w.branches
  {
    var m := w.runs[p].mission;
    var c := Candidate(w.branches[m].base, w.commits);
    var repaired := SetBranch(w, m, c);
    At(Log(repaired, Gated(p, c, true)), p, AfterGates(repaired, m, stage))
  }

  function Stop(w: World, p: Process, reason: Reason): World
    requires p in w.runs
  {
    At(Log(w, Stopped(p, reason)), p, Ending(0))
  }

  /** Base exclusion was granted: check under it, and publish only on the current tip. */
  function EnterBase(w: World, p: Process, i: nat): World
    requires p in w.runs
  {
    var held := if w.exclusive then w.(holder := Some(p)) else w;
    if RebaseNeeded(w, w.runs[p].mission) then At(Log(held, FoundMoved(p)), p, Releasing(i, BaseMoved))
    else At(Log(held, Checked(p)), p, Publishing(i))
  }

  /** The squash commit of the branch as it now is; a repaired hook failure commits another payload. */
  function Publish(w: World, p: Process, i: nat, repaired: bool): World
    requires p in w.runs && w.runs[p].mission in w.branches
  {
    var m := w.runs[p].mission;
    var c := w.branches[m];
    var payload := if repaired then Candidate(c.base, w.commits) else c;
    At(Log(w, Published(p, m, payload, repaired))
         .(tip := w.tip + 1, commits := if repaired then w.commits + 1 else w.commits), p, Closing(i))
  }

  function LeaveBase(w: World, p: Process, i: nat, landing: Landing): World
    requires p in w.runs
  {
    var free := if w.holder == Some(p) then w.(holder := None) else w;
    At(free, p,
       match landing
       case Landed => Ending(0)
       case Aborted => Ending(1)
       case BaseMoved => Rebasing(Attempt(i)))
  }

  /** The base is released, but the stashed checkout changes could not be restored. */
  function LoseStash(w: World, p: Process): World
    requires p in w.runs
  {
    var free := if w.holder == Some(p) then w.(holder := None) else w;
    At(Log(free, StashLost(p)), p, Ending(1))
  }

  function ReleaseClaim(w: World, p: Process, exit: nat): World
    requires p in w.runs
  {
    At(w.(claims := w.claims - {w.runs[p].mission}), p, Ended(exit))
  }

  function ResumeOk(w: World, p: Process, c: Candidate): World
    requires p in w.runs && w.runs[p].mission in w.branches
  {
    var r := w.runs[p];
    match r.phase
    case Preparing => At(w, p, if r.dryRun then Gating(First, w.branches[r.mission]) else Rebasing(First))
    case Rebasing(stage) => if Reachable(w, r.mission, c) then FinishRebase(w, p, stage, c) else w
    case Gating(stage, tree) => if r.dryRun then At(w, p, Ending(0)) else PassGates(w, p, stage, tree)
    case Restoring => At(w, p, Claiming(0))
    case Claiming(i) => if w.exclusive && w.holder.Some? then w else EnterBase(w, p, i)
    case Publishing(i) => Publish(w, p, i, false)
    case Closing(i) => At(Log(w, Closed(p)), p, Releasing(i, Landed))
    case Releasing(i, landing) => LeaveBase(w, p, i, landing)
    case Recovering(i) => At(w, p, if i + 1 < LANDING_ATTEMPTS then Claiming(i + 1) else Ending(1))
    case Ending(exit) => ReleaseClaim(w, p, exit)
    case Ended(_) => w
  }

  function ResumeRepaired(w: World, p: Process): World
    requires p in w.runs && w.runs[p].mission in w.branches
  {
    match w.runs[p].phase
    case Gating(stage, _) => if w.runs[p].dryRun then w else PassRepaired(w, p, stage)
    case Publishing(i) => Publish(w, p, i, true)
    case _ => w
  }

  /** A run that ends well without landing: for a human to continue, or because the mission already landed. */
  function ResumeSettled(w: World, p: Process, reason: Reason): World
    requires p in w.runs
  {
    var r := w.runs[p];
    match r.phase
    case Preparing => if reason.ForHuman? && r.dryRun then w else Stop(w, p, reason)
    case Gating(_, _) => if reason.ForHuman? && !r.dryRun then Stop(w, p, reason) else w
    case Publishing(i) => if reason.AlreadyLanded? then At(Log(w, Resumed(p)), p, Closing(i)) else w
    case _ => w
  }

  /** The awaited effect failed: under base exclusion the exclusion is released first. */
  function ResumeFailed(w: World, p: Process): World
    requires p in w.runs
  {
    var v := Log(w, EffectFailed(p));
    match w.runs[p].phase
    case Publishing(i) => At(v, p, Releasing(i, Aborted))
    case Closing(i) => At(v, p, Releasing(i, Aborted))
    case Releasing(_, _) => w
    case Ending(_) => w
    case Ended(_) => w
    case _ => At(v, p, Ending(1))
  }

  function ResumeWith(w: World, p: Process, answer: Answer): World
    requires p in w.runs && w.runs[p].mission in w.branches
  {
    match answer
    case Ok(c) => ResumeOk(w, p, c)
    case Repaired => ResumeRepaired(w, p)
    case StashFails => if w.runs[p].phase.Releasing? && w.runs[p].phase.landing.Landed? then LoseStash(w, p) else w
    case Settled(reason) => ResumeSettled(w, p, reason)
    case Fail => ResumeFailed(w, p)
  }

  /** Somebody commits to the branch, or moves it anywhere on the base's history. */
  function Commit(w: World, m: Mission, c: Candidate): World {
    if m !in w.branches || c.commit != w.commits || c.base > w.tip then w
    else Log(SetBranch(w, m, c), Developed(m, c.base == w.tip))
  }

  /** One atomic segment. A move that is not possible in `w` changes nothing. */
  function Step(w: World, move: Move): World {
    match move
    case Start(p, m, dry) =>
      if p in w.runs || m !in w.branches then w
      else if m in w.claims then Log(w, TurnedAway(p)).(runs := w.runs[p := Run(m, dry, Ended(1))])
      else w.(runs := w.runs[p := Run(m, dry, Preparing)], claims := w.claims[m := p])
    case Resume(p, answer) =>
      if p !in w.runs || w.runs[p].mission !in w.branches then w else ResumeWith(w, p, answer)
    case AdvanceBase =>
      if w.exclusive && w.holder.Some? then w else Log(w.(tip := w.tip + 1), BaseAdvanced)
    case Develop(m, c) => Commit(w, m, c)
  }

  function Execute(w: World, moves: seq<Move>): World
    decreases |moves|
  {
    if moves == [] then w else Step(Execute(w, moves[..|moves| - 1]), moves[|moves| - 1])
  }

  // ---------------------------------------------------------------- reading a trace

  /**
   * What a trace says of one process and its mission. `dirty`: somebody committed to the branch since the
   * tree of the last gates was taken. `behind`: since the last check under base exclusion, somebody left
   * the branch off the tip. `moved`: how often the base was found moved under exclusion. `failed`: an effect
   * failed, or the rebase did not end on the tip, or the mission was claimed by another run.
   */
  datatype Deeds = Deeds(
    certified: Option<Candidate>, dirty: bool, behind: bool, gates: nat, rebases: nat, landings: nat,
    resumed: bool, closed: bool, lost: bool, stopped: bool, moved: nat, failed: bool)

  const NoDeeds := Deeds(None, false, false, 0, 0, 0, false, false, false, false, 0, false)

  predicate Anonymous(e: Event) { e.BaseAdvanced? || e.Developed? }

  function AddOwn(d: Deeds, e: Event): Deeds {
    match e
    case Rebased(_, onTip) => d.(rebases := d.rebases + 1, dirty := false, failed := d.failed || !onTip)
    case Gated(_, c, repaired) => d.(certified := Some(c), gates := d.gates + 1, dirty := d.dirty && !repaired)
    case Checked(_) => d.(behind := false)
    case FoundMoved(_) => d.(moved := d.moved + 1)
    case Published(_, _, _, _) => d.(landings := d.landings + 1)
    case Resumed(_) => d.(resumed := true)
    case Closed(_) => d.(closed := true)
    case StashLost(_) => d.(lost := true)
    case Stopped(_, _) => d.(stopped := true)
    case EffectFailed(_) => d.(failed := true)
    case TurnedAway(_) => d.(failed := true)
    case _ => d
  }

  function Add(d: Deeds, e: Event, p: Process, m: Mission): Deeds {
    if e.BaseAdvanced? then d
    else if e.Developed? then if e.mission == m then d.(dirty := true, behind := !e.onTip) else d
    else if e.process == p then AddOwn(d, e) else d
  }

  function DeedsOf(trace: seq<Event>, p: Process, m: Mission): Deeds {
    if trace == [] then NoDeeds else Add(DeedsOf(trace[..|trace| - 1], p, m), trace[|trace| - 1], p, m)
  }

  /** The process takes the tree of its next gates from the branch. */
  predicate TakesTree(e: Event, p: Process) {
    (e.Rebased? && e.process == p) || (e.Gated? && e.process == p && e.repaired)
  }

  ghost predicate CommittedSinceTaken(trace: seq<Event>, p: Process, m: Mission) {
    exists k :: 0 <= k < |trace| && trace[k].Developed? && trace[k].mission == m
      && forall j :: k < j < |trace| ==> !TakesTree(trace[j], p)
  }

  /** `dirty` says exactly that some commit came after the last tree was taken. */
  lemma {:induction false} DirtyMeans(trace: seq<Event>, p: Process, m: Mission)
    ensures DeedsOf(trace, p, m).dirty <==> CommittedSinceTaken(trace, p, m)
  {
    if trace != [] {
      var earlier := trace[..|trace| - 1];
      var last := trace[|trace| - 1];
      DirtyMeans(earlier, p, m);
      if last.Developed? && last.mission == m {
        assert trace[|trace| - 1] == last;
      } else if CommittedSinceTaken(earlier, p, m) && !TakesTree(last, p) {
        var k :| 0 <= k < |earlier| && earlier[k].Developed? && earlier[k].mission == m
          && forall j :: k < j < |earlier| ==> !TakesTree(earlier[j], p);
        assert trace[k] == earlier[k];
        forall j | k < j < |trace| ensures !TakesTree(trace[j], p) { if j < |earlier| { assert trace[j] == earlier[j]; } }
      }
      if CommittedSinceTaken(trace, p, m) { CommittedBefore(trace, p, m); }
    }
  }

  lemma CommittedBefore(trace: seq<Event>, p: Process, m: Mission)
    requires trace != [] && CommittedSinceTaken(trace, p, m)
    ensures var last := trace[|trace| - 1];
      (last.Developed? && last.mission == m) || (CommittedSinceTaken(trace[..|trace| - 1], p, m) && !TakesTree(last, p))
  {
    var earlier := trace[..|trace| - 1];
    var k :| 0 <= k < |trace| && trace[k].Developed? && trace[k].mission == m
      && forall j :: k < j < |trace| ==> !TakesTree(trace[j], p);
    if k < |earlier| {
      assert earlier[k] == trace[k];
      forall j | k < j < |earlier| ensures !TakesTree(earlier[j], p) { assert earlier[j] == trace[j]; }
    }
  }

  predicate MovesBase(e: Event) { e.Published? || e.BaseAdvanced? }

  /** The base tip after `trace`, for a base that started at `start`. */
  function TipAfter(start: nat, trace: seq<Event>): nat {
    if trace == [] then start
    else TipAfter(start, trace[..|trace| - 1]) + if MovesBase(trace[|trace| - 1]) then 1 else 0
  }

  /** What landed is exactly what the run gated last. */
  ghost predicate LandsCertified(trace: seq<Event>, i: nat)
    requires i < |trace| && trace[i].Published?
  {
    DeedsOf(trace[..i], trace[i].process, trace[i].mission).certified == Some(trace[i].candidate)
  }

  /** What landed contains the tip it landed on. */
  ghost predicate LandsOnTip(start: nat, trace: seq<Event>, i: nat)
    requires i < |trace| && trace[i].Published?
  {
    trace[i].candidate.base == TipAfter(start, trace[..i])
  }

  /** Nobody committed to the mission since the gated tree was taken, and no hook repair changed the payload. */
  predicate Untouched(trace: seq<Event>, i: nat)
    requires i < |trace| && trace[i].Published?
  {
    !DeedsOf(trace[..i], trace[i].process, trace[i].mission).dirty && !trace[i].repaired
  }

  /** Since the check under exclusion the branch was not left off the tip. */
  predicate StillOnTip(trace: seq<Event>, i: nat)
    requires i < |trace| && trace[i].Published?
  {
    !DeedsOf(trace[..i], trace[i].process, trace[i].mission).behind
  }

  ghost predicate PublicationOk(start: nat, exclusive: bool, trace: seq<Event>, i: nat)
    requires i < |trace| && trace[i].Published?
  {
    && (LandsCertified(trace, i) <==> Untouched(trace, i))
    && (exclusive ==> (LandsOnTip(start, trace, i) <==> StillOnTip(trace, i)))
    && (Untouched(trace, i) ==> StillOnTip(trace, i))
  }

  // ---------------------------------------------------------------- invariant

  predicate Live(r: Run) { !r.phase.Ended? }
  predicate HoldsBase(r: Run) { r.phase.Publishing? || r.phase.Closing? || r.phase.Releasing? }
  predicate Certified(r: Run) {
    r.phase.Restoring? || r.phase.Claiming? || r.phase.Publishing? || r.phase.Recovering?
  }

  /** How many gate runs a run can have behind it at each suspension point. */
  function GateBudget(phase: Phase): nat {
    match phase
    case Preparing => 0
    case Rebasing(First) => 0
    case Gating(First, _) => 0
    case Rebasing(Recheck) => 1
    case Gating(Recheck, _) => 1
    case Rebasing(Attempt(i)) => 2 + i
    case Gating(Attempt(i), _) => 2 + i
    case Restoring => 2
    case Claiming(i) => 2 + i
    case Publishing(i) => 2 + i
    case Closing(i) => 2 + i
    case Releasing(i, _) => 2 + i
    case Recovering(i) => 3 + i
    case Ending(_) => 5
    case Ended(_) => 5
  }

  function AttemptIndex(phase: Phase): nat {
    match phase
    case Rebasing(Attempt(i)) => i
    case Gating(Attempt(i), _) => i
    case Claiming(i) => i
    case Publishing(i) => i
    case Closing(i) => i
    case Releasing(i, _) => i
    case Recovering(i) => i
    case _ => 0
  }

  predicate MayHaveLanded(phase: Phase) {
    phase.Closing? || (phase.Releasing? && !phase.landing.BaseMoved?) || phase.Ending? || phase.Ended?
  }

  /** What a run has to show for itself: it landed or resumed a landing, and how it ended. */
  predicate Accounted(phase: Phase, d: Deeds) {
    && (d.closed ==> d.landings == 1 || d.resumed)
    && (d.stopped ==> d.landings == 0 && !d.closed)
    && (if phase.Closing? then (d.landings == 1 || d.resumed) && !d.closed && !d.lost && !d.stopped
        else if phase.Releasing? && phase.landing.Landed? then d.closed && !d.lost && !d.stopped
        else if phase.Ending? || phase.Ended? then phase.exit == 0 <==> d.stopped || (d.closed && !d.lost)
        else !d.closed && !d.lost && !d.stopped)
  }

  /** How often a run has found the base moved at each suspension point. */
  function MovesFound(phase: Phase): nat {
    match phase
    case Rebasing(Attempt(i)) => i + 1
    case Gating(Attempt(i), _) => i + 1
    case Recovering(i) => i + 1
    case Claiming(i) => i
    case Publishing(i) => i
    case Closing(i) => i
    case Releasing(i, landing) => if landing.BaseMoved? then i + 1 else i
    case _ => 0
  }

  /** A run goes on until it lands, fails, stops, or has found the base moved three times. */
  predicate Persists(phase: Phase, d: Deeds) {
    if phase.Ending? || phase.Ended? then
      && (!d.failed && !d.stopped && d.landings == 0 && !d.resumed ==> d.moved == 3)
      && (d.moved == 3 ==> d.landings == 0 && !d.resumed)
      && d.moved <= 3
    else
      && d.moved == MovesFound(phase)
      && (d.failed <==> phase.Releasing? && phase.landing.Aborted?)
      && (d.resumed ==> phase.Closing? || (phase.Releasing? && !phase.landing.BaseMoved?))
  }

  /** The facts about a run's surroundings that its invariant speaks of. */
  datatype Facts = Facts(
    claimed: bool, holds: bool, exclusive: bool, branch: Candidate, tip: nat, commits: nat, deeds: Deeds)

  /** `tree` is what the branch was, and is unless somebody committed. */
  predicate Follows(tree: Candidate, f: Facts) {
    tree.commit < f.commits && (f.deeds.dirty <==> f.branch != tree)
  }

  ghost predicate RunOk(r: Run, f: Facts) {
    && (Live(r) <==> f.claimed)
    && (f.exclusive ==> (HoldsBase(r) <==> f.holds))
    && (r.phase.Gating? && !r.dryRun ==> Follows(r.phase.tree, f))
    && (Certified(r) ==> f.deeds.certified.Some? && Follows(f.deeds.certified.value, f))
    && (r.phase.Publishing? ==>
          && (f.exclusive ==> (f.branch.base == f.tip <==> !f.deeds.behind))
          && (f.deeds.behind ==> f.deeds.dirty))
    && AttemptIndex(r.phase) < 3
    && f.deeds.gates <= GateBudget(r.phase)
    && f.deeds.landings <= (if MayHaveLanded(r.phase) then 1 else 0)
    && (!r.dryRun ==> Accounted(r.phase, f.deeds) && Persists(r.phase, f.deeds))
    && (r.dryRun ==>
          && (r.phase.Preparing? || (r.phase.Gating? && r.phase.stage.First?) || r.phase.Ending? || r.phase.Ended?)
          && f.deeds.rebases == 0 && f.deeds.landings == 0)
  }

  function FactsOf(w: World, p: Process): Facts
    requires p in w.runs && w.runs[p].mission in w.branches
  {
    var m := w.runs[p].mission;
    Facts(m in w.claims && w.claims[m] == p, w.holder == Some(p), w.exclusive, w.branches[m], w.tip, w.commits,
          DeedsOf(w.trace, p, m))
  }

  ghost predicate RunInv(w: World, p: Process)
    requires p in w.runs
  {
    w.runs[p].mission in w.branches && RunOk(w.runs[p], FactsOf(w, p))
  }

  ghost predicate RunsInv(w: World) {
    forall p <- w.runs :: RunInv(w, p)
  }

  ghost predicate SharedInv(start: nat, w: World) {
    && (forall m <- w.claims :: w.claims[m] in w.runs && w.runs[w.claims[m]].mission == m)
    && (w.holder.Some? ==> w.exclusive && w.holder.value in w.runs)
    && (forall m <- w.branches :: w.branches[m].base <= w.tip && w.branches[m].commit < w.commits)
    && w.tip == TipAfter(start, w.trace)
  }

  /** Only processes that started left a trace, each publication for its own mission, and all accounted for. */
  ghost predicate TraceInv(start: nat, w: World) {
    && (forall i :: 0 <= i < |w.trace| && !Anonymous(w.trace[i]) ==> w.trace[i].process in w.runs)
    && (forall i :: 0 <= i < |w.trace| && w.trace[i].Published? ==> PublicationOk(start, w.exclusive, w.trace, i))
  }

  ghost predicate Inv(start: nat, w: World) {
    RunsInv(w) && SharedInv(start, w) && TraceInv(start, w)
  }

  /** No process has started. */
  ghost predicate Initial(w: World) {
    && w.holder.None? && w.claims == map[] && w.runs == map[] && w.trace == []
    && (forall m <- w.branches :: w.branches[m].base <= w.tip && w.branches[m].commit < w.commits)
  }

  lemma TraceGrows(trace: seq<Event>, e: Event)
    ensures forall p, m :: DeedsOf(trace + [e], p, m) == Add(DeedsOf(trace, p, m), e, p, m)
    ensures forall start :: TipAfter(start, trace + [e]) == TipAfter(start, trace) + if MovesBase(e) then 1 else 0
  {
    assert (trace + [e])[..|trace|] == trace;
  }

  /** Before its first event a process has done nothing, whatever others did to its mission. */
  ghost predicate Idle(d: Deeds) {
    d == NoDeeds.(dirty := d.dirty, behind := d.behind)
  }

  lemma {:induction false} SilentBeforeStart(trace: seq<Event>, p: Process, m: Mission)
    requires forall i :: 0 <= i < |trace| && !Anonymous(trace[i]) ==> trace[i].process != p
    ensures Idle(DeedsOf(trace, p, m))
  {
    if trace != [] {
      SilentBeforeStart(trace[..|trace| - 1], p, m);
    }
  }

  lemma TraceInvGrows(start: nat, w: World, v: World, e: Event)
    requires TraceInv(start, w) && v.trace == w.trace + [e] && v.exclusive == w.exclusive
    requires w.runs.Keys <= v.runs.Keys && (!Anonymous(e) ==> e.process in v.runs)
    requires e.Published? ==> PublicationOk(start, w.exclusive, w.trace + [e], |w.trace|)
    ensures TraceInv(start, v)
  {
    forall i | 0 <= i < |v.trace| && v.trace[i].Published?
      ensures PublicationOk(start, v.exclusive, v.trace, i)
    {
      if i < |w.trace| {
        assert v.trace[..i] == w.trace[..i];
        assert PublicationOk(start, w.exclusive, w.trace, i);
      }
    }
  }

  // ---------------------------------------------------------------- every step keeps it

  /** What a segment of `p` may do to the world around the other runs; `e` is what it logs. */
  ghost predicate LocalTo(w: World, v: World, p: Process, e: Option<Event>)
    requires p in w.runs
  {
    var m := w.runs[p].mission;
    && v.exclusive == w.exclusive && v.commits >= w.commits
    && v.runs.Keys == w.runs.Keys && (forall q <- w.runs :: q != p ==> v.runs[q] == w.runs[q])
    && v.branches.Keys == w.branches.Keys && (forall n <- w.branches :: n != m ==> v.branches[n] == w.branches[n])
    && (v.claims == w.claims || v.claims == w.claims - {m})
    && (e.Some? ==> !Anonymous(e.value) && e.value.process == p)
    && v.trace == (if e.Some? then w.trace + [e.value] else w.trace)
    && (v.tip == w.tip || !w.exclusive || w.holder == Some(p))
    && (v.holder == w.holder || (w.exclusive && w.holder.None? && v.holder == Some(p)) || (w.holder == Some(p) && v.holder.None?))
  }

  /** Another mission's run sees at most the tip and the commit counter move. */
  lemma ElsewhereStaysOk(r: Run, f: Facts, tip: nat, commits: nat)
    requires RunOk(r, f) && commits >= f.commits
    requires tip == f.tip || !f.exclusive || !f.holds
    ensures RunOk(r, f.(tip := tip, commits := commits))
  {
  }

  /** A finished run sees nothing of what its mission's next run does. */
  lemma FinishedStaysOk(r: Run, f: Facts, g: Facts)
    requires RunOk(r, f) && !Live(r)
    requires g.deeds == f.deeds && !g.claimed && g.exclusive == f.exclusive && (g.exclusive ==> !g.holds)
    ensures RunOk(r, g)
  {
  }

  lemma OtherKeepsInv(w: World, v: World, p: Process, e: Option<Event>, q: Process)
    requires p in w.runs && LocalTo(w, v, p, e) && q in w.runs && q != p
    requires RunInv(w, q) && RunInv(w, p) && Live(w.runs[p])
    ensures RunInv(v, q)
  {
    if e.Some? { TraceGrows(w.trace, e.value); }
    if w.runs[q].mission != w.runs[p].mission {
      assert FactsOf(v, q) == FactsOf(w, q).(tip := v.tip, commits := v.commits);
      ElsewhereStaysOk(w.runs[q], FactsOf(w, q), v.tip, v.commits);
    } else {
      FinishedStaysOk(w.runs[q], FactsOf(w, q), FactsOf(v, q));
    }
  }

  lemma OthersKeepInv(w: World, v: World, p: Process, e: Option<Event>)
    requires RunsInv(w) && p in w.runs && Live(w.runs[p]) && LocalTo(w, v, p, e)
    requires RunInv(v, p)
    ensures RunsInv(v)
  {
    forall q <- v.runs ensures RunInv(v, q) {
      if q != p { OtherKeepsInv(w, v, p, e, q); }
    }
  }

  /** A segment that logs nothing: it moves `p` along, and may take or give back claim and base. */
  ghost predicate QuietSegment(w: World, v: World, p: Process)
    requires p in w.runs
  {
    && LocalTo(w, v, p, None) && v.branches == w.branches && v.tip == w.tip && v.commits == w.commits
    && v.runs[p].mission == w.runs[p].mission
  }

  lemma QuietSegmentKeepsShared(start: nat, w: World, v: World, p: Process)
    requires SharedInv(start, w) && TraceInv(start, w) && p in w.runs && QuietSegment(w, v, p)
    ensures SharedInv(start, v) && TraceInv(start, v)
  {
  }

  lemma QuietSegmentKeepsInv(start: nat, w: World, v: World, p: Process)
    requires Inv(start, w) && p in w.runs && Live(w.runs[p]) && QuietSegment(w, v, p) && RunInv(v, p)
    ensures Inv(start, v)
  {
    OthersKeepInv(w, v, p, None);
    QuietSegmentKeepsShared(start, w, v, p);
  }

  /** A segment that logs one event. */
  ghost predicate LoggedSegment(w: World, v: World, p: Process, e: Event)
    requires p in w.runs
  {
    var m := w.runs[p].mission;
    && LocalTo(w, v, p, Some(e))
    && v.runs[p].mission == m && v.claims == w.claims
    && v.tip == w.tip + (if MovesBase(e) then 1 else 0)
    && m in w.branches && v.branches[m].base <= v.tip && v.branches[m].commit < v.commits
  }

  lemma LoggedSegmentKeepsShared(start: nat, w: World, v: World, p: Process, e: Event)
    requires SharedInv(start, w) && p in w.runs && LoggedSegment(w, v, p, e)
    ensures SharedInv(start, v)
  {
    TraceGrows(w.trace, e);
  }

  lemma LoggedSegmentKeepsInv(start: nat, w: World, v: World, p: Process, e: Event)
    requires Inv(start, w) && p in w.runs && Live(w.runs[p]) && LoggedSegment(w, v, p, e)
    requires e.Published? ==> PublicationOk(start, w.exclusive, w.trace + [e], |w.trace|)
    requires RunInv(v, p)
    ensures Inv(start, v)
  {
    OthersKeepInv(w, v, p, Some(e));
    LoggedSegmentKeepsShared(start, w, v, p, e);
    TraceInvGrows(start, w, v, e);
  }

  /** The facts of `p` after a segment that logged `e`. */
  function Told(f: Facts, e: Event, p: Process, m: Mission): Facts {
    f.(deeds := Add(f.deeds, e, p, m))
  }

  lemma FinishRebaseKeepsOwnInv(w: World, p: Process, stage: Stage, c: Candidate)
    requires p in w.runs && RunInv(w, p) && w.runs[p].phase == Rebasing(stage) && c.commit <= w.commits
    ensures RunInv(FinishRebase(w, p, stage, c), p)
  {
    TraceGrows(w.trace, Rebased(p, c.base == w.tip));
    var v := FinishRebase(w, p, stage, c);
    assert FactsOf(v, p) == Told(FactsOf(w, p), Rebased(p, c.base == w.tip), p, w.runs[p].mission).(branch := c, commits := v.commits);
  }

  /** A run's branch is one of the world's, below its tip and its commit counter. */
  predicate Placed(w: World, p: Process) {
    p in w.runs && w.runs[p].mission in w.branches
    && w.branches[w.runs[p].mission].base <= w.tip && w.branches[w.runs[p].mission].commit < w.commits
  }

  lemma FinishRebaseIsLogged(w: World, p: Process, stage: Stage, c: Candidate)
    requires Placed(w, p) && Reachable(w, w.runs[p].mission, c)
    ensures LoggedSegment(w, FinishRebase(w, p, stage, c), p, Rebased(p, c.base == w.tip))
  {
  }

  lemma FinishRebaseKeepsInv(start: nat, w: World, p: Process, stage: Stage, c: Candidate)
    requires Inv(start, w) && Placed(w, p) && RunInv(w, p)
    requires w.runs[p].phase == Rebasing(stage) && Reachable(w, w.runs[p].mission, c)
    ensures Inv(start, FinishRebase(w, p, stage, c))
  {
    FinishRebaseIsLogged(w, p, stage, c);
    FinishRebaseKeepsOwnInv(w, p, stage, c);
    LoggedSegmentKeepsInv(start, w, FinishRebase(w, p, stage, c), p, Rebased(p, c.base == w.tip));
  }

  lemma PassGatesIsLogged(w: World, p: Process, stage: Stage, tree: Candidate)
    requires Placed(w, p)
    ensures LoggedSegment(w, PassGates(w, p, stage, tree), p, Gated(p, tree, false))
  {
  }

  lemma PassGatesKeepsOwnInv(w: World, p: Process, stage: Stage, tree: Candidate)
    requires p in w.runs && RunInv(w, p) && w.runs[p].phase == Gating(stage, tree) && !w.runs[p].dryRun
    ensures RunInv(PassGates(w, p, stage, tree), p)
  {
    var e := Gated(p, tree, false);
    TraceGrows(w.trace, e);
    assert FactsOf(PassGates(w, p, stage, tree), p) == Told(FactsOf(w, p), e, p, w.runs[p].mission);
  }

  lemma PassGatesKeepsInv(start: nat, w: World, p: Process, stage: Stage, tree: Candidate)
    requires Inv(start, w) && Placed(w, p) && RunInv(w, p) && w.runs[p].phase == Gating(stage, tree) && !w.runs[p].dryRun
    ensures Inv(start, PassGates(w, p, stage, tree))
  {
    PassGatesIsLogged(w, p, stage, tree);
    PassGatesKeepsOwnInv(w, p, stage, tree);
    LoggedSegmentKeepsInv(start, w, PassGates(w, p, stage, tree), p, Gated(p, tree, false));
  }

  function RepairedTip(w: World, p: Process): Candidate
    requires Placed(w, p)
  {
    Candidate(w.branches[w.runs[p].mission].base, w.commits)
  }

  lemma PassRepairedIsLogged(w: World, p: Process, stage: Stage)
    requires Placed(w, p)
    ensures LoggedSegment(w, PassRepaired(w, p, stage), p, Gated(p, RepairedTip(w, p), true))
  {
  }

  lemma PassRepairedKeepsOwnInv(w: World, p: Process, stage: Stage, tree: Candidate)
    requires Placed(w, p) && RunInv(w, p) && w.runs[p].phase == Gating(stage, tree) && !w.runs[p].dryRun
    ensures RunInv(PassRepaired(w, p, stage), p)
  {
    var c := RepairedTip(w, p);
    var e := Gated(p, c, true);
    TraceGrows(w.trace, e);
    assert FactsOf(PassRepaired(w, p, stage), p)
        == Told(FactsOf(w, p), e, p, w.runs[p].mission).(branch := c, commits := w.commits + 1);
  }

  lemma PassRepairedKeepsInv(start: nat, w: World, p: Process, stage: Stage, tree: Candidate)
    requires Inv(start, w) && Placed(w, p) && RunInv(w, p) && w.runs[p].phase == Gating(stage, tree) && !w.runs[p].dryRun
    ensures Inv(start, PassRepaired(w, p, stage))
  {
    PassRepairedIsLogged(w, p, stage);
    PassRepairedKeepsOwnInv(w, p, stage, tree);
    LoggedSegmentKeepsInv(start, w, PassRepaired(w, p, stage), p, Gated(p, RepairedTip(w, p), true));
  }

  lemma PublishedOk(start: nat, w: World, p: Process, i: nat, repaired: bool)
    requires SharedInv(start, w) && p in w.runs && RunInv(w, p) && w.runs[p].phase == Publishing(i)
    ensures var m := w.runs[p].mission;
      var c := w.branches[m];
      var e := Published(p, m, if repaired then Candidate(c.base, w.commits) else c, repaired);
      PublicationOk(start, w.exclusive, w.trace + [e], |w.trace|)
  {
    var m := w.runs[p].mission;
    var c := w.branches[m];
    var e := Published(p, m, if repaired then Candidate(c.base, w.commits) else c, repaired);
    assert (w.trace + [e])[..|w.trace|] == w.trace;
  }

  lemma PublishKeepsOwnInv(w: World, p: Process, i: nat, repaired: bool)
    requires p in w.runs && RunInv(w, p) && w.runs[p].phase == Publishing(i)
    ensures RunInv(Publish(w, p, i, repaired), p)
  {
    var v := Publish(w, p, i, repaired);
    var e := v.trace[|w.trace|];
    TraceGrows(w.trace, e);
    assert FactsOf(v, p) == Told(FactsOf(w, p), e, p, w.runs[p].mission).(tip := w.tip + 1, commits := v.commits);
  }

  function Publication(w: World, p: Process, repaired: bool): Event
    requires p in w.runs && w.runs[p].mission in w.branches
  {
    var m := w.runs[p].mission;
    var c := w.branches[m];
    Published(p, m, if repaired then Candidate(c.base, w.commits) else c, repaired)
  }

  lemma PublishIsLogged(w: World, p: Process, i: nat, repaired: bool)
    requires Placed(w, p) && (w.exclusive ==> w.holder == Some(p))
    ensures LoggedSegment(w, Publish(w, p, i, repaired), p, Publication(w, p, repaired))
  {
  }

  lemma PublishKeepsInv(start: nat, w: World, p: Process, i: nat, repaired: bool)
    requires Inv(start, w) && Placed(w, p) && RunInv(w, p) && w.runs[p].phase == Publishing(i)
    ensures Inv(start, Publish(w, p, i, repaired))
  {
    PublishIsLogged(w, p, i, repaired);
    PublishedOk(start, w, p, i, repaired);
    PublishKeepsOwnInv(w, p, i, repaired);
    LoggedSegmentKeepsInv(start, w, Publish(w, p, i, repaired), p, Publication(w, p, repaired));
  }

  /** What the check under base exclusion finds. */
  function CheckOf(w: World, p: Process): Event
    requires p in w.runs
  {
    if RebaseNeeded(w, w.runs[p].mission) then FoundMoved(p) else Checked(p)
  }

  lemma EnterBaseKeepsOwnInv(w: World, p: Process, i: nat)
    requires p in w.runs && RunInv(w, p) && w.runs[p].phase == Claiming(i)
    ensures RunInv(EnterBase(w, p, i), p)
  {
    var v := EnterBase(w, p, i);
    var f := FactsOf(w, p);
    var e := CheckOf(w, p);
    TraceGrows(w.trace, e);
    assert FactsOf(v, p) == Told(f, e, p, w.runs[p].mission).(holds := w.exclusive || f.holds);
  }

  lemma EnterBaseIsLocal(w: World, p: Process, i: nat)
    requires Placed(w, p) && (w.exclusive ==> w.holder.None?)
    ensures LoggedSegment(w, EnterBase(w, p, i), p, CheckOf(w, p))
  {
  }

  lemma EnterBaseKeepsInv(start: nat, w: World, p: Process, i: nat)
    requires Inv(start, w) && Placed(w, p) && RunInv(w, p) && w.runs[p].phase == Claiming(i)
    requires w.exclusive ==> w.holder.None?
    ensures Inv(start, EnterBase(w, p, i))
  {
    EnterBaseIsLocal(w, p, i);
    EnterBaseKeepsOwnInv(w, p, i);
    LoggedSegmentKeepsInv(start, w, EnterBase(w, p, i), p, CheckOf(w, p));
  }

  lemma NoteIsLogged(w: World, p: Process, e: Event, phase: Phase)
    requires Placed(w, p) && (e.Closed? || e.Resumed? || e.Stopped? || e.EffectFailed?) && e.process == p
    ensures LoggedSegment(w, At(Log(w, e), p, phase), p, e)
  {
  }

  /** Suspended where the next segment logs its own event and changes nothing else around the run. */
  lemma NoteKeepsInv(start: nat, w: World, p: Process, e: Event, phase: Phase)
    requires Inv(start, w) && Placed(w, p) && RunInv(w, p) && Live(w.runs[p])
    requires (e.Closed? || e.Resumed? || e.Stopped? || e.EffectFailed?) && e.process == p
    requires RunOk(w.runs[p].(phase := phase), Told(FactsOf(w, p), e, p, w.runs[p].mission))
    ensures Inv(start, At(Log(w, e), p, phase))
  {
    var v := At(Log(w, e), p, phase);
    TraceGrows(w.trace, e);
    assert FactsOf(v, p) == Told(FactsOf(w, p), e, p, w.runs[p].mission);
    NoteIsLogged(w, p, e, phase);
    LoggedSegmentKeepsInv(start, w, v, p, e);
  }

  lemma LoseStashKeepsOwnInv(w: World, p: Process)
    requires p in w.runs && RunInv(w, p)
    requires w.runs[p].phase.Releasing? && w.runs[p].phase.landing.Landed?
    ensures RunInv(LoseStash(w, p), p)
  {
    TraceGrows(w.trace, StashLost(p));
    assert FactsOf(LoseStash(w, p), p) == Told(FactsOf(w, p), StashLost(p), p, w.runs[p].mission).(holds := false);
  }

  lemma LoseStashIsLogged(w: World, p: Process)
    requires Placed(w, p)
    ensures LoggedSegment(w, LoseStash(w, p), p, StashLost(p))
  {
  }

  lemma LoseStashKeepsInv(start: nat, w: World, p: Process)
    requires Inv(start, w) && Placed(w, p) && RunInv(w, p)
    requires w.runs[p].phase.Releasing? && w.runs[p].phase.landing.Landed?
    ensures Inv(start, LoseStash(w, p))
  {
    LoseStashKeepsOwnInv(w, p);
    LoseStashIsLogged(w, p);
    LoggedSegmentKeepsInv(start, w, LoseStash(w, p), p, StashLost(p));
  }

  /** Suspended where the next segment gives back the base or the claim. */
  predicate GivesBack(phase: Phase) { phase.Releasing? || phase.Ending? }

  lemma GivingBackKeepsOwnInv(w: World, p: Process, c: Candidate)
    requires p in w.runs && RunInv(w, p) && GivesBack(w.runs[p].phase)
    ensures RunInv(ResumeOk(w, p, c), p)
  {
    var v := ResumeOk(w, p, c);
    if w.runs[p].phase.Releasing? {
      assert FactsOf(v, p) == FactsOf(w, p).(holds := false);
    } else {
      assert FactsOf(v, p) == FactsOf(w, p).(claimed := false);
    }
  }

  lemma GivingBackIsQuiet(w: World, p: Process, c: Candidate)
    requires Placed(w, p) && GivesBack(w.runs[p].phase)
    ensures QuietSegment(w, ResumeOk(w, p, c), p)
  {
  }

  lemma GivingBackKeepsInv(start: nat, w: World, p: Process, c: Candidate)
    requires Inv(start, w) && Placed(w, p) && RunInv(w, p) && GivesBack(w.runs[p].phase)
    ensures Inv(start, ResumeOk(w, p, c))
  {
    GivingBackKeepsOwnInv(w, p, c);
    GivingBackIsQuiet(w, p, c);
    QuietSegmentKeepsInv(start, w, ResumeOk(w, p, c), p);
  }

  /** The run only moves along. */
  lemma MoveKeepsInv(start: nat, w: World, p: Process, phase: Phase)
    requires Inv(start, w) && p in w.runs && RunInv(w, p) && Live(w.runs[p])
    requires RunOk(w.runs[p].(phase := phase), FactsOf(w, p))
    ensures Inv(start, At(w, p, phase))
  {
    assert FactsOf(At(w, p, phase), p) == FactsOf(w, p);
    QuietSegmentKeepsInv(start, w, At(w, p, phase), p);
  }

  /** Suspended between two segments that do not touch base, branch or claim. */
  predicate Passing(r: Run) {
    r.phase.Preparing? || r.phase.Restoring? || r.phase.Recovering? || (r.phase.Gating? && r.dryRun)
  }

  /** Where a passing run goes next. */
  function Onward(r: Run, branch: Candidate): Phase
    requires Passing(r)
  {
    match r.phase
    case Preparing => if r.dryRun then Gating(First, branch) else Rebasing(First)
    case Restoring => Claiming(0)
    case Recovering(i) => if i + 1 < LANDING_ATTEMPTS then Claiming(i + 1) else Ending(1)
    case _ => Ending(0)
  }

  lemma PassingStaysOk(r: Run, f: Facts)
    requires RunOk(r, f) && Passing(r)
    ensures RunOk(r.(phase := Onward(r, f.branch)), f)
  {
  }

  lemma PassingKeepsInv(start: nat, w: World, p: Process, c: Candidate)
    requires Inv(start, w) && p in w.runs && RunInv(w, p) && Passing(w.runs[p])
    ensures Inv(start, ResumeOk(w, p, c))
  {
    var phase := Onward(w.runs[p], w.branches[w.runs[p].mission]);
    PassingStaysOk(w.runs[p], FactsOf(w, p));
    MoveKeepsInv(start, w, p, phase);
    assert ResumeOk(w, p, c) == At(w, p, phase);
  }

  lemma WorkingKeepsInv(start: nat, w: World, p: Process, c: Candidate)
    requires Inv(start, w) && Placed(w, p) && RunInv(w, p)
    requires w.runs[p].phase.Rebasing? || (w.runs[p].phase.Gating? && !w.runs[p].dryRun)
    ensures Inv(start, ResumeOk(w, p, c))
  {
    var v := ResumeOk(w, p, c);
    match w.runs[p].phase
    case Rebasing(stage) =>
      if Reachable(w, w.runs[p].mission, c) {
        FinishRebaseKeepsInv(start, w, p, stage, c);
        assert v == FinishRebase(w, p, stage, c);
      } else { assert v == w; }
    case Gating(stage, tree) =>
      PassGatesKeepsInv(start, w, p, stage, tree);
      assert v == PassGates(w, p, stage, tree);
  }

  lemma ClosedStaysOk(r: Run, f: Facts, p: Process, i: nat)
    requires RunOk(r, f) && r.phase == Closing(i)
    ensures RunOk(r.(phase := Releasing(i, Landed)), Told(f, Closed(p), p, r.mission))
  {
  }

  lemma ClaimingKeepsInv(start: nat, w: World, p: Process, c: Candidate)
    requires Inv(start, w) && Placed(w, p) && RunInv(w, p) && w.runs[p].phase.Claiming?
    ensures Inv(start, ResumeOk(w, p, c))
  {
    var i := w.runs[p].phase.attempt;
    ClaimingEnters(w, p, c, i);
    if !(w.exclusive && w.holder.Some?) { EnterBaseKeepsInv(start, w, p, i); }
  }

  lemma ClaimingEnters(w: World, p: Process, c: Candidate, i: nat)
    requires Placed(w, p) && w.runs[p].phase == Claiming(i)
    ensures ResumeOk(w, p, c) == if w.exclusive && w.holder.Some? then w else EnterBase(w, p, i)
  {
  }

  lemma ClosingCloses(w: World, p: Process, c: Candidate, i: nat)
    requires Placed(w, p) && w.runs[p].phase == Closing(i)
    ensures ResumeOk(w, p, c) == At(Log(w, Closed(p)), p, Releasing(i, Landed))
  {
  }

  lemma ClosingKeepsInv(start: nat, w: World, p: Process, c: Candidate)
    requires Inv(start, w) && Placed(w, p) && RunInv(w, p) && w.runs[p].phase.Closing?
    ensures Inv(start, ResumeOk(w, p, c))
  {
    var i := w.runs[p].phase.attempt;
    ClosedStaysOk(w.runs[p], FactsOf(w, p), p, i);
    NoteKeepsInv(start, w, p, Closed(p), Releasing(i, Landed));
    ClosingCloses(w, p, c, i);
  }

  lemma LandingKeepsInv(start: nat, w: World, p: Process, c: Candidate)
    requires Inv(start, w) && Placed(w, p) && RunInv(w, p)
    requires w.runs[p].phase.Claiming? || w.runs[p].phase.Publishing? || w.runs[p].phase.Closing?
    ensures Inv(start, ResumeOk(w, p, c))
  {
    if w.runs[p].phase.Claiming? { ClaimingKeepsInv(start, w, p, c); }
    else if w.runs[p].phase.Closing? { ClosingKeepsInv(start, w, p, c); }
    else {
      PublishKeepsInv(start, w, p, w.runs[p].phase.attempt, false);
      assert ResumeOk(w, p, c) == Publish(w, p, w.runs[p].phase.attempt, false);
    }
  }

  lemma ResumeOkKeepsInv(start: nat, w: World, p: Process, c: Candidate)
    requires Inv(start, w) && Placed(w, p) && RunInv(w, p)
    ensures Inv(start, ResumeOk(w, p, c))
  {
    var r := w.runs[p];
    if Passing(r) { PassingKeepsInv(start, w, p, c); }
    else if GivesBack(r.phase) { GivingBackKeepsInv(start, w, p, c); }
    else if r.phase.Rebasing? || r.phase.Gating? { WorkingKeepsInv(start, w, p, c); }
    else if r.phase.Ended? { assert ResumeOk(w, p, c) == w; }
    else { LandingKeepsInv(start, w, p, c); }
  }

  lemma SettledStaysOk(r: Run, f: Facts, p: Process, reason: Reason)
    requires RunOk(r, f)
    ensures r.phase.Publishing? ==> RunOk(r.(phase := Closing(r.phase.attempt)), Told(f, Resumed(p), p, r.mission))
    ensures r.phase.Preparing? || (r.phase.Gating? && !r.dryRun) ==>
      RunOk(r.(phase := Ending(0)), Told(f, Stopped(p, reason), p, r.mission))
  {
  }

  lemma ResumeSettledKeepsInv(start: nat, w: World, p: Process, reason: Reason)
    requires Inv(start, w) && Placed(w, p) && RunInv(w, p)
    ensures Inv(start, ResumeSettled(w, p, reason))
  {
    var v := ResumeSettled(w, p, reason);
    SettledStaysOk(w.runs[p], FactsOf(w, p), p, reason);
    if v == w {
    } else if w.runs[p].phase.Publishing? {
      var i := w.runs[p].phase.attempt;
      NoteKeepsInv(start, w, p, Resumed(p), Closing(i));
      assert v == At(Log(w, Resumed(p)), p, Closing(i));
    } else {
      NoteKeepsInv(start, w, p, Stopped(p, reason), Ending(0));
      assert v == Stop(w, p, reason);
    }
  }

  /** Where a failed await leads. */
  function Onfail(phase: Phase): Phase {
    match phase
    case Publishing(i) => Releasing(i, Aborted)
    case Closing(i) => Releasing(i, Aborted)
    case Releasing(_, _) => phase
    case Ending(_) => phase
    case Ended(_) => phase
    case _ => Ending(1)
  }

  lemma FailedStaysOk(r: Run, f: Facts, p: Process)
    requires RunOk(r, f) && Onfail(r.phase) != r.phase
    ensures RunOk(r.(phase := Onfail(r.phase)), Told(f, EffectFailed(p), p, r.mission))
  {
  }

  lemma ResumeFailedKeepsInv(start: nat, w: World, p: Process)
    requires Inv(start, w) && Placed(w, p) && RunInv(w, p)
    ensures Inv(start, ResumeFailed(w, p))
  {
    var phase := Onfail(w.runs[p].phase);
    if phase == w.runs[p].phase { assert ResumeFailed(w, p) == w; }
    else {
      FailedStaysOk(w.runs[p], FactsOf(w, p), p);
      NoteKeepsInv(start, w, p, EffectFailed(p), phase);
      assert ResumeFailed(w, p) == At(Log(w, EffectFailed(p)), p, phase);
    }
  }

  lemma ResumeRepairedKeepsInv(start: nat, w: World, p: Process)
    requires Inv(start, w) && Placed(w, p) && RunInv(w, p)
    ensures Inv(start, ResumeRepaired(w, p))
  {
    var v := ResumeRepaired(w, p);
    match w.runs[p].phase
    case Gating(stage, tree) =>
      if w.runs[p].dryRun { assert v == w; }
      else {
        PassRepairedKeepsInv(start, w, p, stage, tree);
        assert v == PassRepaired(w, p, stage);
      }
    case Publishing(i) =>
      PublishKeepsInv(start, w, p, i, true);
      assert v == Publish(w, p, i, true);
    case _ => assert v == w;
  }

  lemma ResumeKeepsInv(start: nat, w: World, p: Process, answer: Answer)
    requires Inv(start, w) && Placed(w, p) && RunInv(w, p)
    ensures Inv(start, ResumeWith(w, p, answer))
  {
    match answer
    case Ok(c) => ResumeOkKeepsInv(start, w, p, c);
    case Repaired => ResumeRepairedKeepsInv(start, w, p);
    case Settled(reason) => ResumeSettledKeepsInv(start, w, p, reason);
    case Fail => ResumeFailedKeepsInv(start, w, p);
    case StashFails =>
      if w.runs[p].phase.Releasing? && w.runs[p].phase.landing.Landed? { LoseStashKeepsInv(start, w, p); }
  }

  /** A fresh process, for a mission that is there; whatever was done to the mission before. */
  ghost predicate Startable(w: World, p: Process, m: Mission) {
    p !in w.runs && m in w.branches && w.holder != Some(p) && p !in w.claims.Values && Idle(DeedsOf(w.trace, p, m))
  }

  lemma TurnedAwayOk(w: World, p: Process, m: Mission, dry: bool)
    requires Startable(w, p, m) && m in w.claims
    ensures RunInv(Step(w, Start(p, m, dry)), p)
  {
    TraceGrows(w.trace, TurnedAway(p));
    var d := AddOwn(DeedsOf(w.trace, p, m), TurnedAway(p));
    var v := Step(w, Start(p, m, dry));
    assert FactsOf(v, p) == Facts(false, false, w.exclusive, w.branches[m], w.tip, w.commits, d);
  }

  lemma AdmittedOk(w: World, p: Process, m: Mission, dry: bool)
    requires Startable(w, p, m) && m !in w.claims
    ensures RunInv(Step(w, Start(p, m, dry)), p)
  {
    var v := Step(w, Start(p, m, dry));
    assert FactsOf(v, p) == Facts(true, false, w.exclusive, w.branches[m], w.tip, w.commits, DeedsOf(w.trace, p, m));
  }

  lemma StartKeepsOther(w: World, p: Process, m: Mission, dry: bool, q: Process)
    requires Startable(w, p, m) && q in w.runs && q != p && RunInv(w, q)
    ensures RunInv(Step(w, Start(p, m, dry)), q)
  {
    TraceGrows(w.trace, TurnedAway(p));
    assert FactsOf(Step(w, Start(p, m, dry)), q) == FactsOf(w, q);
  }

  lemma StartKeepsRuns(w: World, p: Process, m: Mission, dry: bool)
    requires RunsInv(w) && Startable(w, p, m)
    ensures RunsInv(Step(w, Start(p, m, dry)))
  {
    var v := Step(w, Start(p, m, dry));
    if m in w.claims { TurnedAwayOk(w, p, m, dry); } else { AdmittedOk(w, p, m, dry); }
    forall q <- v.runs ensures RunInv(v, q) {
      if q != p {
        assert RunInv(w, q);
        StartKeepsOther(w, p, m, dry, q);
      }
    }
  }

  lemma StartKeepsTrace(start: nat, w: World, p: Process, m: Mission, dry: bool)
    requires TraceInv(start, w) && p !in w.runs
    ensures TraceInv(start, Step(w, Start(p, m, dry)))
  {
    if m in w.branches && m in w.claims { TraceInvGrows(start, w, Step(w, Start(p, m, dry)), TurnedAway(p)); }
  }

  lemma StartKeepsShared(start: nat, w: World, p: Process, m: Mission, dry: bool)
    requires SharedInv(start, w) && p !in w.runs
    ensures SharedInv(start, Step(w, Start(p, m, dry)))
  {
    TraceGrows(w.trace, TurnedAway(p));
  }

  lemma StartKeepsInv(start: nat, w: World, p: Process, m: Mission, dry: bool)
    requires Inv(start, w)
    ensures Inv(start, Step(w, Start(p, m, dry)))
  {
    var v := Step(w, Start(p, m, dry));
    if v != w {
      SilentBeforeStart(w.trace, p, m);
      assert p !in w.claims.Values;
      StartKeepsRuns(w, p, m, dry);
      StartKeepsShared(start, w, p, m, dry);
      StartKeepsTrace(start, w, p, m, dry);
    }
  }

  lemma AdvanceBaseKeepsInv(start: nat, w: World)
    requires Inv(start, w)
    ensures Inv(start, Step(w, AdvanceBase))
  {
    var v := Step(w, AdvanceBase);
    if v != w {
      TraceGrows(w.trace, BaseAdvanced);
      TraceInvGrows(start, w, v, BaseAdvanced);
      forall q <- v.runs ensures RunInv(v, q) {
        assert RunInv(w, q);
        assert FactsOf(v, q) == FactsOf(w, q).(tip := w.tip + 1);
        ElsewhereStaysOk(w.runs[q], FactsOf(w, q), w.tip + 1, w.commits);
      }
    }
  }

  /** A commit to the branch makes its runs dirty, and puts them behind unless it is on the tip. */
  lemma CommitKeepsRun(r: Run, f: Facts, c: Candidate)
    requires RunOk(r, f) && c.commit == f.commits
    ensures RunOk(r, f.(branch := c, commits := f.commits + 1, deeds := f.deeds.(dirty := true, behind := c.base != f.tip)))
  {
  }

  lemma CommitKeepsRunInv(w: World, m: Mission, c: Candidate, q: Process)
    requires m in w.branches && c.commit == w.commits && c.base <= w.tip && q in w.runs && RunInv(w, q)
    ensures RunInv(Commit(w, m, c), q)
  {
    var v := Commit(w, m, c);
    var f := FactsOf(w, q);
    TraceGrows(w.trace, Developed(m, c.base == w.tip));
    if w.runs[q].mission == m {
      CommitKeepsRun(w.runs[q], f, c);
      assert FactsOf(v, q) == f.(branch := c, commits := f.commits + 1, deeds := f.deeds.(dirty := true, behind := c.base != f.tip));
    } else {
      ElsewhereStaysOk(w.runs[q], f, w.tip, v.commits);
      assert FactsOf(v, q) == f.(commits := v.commits);
    }
  }

  lemma CommitKeepsRuns(w: World, m: Mission, c: Candidate)
    requires RunsInv(w) && m in w.branches && c.commit == w.commits && c.base <= w.tip
    ensures RunsInv(Commit(w, m, c))
  {
    forall q <- Commit(w, m, c).runs ensures RunInv(Commit(w, m, c), q) {
      assert RunInv(w, q);
      CommitKeepsRunInv(w, m, c, q);
    }
  }

  lemma CommitKeepsInv(start: nat, w: World, m: Mission, c: Candidate)
    requires Inv(start, w)
    ensures Inv(start, Commit(w, m, c))
  {
    var v := Commit(w, m, c);
    if v != w {
      var e := Developed(m, c.base == w.tip);
      CommitKeepsRuns(w, m, c);
      TraceGrows(w.trace, e);
      TraceInvGrows(start, w, v, e);
    }
  }

  lemma StepKeepsInv(start: nat, w: World, move: Move)
    requires Inv(start, w)
    ensures Inv(start, Step(w, move))
  {
    match move
    case Start(p, m, dry) => StartKeepsInv(start, w, p, m, dry);
    case Resume(p, answer) =>
      if p in w.runs {
        assert RunInv(w, p);
        ResumeKeepsInv(start, w, p, answer);
      }
    case AdvanceBase => AdvanceBaseKeepsInv(start, w);
    case Develop(m, c) => CommitKeepsInv(start, w, m, c);
  }

  lemma ResumeKeepsExclusion(w: World, p: Process, answer: Answer)
    requires p in w.runs && w.runs[p].mission in w.branches
    ensures ResumeWith(w, p, answer).exclusive == w.exclusive
  {
  }

  lemma StepKeepsExclusion(w: World, move: Move)
    ensures Step(w, move).exclusive == w.exclusive
  {
    if move.Resume? && move.process in w.runs && w.runs[move.process].mission in w.branches {
      ResumeKeepsExclusion(w, move.process, move.answer);
    }
  }

  lemma {:induction false} RunsKeepInv(w: World, moves: seq<Move>)
    requires Initial(w)
    ensures Inv(w.tip, Execute(w, moves)) && Execute(w, moves).exclusive == w.exclusive
    decreases |moves|
  {
    if moves != [] {
      RunsKeepInv(w, moves[..|moves| - 1]);
      StepKeepsInv(w.tip, Execute(w, moves[..|moves| - 1]), moves[|moves| - 1]);
      StepKeepsExclusion(Execute(w, moves[..|moves| - 1]), moves[|moves| - 1]);
    }
  }

  // ---------------------------------------------------------------- main results

  /**
   * Over every interleaving of any number of integrations, base moves and commits to any branch: every
   * publication lands exactly what its run gated last if and only if nobody committed to the mission
   * since that tree was taken and no hook repair changed the payload; under base exclusion it contains the
   * tip it lands on if and only if the branch was not left off the tip since the check. A run gates at
   * most five times and publishes at most once; a dry run neither rebases nor publishes.
   */
  lemma MergeQueueSafety(w: World, moves: seq<Move>)
    requires Initial(w)
    ensures var v := Execute(w, moves);
            && (forall i :: 0 <= i < |v.trace| && v.trace[i].Published? ==> PublicationOk(w.tip, w.exclusive, v.trace, i))
            && (forall p <- v.runs :: var d := DeedsOf(v.trace, p, v.runs[p].mission);
                  && d.gates <= 5 && d.landings <= 1
                  && (v.runs[p].dryRun ==> d.rebases == 0 && d.landings == 0))
  {
    RunsKeepInv(w, moves);
    var v := Execute(w, moves);
    forall p <- v.runs
      ensures var d := DeedsOf(v.trace, p, v.runs[p].mission);
        d.gates <= 5 && d.landings <= 1 && (v.runs[p].dryRun ==> d.rebases == 0 && d.landings == 0)
    {
      assert RunInv(v, p);
      assert GateBudget(v.runs[p].phase) <= 5;
    }
  }

  /** What landed was gated on exactly the base it landed on. */
  ghost predicate SoundPublication(start: nat, trace: seq<Event>, i: nat)
    requires i < |trace| && trace[i].Published?
  {
    LandsCertified(trace, i) && LandsOnTip(start, trace, i)
  }

  /** Under exclusion a publication is sound exactly when nobody touched what was gated. */
  lemma SoundExactlyUntouched(w: World, moves: seq<Move>, i: nat)
    requires Initial(w) && w.exclusive
    requires i < |Execute(w, moves).trace| && Execute(w, moves).trace[i].Published?
    ensures SoundPublication(w.tip, Execute(w, moves).trace, i) <==> Untouched(Execute(w, moves).trace, i)
  {
    MergeQueueSafety(w, moves);
    assert PublicationOk(w.tip, w.exclusive, Execute(w, moves).trace, i);
  }

  /**
   * A run that is not a dry run exits 0 if and only if it stopped for a human or on a mission that had
   * already landed, or it closed a landing and could restore the checkout. A run that stopped landed
   * nothing; one that closed published, or resumed a landing that was there.
   */
  lemma ExitMeans(w: World, moves: seq<Move>, p: Process)
    requires Initial(w)
    requires var v := Execute(w, moves); p in v.runs && v.runs[p].phase.Ended? && !v.runs[p].dryRun
    ensures var v := Execute(w, moves);
      var d := DeedsOf(v.trace, p, v.runs[p].mission);
      && (v.runs[p].phase.exit == 0 <==> d.stopped || (d.closed && !d.lost))
      && (d.stopped ==> d.landings == 0 && !d.closed)
      && (d.closed ==> d.landings == 1 || d.resumed)
  {
    RunsKeepInv(w, moves);
    assert RunInv(Execute(w, moves), p);
  }

  /** Two unfinished runs never integrate one mission, and a finished run holds no claim and no base. */
  lemma OneLiveRunPerMission(w: World, moves: seq<Move>, p: Process, q: Process)
    requires Initial(w)
    requires p in Execute(w, moves).runs && q in Execute(w, moves).runs
    ensures var v := Execute(w, moves);
            && (Live(v.runs[p]) && Live(v.runs[q]) && v.runs[p].mission == v.runs[q].mission ==> p == q)
            && (!Live(v.runs[p]) ==> v.holder != Some(p) && forall m <- v.claims :: v.claims[m] != p)
  {
    RunsKeepInv(w, moves);
    var v := Execute(w, moves);
    assert RunInv(v, p) && RunInv(v, q);
  }

  lemma ExecuteSnoc(w: World, moves: seq<Move>, move: Move)
    ensures Execute(w, moves + [move]) == Step(Execute(w, moves), move)
  {
    assert (moves + [move])[..|moves|] == moves;
  }

  // ---------------------------------------------------------------- runs in which it fails

  /** A lone run with these branch tip and events. */
  function LoneRun(w: World, m: Mission, phase: Phase, c: Candidate, commits: nat, trace: seq<Event>): World {
    w.(runs := map[0 := Run(m, false, phase)], claims := map[m := 0],
       branches := w.branches[m := c], commits := commits, trace := trace)
  }

  lemma LoneRunReachesGates(w: World, m: Mission) returns (moves: seq<Move>)
    requires Initial(w) && m in w.branches
    ensures var c := Candidate(w.tip, w.commits);
      Execute(w, moves) == LoneRun(w, m, Gating(First, c), c, w.commits + 1, [Rebased(0, true)])
  {
    var c := Candidate(w.tip, w.commits);
    var go := Resume(0, Ok(c));
    var w2 := Step(Step(w, Start(0, m, false)), go);
    assert w2.runs == map[0 := Run(m, false, Rebasing(First))];
    ExecuteSnoc(w, [], Start(0, m, false));
    moves := [] + [Start(0, m, false)];
    ExecuteSnoc(w, moves, go); moves := moves + [go];
    ExecuteSnoc(w, moves, go); moves := moves + [go];
  }

  /** It rebased, its gates passed, and nobody else moved: it is about to claim the base. */
  lemma LoneRunReachesLanding(w: World, m: Mission) returns (moves: seq<Move>)
    requires Initial(w) && m in w.branches
    ensures var c := Candidate(w.tip, w.commits);
      Execute(w, moves) == LoneRun(w, m, Claiming(0), c, w.commits + 1, [Rebased(0, true), Gated(0, c, false)])
  {
    var c := Candidate(w.tip, w.commits);
    var go := Resume(0, Ok(c));
    moves := LoneRunReachesGates(w, m);
    ExecuteSnoc(w, moves, go); moves := moves + [go];
    assert Execute(w, moves) == LoneRun(w, m, Restoring, c, w.commits + 1, [Rebased(0, true), Gated(0, c, false)]);
    ExecuteSnoc(w, moves, go); moves := moves + [go];
  }

  /** Then somebody commits on top of the gated tip. */
  lemma LoneRunIsCommittedTo(w: World, m: Mission) returns (moves: seq<Move>)
    requires Initial(w) && m in w.branches
    ensures var c, d := Candidate(w.tip, w.commits), Candidate(w.tip, w.commits + 1);
      Execute(w, moves) == LoneRun(w, m, Claiming(0), d, w.commits + 2, [Rebased(0, true), Gated(0, c, false)] + [Developed(m, true)])
  {
    var d := Candidate(w.tip, w.commits + 1);
    moves := LoneRunReachesLanding(w, m);
    ExecuteSnoc(w, moves, Develop(m, d));
    moves := moves + [Develop(m, d)];
  }

  lemma CommittedToAfterGates(m: Mission, c: Candidate)
    ensures var trace := [Rebased(0, true), Gated(0, c, false)] + [Developed(m, true)] + [Checked(0)];
      DeedsOf(trace, 0, m).certified == Some(c) && DeedsOf(trace, 0, m).dirty
  {
    var gated := [Rebased(0, true), Gated(0, c, false)];
    GatedLast(m, c);
    TraceGrows(gated, Developed(m, true));
    TraceGrows(gated + [Developed(m, true)], Checked(0));
  }

  /** Somebody commits between the last gates and the landing: what lands was never gated. */
  lemma UngatedCommitLands(w: World, m: Mission) returns (moves: seq<Move>, i: nat)
    requires Initial(w) && m in w.branches
    ensures i < |Execute(w, moves).trace| && Execute(w, moves).trace[i].Published?
    ensures !Execute(w, moves).trace[i].repaired && !LandsCertified(Execute(w, moves).trace, i)
  {
    var c, d := Candidate(w.tip, w.commits), Candidate(w.tip, w.commits + 1);
    var checked := [Rebased(0, true), Gated(0, c, false)] + [Developed(m, true)] + [Checked(0)];
    moves := LoneRunIsCommittedTo(w, m);
    ExecuteSnoc(w, moves, Resume(0, Ok(c)));
    moves := moves + [Resume(0, Ok(c))];
    assert Execute(w, moves).trace == checked && Execute(w, moves).runs[0].phase == Publishing(0);
    ExecuteSnoc(w, moves, Resume(0, Ok(c)));
    moves, i := moves + [Resume(0, Ok(c))], 4;
    var trace := Execute(w, moves).trace;
    assert trace == checked + [Published(0, m, d, false)];
    assert trace[..4] == checked;
    CommittedToAfterGates(m, c);
  }

  lemma GatedLast(m: Mission, c: Candidate)
    ensures DeedsOf([Rebased(0, true), Gated(0, c, false)], 0, m).certified == Some(c)
    ensures !DeedsOf([Rebased(0, true), Gated(0, c, false)], 0, m).dirty
    ensures forall start :: TipAfter(start, [Rebased(0, true), Gated(0, c, false)]) == start
  {
    TraceGrows([], Rebased(0, true));
    TraceGrows([Rebased(0, true)], Gated(0, c, false));
    assert [] + [Rebased(0, true)] == [Rebased(0, true)] && [Rebased(0, true)] + [Gated(0, c, false)] == [Rebased(0, true), Gated(0, c, false)];
  }

  /** The lone run has passed the check under exclusion. */
  lemma LoneRunReachesPublication(w: World, m: Mission) returns (moves: seq<Move>)
    requires Initial(w) && m in w.branches
    ensures var c := Candidate(w.tip, w.commits);
      Execute(w, moves) == LoneRun(w, m, Publishing(0), c, w.commits + 1, [Rebased(0, true), Gated(0, c, false)] + [Checked(0)])
                             .(holder := if w.exclusive then Some(0) else None)
  {
    var c := Candidate(w.tip, w.commits);
    moves := LoneRunReachesLanding(w, m);
    ExecuteSnoc(w, moves, Resume(0, Ok(c)));
    moves := moves + [Resume(0, Ok(c))];
  }

  /** A hook refuses the squash commit and an agent repairs it: another payload than the gated one lands. */
  lemma RepairedPayloadLands(w: World, m: Mission) returns (moves: seq<Move>, i: nat)
    requires Initial(w) && m in w.branches
    ensures i < |Execute(w, moves).trace| && Execute(w, moves).trace[i].Published?
    ensures !DeedsOf(Execute(w, moves).trace[..i], 0, m).dirty && !LandsCertified(Execute(w, moves).trace, i)
  {
    var c := Candidate(w.tip, w.commits);
    var checked := [Rebased(0, true), Gated(0, c, false)] + [Checked(0)];
    moves := LoneRunReachesPublication(w, m);
    ExecuteSnoc(w, moves, Resume(0, Repaired));
    moves, i := moves + [Resume(0, Repaired)], 3;
    var trace := Execute(w, moves).trace;
    assert trace == checked + [Published(0, m, Candidate(w.tip, w.commits + 1), true)];
    assert trace[..3] == checked;
    GatedLast(m, c);
    TraceGrows([Rebased(0, true), Gated(0, c, false)], Checked(0));
  }

  /** Without base exclusion the base can move between the check and the publication. */
  lemma UnlockedRace(w: World, m: Mission) returns (moves: seq<Move>, i: nat)
    requires Initial(w) && !w.exclusive && m in w.branches
    ensures i < |Execute(w, moves).trace| && Execute(w, moves).trace[i].Published?
    ensures Untouched(Execute(w, moves).trace, i) && !LandsOnTip(w.tip, Execute(w, moves).trace, i)
  {
    var c := Candidate(w.tip, w.commits);
    var checked := [Rebased(0, true), Gated(0, c, false)] + [Checked(0)];
    moves := LoneRunReachesPublication(w, m);
    ExecuteSnoc(w, moves, AdvanceBase);
    moves := moves + [AdvanceBase];
    assert Execute(w, moves).trace == checked + [BaseAdvanced];
    ExecuteSnoc(w, moves, Resume(0, Ok(c)));
    moves, i := moves + [Resume(0, Ok(c))], 4;
    var trace := Execute(w, moves).trace;
    assert trace == checked + [BaseAdvanced] + [Published(0, m, c, false)];
    assert trace[..4] == checked + [BaseAdvanced];
    GatedLast(m, c);
    TraceGrows([Rebased(0, true), Gated(0, c, false)], Checked(0));
    TraceGrows(checked, BaseAdvanced);
  }

  /** Whatever is landed untouched lands on the tip, in every run, exactly when base moves are made under exclusion. */
  lemma OnTipExactlyUnderExclusion(w: World, m: Mission)
    requires Initial(w) && m in w.branches
    ensures w.exclusive <==>
            forall moves, i ::
              (0 <= i < |Execute(w, moves).trace| && Execute(w, moves).trace[i].Published? && Untouched(Execute(w, moves).trace, i)
               ==> LandsOnTip(w.tip, Execute(w, moves).trace, i))
  {
    if w.exclusive {
      forall moves, i | 0 <= i < |Execute(w, moves).trace| && Execute(w, moves).trace[i].Published?
                        && Untouched(Execute(w, moves).trace, i)
        ensures LandsOnTip(w.tip, Execute(w, moves).trace, i)
      {
        MergeQueueSafety(w, moves);
        assert PublicationOk(w.tip, w.exclusive, Execute(w, moves).trace, i);
      }
    } else {
      var moves, i := UnlockedRace(w, m);
    }
  }

  /** A run that stops for a human exits 0 and lands nothing. */
  lemma HumanStopExitsZero(w: World, m: Mission) returns (moves: seq<Move>)
    requires Initial(w) && m in w.branches
    ensures var v := Execute(w, moves);
      0 in v.runs && v.runs[0] == Run(m, false, Ended(0)) && DeedsOf(v.trace, 0, m).landings == 0 && v.tip == w.tip
  {
    var stop, go := Resume(0, Settled(ForHuman)), Resume(0, Ok(Candidate(0, 0)));
    ExecuteSnoc(w, [], Start(0, m, false));
    moves := [] + [Start(0, m, false)];
    ExecuteSnoc(w, moves, stop);
    moves := moves + [stop];
    assert Execute(w, moves).trace == [] + [Stopped(0, ForHuman)];
    ExecuteSnoc(w, moves, go);
    moves := moves + [go];
    TraceGrows([], Stopped(0, ForHuman));
  }
}
