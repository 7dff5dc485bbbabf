/**
 * `px integrate` in the form it runs in: one command over repository state that everybody updates in
 * place. At each await the others move, as they like; what the awaited call then answers is given
 * beforehand. A method that returns a value in `done` has left the run with that exit code.
 */
module Integrate {
  import opened Prelude
  import opened MergeQueue

  class Repository {
    const exclusive: bool
    var tip: nat
    var commits: nat
    var branches: map<Mission, Candidate>
    var holder: Option<Process>
    var claims: map<Mission, Process>
    var others: map<Process, Run>
    var trace: seq<Event>

    constructor (w: World)
      ensures State() == w
    {
      exclusive, tip, commits, branches := w.exclusive, w.tip, w.commits, w.branches;
      holder, claims, others, trace := w.holder, w.claims, w.runs, w.trace;
    }

    function State(): World
      reads this
    {
      World(exclusive, tip, commits, branches, holder, claims, others, trace)
    }

    method Adopt(w: World)
      requires w.exclusive == exclusive
      modifies this
      ensures State() == w
    {
      tip, commits, branches, holder := w.tip, w.commits, w.branches, w.holder;
      claims, others, trace := w.claims, w.runs, w.trace;
    }
  }

  predicate Foreign(p: Process, move: Move) {
    (move.Start? || move.Resume?) ==> move.process != p
  }

  lemma OtherWorkKeepsRun(w: World, p: Process, q: Process, c: Candidate)
    requires p in w.runs && q in w.runs && w.runs[q].mission in w.branches && p != q
    requires w.runs[q].phase.Rebasing? || w.runs[q].phase.Gating? || w.runs[q].phase.Publishing? || w.runs[q].phase.Claiming?
    ensures var v := ResumeOk(w, q, c);
      p in v.runs && v.runs[p] == w.runs[p] && w.branches.Keys <= v.branches.Keys && v.exclusive == w.exclusive
  {
  }

  lemma OtherOkKeepsRun(w: World, p: Process, q: Process, c: Candidate)
    requires p in w.runs && q in w.runs && w.runs[q].mission in w.branches && p != q
    ensures var v := ResumeOk(w, q, c);
      p in v.runs && v.runs[p] == w.runs[p] && w.branches.Keys <= v.branches.Keys && v.exclusive == w.exclusive
  {
    var phase := w.runs[q].phase;
    if phase.Rebasing? || phase.Gating? || phase.Publishing? || phase.Claiming? { OtherWorkKeepsRun(w, p, q, c); }
    else { OtherQuietKeepsRun(w, p, q, c); }
  }

  lemma OtherQuietKeepsRun(w: World, p: Process, q: Process, c: Candidate)
    requires p in w.runs && q in w.runs && w.runs[q].mission in w.branches && p != q
    requires !(w.runs[q].phase.Rebasing? || w.runs[q].phase.Gating? || w.runs[q].phase.Publishing? || w.runs[q].phase.Claiming?)
    ensures var v := ResumeOk(w, q, c);
      p in v.runs && v.runs[p] == w.runs[p] && v.branches == w.branches && v.exclusive == w.exclusive
  {
  }

  lemma OtherKeepsRun(w: World, p: Process, q: Process, answer: Answer)
    requires p in w.runs && q in w.runs && w.runs[q].mission in w.branches && p != q
    ensures var v := ResumeWith(w, q, answer);
      p in v.runs && v.runs[p] == w.runs[p] && w.branches.Keys <= v.branches.Keys && v.exclusive == w.exclusive
  {
    if answer.Ok? { OtherOkKeepsRun(w, p, q, answer.candidate); }
  }

  lemma ForeignKeepsRun(w: World, p: Process, move: Move)
    requires p in w.runs && Foreign(p, move)
    ensures var v := Step(w, move);
      p in v.runs && v.runs[p] == w.runs[p] && w.branches.Keys <= v.branches.Keys && v.exclusive == w.exclusive
  {
    if move.Resume? && move.process in w.runs && w.runs[move.process].mission in w.branches {
      OtherKeepsRun(w, p, move.process, move.answer);
    }
  }

  /** The call awaited by run `r` can answer like this. */
  predicate Fits(w: World, r: Run, a: Answer) {
    match a
    case Ok(c) =>
      (r.phase.Rebasing? ==> Reachable(w, r.mission, c)) && (r.phase.Claiming? ==> !(w.exclusive && w.holder.Some?))
    case Repaired => (r.phase.Gating? && !r.dryRun) || r.phase.Publishing?
    case StashFails => r.phase.Releasing? && r.phase.landing.Landed?
    case Settled(reason) =>
      || (r.phase.Preparing? && (reason.AlreadyLanded? || !r.dryRun))
      || (r.phase.Gating? && reason.ForHuman? && !r.dryRun)
      || (r.phase.Publishing? && reason.AlreadyLanded?)
    case Fail => !r.phase.Releasing? && !r.phase.Ending?
  }

  /** What a run hears where it waits; an answer the call cannot give counts as a failure, of a release as none. */
  function Heard(w: World, p: Process, calls: Phase -> Answer): Answer
    requires p in w.runs && w.runs[p].mission in w.branches
  {
    var r := w.runs[p];
    var a := calls(r.phase);
    if Fits(w, r, a) then a else if r.phase.Releasing? || r.phase.Ending? then Ok(w.branches[r.mission]) else Fail
  }

  /** Run `p` takes in this move what its call answers. */
  ghost predicate Hears(w: World, move: Move, p: Process, calls: Phase -> Answer) {
    move.Resume? && move.process == p ==>
      p in w.runs && w.runs[p].mission in w.branches && move.answer == Heard(w, p, calls)
  }

  /** The moves lead from `start` through these worlds, and `p` hears what `calls` says. */
  ghost predicate Path(start: World, moves: seq<Move>, worlds: seq<World>, p: Process, calls: Phase -> Answer) {
    && |worlds| == |moves| + 1 && worlds[0] == start
    && (forall i {:trigger moves[i]} :: 0 <= i < |moves| ==>
          worlds[i + 1] == Step(worlds[i], moves[i]) && Hears(worlds[i], moves[i], p, calls))
  }

  lemma {:induction false} PathExecutes(start: World, moves: seq<Move>, worlds: seq<World>, p: Process, calls: Phase -> Answer)
    requires Path(start, moves, worlds, p, calls)
    ensures worlds[|moves|] == Execute(start, moves)
  {
    if moves != [] {
      var n := |moves| - 1;
      forall i | 0 <= i < n
        ensures worlds[..n + 1][i + 1] == Step(worlds[..n + 1][i], moves[..n][i]) && Hears(worlds[..n + 1][i], moves[..n][i], p, calls)
      {
        assert moves[i] == moves[..n][i];
      }
      PathExecutes(start, moves[..n], worlds[..n + 1], p, calls);
      assert moves[n] == moves[|moves| - 1];
    }
  }

  lemma PathGrows(start: World, moves: seq<Move>, worlds: seq<World>, p: Process, calls: Phase -> Answer, move: Move, w: World)
    requires Path(start, moves, worlds, p, calls) && w == Step(worlds[|moves|], move) && Hears(worlds[|moves|], move, p, calls)
    ensures Path(start, moves + [move], worlds + [w], p, calls)
  {
    var more, all := moves + [move], worlds + [w];
    forall i | 0 <= i < |more| ensures all[i + 1] == Step(all[i], more[i]) && Hears(all[i], more[i], p, calls) {
      if i < |moves| { assert more[i] == moves[i]; }
    }
  }

  class IntegrateCommand {
    const repo: Repository
    const process: Process
    const mission: Mission
    const dryRun: bool
    /** What each call that the command awaits will answer. */
    const calls: Phase -> Answer
    ghost const start: World
    ghost var moves: seq<Move>
    ghost var worlds: seq<World>
    ghost var world: World

    constructor (repo: Repository, process: Process, mission: Mission, dryRun: bool, calls: Phase -> Answer, ghost start: World)
      ensures this.repo == repo && this.process == process && this.mission == mission && this.dryRun == dryRun && this.calls == calls
      ensures this.start == start && world == start && Ran()
    {
      this.repo, this.process, this.mission, this.dryRun, this.calls := repo, process, mission, dryRun, calls;
      this.start, moves, worlds, world := start, [], [start], start;
    }

    /** `world` is what the moves so far lead to. */
    ghost predicate Ran()
      reads this
    {
      Path(start, moves, worlds, process, calls) && worlds[|moves|] == world
    }

    /** So is the repository, with this command suspended at `phase`. */
    ghost predicate At(phase: Phase)
      reads this, repo
    {
      Ran() && mission in repo.branches && world == View(phase)
    }

    ghost function View(phase: Phase): World
      reads this, repo
    {
      repo.State().(runs := repo.others[process := Run(mission, dryRun, phase)])
    }

    /** How a stage leaves the command: finished with an exit code, or suspended at `next`. */
    ghost predicate Leaves(done: Option<nat>, next: Phase)
      reads this, repo
    {
      if done.Some? then At(Ending(done.value)) else At(next)
    }

    // ------------------------------------------------------------ the command's moves

    ghost method Take(move: Move, w: World)
      requires Ran() && w == Step(world, move) && Hears(world, move, process, calls)
      modifies this`moves, this`worlds, this`world
      ensures Ran() && world == w
    {
      PathGrows(start, moves, worlds, process, calls, move, w);
      moves, worlds, world := moves + [move], worlds + [w], w;
    }

    /** The machine resumes the command with `answer`, which `then` spells out. */
    ghost method Answered(phase: Phase, answer: Answer, next: World)
      requires At(phase) && answer == Heard(View(phase), process, calls) && next == ResumeWith(View(phase), process, answer)
      modifies this`moves, this`worlds, this`world
      ensures Ran() && world == next
    {
      Take(Resume(process, answer), next);
    }

    // ------------------------------------------------------------ the command

    method MoveOther(phase: Phase, move: Move)
      requires At(phase) && Foreign(process, move)
      modifies this`moves, this`worlds, this`world, repo
      ensures At(phase)
    {
      ghost var before := world;
      var w := repo.State().(runs := repo.others[process := Run(mission, dryRun, phase)]);
      ForeignKeepsRun(w, process, move);
      var v := Step(w, move);
      Take(move, v);
      repo.Adopt(v);
      assert v.runs[process := Run(mission, dryRun, phase)] == v.runs;
    }

    /** Everybody else moves, in any way and number. */
    method Await(phase: Phase)
      requires At(phase)
      modifies this`moves, this`worlds, this`world, repo
      ensures At(phase)
    {
      var foreign: seq<Move> := *;
      for i := 0 to |foreign|
        invariant At(phase)
      {
        if Foreign(process, foreign[i]) { MoveOther(phase, foreign[i]); }
      }
    }

    method Log(e: Event)
      modifies repo`trace
      ensures repo.trace == old(repo.trace) + [e]
    {
      repo.trace := repo.trace + [e];
    }

    /** What the command awaited failed; under base exclusion the base is still to be released. */
    method Fails(phase: Phase)
      requires At(phase) && !phase.Releasing? && !phase.Ending? && !phase.Ended?
      requires Heard(View(phase), process, calls).Fail?
      modifies this`moves, this`worlds, this`world, repo`trace
      ensures At(if phase.Publishing? || phase.Closing? then Releasing(phase.attempt, Aborted) else Ending(1))
    {
      Take(Resume(process, Fail), ResumeFailed(world, process));
      Log(EffectFailed(process));
    }

    /** Resumption of earlier work, lane recovery and preflight. */
    method Prepare() returns (done: Option<nat>)
      requires At(Preparing)
      modifies this`moves, this`worlds, this`world, repo
      ensures done.Some? ==> At(Ending(done.value))
      ensures done.None? ==> mission in repo.branches && At(if dryRun then Gating(First, repo.branches[mission]) else Rebasing(First))
    {
      Await(Preparing);
      var answer := calls(Preparing);
      if answer.Settled? && (answer.reason.AlreadyLanded? || !dryRun) {
        Answered(Preparing, answer, MergeQueue.Stop(world, process, answer.reason));
        Log(Stopped(process, answer.reason));
        return Some(0);
      }
      if !answer.Ok? {
        Fails(Preparing);
        return Some(1);
      }
      Answered(Preparing, answer,
               MergeQueue.At(world, process, if dryRun then Gating(First, repo.branches[mission]) else Rebasing(First)));
      done := None;
    }

    /** Rebase the mission branch; it must end on the base as it now is. */
    method Rebase(stage: Stage) returns (done: Option<nat>)
      requires At(Rebasing(stage))
      modifies this`moves, this`worlds, this`world, repo
      ensures done.Some? ==> At(Ending(done.value))
      ensures done.None? ==> mission in repo.branches && At(Gating(stage, repo.branches[mission]))
    {
      Await(Rebasing(stage));
      var answer := calls(Rebasing(stage));
      if !answer.Ok? || !Reachable(repo.State(), mission, answer.candidate) {
        Fails(Rebasing(stage));
        return Some(1);
      }
      done := RebaseOnto(stage, answer.candidate);
    }

    method RebaseOnto(stage: Stage, c: Candidate) returns (done: Option<nat>)
      requires At(Rebasing(stage)) && Reachable(repo.State(), mission, c) && calls(Rebasing(stage)) == Ok(c)
      modifies this`moves, this`worlds, this`world, repo
      ensures mission in repo.branches && repo.branches[mission] == c
      ensures done.Some? ==> At(Ending(done.value))
      ensures done.None? ==> At(Gating(stage, c))
    {
      Answered(Rebasing(stage), Ok(c), FinishRebase(world, process, stage, c));
      repo.commits := if c.commit == repo.commits then repo.commits + 1 else repo.commits;
      repo.branches := repo.branches[mission := c];
      Log(Rebased(process, c.base == repo.tip));
      done := if c.base == repo.tip then None else Some(1);
    }

    predicate Needed()
      reads repo
      requires mission in repo.branches
    {
      repo.branches[mission].base != repo.tip
    }

    /** Run the required gates on the tree they were started on; a red gate may be repaired. */
    method RunGates(stage: Stage, tree: Candidate) returns (done: Option<nat>)
      requires At(Gating(stage, tree)) && !dryRun
      modifies this`moves, this`worlds, this`world, repo
      ensures done.Some? ==> At(Ending(done.value))
      ensures done.None? ==> mission in repo.branches && At(AfterGates(repo.State(), mission, stage))
    {
      Await(Gating(stage, tree));
      var answer := calls(Gating(stage, tree));
      match answer {
        case Ok(_) =>
          Answered(Gating(stage, tree), answer, PassGates(world, process, stage, tree));
          Log(Gated(process, tree, false));
          done := None;
        case Repaired =>
          CertifyRepair(stage, tree);
          done := None;
        case Settled(reason) => done := StopAtGates(stage, tree, reason);
        case _ =>
          Fails(Gating(stage, tree));
          done := Some(1);
      }
    }

    /** Red gates are left to a human; they are not a landing. */
    method StopAtGates(stage: Stage, tree: Candidate, reason: Reason) returns (done: Option<nat>)
      requires At(Gating(stage, tree)) && !dryRun && calls(Gating(stage, tree)) == Settled(reason)
      modifies this`moves, this`worlds, this`world, repo
      ensures done.Some? && At(Ending(done.value))
    {
      if reason.AlreadyLanded? {
        Fails(Gating(stage, tree));
        return Some(1);
      }
      Answered(Gating(stage, tree), Settled(ForHuman), MergeQueue.Stop(world, process, ForHuman));
      Log(Stopped(process, ForHuman));
      done := Some(0);
    }

    /** An agent's commit made the gates green. */
    method CertifyRepair(stage: Stage, tree: Candidate)
      requires At(Gating(stage, tree)) && !dryRun && calls(Gating(stage, tree)).Repaired?
      modifies this`moves, this`worlds, this`world, repo
      ensures mission in repo.branches && At(AfterGates(repo.State(), mission, stage))
    {
      Answered(Gating(stage, tree), Repaired, PassRepaired(world, process, stage));
      var c := Candidate(repo.branches[mission].base, repo.commits);
      repo.commits := repo.commits + 1;
      repo.branches := repo.branches[mission := c];
      Log(Gated(process, c, true));
    }

    /** Plan the gates of a dry run. */
    method PlanGates(tree: Candidate) returns (exit: nat)
      requires At(Gating(First, tree)) && dryRun
      modifies this`moves, this`worlds, this`world, repo
      ensures At(Ending(exit))
    {
      Await(Gating(First, tree));
      var answer := calls(Gating(First, tree));
      if !answer.Ok? {
        Fails(Gating(First, tree));
        return 1;
      }
      Answered(Gating(First, tree), answer, MergeQueue.At(world, process, Ending(0)));
      exit := 0;
    }

    /** Restore the integration lane and require what the approval still needs. */
    method RestoreLane() returns (done: Option<nat>)
      requires At(Restoring)
      modifies this`moves, this`worlds, this`world, repo
      ensures Leaves(done, Claiming(0))
    {
      Await(Restoring);
      var answer := calls(Restoring);
      if !answer.Ok? {
        Fails(Restoring);
        return Some(1);
      }
      Answered(Restoring, answer, MergeQueue.At(world, process, Claiming(0)));
      done := None;
    }

    /** The squash commit and its closeout; `closed` unless either failed. */
    method PublishMission(attempt: nat) returns (closed: bool)
      requires At(Publishing(attempt))
      modifies this`moves, this`worlds, this`world, repo
      ensures At(Releasing(attempt, if closed then Landed else Aborted))
    {
      Await(Publishing(attempt));
      var answer := calls(Publishing(attempt));
      if answer == Settled(AlreadyLanded) {
        Answered(Publishing(attempt), answer, MergeQueue.At(MergeQueue.Log(world, Resumed(process)), process, Closing(attempt)));
        Log(Resumed(process));
      } else if answer.Ok? || answer.Repaired? {
        SquashCommit(attempt, answer.Repaired?);
      } else {
        Fails(Publishing(attempt));
        return false;
      }
      closed := CloseOut(attempt);
    }

    method SquashCommit(attempt: nat, repairs: bool)
      requires At(Publishing(attempt)) && (if repairs then calls(Publishing(attempt)).Repaired? else calls(Publishing(attempt)).Ok?)
      modifies this`moves, this`worlds, this`world, repo
      ensures At(Closing(attempt))
    {
      Answered(Publishing(attempt), calls(Publishing(attempt)), Publish(world, process, attempt, repairs));
      var payload := repo.branches[mission];
      if repairs {
        payload := Candidate(payload.base, repo.commits);
        repo.commits := repo.commits + 1;
      }
      repo.tip := repo.tip + 1;
      Log(Published(process, mission, payload, repairs));
    }

    /** Sync, persist and clean up behind the landed commit. */
    method CloseOut(attempt: nat) returns (closed: bool)
      requires At(Closing(attempt))
      modifies this`moves, this`worlds, this`world, repo
      ensures At(Releasing(attempt, if closed then Landed else Aborted))
    {
      Await(Closing(attempt));
      var answer := calls(Closing(attempt));
      if !answer.Ok? {
        Fails(Closing(attempt));
        return false;
      }
      Answered(Closing(attempt), answer,
               MergeQueue.At(MergeQueue.Log(world, Closed(process)), process, Releasing(attempt, Landed)));
      Log(Closed(process));
      closed := true;
    }

    /** Whatever ran under base exclusion, the base is released; `lost` is a stash that cannot be restored. */
    method ReleaseBase(attempt: nat, landing: Landing) returns (lost: bool)
      requires At(Releasing(attempt, landing))
      modifies this`moves, this`worlds, this`world, repo
      ensures landing.Landed? ==> At(Ending(if lost then 1 else 0))
      ensures landing.Aborted? ==> !lost && At(Ending(1))
      ensures landing.BaseMoved? ==> !lost && At(Rebasing(Attempt(attempt)))
    {
      Await(Releasing(attempt, landing));
      lost := landing.Landed? && calls(Releasing(attempt, landing)).StashFails?;
      if lost { LeaveWithoutStash(attempt); } else { Leave(attempt, landing); }
    }

    method LeaveWithoutStash(attempt: nat)
      requires At(Releasing(attempt, Landed)) && calls(Releasing(attempt, Landed)).StashFails?
      modifies this`moves, this`worlds, this`world, repo
      ensures At(Ending(1))
    {
      Answered(Releasing(attempt, Landed), StashFails, LoseStash(world, process));
      Log(StashLost(process));
      if repo.holder == Some(process) { repo.holder := None; }
    }

    method Leave(attempt: nat, landing: Landing)
      requires At(Releasing(attempt, landing)) && !(landing.Landed? && calls(Releasing(attempt, landing)).StashFails?)
      modifies this`moves, this`worlds, this`world, repo
      ensures At(match landing case Landed => Ending(0) case Aborted => Ending(1) case BaseMoved => Rebasing(Attempt(attempt)))
    {
      Answered(Releasing(attempt, landing), OkHere(Releasing(attempt, landing)), LeaveBase(world, process, attempt, landing));
      if repo.holder == Some(process) { repo.holder := None; }
    }

    /** A release that returns. */
    ghost function OkHere(phase: Phase): Answer
      reads repo
      requires mission in repo.branches
    {
      if calls(phase).Ok? then calls(phase) else Ok(repo.branches[mission])
    }

    /** Take base exclusion; `false` when another integration holds it. */
    method ClaimBase(attempt: nat) returns (granted: bool)
      requires At(Claiming(attempt))
      modifies this`moves, this`worlds, this`world, repo
      ensures !granted ==> At(Ending(1))
      ensures granted ==> mission in repo.branches && At(if Needed() then Releasing(attempt, BaseMoved) else Publishing(attempt))
    {
      Await(Claiming(attempt));
      granted := calls(Claiming(attempt)).Ok? && !(repo.exclusive && repo.holder.Some?);
      if !granted {
        Fails(Claiming(attempt));
        return;
      }
      Answered(Claiming(attempt), calls(Claiming(attempt)), EnterBase(world, process, attempt));
      if repo.exclusive { repo.holder := Some(process); }
      Log(if Needed() then FoundMoved(process) else Checked(process));
    }

    /**
     * One landing attempt under base exclusion: nothing is landed when the base has moved. `stash` is what
     * restoring the stashed checkout will report.
     */
    method WithBaseMutation(attempt: nat) returns (done: Option<nat>, stash: nat)
      requires At(Claiming(attempt))
      modifies this`moves, this`worlds, this`world, repo
      ensures stash <= 1 && (stash == 1 ==> done == Some(0))
      ensures done.Some? ==> done.value <= 1 && At(Ending(if stash == 1 then 1 else done.value))
      ensures done.None? ==> At(Rebasing(Attempt(attempt)))
    {
      var granted := ClaimBase(attempt);
      if !granted { return Some(1), 0; }
      var landing := BaseMoved;
      if !Needed() {
        var landed := PublishMission(attempt);
        landing := if landed then Landed else Aborted;
      }
      var lost := ReleaseBase(attempt, landing);
      stash := if lost then 1 else 0;
      done := if landing.Landed? then Some(0) else if landing.Aborted? then Some(1) else None;
    }

    /** Rebase and validate again outside the exclusion, then go for the next attempt. */
    method Revalidate(attempt: nat) returns (done: Option<nat>)
      requires At(Rebasing(Attempt(attempt))) && !dryRun
      modifies this`moves, this`worlds, this`world, repo
      ensures Leaves(done, if attempt + 1 < LANDING_ATTEMPTS then Claiming(attempt + 1) else Ending(1))
    {
      done := Rebase(Attempt(attempt));
      if done.Some? { return; }
      done := RunGates(Attempt(attempt), repo.branches[mission]);
      if done.Some? { return; }
      done := RecoverLane(attempt);
    }

    method RecoverLane(attempt: nat) returns (done: Option<nat>)
      requires At(Recovering(attempt))
      modifies this`moves, this`worlds, this`world, repo
      ensures Leaves(done, if attempt + 1 < LANDING_ATTEMPTS then Claiming(attempt + 1) else Ending(1))
    {
      Await(Recovering(attempt));
      var answer := calls(Recovering(attempt));
      if !answer.Ok? {
        Fails(Recovering(attempt));
        return Some(1);
      }
      Answered(Recovering(attempt), answer,
               MergeQueue.At(world, process, if attempt + 1 < LANDING_ATTEMPTS then Claiming(attempt + 1) else Ending(1)));
      done := None;
    }

    /** Rebase and gate, again when the base moved while the gates ran. */
    method PrepareCandidate() returns (done: Option<nat>)
      requires At(Rebasing(First)) && !dryRun
      modifies this`moves, this`worlds, this`world, repo
      ensures Leaves(done, Claiming(0))
    {
      done := Rebase(First);
      if done.Some? { return; }
      done := RunGates(First, repo.branches[mission]);
      if done.Some? { return; }
      if Needed() {
        done := Rebase(Recheck);
        if done.Some? { return; }
        done := RunGates(Recheck, repo.branches[mission]);
        if done.Some? { return; }
      }
      done := RestoreLane();
    }

    /** Up to three landing attempts; a base that kept moving ends the run. */
    method LandingLoop() returns (exit: nat, stash: nat)
      requires At(Claiming(0)) && !dryRun
      modifies this`moves, this`worlds, this`world, repo
      ensures stash <= 1 && At(Ending(if exit >= stash then exit else stash))
    {
      var attempt := 0;
      while attempt < LANDING_ATTEMPTS
        invariant attempt <= LANDING_ATTEMPTS
        invariant At(if attempt < LANDING_ATTEMPTS then Claiming(attempt) else Ending(1))
      {
        var done;
        done, stash := WithBaseMutation(attempt);
        if done.Some? { return done.value, stash; }
        done := Revalidate(attempt);
        if done.Some? { return done.value, 0; }
        attempt := attempt + 1;
      }
      return 1, 0;
    }

    /** The integration run: its exit code, and what restoring the stashed checkout will report. */
    method RunIntegration() returns (exit: nat, stash: nat)
      requires At(Preparing)
      modifies this`moves, this`worlds, this`world, repo
      ensures stash <= 1 && At(Ending(if exit >= stash then exit else stash))
    {
      var done := Prepare();
      if done.Some? { return done.value, 0; }
      if dryRun {
        exit := PlanGates(repo.branches[mission]);
        return exit, 0;
      }
      done := PrepareCandidate();
      if done.Some? { return done.value, 0; }
      exit, stash := LandingLoop();
    }

    /** The mission claim is released however the run ended. */
    method ReleaseMission(exit: nat)
      requires At(Ending(exit))
      modifies this`moves, this`worlds, this`world, repo
      ensures At(Ended(exit))
    {
      Await(Ending(exit));
      Answered(Ending(exit), OkHere(Ending(exit)), ReleaseClaim(world, process, exit));
      repo.claims := repo.claims - {mission};
    }

    /** The whole command: claim the mission, run, restore the checkout, release the claim, exit. */
    method RunIntegrateEntry() returns (exit: nat)
      requires Ran() && world == repo.State() && process !in repo.others && mission in repo.branches
      modifies this`moves, this`worlds, this`world, repo
      ensures At(Ended(exit)) && world == Execute(start, moves)
      ensures mission in old(repo.claims) ==> exit == 1
    {
      if mission in repo.claims {
        Take(Start(process, mission, dryRun), View(Ended(1)).(trace := repo.trace + [TurnedAway(process)]));
        Log(TurnedAway(process));
        exit := 1;
      } else {
        Take(Start(process, mission, dryRun), View(Preparing).(claims := repo.claims[mission := process]));
        repo.claims := repo.claims[mission := process];
        var stash;
        exit, stash := RunIntegration();
        exit := if exit >= stash then exit else stash;
        ReleaseMission(exit);
      }
      PathExecutes(start, moves, worlds, process, calls);
    }
  }
}
