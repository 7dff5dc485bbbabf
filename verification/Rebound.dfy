/**
 * The repair kernel: what one failing check, one launch result and one repair attempt do to the state
 * of an incident, and what every sequence of environment answers can lead to.
 */
module Rebound {
  import opened Prelude

  // ---------------------------------------------------------------- failures

  datatype Reason =
    | RebaseConflict(diagnostic: string)
    | GateFailure(
        area: string, command: string, exitCode: Option<int>, stdout: string, stderr: string, error: string,
        failureReason: Option<string>, transient: bool, environment: bool, invalidContract: Option<seq<string>>)
    | HookFailure(hook: Option<string>, operation: string, output: string)
    | ArtifactIncomplete(role: string, diagnostic: string)
    | AgentTimeout(role: string, diagnostic: string)
    | ReviewPreparation(problem: string, gateOutput: string)
    | DeclaredGateValidation(command: string, diagnostic: string)

  function Lines(parts: seq<string>): string {
    if parts == [] then ""
    else
      var rest := Lines(parts[1..]);
      if parts[0] == "" then rest else if rest == "" then parts[0] else parts[0] + "\n" + rest
  }

  function Diagnostic(r: Reason): string {
    match r
    case RebaseConflict(d) => d
    case GateFailure(_, _, _, stdout, stderr, error, _, _, _, contract) =>
      Lines([stdout, stderr, error] + if contract.Some? then contract.value else [])
    case HookFailure(_, _, output) => output
    case ArtifactIncomplete(_, d) => d
    case AgentTimeout(role, d) => if d != "" then d else role + " did not respond before its stage timeout"
    case ReviewPreparation(problem, output) => Lines([problem, output])
    case DeclaredGateValidation(_, d) => d
  }

  /** The parts that tell one failure from another. */
  datatype Fingerprint =
    | GateMark(area: string, command: string, exitCode: Option<int>, text: string)
    | DeclaredMark(command: string, text: string)
    | HookMark(hook: Option<string>, operation: string, text: string)
    | OtherMark(kind: nat, text: string)

  function Mark(r: Reason): Fingerprint {
    match r
    case GateFailure(area, command, exitCode, _, _, _, _, _, _, _) => GateMark(area, command, exitCode, Diagnostic(r))
    case DeclaredGateValidation(command, _) => DeclaredMark(command, Diagnostic(r))
    case HookFailure(hook, operation, output) => HookMark(hook, operation, output)
    case RebaseConflict(_) => OtherMark(0, Diagnostic(r))
    case ArtifactIncomplete(_, _) => OtherMark(1, Diagnostic(r))
    case AgentTimeout(_, _) => OtherMark(2, Diagnostic(r))
    case ReviewPreparation(_, _) => OtherMark(3, Diagnostic(r))
  }

  /** The text tables of the classifier: an explicit human-only blocker, and a human-only class. */
  datatype Tables = Tables(explicit: string -> bool, human: (string, Option<string>) -> bool)

  /** Whether an agent can be sent at this failure again. */
  predicate Relaunchable(t: Tables, r: Reason) {
    var text := Diagnostic(r);
    match r
    case RebaseConflict(_) => true
    case GateFailure(_, _, _, _, _, _, failureReason, _, _, contract) =>
      contract.None?
      && (if failureReason.Some? then !t.human(text, failureReason) else t.explicit(text) ==> !t.human(text, None))
    case DeclaredGateValidation(_, _) => false
    case ReviewPreparation(_, _) => !t.human(text, None)
    case _ => t.explicit(text) ==> !t.human(text, None)
  }

  datatype Verified = Verified(
    ok: bool, command: Option<string>, diagnostic: string, reason: Option<Reason>, workflowBlock: Option<string>)

  function Or(text: string, fallback: string): string { if text != "" then text else fallback }

  /** The failure after a check ran again: its own reason, or the previous one with the fresh output. */
  function Refreshed(r: Reason, v: Verified): Reason {
    if v.reason.Some? then v.reason.value
    else
      match r
      case GateFailure(_, _, _, stdout, _, _, _, _, _, _) =>
        r.(failureReason := None, stdout := Or(v.diagnostic, stdout), stderr := "", error := "")
      case ReviewPreparation(_, output) => r.(gateOutput := Or(v.diagnostic, output))
      case DeclaredGateValidation(command, d) => DeclaredGateValidation(command, Or(v.diagnostic, d))
      case ArtifactIncomplete(role, d) => ArtifactIncomplete(role, Or(v.diagnostic, d))
      case RebaseConflict(d) => RebaseConflict(Or(v.diagnostic, d))
      case AgentTimeout(role, d) => AgentTimeout(role, Or(v.diagnostic, d))
      case HookFailure(_, _, output) => r.(output := Or(v.diagnostic, output))
  }

  /** A different successful check cannot certify the required failing gate. */
  predicate DifferentGate(original: Reason, v: Verified, checkpoint: bool) {
    v.ok && original.GateFailure? && (checkpoint || (v.command.Some? && v.command.value != ""))
    && v.command != Some(original.command)
  }

  predicate VerificationRequiresHuman(reason: Option<Reason>) {
    reason.Some? && (reason.value.DeclaredGateValidation? || (reason.value.GateFailure? && reason.value.invalidContract.Some?))
  }

  // ---------------------------------------------------------------- launches

  /** What the launcher reported: it threw, or a result with an exit status, a spawn failure or neither. */
  datatype Report =
    | CouldNotLaunch(message: string)
    | Reported(invalidContract: Option<string>, status: Option<int>, spawnFailure: Option<bool>)

  datatype Launch = Launch(
    ok: bool, repairAttempted: bool, deterministic: bool, invalidContract: Option<string>, diagnostic: string)

  /** Only exit status 0 is a completed repair; a missing status is a launch that never counted. */
  function LaunchStatus(r: Report): Launch {
    match r
    case CouldNotLaunch(message) => Launch(false, false, false, None, message)
    case Reported(contract, status, spawnFailure) =>
      if contract.Some? then Launch(false, true, false, contract, contract.value)
      else if status.None? then
        Launch(false, false, spawnFailure == Some(true), None, "no exit status")
      else if status.value != 0 then Launch(false, true, false, None, "exited with an error")
      else Launch(true, true, false, None, "")
  }

  datatype Recovery = Verify | Skip | Retry | Stop

  function LaunchRecoveryAction(l: Launch, attempts: nat, launchFailures: nat, maxRetries: int): Recovery {
    if l.ok then Verify
    else if l.repairAttempted then Skip
    else if l.deterministic then Stop
    else if attempts > 0 || launchFailures + 1 > maxRetries then Stop else Retry
  }

  lemma LaunchRecoveryActionMeans(r: Report, attempts: nat, launchFailures: nat, maxRetries: int)
    ensures var action := LaunchRecoveryAction(LaunchStatus(r), attempts, launchFailures, maxRetries);
      && (action == Verify <==> r.Reported? && r.invalidContract.None? && r.status == Some(0))
      && (action == Skip <==> r.Reported? && (r.invalidContract.Some? || (r.status.Some? && r.status.value != 0)))
      && (action == Retry <==>
            && attempts == 0 && launchFailures < maxRetries
            && (r.Reported? ==> r.invalidContract.None? && r.status.None? && r.spawnFailure != Some(true)))
  {
  }

  // ---------------------------------------------------------------- one incident

  datatype Config = Config(maxAttempts: int, maxTransientRetries: int, maxLaunchRetries: int, inspectFailedRepair: bool)

  /** One attempt on record: the failure it started from and the one it left, unless it repaired it. */
  datatype Detail = Detail(before: Fingerprint, after: Fingerprint, ok: bool)

  datatype Incident = Incident(
    reason: Reason, relaunchable: bool, diagnostic: string, history: seq<Fingerprint>,
    launchFailures: nat, attempts: nat, details: seq<Detail>, launches: nat)

  datatype Kind = Fixed | Exhausted | HumanOnly | Crashed

  function Opened(t: Tables, r: Reason): Incident {
    Incident(r, Relaunchable(t, r), Diagnostic(r), [Mark(r)], 0, 0, [], 0)
  }

  function Refresh(t: Tables, s: Incident, v: Verified): Incident {
    var r := Refreshed(s.reason, v);
    s.(reason := r, diagnostic := Diagnostic(r), relaunchable := Relaunchable(t, r), history := s.history + [Mark(r)])
  }

  function StopRepair(s: Incident, diagnostic: string): Incident { s.(diagnostic := diagnostic, relaunchable := false) }

  datatype Blocker = NoBlocker | Blocked(text: string) | Unreadable(text: string)

  /** Everything the environment answers during one iteration of the repair loop. */
  datatype Turn = Turn(
    prepared: bool, checkpoint: bool, moved: bool, report: Report, blocker: Blocker,
    verified: Option<Verified>, certified: bool, inspected: Option<Verified>)

  datatype Loop = Looping(incident: Incident, attempt: int) | Left(incident: Incident) | Ended(kind: Kind, incident: Incident)

  /** The launch's own contract blocker, or the one its checkpoint recorded. */
  function BlockerOf(l: Launch, turn: Turn): Blocker {
    if l.invalidContract.Some? then Blocked(l.invalidContract.value)
    else if turn.checkpoint then turn.blocker else NoBlocker
  }

  function Finish(t: Tables, s: Incident, attempt: int, v: Verified): Loop {
    var before := Mark(s.reason);
    var detail := Detail(before, if v.ok then before else Mark(Refreshed(s.reason, v)), v.ok);
    var recorded := s.(details := s.details + [detail]);
    if v.ok then Ended(Fixed, recorded)
    else
      var refreshed := Refresh(t, recorded, v);
      if !refreshed.relaunchable then Left(refreshed) else Looping(refreshed, attempt + 1)
  }

  /** The check ran again after a completed repair. */
  function Check(t: Tables, s: Incident, attempt: int, turn: Turn): Loop {
    match turn.verified
    case None => Ended(HumanOnly, StopRepair(s, "verification failed"))
    case Some(v) =>
      if v.workflowBlock.Some? then Ended(HumanOnly, StopRepair(s, v.workflowBlock.value))
      else if DifferentGate(s.reason, v, turn.checkpoint) then Ended(HumanOnly, StopRepair(s, "unrelated check"))
      else if VerificationRequiresHuman(v.reason) then
        var detail := Detail(Mark(s.reason), Mark(Refreshed(s.reason, v)), false);
        Ended(HumanOnly, Refresh(t, s.(details := s.details + [detail]), v))
      else if v.ok && turn.checkpoint && !turn.certified then Ended(HumanOnly, StopRepair(s, "certification failed"))
      else Finish(t, s, attempt, v)
  }

  /** A launch that ended badly but may have changed the tree: its attempt is spent. */
  function Spend(t: Tables, c: Config, s: Incident, attempt: int, turn: Turn): Loop {
    if !c.inspectFailedRepair then Looping(s, attempt + 1)
    else if turn.inspected.None? then Ended(Crashed, s)
    else Looping(Refresh(t, s, turn.inspected.value), attempt + 1)
  }

  function HandleLaunch(t: Tables, c: Config, s: Incident, attempt: int, l: Launch, turn: Turn): Loop {
    match LaunchRecoveryAction(l, s.attempts, s.launchFailures, c.maxLaunchRetries)
    case Verify => Check(t, s.(attempts := s.attempts + 1), attempt, turn)
    case Skip => Spend(t, c, s.(diagnostic := l.diagnostic, attempts := s.attempts + 1), attempt, turn)
    case Retry => Looping(s.(diagnostic := l.diagnostic, launchFailures := s.launchFailures + 1), attempt)
    case Stop => Left(s.(diagnostic := l.diagnostic, launchFailures := s.launchFailures + 1))
  }

  /** One iteration of the repair loop; a retried launch does not advance the attempt. */
  function Iterate(t: Tables, c: Config, s: Incident, attempt: int, turn: Turn): Loop {
    if !turn.prepared then Ended(HumanOnly, StopRepair(s, "repair checkpoint could not be persisted"))
    else if !turn.moved then Ended(Crashed, s)
    else
      var launched := s.(launches := s.launches + 1);
      var l := LaunchStatus(turn.report);
      match BlockerOf(l, turn)
      case Unreadable(text) => Ended(HumanOnly, StopRepair(launched, text))
      case Blocked(text) =>
        Ended(HumanOnly, StopRepair(launched.(attempts := if l.repairAttempted then s.attempts + 1 else s.attempts), text))
      case NoBlocker => HandleLaunch(t, c, launched, attempt, l, turn)
  }

  predicate Open(c: Config, l: Loop) { l.Looping? && l.attempt <= c.maxAttempts }

  function Repair(t: Tables, c: Config, s: Incident, turns: seq<Turn>): Loop {
    if turns == [] then Looping(s, 1)
    else
      var l := Repair(t, c, s, turns[..|turns| - 1]);
      if Open(c, l) then Iterate(t, c, l.incident, l.attempt, turns[|turns| - 1]) else l
  }

  /** How the repair loop's end is reported. */
  function Conclude(l: Loop): (Kind, Incident) {
    match l
    case Ended(kind, s) => (kind, s)
    case Left(s) => (Exhausted, s)
    case Looping(s, _) => (Exhausted, s)
  }

  // ---------------------------------------------------------------- transient failures

  datatype Rerun = Rerunning(incident: Incident, attempt: int) | Passed(incident: Incident) | Broke(incident: Incident)

  predicate TransientRetryAllowed(r: Reason, attempt: int, retries: int) {
    r.GateFailure? && r.transient && attempt <= retries
  }

  function RerunOnce(t: Tables, s: Incident, attempt: int, answer: Option<Verified>): Rerun {
    match answer
    case None => Broke(s)
    case Some(v) => if v.ok then Passed(s) else Rerunning(Refresh(t, s, v), attempt + 1)
  }

  predicate MayRerun(c: Config, r: Rerun) {
    r.Rerunning? && TransientRetryAllowed(r.incident.reason, r.attempt, c.maxTransientRetries)
  }

  function RerunAll(t: Tables, c: Config, s: Incident, answers: seq<Option<Verified>>): Rerun {
    if answers == [] then Rerunning(s, 1)
    else
      var r := RerunAll(t, c, s, answers[..|answers| - 1]);
      if MayRerun(c, r) then RerunOnce(t, r.incident, r.attempt, answers[|answers| - 1]) else r
  }

  predicate Environmental(r: Reason) { r.GateFailure? && r.transient && r.environment }

  /** The whole incident: re-runs of an unchanged tree first, then the repair loop. */
  function Outcome(t: Tables, c: Config, r: Reason, reruns: seq<Option<Verified>>, turns: seq<Turn>): (Kind, Incident) {
    var s := Opened(t, r);
    if !s.relaunchable then (HumanOnly, s)
    else
      match RerunAll(t, c, s, reruns)
      case Passed(s1) => (Fixed, s1)
      case Broke(s1) => (Crashed, s1)
      case Rerunning(s1, _) =>
        if Environmental(s1.reason) then (HumanOnly, s1) else Conclude(Repair(t, c, s1, turns))
  }

  // ---------------------------------------------------------------- the loop is bounded

  function AtLeastZero(n: int): nat { if n < 0 then 0 else n }

  function LaunchLimit(c: Config): nat { AtLeastZero(c.maxAttempts) + AtLeastZero(c.maxLaunchRetries) }

  /** At every loop head the completed attempts are the counter minus one. */
  ghost predicate Counted(c: Config, l: Loop, turns: nat) {
    && (l.Looping? ==>
          && l.incident.attempts == l.attempt - 1 && l.incident.attempts <= AtLeastZero(c.maxAttempts)
          && l.incident.launchFailures <= AtLeastZero(c.maxLaunchRetries)
          && l.incident.launches == l.incident.attempts + l.incident.launchFailures
          && (Open(c, l) ==> l.incident.launches == turns))
    && l.incident.attempts <= AtLeastZero(c.maxAttempts)
    && l.incident.launches <= LaunchLimit(c)
  }

  /** After a launch whose attempt is spent: the counters, and no more than the counters. */
  ghost predicate Spent(c: Config, l: Loop, attempt: int, launchFailures: nat, launches: nat) {
    && l.incident.attempts == attempt && l.incident.launchFailures == launchFailures && l.incident.launches == launches
    && (l.Looping? ==> l.attempt == attempt + 1)
  }

  lemma CheckSpends(t: Tables, c: Config, s: Incident, attempt: int, turn: Turn)
    requires s.attempts == attempt
    ensures Spent(c, Check(t, s, attempt, turn), attempt, s.launchFailures, s.launches)
  {
  }

  lemma SpendSpends(t: Tables, c: Config, s: Incident, attempt: int, turn: Turn)
    requires s.attempts == attempt
    ensures Spent(c, Spend(t, c, s, attempt, turn), attempt, s.launchFailures, s.launches)
  {
  }

  predicate Launches(turn: Turn) { turn.prepared && turn.moved && BlockerOf(LaunchStatus(turn.report), turn).NoBlocker? }

  lemma StoppedCounts(t: Tables, c: Config, s: Incident, attempt: int, turn: Turn, turns: nat)
    requires attempt <= c.maxAttempts && Counted(c, Looping(s, attempt), turns) && !Launches(turn)
    ensures Counted(c, Iterate(t, c, s, attempt, turn), turns + 1)
  {
    var u := Iterate(t, c, s, attempt, turn).incident;
    assert u.launchFailures == s.launchFailures && u.launches <= s.launches + 1 && u.attempts <= s.attempts + 1;
  }

  lemma IterateCounts(t: Tables, c: Config, s: Incident, attempt: int, turn: Turn, turns: nat)
    requires attempt <= c.maxAttempts && Counted(c, Looping(s, attempt), turns)
    ensures Counted(c, Iterate(t, c, s, attempt, turn), turns + 1)
  {
    if Launches(turn) {
      HandleLaunchCounts(t, c, s.(launches := s.launches + 1), attempt, LaunchStatus(turn.report), turn, turns);
    } else {
      StoppedCounts(t, c, s, attempt, turn, turns);
    }
  }

  lemma HandleLaunchCounts(t: Tables, c: Config, s: Incident, attempt: int, l: Launch, turn: Turn, turns: nat)
    requires attempt <= c.maxAttempts && s.attempts == attempt - 1 && s.launchFailures <= AtLeastZero(c.maxLaunchRetries)
    requires s.launches == s.attempts + s.launchFailures + 1 == turns + 1
    ensures Counted(c, HandleLaunch(t, c, s, attempt, l, turn), turns + 1)
  {
    match LaunchRecoveryAction(l, s.attempts, s.launchFailures, c.maxLaunchRetries)
    case Verify => CheckSpends(t, c, s.(attempts := s.attempts + 1), attempt, turn);
    case Skip => SpendSpends(t, c, s.(diagnostic := l.diagnostic, attempts := s.attempts + 1), attempt, turn);
    case Retry =>
    case Stop =>
  }

  lemma {:induction false} RepairCounts(t: Tables, c: Config, s: Incident, turns: seq<Turn>)
    requires s.attempts == 0 && s.launchFailures == 0 && s.launches == 0
    ensures Counted(c, Repair(t, c, s, turns), |turns|)
  {
    if turns != [] {
      var earlier := turns[..|turns| - 1];
      RepairCounts(t, c, s, earlier);
      var l := Repair(t, c, s, earlier);
      if Open(c, l) { IterateCounts(t, c, l.incident, l.attempt, turns[|turns| - 1], |earlier|); }
    }
  }

  /** The loop is over after at most as many iterations as launches are allowed. */
  lemma RepairTerminates(t: Tables, c: Config, s: Incident, turns: seq<Turn>)
    requires s.attempts == 0 && s.launchFailures == 0 && s.launches == 0
    requires |turns| >= LaunchLimit(c)
    ensures !Open(c, Repair(t, c, s, turns))
  {
    RepairCounts(t, c, s, turns);
  }

  // ---------------------------------------------------------------- what `fixed` stands for

  /** A check may certify: its own command if the failure is a gate's, no rejected contract, and nothing that blocks. */
  predicate Accepted(r: Reason, v: Verified, checkpoint: bool) {
    && v.ok && v.workflowBlock.None?
    && (v.reason.None? || match v.reason.value
                          case GateFailure(_, _, _, _, _, _, _, _, _, contract) => contract.None?
                          case DeclaredGateValidation(_, _) => false
                          case _ => true)
    && match r
       case GateFailure(_, command, _, _, _, _, _, _, _, _) =>
         v.command == Some(command) || (!checkpoint && (v.command.None? || v.command == Some("")))
       case _ => true
  }

  /** A launch that exited 0, a passing check of this very gate with nothing against it, and its certification. */
  predicate Certifies(s: Incident, turn: Turn) {
    && turn.prepared && turn.moved
    && turn.report.Reported? && turn.report.invalidContract.None? && turn.report.status == Some(0)
    && (turn.checkpoint ==> turn.blocker.NoBlocker? && turn.certified)
    && turn.verified.Some? && Accepted(s.reason, turn.verified.value, turn.checkpoint)
  }

  lemma IterateFixes(t: Tables, c: Config, s: Incident, attempt: int, turn: Turn)
    ensures var l := Iterate(t, c, s, attempt, turn); l.Ended? && l.kind == Fixed <==> Certifies(s, turn)
  {
  }

  ghost predicate CertifiedAt(t: Tables, c: Config, s: Incident, turns: seq<Turn>, i: nat)
    requires i < |turns|
  {
    var l := Repair(t, c, s, turns[..i]);
    Open(c, l) && Certifies(l.incident, turns[i])
  }

  /** The repair loop reports `fixed` exactly when some iteration it reached was certified. */
  lemma {:induction false} RepairFixes(t: Tables, c: Config, s: Incident, turns: seq<Turn>)
    ensures var l := Repair(t, c, s, turns);
      l.Ended? && l.kind == Fixed <==> exists i :: 0 <= i < |turns| && CertifiedAt(t, c, s, turns, i)
  {
    if turns != [] {
      var earlier := turns[..|turns| - 1];
      var l := Repair(t, c, s, earlier);
      RepairFixes(t, c, s, earlier);
      assert forall i :: 0 <= i < |earlier| ==> turns[..i] == earlier[..i];
      assert forall i :: 0 <= i < |earlier| ==> (CertifiedAt(t, c, s, turns, i) <==> CertifiedAt(t, c, s, earlier, i));
      if Open(c, l) {
        IterateFixes(t, c, l.incident, l.attempt, turns[|turns| - 1]);
        assert CertifiedAt(t, c, s, turns, |earlier|) <==> Certifies(l.incident, turns[|turns| - 1]);
      }
    }
  }

  lemma {:induction false} RerunsKeepCounters(t: Tables, c: Config, s: Incident, answers: seq<Option<Verified>>)
    ensures var u := RerunAll(t, c, s, answers).incident;
      u.attempts == s.attempts && u.launches == s.launches && u.launchFailures == s.launchFailures && u.details == s.details
  {
    if answers != [] { RerunsKeepCounters(t, c, s, answers[..|answers| - 1]); }
  }

  predicate Passing(answer: Option<Verified>) { answer.Some? && answer.value.ok }

  /** Another re-run is due: the failure is a transient gate failure and the retries are not used up. */
  predicate Allowed(c: Config, r: Rerun) {
    && r.Rerunning? && r.attempt <= c.maxTransientRetries
    && match r.incident.reason
       case GateFailure(_, _, _, _, _, _, _, transient, _, _) => transient
       case _ => false
  }

  /** A re-run passes exactly when some re-run that was allowed reported success. */
  lemma {:induction false} RerunsPass(t: Tables, c: Config, s: Incident, answers: seq<Option<Verified>>)
    ensures RerunAll(t, c, s, answers).Passed?
            <==> exists i :: 0 <= i < |answers| && Allowed(c, RerunAll(t, c, s, answers[..i])) && Passing(answers[i])
  {
    if answers != [] {
      var earlier := answers[..|answers| - 1];
      RerunsPass(t, c, s, earlier);
      assert forall i :: 0 <= i < |earlier| ==> answers[..i] == earlier[..i];
    }
  }

  /**
   * `fixed` means: an allowed re-run of the unchanged tree passed, and then nothing was attempted and no
   * agent launched; or the repair loop reached an iteration that was certified.
   */
  lemma FixedIsSound(t: Tables, c: Config, r: Reason, reruns: seq<Option<Verified>>, turns: seq<Turn>)
    ensures var (kind, s) := Outcome(t, c, r, reruns, turns);
      var first := Opened(t, r);
      var rerun := RerunAll(t, c, first, reruns);
      kind == Fixed <==>
        first.relaunchable
        && ((rerun.Passed? && s.attempts == 0 && s.launches == 0)
            || (rerun.Rerunning?
                && (rerun.incident.reason.GateFailure? ==> !(rerun.incident.reason.transient && rerun.incident.reason.environment))
                && exists i :: 0 <= i < |turns| && CertifiedAt(t, c, rerun.incident, turns, i)))
  {
    var first := Opened(t, r);
    RerunsKeepCounters(t, c, first, reruns);
    var rerun := RerunAll(t, c, first, reruns);
    if rerun.Rerunning? { RepairFixes(t, c, rerun.incident, turns); }
  }

  // ---------------------------------------------------------------- the gate that is repaired

  /** Nothing the environment answers brings a reason of its own. */
  ghost predicate Silent(answer: Option<Verified>) { answer.Some? ==> answer.value.reason.None? }

  ghost predicate AllSilent(reruns: seq<Option<Verified>>, turns: seq<Turn>) {
    && (forall answer :: answer in reruns ==> Silent(answer))
    && (forall turn :: turn in turns ==> Silent(turn.verified) && Silent(turn.inspected))
  }

  predicate GateOf(r: Reason, command: string) { r.GateFailure? && r.command == command }

  lemma {:induction false} RerunsKeepGate(t: Tables, c: Config, s: Incident, answers: seq<Option<Verified>>, command: string)
    requires GateOf(s.reason, command) && forall answer :: answer in answers ==> Silent(answer)
    ensures GateOf(RerunAll(t, c, s, answers).incident.reason, command)
  {
    if answers != [] {
      assert answers[|answers| - 1] in answers;
      RerunsKeepGate(t, c, s, answers[..|answers| - 1], command);
    }
  }

  lemma IterateKeepsGate(t: Tables, c: Config, s: Incident, attempt: int, turn: Turn, command: string)
    requires GateOf(s.reason, command) && Silent(turn.verified) && Silent(turn.inspected)
    ensures GateOf(Iterate(t, c, s, attempt, turn).incident.reason, command)
  {
  }

  lemma {:induction false} RepairKeepsGate(t: Tables, c: Config, s: Incident, turns: seq<Turn>, command: string)
    requires GateOf(s.reason, command) && AllSilent([], turns)
    ensures GateOf(Repair(t, c, s, turns).incident.reason, command)
  {
    if turns != [] {
      var earlier := turns[..|turns| - 1];
      assert turns[|turns| - 1] in turns;
      RepairKeepsGate(t, c, s, earlier, command);
      var l := Repair(t, c, s, earlier);
      if Open(c, l) { IterateKeepsGate(t, c, l.incident, l.attempt, turns[|turns| - 1], command); }
    }
  }

  /**
   * As long as no check names another failure, a gate is only ever repaired by itself: `fixed` after a
   * launch means that the check which passed ran the gate's own command, or none was named and no
   * checkpoint asked for it.
   */
  lemma OnlyItsOwnGateCertifies(t: Tables, c: Config, r: Reason, reruns: seq<Option<Verified>>, turns: seq<Turn>)
    requires r.GateFailure? && AllSilent(reruns, turns)
    requires var (kind, s) := Outcome(t, c, r, reruns, turns); kind == Fixed && s.launches > 0
    ensures exists turn ::
      && turn in turns && turn.verified.Some? && turn.verified.value.ok
      && (turn.verified.value.command == Some(r.command)
          || (!turn.checkpoint && (turn.verified.value.command.None? || turn.verified.value.command == Some(""))))
  {
    FixedIsSound(t, c, r, reruns, turns);
    var rerun := RerunAll(t, c, Opened(t, r), reruns);
    RerunsKeepGate(t, c, Opened(t, r), reruns, r.command);
    var i :| 0 <= i < |turns| && CertifiedAt(t, c, rerun.incident, turns, i);
    assert AllSilent([], turns[..i]);
    RepairKeepsGate(t, c, rerun.incident, turns[..i], r.command);
    assert turns[i] in turns;
  }

  /** A turn that does repair the gate: the launch exits 0 and the gate's own command passes. */
  function RepairingTurn(command: string, checkpoint: bool): Turn {
    Turn(true, checkpoint, true, Reported(None, Some(0), None), NoBlocker, Some(Verified(true, Some(command), "", None, None)), true, None)
  }

  /** The gate's own command, passing after a completed launch, does repair it. */
  lemma ItsOwnGateRepairs(t: Tables, c: Config, r: Reason, checkpoint: bool)
    requires r.GateFailure? && !r.transient && Opened(t, r).relaunchable && c.maxAttempts >= 1
    ensures Outcome(t, c, r, [], [RepairingTurn(r.command, checkpoint)]).0 == Fixed
  {
    var turns := [RepairingTurn(r.command, checkpoint)];
    assert turns[..0] == [];
    assert CertifiedAt(t, c, Opened(t, r), turns, 0);
    FixedIsSound(t, c, r, [], turns);
  }

  lemma LinesOf(first: string, text: string)
    requires text != ""
    ensures Lines([first, text]) == if first == "" then text else first + "\n" + text
    ensures Lines([text, "", ""]) == text
  {
    assert [first, text][1..] == [text] && [text][1..] == [];
    assert Lines([text]) == text;
    assert [text, "", ""][1..] == ["", ""] && ["", ""][1..] == [""] && [""][1..] == [];
  }

  /** The reasons are of one kind and say the same of where it failed. */
  predicate Alike(r: Reason, q: Reason) {
    match (r, q)
    case (GateFailure(area, command, exitCode, _, _, _, _, _, _, _), GateFailure(area2, command2, exitCode2, _, _, _, _, _, _, _)) =>
      area == area2 && command == command2 && exitCode == exitCode2
    case (HookFailure(hook, operation, _), HookFailure(hook2, operation2, _)) => hook == hook2 && operation == operation2
    case (DeclaredGateValidation(command, _), DeclaredGateValidation(command2, _)) => command == command2
    case (RebaseConflict(_), RebaseConflict(_)) => true
    case (ArtifactIncomplete(_, _), ArtifactIncomplete(_, _)) => true
    case (AgentTimeout(_, _), AgentTimeout(_, _)) => true
    case (ReviewPreparation(_, _), ReviewPreparation(_, _)) => true
    case _ => false
  }

  /** Two failures leave the same mark exactly when they are alike and say the same. */
  lemma MarksTellApart(r: Reason, q: Reason)
    ensures Mark(r) == Mark(q) <==> Alike(r, q) && Diagnostic(r) == Diagnostic(q)
  {
  }

  /** What a failure says before any check: a timeout without words names its role, a rejected contract its lines. */
  lemma DiagnosticNeverHidesTheCause(r: Reason)
    ensures r.AgentTimeout? && r.diagnostic == "" ==> Diagnostic(r) == r.role + " did not respond before its stage timeout"
    ensures r.AgentTimeout? && r.diagnostic != "" ==> Diagnostic(r) == r.diagnostic
    ensures forall line :: r.GateFailure? && r.stdout == r.stderr == r.error == "" && r.invalidContract == Some([line]) ==> Diagnostic(r) == line
  {
    if r.GateFailure? && r.stdout == r.stderr == r.error == "" && r.invalidContract.Some? && |r.invalidContract.value| == 1 {
      ContractLine(r.invalidContract.value[0]);
      assert ["", "", ""] + r.invalidContract.value == ["", "", "", r.invalidContract.value[0]];
    }
  }

  lemma ContractLine(line: string)
    ensures Lines(["", "", "", line]) == line
  {
    assert [line][1..] == [] && Lines([line]) == line;
    assert ["", line][1..] == [line] && Lines(["", line]) == line;
    assert ["", "", line][1..] == ["", line] && Lines(["", "", line]) == line;
    assert ["", "", "", line][1..] == ["", "", line];
  }

  /** What a failure is judged by after a check that names no failure of its own: the fresh output alone. */
  lemma FreshOutputReplacesOld(r: Reason, v: Verified)
    requires v.reason.None? && v.diagnostic != ""
    ensures Alike(r, Refreshed(r, v))
    ensures match r
      case GateFailure(_, _, _, _, _, _, _, transient, environment, contract) =>
        && Refreshed(r, v).failureReason.None? && Refreshed(r, v).transient == transient
        && Refreshed(r, v).environment == environment && Refreshed(r, v).invalidContract == contract
        && (contract.None? ==> Diagnostic(Refreshed(r, v)) == v.diagnostic)
      case ReviewPreparation(problem, _) =>
        Diagnostic(Refreshed(r, v)) == if problem == "" then v.diagnostic else problem + "\n" + v.diagnostic
      case _ => Diagnostic(Refreshed(r, v)) == v.diagnostic
  {
    LinesOf("", v.diagnostic);
    if r.ReviewPreparation? { LinesOf(r.problem, v.diagnostic); }
    assert [v.diagnostic, "", ""] + [] == [v.diagnostic, "", ""];
  }

  /** A check without a word leaves what the failure said; a check that names a failure replaces it. */
  lemma SilentCheckKeepsOutput(r: Reason, v: Verified)
    ensures v.reason.None? && v.diagnostic == "" && !r.GateFailure? ==> Refreshed(r, v) == r
    ensures v.reason.None? && v.diagnostic == "" && r.GateFailure? ==>
      Refreshed(r, v) == r.(failureReason := None, stderr := "", error := "")
    ensures v.reason.Some? ==> Refreshed(r, v) == v.reason.value
  {
  }

  /** A launch stopped by a rejected contract, its own or one its checkpoint recorded, ends the repair and counts if it ran. */
  lemma BlockedLaunchStops(t: Tables, c: Config, s: Incident, attempt: int, turn: Turn)
    requires turn.prepared && turn.moved && turn.report.Reported?
    requires turn.report.invalidContract.Some? || (turn.checkpoint && turn.blocker.Blocked?)
    ensures var l := Iterate(t, c, s, attempt, turn);
      && l.Ended? && l.kind == HumanOnly && !l.incident.relaunchable && l.incident.launches == s.launches + 1
      && l.incident.diagnostic == (if turn.report.invalidContract.Some? then turn.report.invalidContract.value else turn.blocker.text)
      && l.incident.attempts == s.attempts + if turn.report.invalidContract.Some? || turn.report.status.Some? then 1 else 0
  {
  }

  /** Which failures an agent is sent at. */
  lemma SentAtMeans(t: Tables, r: Reason)
    ensures var text := Diagnostic(r);
      Opened(t, r).relaunchable <==> match r
        case RebaseConflict(_) => true
        case DeclaredGateValidation(_, _) => false
        case GateFailure(_, _, _, _, _, _, Some(named), _, _, contract) => contract.None? && !t.human(text, Some(named))
        case GateFailure(_, _, _, _, _, _, None, _, _, contract) => contract.None? && !(t.explicit(text) && t.human(text, None))
        case ReviewPreparation(_, _) => !t.human(text, None)
        case HookFailure(_, _, _) => !(t.explicit(text) && t.human(text, None))
        case ArtifactIncomplete(_, _) => !(t.explicit(text) && t.human(text, None))
        case AgentTimeout(_, _) => !(t.explicit(text) && t.human(text, None))
  {
  }

  /** Attempts and launches of a whole incident stay within their budgets. */
  lemma BudgetsHold(t: Tables, c: Config, r: Reason, reruns: seq<Option<Verified>>, turns: seq<Turn>)
    ensures var (kind, s) := Outcome(t, c, r, reruns, turns);
      s.attempts <= AtLeastZero(c.maxAttempts) && s.launches <= LaunchLimit(c)
  {
    var first := Opened(t, r);
    RerunsKeepCounters(t, c, first, reruns);
    RepairCounts(t, c, RerunAll(t, c, first, reruns).incident, turns);
  }

  // ---------------------------------------------------------------- why a repair is exhausted

  datatype Exhaustion = NeedsHuman | RepairBudget | LauncherBudget

  function ExhaustionOf(c: Config, s: Incident): Exhaustion {
    if !s.relaunchable then NeedsHuman else if s.attempts >= c.maxAttempts then RepairBudget else LauncherBudget
  }

  /** A loop left early needs a human or had no completed attempt to spend. */
  ghost predicate LeftEarly(c: Config, l: Loop) {
    l.Left? && l.incident.relaunchable ==> l.incident.attempts < c.maxAttempts
  }

  lemma CheckLeaves(t: Tables, s: Incident, attempt: int, turn: Turn)
    ensures var l := Check(t, s, attempt, turn); l.Left? ==> !l.incident.relaunchable
  {
  }

  lemma IterateLeaves(t: Tables, c: Config, s: Incident, attempt: int, turn: Turn)
    requires s.attempts < c.maxAttempts
    ensures LeftEarly(c, Iterate(t, c, s, attempt, turn))
  {
    CheckLeaves(t, s.(launches := s.launches + 1, attempts := s.attempts + 1), attempt, turn);
  }

  lemma {:induction false} RepairLeaves(t: Tables, c: Config, s: Incident, turns: seq<Turn>)
    requires s.attempts == 0 && s.launchFailures == 0 && s.launches == 0
    ensures LeftEarly(c, Repair(t, c, s, turns))
  {
    if turns != [] {
      var earlier := turns[..|turns| - 1];
      RepairLeaves(t, c, s, earlier);
      RepairCounts(t, c, s, earlier);
      var l := Repair(t, c, s, earlier);
      if Open(c, l) { IterateLeaves(t, c, l.incident, l.attempt, turns[|turns| - 1]); }
    }
  }

  /** The reported cause of exhaustion names how the loop ended: run out, left, or left for a human. */
  lemma ExhaustionNamesTheEnd(t: Tables, c: Config, s: Incident, turns: seq<Turn>)
    requires s.attempts == 0 && s.launchFailures == 0 && s.launches == 0
    requires var l := Repair(t, c, s, turns); !l.Ended? && !Open(c, l)
    ensures var l := Repair(t, c, s, turns);
      var why := ExhaustionOf(c, l.incident);
      && (why == NeedsHuman <==> !l.incident.relaunchable)
      && (why == RepairBudget <==> l.incident.relaunchable && l.Looping?)
      && (why == LauncherBudget <==> l.incident.relaunchable && l.Left?)
  {
    RepairLeaves(t, c, s, turns);
    RepairCounts(t, c, s, turns);
  }

  // ---------------------------------------------------------------- the audit trail

  /** The failures that the recorded attempts left behind. */
  function Failed(details: seq<Detail>): seq<Fingerprint> {
    if details == [] then []
    else
      var d := details[|details| - 1];
      Failed(details[..|details| - 1]) + if d.ok then [] else [d.after]
  }

  function LastMark(base: Fingerprint, details: seq<Detail>): Fingerprint {
    if details == [] then base else details[|details| - 1].after
  }

  ghost predicate Linked(base: Fingerprint, details: seq<Detail>) {
    forall i :: 0 <= i < |details| ==> details[i].before == LastMark(base, details[..i])
  }

  /** Each record starts where the previous one ended, and the history is the base and what they left. */
  ghost predicate Chain(base: Incident, s: Incident) {
    && Linked(Mark(base.reason), s.details)
    && s.history == base.history + Failed(s.details)
  }

  ghost predicate ChainOpen(base: Incident, s: Incident) {
    Chain(base, s) && Mark(s.reason) == LastMark(Mark(base.reason), s.details)
  }

  /** What an iteration may do to the trail: nothing, or add one record and what it left. */
  ghost predicate Quiet(s: Incident, u: Incident) {
    u.reason == s.reason && u.details == s.details && u.history == s.history
  }

  ghost predicate Noted(s: Incident, u: Incident, d: Detail) {
    && d.before == Mark(s.reason) && u.details == s.details + [d]
    && (if d.ok then d.after == d.before && u.history == s.history && u.reason == s.reason
        else d.after == Mark(u.reason) && u.history == s.history + [d.after])
  }

  ghost predicate Traced(s: Incident, u: Incident) { Quiet(s, u) || exists d :: Noted(s, u, d) }

  lemma RefreshNotes(t: Tables, s: Incident, v: Verified)
    ensures var d := Detail(Mark(s.reason), Mark(Refreshed(s.reason, v)), false);
      Noted(s, Refresh(t, s.(details := s.details + [d]), v), d)
  {
  }

  lemma CheckTraces(t: Tables, s: Incident, attempt: int, turn: Turn)
    ensures Traced(s, Check(t, s, attempt, turn).incident)
  {
    var u := Check(t, s, attempt, turn).incident;
    if turn.verified.Some? {
      var v := turn.verified.value;
      RefreshNotes(t, s, v);
      var passed := Detail(Mark(s.reason), Mark(s.reason), true);
      var failed := Detail(Mark(s.reason), Mark(Refreshed(s.reason, v)), false);
      assert Quiet(s, u) || Noted(s, u, passed) || Noted(s, u, failed);
    }
  }

  /** The iteration ends in a spent launch whose artifacts are inspected. */
  predicate Inspects(c: Config, s: Incident, turn: Turn) {
    var l := LaunchStatus(turn.report);
    && c.inspectFailedRepair && turn.prepared && turn.moved && BlockerOf(l, turn).NoBlocker?
    && l.repairAttempted && !l.ok && turn.inspected.Some?
  }

  lemma LaunchTraces(t: Tables, c: Config, s: Incident, attempt: int, l: Launch, turn: Turn)
    requires c.inspectFailedRepair && l.repairAttempted && !l.ok ==> turn.inspected.None?
    ensures Traced(s, HandleLaunch(t, c, s, attempt, l, turn).incident)
  {
    if l.ok {
      var counted := s.(attempts := s.attempts + 1);
      CheckTraces(t, counted, attempt, turn);
      var u := Check(t, counted, attempt, turn).incident;
      if !Quiet(counted, u) {
        var d :| Noted(counted, u, d);
        assert Noted(s, u, d);
      }
    }
  }

  lemma IterateTraces(t: Tables, c: Config, s: Incident, attempt: int, turn: Turn)
    requires !Inspects(c, s, turn)
    ensures Traced(s, Iterate(t, c, s, attempt, turn).incident)
  {
    if turn.prepared && turn.moved && BlockerOf(LaunchStatus(turn.report), turn).NoBlocker? {
      var launched := s.(launches := s.launches + 1);
      LaunchTraces(t, c, launched, attempt, LaunchStatus(turn.report), turn);
      var u := Iterate(t, c, s, attempt, turn).incident;
      if !Quiet(launched, u) {
        var d :| Noted(launched, u, d);
        assert Noted(s, u, d);
      }
    }
  }

  lemma NotedKeepsChain(base: Incident, s: Incident, u: Incident, d: Detail)
    requires ChainOpen(base, s) && Noted(s, u, d)
    ensures ChainOpen(base, u)
  {
    assert u.details[..|s.details|] == s.details;
    forall i | 0 <= i < |u.details| ensures u.details[i].before == LastMark(Mark(base.reason), u.details[..i]) {
      if i < |s.details| { assert u.details[..i] == s.details[..i]; }
    }
  }

  lemma IterateKeepsChain(t: Tables, c: Config, base: Incident, s: Incident, attempt: int, turn: Turn)
    requires !Inspects(c, s, turn) && ChainOpen(base, s)
    ensures ChainOpen(base, Iterate(t, c, s, attempt, turn).incident)
  {
    var u := Iterate(t, c, s, attempt, turn).incident;
    IterateTraces(t, c, s, attempt, turn);
    if !Quiet(s, u) {
      var d :| Noted(s, u, d);
      NotedKeepsChain(base, s, u, d);
    }
  }

  /** How many iterations inspected a failed repair. */
  function Inspections(t: Tables, c: Config, s: Incident, turns: seq<Turn>): nat {
    if turns == [] then 0
    else
      var earlier := turns[..|turns| - 1];
      var l := Repair(t, c, s, earlier);
      Inspections(t, c, s, earlier) + if Open(c, l) && Inspects(c, l.incident, turns[|turns| - 1]) then 1 else 0
  }

  lemma {:induction false} RepairKeepsChain(t: Tables, c: Config, base: Incident, turns: seq<Turn>)
    requires Inspections(t, c, base, turns) == 0 && base.details == [] && base.history != []
    ensures ChainOpen(base, Repair(t, c, base, turns).incident)
  {
    if turns != [] {
      var earlier := turns[..|turns| - 1];
      RepairKeepsChain(t, c, base, earlier);
      var l := Repair(t, c, base, earlier);
      if Open(c, l) { IterateKeepsChain(t, c, base, l.incident, l.attempt, turns[|turns| - 1]); }
    }
  }

  lemma {:induction false} NothingInspected(t: Tables, c: Config, s: Incident, turns: seq<Turn>)
    requires !c.inspectFailedRepair
    ensures Inspections(t, c, s, turns) == 0
  {
    if turns != [] { NothingInspected(t, c, s, turns[..|turns| - 1]); }
  }

  lemma FailedGrows(details: seq<Detail>, d: Detail)
    ensures Failed(details + [d]) == Failed(details) + if d.ok then [] else [d.after]
  {
    assert (details + [d])[..|details|] == details;
  }

  /** Every history entry after the base is a failed attempt's or an inspection's. */
  lemma {:induction false} HistoryIsCounted(t: Tables, c: Config, base: Incident, turns: seq<Turn>)
    requires base.details == []
    ensures var s := Repair(t, c, base, turns).incident;
      |s.history| == |base.history| + |Failed(s.details)| + Inspections(t, c, base, turns)
  {
    if turns != [] {
      var earlier := turns[..|turns| - 1];
      var turn := turns[|turns| - 1];
      HistoryIsCounted(t, c, base, earlier);
      var l := Repair(t, c, base, earlier);
      if Open(c, l) && !Inspects(c, l.incident, turn) {
        IterateTraces(t, c, l.incident, l.attempt, turn);
        var u := Iterate(t, c, l.incident, l.attempt, turn).incident;
        if !Quiet(l.incident, u) {
          var d :| Noted(l.incident, u, d);
          FailedGrows(l.incident.details, d);
        }
      }
    }
  }

  /** The trail of a repair is a chain exactly when no failed repair was inspected. */
  lemma ChainExactlyUninspected(t: Tables, c: Config, base: Incident, turns: seq<Turn>)
    requires base.details == [] && base.history != []
    ensures Chain(base, Repair(t, c, base, turns).incident) <==> Inspections(t, c, base, turns) == 0
  {
    HistoryIsCounted(t, c, base, turns);
    if Inspections(t, c, base, turns) == 0 { RepairKeepsChain(t, c, base, turns); }
  }

  lemma {:induction false} NoAttemptInspectsNothing(t: Tables, c: Config, s: Incident, turns: seq<Turn>)
    requires c.maxAttempts < 1
    ensures Repair(t, c, s, turns) == Looping(s, 1) && Inspections(t, c, s, turns) == 0
  {
    if turns != [] { NoAttemptInspectsNothing(t, c, s, turns[..|turns| - 1]); }
  }

  /** A launch that exited with an error and whose artifacts were looked at. */
  lemma SpentTurnInspects(t: Tables, c: Config, base: Incident) returns (turns: seq<Turn>)
    requires c.inspectFailedRepair && c.maxAttempts >= 1
    ensures Inspections(t, c, base, turns) == 1
  {
    var seen := Verified(false, None, "", None, None);
    turns := [Turn(true, false, true, Reported(None, Some(1), None), NoBlocker, None, true, Some(seen))];
    assert turns[..0] == [];
  }

  /** A caller can rely on the chain exactly when inspection is off or no attempt is allowed. */
  lemma ChainInEveryRunExactly(t: Tables, c: Config, base: Incident)
    requires base.details == [] && base.history != []
    ensures (forall turns :: Chain(base, Repair(t, c, base, turns).incident)) <==> (!c.inspectFailedRepair || c.maxAttempts < 1)
  {
    if !c.inspectFailedRepair || c.maxAttempts < 1 {
      forall turns ensures Chain(base, Repair(t, c, base, turns).incident) {
        if c.maxAttempts < 1 { NoAttemptInspectsNothing(t, c, base, turns); } else { NothingInspected(t, c, base, turns); }
        ChainExactlyUninspected(t, c, base, turns);
      }
    } else {
      var turns := SpentTurnInspects(t, c, base);
      ChainExactlyUninspected(t, c, base, turns);
    }
  }

  /** Before the repair loop the history is the first failure and one entry for each failed re-run. */
  lemma {:induction false} RerunsExtendHistory(t: Tables, c: Config, r: Reason, answers: seq<Option<Verified>>)
    ensures var u := RerunAll(t, c, Opened(t, r), answers);
      && u.incident.history != [] && u.incident.history[0] == Mark(r)
      && u.incident.history[|u.incident.history| - 1] == Mark(u.incident.reason)
      && (u.Rerunning? ==> |u.incident.history| == u.attempt)
  {
    if answers != [] { RerunsExtendHistory(t, c, r, answers[..|answers| - 1]); }
  }

  /**
   * With failed-repair inspection off, the audit trail of every incident is a chain: the history is the
   * first failure, the refreshes of the re-runs, then what each failed attempt left, in order.
   */
  lemma AuditTrailIsChain(t: Tables, c: Config, r: Reason, reruns: seq<Option<Verified>>, turns: seq<Turn>)
    requires !c.inspectFailedRepair
    ensures var (kind, s) := Outcome(t, c, r, reruns, turns);
      var base := RerunAll(t, c, Opened(t, r), reruns).incident;
      && Opened(t, r).relaunchable ==>
           && Chain(base, s) && base.history != []
           && base.history[0] == Mark(r) && base.history[|base.history| - 1] == Mark(base.reason)
  {
    var base := RerunAll(t, c, Opened(t, r), reruns).incident;
    RerunsKeepCounters(t, c, Opened(t, r), reruns);
    RerunsExtendHistory(t, c, r, reruns);
    NothingInspected(t, c, base, turns);
    RepairKeepsChain(t, c, base, turns);
  }

  /** With inspection on the chain can break: a spent launch refreshes the failure without a record. */
  lemma InspectionBreaksChain(t: Tables) returns (c: Config, r: Reason, turns: seq<Turn>)
    ensures var (kind, s) := Outcome(t, c, r, [], turns);
      c.inspectFailedRepair && kind == Fixed && !Chain(Opened(t, r), s)
  {
    c := Config(2, 0, 0, true);
    r := RebaseConflict("first");
    var failing := Verified(false, None, "", Some(RebaseConflict("second")), None);
    var passing := Verified(true, None, "", None, None);
    var spent := Turn(true, false, true, Reported(None, Some(1), None), NoBlocker, None, true, Some(failing));
    var repaired := Turn(true, false, true, Reported(None, Some(0), None), NoBlocker, Some(passing), true, None);
    turns := [spent, repaired];
    var s0 := Opened(t, r);
    assert turns[..1] == [spent] && turns[..1][..0] == [];
    assert Repair(t, c, s0, []) == Looping(s0, 1);
    var l1 := Repair(t, c, s0, turns[..1]);
    assert l1 == Iterate(t, c, s0, 1, spent);
    assert l1.Looping? && l1.attempt == 2 && l1.incident.reason == RebaseConflict("second") && l1.incident.details == [];
    var l2 := Repair(t, c, s0, turns);
    assert l2 == Iterate(t, c, l1.incident, 2, repaired);
    assert l2.incident.details[0].before != LastMark(Mark(r), []);
    assert l2.incident.details[..0] == [];
  }
}
