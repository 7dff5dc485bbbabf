/**
 * The repair kernel in the form it runs in: one incident whose fields the steps update, a loop whose
 * counter a retried launch leaves alone. What the environment will answer is given: `turns(k)` is all that
 * happens around the `k`th launch, `reruns(k)` what the `k`th re-run of the check reports.
 */
module ReboundKernel {
  import opened Prelude
  import opened Rebound

  class Kernel {
    const tables: Tables
    const config: Config
    var reason: Reason
    var relaunchable: bool
    var diagnostic: string
    var history: seq<Fingerprint>
    var launchFailures: nat
    var attempts: nat
    var details: seq<Detail>
    ghost var launches: nat

    constructor (tables: Tables, config: Config, reason: Reason)
      ensures this.tables == tables && this.config == config && View() == Opened(tables, reason)
    {
      this.tables, this.config := tables, config;
      this.reason, relaunchable, diagnostic := reason, Relaunchable(tables, reason), Diagnostic(reason);
      history, launchFailures, attempts, details, launches := [Mark(reason)], 0, 0, [], 0;
    }

    ghost function View(): Incident
      reads this
    {
      Incident(reason, relaunchable, diagnostic, history, launchFailures, attempts, details, launches)
    }

    method RefreshReboundState(v: Verified)
      modifies this
      ensures View() == Refresh(tables, old(View()), v)
    {
      reason := Refreshed(reason, v);
      diagnostic := Diagnostic(reason);
      relaunchable := Relaunchable(tables, reason);
      history := history + [Mark(reason)];
    }

    method StopWith(text: string) returns (outcome: Option<Kind>)
      modifies this
      ensures View() == StopRepair(old(View()), text) && outcome == Some(HumanOnly)
    {
      diagnostic, relaunchable := text, false;
      outcome := Some(HumanOnly);
    }

    method HandleLaunchResult(l: Launch) returns (action: Recovery)
      modifies this
      ensures action == LaunchRecoveryAction(l, old(attempts), old(launchFailures), config.maxLaunchRetries)
      ensures var s := old(View());
        View() == match action
          case Verify => s.(attempts := s.attempts + 1)
          case Skip => s.(diagnostic := l.diagnostic, attempts := s.attempts + 1)
          case _ => s.(diagnostic := l.diagnostic, launchFailures := s.launchFailures + 1)
    {
      action := LaunchRecoveryAction(l, attempts, launchFailures, config.maxLaunchRetries);
      if action == Verify {
        attempts := attempts + 1;
        return;
      }
      diagnostic := l.diagnostic;
      if action == Skip { attempts := attempts + 1; } else { launchFailures := launchFailures + 1; }
    }

    /** Record a verified attempt: fixed, stopped for a human, or one more failure on the record. */
    method FinishVerifiedRepair(v: Verified, attempt: int) returns (outcome: Option<Kind>, stop: bool)
      modifies this
      ensures Finish(tables, old(View()), attempt, v) ==
        if outcome.Some? then Ended(outcome.value, View()) else if stop then Left(View()) else Looping(View(), attempt + 1)
    {
      var before := Mark(reason);
      details := details + [Detail(before, if v.ok then before else Mark(Refreshed(reason, v)), v.ok)];
      if v.ok { return Some(Fixed), false; }
      RefreshReboundState(v);
      outcome, stop := None, !relaunchable;
    }

    /** The check after a completed repair. */
    method VerifyRepair(turn: Turn, attempt: int) returns (outcome: Option<Kind>, stop: bool)
      modifies this
      ensures Check(tables, old(View()), attempt, turn) ==
        if outcome.Some? then Ended(outcome.value, View()) else if stop then Left(View()) else Looping(View(), attempt + 1)
    {
      stop := false;
      if turn.verified.None? {
        outcome := StopWith("verification failed");
        return;
      }
      var v := turn.verified.value;
      if v.workflowBlock.Some? {
        outcome := StopWith(v.workflowBlock.value);
        return;
      }
      if DifferentGate(reason, v, turn.checkpoint) {
        outcome := StopWith("unrelated check");
        return;
      }
      if VerificationRequiresHuman(v.reason) {
        details := details + [Detail(Mark(reason), Mark(Refreshed(reason, v)), false)];
        RefreshReboundState(v);
        return Some(HumanOnly), false;
      }
      if v.ok && turn.checkpoint && !turn.certified {
        outcome := StopWith("certification failed");
        return;
      }
      outcome, stop := FinishVerifiedRepair(v, attempt);
    }

    /** The launch and the blocker it may have recorded; `None` lets the loop go on with its result. */
    method LaunchFix(turn: Turn, attempt: int) returns (launch: Launch, outcome: Option<Kind>)
      requires turn.prepared && turn.moved
      modifies this
      ensures Iterate(tables, config, old(View()), attempt, turn) ==
        if outcome.Some? then Ended(outcome.value, View())
        else HandleLaunch(tables, config, View(), attempt, launch, turn)
      ensures launchFailures == old(launchFailures)
    {
      launches := launches + 1;
      launch := LaunchStatus(turn.report);
      match BlockerOf(launch, turn) {
        case NoBlocker => outcome := None;
        case Unreadable(text) => outcome := StopWith(text);
        case Blocked(text) =>
          if launch.repairAttempted { attempts := attempts + 1; }
          outcome := StopWith(text);
      }
    }

    /** Launch fixes until one is certified, a human is needed, or a budget is spent. */
    method RunRepairAttempts(turns: nat -> Turn) returns (outcome: Option<Kind>, ghost taken: seq<Turn>)
      requires attempts == 0 && launchFailures == 0 && launches == 0
      modifies this
      ensures forall k :: 0 <= k < |taken| ==> taken[k] == turns(k)
      ensures var l := Repair(tables, config, old(View()), taken);
        && l.incident == View() && !Open(config, l)
        && (if outcome.Some? then l == Ended(outcome.value, View()) else !l.Ended?)
      ensures attempts <= AtLeastZero(config.maxAttempts) && launches <= LaunchLimit(config)
    {
      ghost var s0 := View();
      taken := [];
      var attempt, launched := 1, 0;
      while attempt <= config.maxAttempts
        invariant |taken| == launched && forall k :: 0 <= k < launched ==> taken[k] == turns(k)
        invariant Repair(tables, config, s0, taken) == Looping(View(), attempt)
        invariant Counted(config, Looping(View(), attempt), launched)
        decreases config.maxAttempts - attempt, AtLeastZero(config.maxLaunchRetries) - launchFailures
      {
        var turn := turns(launched);
        RepairSnoc(tables, config, s0, taken, turn);
        IterateCounts(tables, config, View(), attempt, turn, launched);
        taken, launched := taken + [turn], launched + 1;
        var stop, retry;
        outcome, stop, retry := AttemptRepair(turn, attempt);
        if outcome.Some? || stop { return; }
        attempt := if retry then attempt else attempt + 1;
      }
      outcome := None;
    }

    /** One iteration: `retry` repeats the attempt, `stop` leaves the loop. */
    method AttemptRepair(turn: Turn, attempt: int) returns (outcome: Option<Kind>, stop: bool, retry: bool)
      modifies this
      ensures Iterate(tables, config, old(View()), attempt, turn) ==
        if outcome.Some? then Ended(outcome.value, View()) else if stop then Left(View())
        else Looping(View(), if retry then attempt else attempt + 1)
      ensures outcome.None? && retry ==> launchFailures > old(launchFailures)
      ensures outcome.None? && !stop && !retry ==> launchFailures == old(launchFailures)
    {
      stop, retry := false, false;
      if !turn.prepared {
        outcome := StopWith("repair checkpoint could not be persisted");
        return;
      }
      if !turn.moved { return Some(Crashed), false, false; }
      var launch;
      launch, outcome := LaunchFix(turn, attempt);
      if outcome.Some? { return; }
      outcome, stop, retry := AfterLaunch(launch, turn, attempt);
    }

    method AfterLaunch(launch: Launch, turn: Turn, attempt: int) returns (outcome: Option<Kind>, stop: bool, retry: bool)
      modifies this
      ensures HandleLaunch(tables, config, old(View()), attempt, launch, turn) ==
        if outcome.Some? then Ended(outcome.value, View()) else if stop then Left(View())
        else Looping(View(), if retry then attempt else attempt + 1)
      ensures outcome.None? && retry ==> launchFailures > old(launchFailures)
      ensures outcome.None? && !stop && !retry ==> launchFailures == old(launchFailures)
    {
      outcome, stop, retry := None, false, false;
      var action := HandleLaunchResult(launch);
      match action {
        case Retry => retry := true;
        case Stop => stop := true;
        case Skip => outcome := RecordSpentLaunch(turn);
        case Verify => outcome, stop := VerifyRepair(turn, attempt);
      }
    }

    method RecordSpentLaunch(turn: Turn) returns (outcome: Option<Kind>)
      modifies this
      ensures forall attempt ::
        Spend(tables, config, old(View()), attempt, turn) ==
        if outcome.Some? then Ended(outcome.value, View()) else Looping(View(), attempt + 1)
      ensures launchFailures == old(launchFailures)
    {
      outcome := None;
      if config.inspectFailedRepair {
        if turn.inspected.None? { return Some(Crashed); }
        RefreshReboundState(turn.inspected.value);
      }
    }

    /** Re-run a transient check on the unchanged tree before any agent is launched. */
    method RetryTransientVerification(reruns: nat -> Option<Verified>) returns (outcome: Option<Kind>, ghost taken: seq<Option<Verified>>)
      modifies this
      ensures forall k :: 0 <= k < |taken| ==> taken[k] == reruns(k)
      ensures var r := RerunAll(tables, config, old(View()), taken);
        && r.incident == View() && !MayRerun(config, r)
        && match outcome
           case Some(kind) => (kind == Fixed && r.Passed?) || (kind == Crashed && r.Broke?)
           case None => r.Rerunning?
    {
      ghost var s0 := View();
      taken := [];
      var attempt := 1;
      while TransientRetryAllowed(reason, attempt, config.maxTransientRetries)
        invariant |taken| == attempt - 1 && forall k :: 0 <= k < |taken| ==> taken[k] == reruns(k)
        invariant RerunAll(tables, config, s0, taken) == Rerunning(View(), attempt)
        decreases config.maxTransientRetries - attempt
      {
        var result := reruns(attempt - 1);
        RerunSnoc(tables, config, s0, taken, result);
        taken := taken + [result];
        if result == None { return Some(Crashed), taken; }
        if result.value.ok { return Some(Fixed), taken; }
        RefreshReboundState(result.value);
        attempt := attempt + 1;
      }
      outcome := None;
    }

    /** Nothing is left to do: no further re-run is allowed, and the repair loop is over or was not to be entered. */
    ghost predicate Complete(r: Reason, rerun: seq<Option<Verified>>, taken: seq<Turn>)
    {
      var first := RerunAll(tables, config, Opened(tables, r), rerun);
      && (Opened(tables, r).relaunchable ==> !Allowed(config, first))
      && (Opened(tables, r).relaunchable && first.Rerunning?
          && !(first.incident.reason.GateFailure? && first.incident.reason.transient && first.incident.reason.environment) ==>
            var l := Repair(tables, config, first.incident, taken);
            l.Looping? ==> l.attempt > config.maxAttempts)
    }

    /** Bounce one failing occurrence back to the implementer and verify the fix. */
    method Run(reruns: nat -> Option<Verified>, turns: nat -> Turn)
      returns (kind: Kind, ghost rerun: seq<Option<Verified>>, ghost taken: seq<Turn>)
      requires View() == Opened(tables, reason)
      modifies this
      ensures forall k :: 0 <= k < |rerun| ==> rerun[k] == reruns(k)
      ensures forall k :: 0 <= k < |taken| ==> taken[k] == turns(k)
      ensures Complete(old(reason), rerun, taken) && Outcome(tables, config, old(reason), rerun, taken) == (kind, View())
      ensures attempts <= AtLeastZero(config.maxAttempts) && launches <= LaunchLimit(config)
    {
      rerun, taken := [], [];
      if !relaunchable { return HumanOnly, rerun, taken; }
      ghost var s0 := View();
      var outcome: Option<Kind>;
      outcome, rerun := RetryTransientVerification(reruns);
      RerunsKeepCounters(tables, config, s0, rerun);
      if outcome.Some? { return outcome.value, rerun, taken; }
      if Environmental(reason) { return HumanOnly, rerun, taken; }
      outcome, taken := RunRepairAttempts(turns);
      kind := if outcome.Some? then outcome.value else Exhausted;
    }
  }

  lemma RepairSnoc(t: Tables, c: Config, s: Incident, turns: seq<Turn>, turn: Turn)
    requires Open(c, Repair(t, c, s, turns))
    ensures var l := Repair(t, c, s, turns);
      Repair(t, c, s, turns + [turn]) == Iterate(t, c, l.incident, l.attempt, turn)
  {
    assert (turns + [turn])[..|turns|] == turns;
  }

  lemma RerunSnoc(t: Tables, c: Config, s: Incident, answers: seq<Option<Verified>>, answer: Option<Verified>)
    requires MayRerun(c, RerunAll(t, c, s, answers))
    ensures var r := RerunAll(t, c, s, answers);
      RerunAll(t, c, s, answers + [answer]) == RerunOnce(t, r.incident, r.attempt, answer)
  {
    assert (answers + [answer])[..|answers|] == answers;
  }
}
