/**
 * A supervision step in the form it runs in: one method per function, updating a mission's run in place.
 * What the calls it awaits will answer is given beforehand; while it waits, any number of passes meet the
 * mission.
 */
module MissionRuns {
  import opened Prelude
  import opened Supervision

  datatype Work = NoneLive | Live | Unreadable

  datatype Grant = Yes | No | Broken

  /** What the calls of one step will answer; a call that throws is no answer. */
  datatype Calls = Calls(
    beforeAction: Work, actionSucceeds: bool, claim: Grant, beforeJudgment: Work, judgment: Option<Judgment>,
    afterJudgment: Work, launches: bool, releases: bool)

  function LivenessAnswer(w: Work): Answer {
    match w
    case NoneLive => Idle
    case Live => Working
    case Unreadable => Threw
  }

  function Succeeds(ok: bool): Answer { if ok then Returned else Threw }

  /** The answer to what the step awaits at `pc`. */
  function AnswerAt(pc: Pc, calls: Calls): Answer {
    match pc
    case CheckingBeforeAction(_) => LivenessAnswer(calls.beforeAction)
    case Acting(_) => Succeeds(calls.actionSucceeds)
    case ClaimingRecovery(_, _) => (match calls.claim case Yes => Granted case No => Busy case Broken => Threw)
    case CheckingBeforeJudgment(_, _) => LivenessAnswer(calls.beforeJudgment)
    case Judging(_, _) => if calls.judgment.Some? then Verdict(calls.judgment.value) else Threw
    case CheckingAfterJudgment(_, _, _) => LivenessAnswer(calls.afterJudgment)
    case Admitted(_, _) => Returned
    case Launching => Succeeds(calls.launches)
    case Releasing(_) => Succeeds(calls.releases)
    case Finishing(_) => Returned
  }

  /** Where these passes and answers lead, as long as every answer is the one that its call gave. */
  function Driven(start: Cell, moves: seq<Encounter>, budget: nat, calls: Calls): Option<Cell> {
    if moves == [] then Some(start)
    else
      match Driven(start, moves[..|moves| - 1], budget, calls)
      case None => None
      case Some(c) =>
        var last := moves[|moves| - 1];
        if last.Answered? && !(c.steps != [] && last.answer == AnswerAt(c.steps[0], calls)) then None
        else Some(Go(c, last, budget))
  }

  lemma DrivenSnoc(start: Cell, moves: seq<Encounter>, m: Encounter, budget: nat, calls: Calls)
    requires Driven(start, moves, budget, calls).Some?
    requires var c := Driven(start, moves, budget, calls).value;
      m.Answered? ==> c.steps != [] && m.answer == AnswerAt(c.steps[0], calls)
    ensures Driven(start, moves + [m], budget, calls).Some?
    ensures Driven(start, moves + [m], budget, calls).value == Go(Driven(start, moves, budget, calls).value, m, budget)
  {
    assert (moves + [m])[..|moves|] == moves;
  }

  /** Being driven is a run of the machine. */
  lemma {:induction false} DrivenRuns(start: Cell, moves: seq<Encounter>, budget: nat, calls: Calls)
    requires Driven(start, moves, budget, calls).Some?
    ensures GoAll(start, moves, budget) == Driven(start, moves, budget, calls).value
  {
    if moves != [] { DrivenRuns(start, moves[..|moves| - 1], budget, calls); }
  }

  class MissionRun {
    var pressed: set<Key>
    var actionAttempts: map<Key, nat>
    var attempts: map<Failure, nat>
    var outcome: Option<Outcome>
    var settledFailure: Option<Failure>
    ghost var log: seq<Event>
    ghost var seen: set<Observation>

    constructor ()
      ensures View([]) == NewCell
    {
      pressed, actionAttempts, attempts := {}, map[], map[];
      outcome, settledFailure, log, seen := None, None, [], {};
    }

    /** The mission as the state machine sees it, with these unfinished steps. */
    ghost function View(steps: seq<Pc>): Cell
      reads this
    {
      Cell(Run(pressed, actionAttempts, attempts, outcome, settledFailure), steps, steps != [], log, seen)
    }

    /** The step stands at `pc` after `moves`. */
    ghost predicate At(start: Cell, moves: seq<Encounter>, budget: nat, calls: Calls, pc: Pc)
      reads this
    {
      var d := Driven(start, moves, budget, calls);
      d.Some? && View([pc]) == d.value
    }

    ghost method Push(e: Event)
      modifies this`log
      ensures log == old(log) + [e]
    {
      log := log + [e];
    }

    method SettleAs(o: Outcome)
      modifies this`outcome, this`settledFailure, this`log
      ensures var failure := if o.Escalated? then old(settledFailure) else None;
        forall steps :: View(steps) == Settle(old(View(steps)), o, failure)
    {
      outcome := Some(o);
      settledFailure := if o.Escalated? then settledFailure else None;
      Push(Settlement(o, settledFailure));
    }

    /** Reconcile with a queue item: a settled mission may open again. */
    method Reconcile(o: Observation)
      modifies this`outcome, this`settledFailure, this`log, this`seen
      ensures forall steps :: View(steps) == Reopen(old(View(steps)).(seen := old(seen) + {o}), o)
    {
      seen := seen + {o};
      var reconsiderHuman := outcome == Some(Human) && (o.owned || o.working || (o.action.Some? && o.action.value != Merge));
      if outcome == Some(Cleared) || reconsiderHuman || (outcome == Some(Escalated) && settledFailure != Some(o.failure)) {
        Push(Reopened(outcome.value, settledFailure, o.failure));
        outcome := None;
        settledFailure := None;
      }
    }

    /** While the step waits, passes of the fleet loop may meet the mission. */
    method Await(ghost start: Cell, ghost past: seq<Encounter>, budget: nat, calls: Calls, ghost pc: Pc) returns (ghost moves: seq<Encounter>)
      requires At(start, past, budget, calls, pc)
      modifies this`outcome, this`settledFailure, this`log, this`seen
      ensures At(start, moves, budget, calls, pc)
      ensures old(outcome).None? ==> outcome.None? && settledFailure == old(settledFailure) && log == old(log)
    {
      moves := past;
      var passes: nat := *;
      while passes > 0
        invariant At(start, moves, budget, calls, pc)
        invariant old(outcome).None? ==> outcome.None? && settledFailure == old(settledFailure) && log == old(log)
      {
        var o: Observation := *;
        DrivenSnoc(start, moves, Passed(o), budget, calls);
        Reconcile(o);
        moves := moves + [Passed(o)];
        passes := passes - 1;
      }
    }

    /** Press the advertised command once, after a fresh liveness check. */
    method PressAdvertisedAction(ghost start: Cell, ghost past: seq<Encounter>, budget: nat, calls: Calls, o: Observation, key: Key)
      returns (result: Result, ghost moves: seq<Encounter>)
      requires o.action.Some? && key == KeyOf(o, o.action.value)
      requires At(start, past, budget, calls, CheckingBeforeAction(o))
      modifies this
      ensures At(start, moves, budget, calls, Finishing(result))
    {
      moves := Await(start, past, budget, calls, CheckingBeforeAction(o));
      if calls.beforeAction.Live? {
        DrivenSnoc(start, moves, Answered(Working), budget, calls);
        return Watching, moves + [Answered(Working)];
      }
      if calls.beforeAction.Unreadable? {
        DrivenSnoc(start, moves, Answered(Threw), budget, calls);
        return Rejected, moves + [Answered(Threw)];
      }
      DrivenSnoc(start, moves, Answered(Idle), budget, calls);
      moves := moves + [Answered(Idle)];
      log := log + [ReadIdle, Dispatched(key)];
      assert At(start, moves, budget, calls, Acting(o));
      result, moves := DispatchAction(start, moves, budget, calls, o, key);
    }

    method DispatchAction(ghost start: Cell, ghost past: seq<Encounter>, budget: nat, calls: Calls, o: Observation, key: Key)
      returns (result: Result, ghost moves: seq<Encounter>)
      requires o.action.Some? && key == KeyOf(o, o.action.value)
      requires At(start, past, budget, calls, Acting(o))
      modifies this
      ensures At(start, moves, budget, calls, Finishing(result))
    {
      moves := Await(start, past, budget, calls, Acting(o));
      if calls.actionSucceeds {
        DrivenSnoc(start, moves, Answered(Returned), budget, calls);
        pressed := pressed + {key};
        Push(Succeeded(key));
        return Acted, moves + [Answered(Returned)];
      }
      result, moves := CountFailedAction(start, moves, budget, calls, o, key);
    }

    method CountFailedAction(ghost start: Cell, ghost past: seq<Encounter>, budget: nat, calls: Calls, o: Observation, key: Key)
      returns (result: Result, ghost moves: seq<Encounter>)
      requires o.action.Some? && key == KeyOf(o, o.action.value) && !calls.actionSucceeds
      requires At(start, past, budget, calls, Acting(o))
      modifies this
      ensures At(start, moves, budget, calls, Finishing(result))
    {
      DrivenSnoc(start, past, Answered(Threw), budget, calls);
      moves := past + [Answered(Threw)];
      var failures := Get(actionAttempts, key, 0) + 1;
      actionAttempts := actionAttempts[key := failures];
      if failures < ACTION_ATTEMPTS { return Watching, moves; }
      pressed := pressed + {key};
      result := Acted;
    }

    /** The step stands at the release of its claim, which is the next thing it logs. */
    ghost predicate AtRelease(start: Cell, moves: seq<Encounter>, budget: nat, calls: Calls, result: Result)
      reads this
    {
      var d := Driven(start, moves, budget, calls);
      d.Some? && Note(View([Releasing(result)]), [Released]) == d.value
    }

    /** Judgment inside the recovery claim; live work still wins afterwards. `None` means go on. */
    method JudgeRecoveryStep(ghost start: Cell, ghost past: seq<Encounter>, budget: nat, calls: Calls, o: Observation, spent: nat)
      returns (stop: Option<Result>, ghost moves: seq<Encounter>)
      requires At(start, past, budget, calls, Judging(o, spent))
      modifies this
      ensures stop.Some? ==> AtRelease(start, moves, budget, calls, stop.value)
      ensures stop.None? ==> At(start, moves, budget, calls, Admitted(o, spent))
    {
      moves := Await(start, past, budget, calls, Judging(o, spent));
      if calls.judgment.None? {
        DrivenSnoc(start, moves, Answered(Threw), budget, calls);
        return Some(Acted), moves + [Answered(Threw)];
      }
      var decision := calls.judgment.value;
      DrivenSnoc(start, moves, Answered(Verdict(decision)), budget, calls);
      moves := moves + [Answered(Verdict(decision))];
      match decision {
        case Wait => stop := Some(Watching);
        case Stop =>
          settledFailure := Some(o.failure);
          SettleAs(Escalated);
          stop := Some(Settled);
        case Continue(admitted) =>
          stop, moves := RecheckAfterJudgment(start, moves, budget, calls, o, spent, admitted);
      }
    }

    method RecheckAfterJudgment(ghost start: Cell, ghost past: seq<Encounter>, budget: nat, calls: Calls, o: Observation, spent: nat, admitted: bool)
      returns (stop: Option<Result>, ghost moves: seq<Encounter>)
      requires At(start, past, budget, calls, CheckingAfterJudgment(o, spent, admitted))
      modifies this
      ensures stop.Some? ==> AtRelease(start, moves, budget, calls, stop.value)
      ensures stop.None? ==> At(start, moves, budget, calls, Admitted(o, spent))
    {
      moves := Await(start, past, budget, calls, CheckingAfterJudgment(o, spent, admitted));
      if calls.afterJudgment.Live? {
        DrivenSnoc(start, moves, Answered(Working), budget, calls);
        return Some(Watching), moves + [Answered(Working)];
      }
      if calls.afterJudgment.Unreadable? {
        DrivenSnoc(start, moves, Answered(Threw), budget, calls);
        return Some(Acted), moves + [Answered(Threw)];
      }
      DrivenSnoc(start, moves, Answered(Idle), budget, calls);
      moves := moves + [Answered(Idle)];
      if !admitted {
        settledFailure := Some(o.failure);
        SettleAs(Escalated);
        return Some(Settled), moves;
      }
      Push(ReadIdle);
      stop := None;
    }

    /** What runs inside the claim; however it ends, the claim is released next. */
    method RecoverUnderClaim(ghost start: Cell, ghost past: seq<Encounter>, budget: nat, calls: Calls, o: Observation, spent: nat)
      returns (result: Result, ghost moves: seq<Encounter>)
      requires At(start, past, budget, calls, CheckingBeforeJudgment(o, spent))
      modifies this
      ensures AtRelease(start, moves, budget, calls, result)
    {
      moves := Await(start, past, budget, calls, CheckingBeforeJudgment(o, spent));
      if calls.beforeJudgment.Live? {
        DrivenSnoc(start, moves, Answered(Working), budget, calls);
        return Watching, moves + [Answered(Working)];
      }
      if calls.beforeJudgment.Unreadable? {
        DrivenSnoc(start, moves, Answered(Threw), budget, calls);
        return Acted, moves + [Answered(Threw)];
      }
      DrivenSnoc(start, moves, Answered(Idle), budget, calls);
      moves := moves + [Answered(Idle)];
      Push(ReadIdle);
      var stop: Option<Result>;
      stop, moves := JudgeRecoveryStep(start, moves, budget, calls, o, spent);
      if stop.Some? { return stop.value, moves; }
      result, moves := LaunchRecovery(start, moves, budget, calls, o, spent);
    }

    method LaunchRecovery(ghost start: Cell, ghost past: seq<Encounter>, budget: nat, calls: Calls, o: Observation, spent: nat)
      returns (result: Result, ghost moves: seq<Encounter>)
      requires At(start, past, budget, calls, Admitted(o, spent))
      modifies this
      ensures AtRelease(start, moves, budget, calls, result)
    {
      moves := Await(start, past, budget, calls, Admitted(o, spent));
      DrivenSnoc(start, moves, Answered(Returned), budget, calls);
      moves := moves + [Answered(Returned)];
      attempts := attempts[o.failure := spent + 1];
      Push(Launched(o.failure));
      assert At(start, moves, budget, calls, Launching);
      result, moves := AwaitRecovery(start, moves, budget, calls);
    }

    /** The agent's end is not evidence, however it ends. */
    method AwaitRecovery(ghost start: Cell, ghost past: seq<Encounter>, budget: nat, calls: Calls)
      returns (result: Result, ghost moves: seq<Encounter>)
      requires At(start, past, budget, calls, Launching)
      modifies this
      ensures AtRelease(start, moves, budget, calls, result)
    {
      moves := Await(start, past, budget, calls, Launching);
      DrivenSnoc(start, moves, Answered(Succeeds(calls.launches)), budget, calls);
      moves := moves + [Answered(Succeeds(calls.launches))];
      result := Acted;
    }

    /** Claim, recover, release. */
    method Recover(ghost start: Cell, ghost past: seq<Encounter>, budget: nat, calls: Calls, o: Observation, spent: nat)
      returns (result: Result, ghost moves: seq<Encounter>)
      requires At(start, past, budget, calls, ClaimingRecovery(o, spent))
      modifies this
      ensures At(start, moves, budget, calls, Finishing(result))
    {
      moves := Await(start, past, budget, calls, ClaimingRecovery(o, spent));
      if calls.claim.No? {
        DrivenSnoc(start, moves, Answered(Busy), budget, calls);
        return Watching, moves + [Answered(Busy)];
      }
      if calls.claim.Broken? {
        DrivenSnoc(start, moves, Answered(Threw), budget, calls);
        return Rejected, moves + [Answered(Threw)];
      }
      DrivenSnoc(start, moves, Answered(Granted), budget, calls);
      moves := moves + [Answered(Granted)];
      Push(Claimed);
      result, moves := RecoverUnderClaim(start, moves, budget, calls, o, spent);
      Push(Released);
      result, moves := ReleaseClaim(start, moves, budget, calls, result);
    }

    method ReleaseClaim(ghost start: Cell, ghost past: seq<Encounter>, budget: nat, calls: Calls, reported: Result)
      returns (result: Result, ghost moves: seq<Encounter>)
      requires At(start, past, budget, calls, Releasing(reported))
      modifies this
      ensures At(start, moves, budget, calls, Finishing(result))
    {
      moves := Await(start, past, budget, calls, Releasing(reported));
      if calls.releases {
        DrivenSnoc(start, moves, Answered(Returned), budget, calls);
        return reported, moves + [Answered(Returned)];
      }
      DrivenSnoc(start, moves, Answered(Threw), budget, calls);
      return Rejected, moves + [Answered(Threw)];
    }

    /** One step over one attention item: leave it to the operator, press its action, or recover. */
    method SuperviseItem(o: Observation, budget: nat, calls: Calls) returns (result: Result, ghost moves: seq<Encounter>)
      modifies this
      ensures At(old(Start(View([]), o, budget)), moves, budget, calls, Finishing(result))
      ensures View([Finishing(result)]) == GoAll(old(Start(View([]), o, budget)), moves, budget)
    {
      result, moves := StepOver(o, budget, calls);
      DrivenRuns(old(Start(View([]), o, budget)), moves, budget, calls);
    }

    method StepOver(o: Observation, budget: nat, calls: Calls) returns (result: Result, ghost moves: seq<Encounter>)
      modifies this
      ensures At(old(Start(View([]), o, budget)), moves, budget, calls, Finishing(result))
    {
      ghost var start := Start(View([]), o, budget);
      moves := [];
      if o.action.None? && (o.owned || o.working) { return Watching, []; }
      if o.action.None? || o.action == Some(Merge) {
        SettleAs(Human);
        return Settled, [];
      }
      var key := KeyOf(o, o.action.value);
      if o.action != Some(Manual) && key !in pressed {
        result, moves := PressAdvertisedAction(start, [], budget, calls, o, key);
        return;
      }
      var spent := Get(attempts, o.failure, 0);
      if spent >= budget {
        settledFailure := Some(o.failure);
        SettleAs(Escalated);
        return Settled, [];
      }
      result, moves := Recover(start, [], budget, calls, o, spent);
    }
  }
}
