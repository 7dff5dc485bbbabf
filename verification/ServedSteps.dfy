/**
 * What supervision does for a mission when every call it awaits is served: the command is pressed, the
 * agent is launched, and settled missions come back when what settled them no longer holds.
 */
module ServedSteps {
  import opened Prelude
  import opened Supervision

  /** The mission is open for a step. */
  ghost predicate Free(c: Cell, budget: nat) {
    CellInv(c, budget) && c.steps == [] && c.run.outcome.None?
  }

  function Answers(c: Cell, answers: seq<Answer>, budget: nat): Cell {
    if answers == [] then c else Go(Answers(c, answers[..|answers| - 1], budget), Answered(answers[|answers| - 1]), budget)
  }

  lemma AnswersSnoc(c: Cell, answers: seq<Answer>, a: Answer, budget: nat)
    ensures Answers(c, answers + [a], budget) == Go(Answers(c, answers, budget), Answered(a), budget)
  {
    assert (answers + [a])[..|answers|] == answers;
  }

  lemma AnswersThree(c: Cell, x: Answer, y: Answer, z: Answer, budget: nat)
    ensures Answers(c, [x, y, z], budget) == Go(Go(Go(c, Answered(x), budget), Answered(y), budget), Answered(z), budget)
  {
    AnswersSnoc(c, [], x, budget);
    AnswersSnoc(c, [x], y, budget);
    AnswersSnoc(c, [x, y], z, budget);
    assert [] + [x] == [x] && [x] + [y] == [x, y] && [x, y] + [z] == [x, y, z];
    assert Answers(c, [], budget) == c;
  }

  lemma AnswersFour(c: Cell, x: Answer, y: Answer, z: Answer, u: Answer, budget: nat)
    ensures Answers(c, [x, y, z, u], budget)
            == Go(Go(Go(Go(c, Answered(x), budget), Answered(y), budget), Answered(z), budget), Answered(u), budget)
  {
    AnswersThree(c, x, y, z, budget);
    AnswersSnoc(c, [x, y, z], u, budget);
    assert [x, y, z] + [u] == [x, y, z, u];
  }

  lemma FirstSegment(c: Cell, o: Observation, budget: nat)
    requires Free(c, budget)
    ensures var d := Supervise(c, o, budget);
      && |d.steps| == 1 && d.seen == c.seen + {o}
      && (o.action.Some? && o.action.value.Command? && Key(o.action.value, o.progress, o.failure) !in c.run.pressed ==>
            d == c.(seen := d.seen, steps := [CheckingBeforeAction(o)], inFlight := true))
      && (o.action.Some? && o.action.value != Merge
          && (o.action.value == Manual || Key(o.action.value, o.progress, o.failure) in c.run.pressed)
          && Get(c.run.attempts, o.failure, 0) < budget ==>
            d == c.(seen := d.seen, steps := [ClaimingRecovery(o, Get(c.run.attempts, o.failure, 0))], inFlight := true))
  {
    assert !c.inFlight;
    assert c.steps + [Supervise(c, o, budget).steps[0]] == [Supervise(c, o, budget).steps[0]];
  }

  /** How a step that meets an open mission without any answer ends. */
  lemma SettledAtSight(c: Cell, o: Observation, budget: nat)
    requires Free(c, budget)
    ensures var outcome := Supervise(c, o, budget).run.outcome;
      && (outcome == Some(Human) <==>
            o.action == Some(Merge) || (o.action.None? && !o.owned && !o.working))
      && (outcome == Some(Escalated) <==>
            && o.action.Some? && o.action.value != Merge && Get(c.run.attempts, o.failure, 0) >= budget
            && (o.action.value == Manual || Key(o.action.value, o.progress, o.failure) in c.run.pressed))
      && outcome != Some(Cleared)
      && (outcome == Some(Escalated) ==> Supervise(c, o, budget).run.settledFailure == Some(o.failure))
  {
  }

  // ---------------------------------------------------------------- a command is pressed

  const PRESSING := [Idle, Returned, Returned]

  /** A command that was not pressed in this state is dispatched once, and is not pressed in it again. */
  lemma CommandIsPressed(c: Cell, o: Observation, budget: nat)
    requires Free(c, budget) && o.action.Some? && o.action.value.Command?
    requires Key(o.action.value, o.progress, o.failure) !in c.run.pressed
    ensures var key := Key(o.action.value, o.progress, o.failure);
      var d := Answers(Supervise(c, o, budget), PRESSING, budget);
      && d.steps == [] && d.run == c.run.(pressed := c.run.pressed + {key})
      && d.log == c.log + [ReadIdle, Dispatched(key)] + [Succeeded(key)]
  {
    FirstSegment(c, o, budget);
    var c0 := Supervise(c, o, budget);
    AnswersThree(c0, Idle, Returned, Returned, budget);
  }

  const FAILING := [Idle, Threw, Returned]

  /** A command that throws is tried again in the same state once; after the second failure recovery may diagnose it. */
  lemma SecondFailureHandsOver(c: Cell, o: Observation, budget: nat)
    requires Free(c, budget) && o.action.Some? && o.action.value.Command?
    requires Key(o.action.value, o.progress, o.failure) !in c.run.pressed
    ensures var key := Key(o.action.value, o.progress, o.failure);
      var failures := Get(c.run.actionAttempts, key, 0);
      var d := Answers(Supervise(c, o, budget), FAILING, budget);
      && failures <= 1 && d.steps == [] && d.run.outcome.None?
      && Get(d.run.actionAttempts, key, 0) == failures + 1
      && d.run.pressed == if failures == 1 then c.run.pressed + {key} else c.run.pressed
  {
    FirstSegment(c, o, budget);
    assert KeyOk(c, Balance(c.log), Key(o.action.value, o.progress, o.failure));
    var c0 := Supervise(c, o, budget);
    AnswersThree(c0, Idle, Threw, Returned, budget);
  }

  // ---------------------------------------------------------------- an agent is launched

  const CLAIMING := [Granted, Idle, Verdict(Continue(true)), Idle]
  const LAUNCHING := [Returned, Returned, Returned, Returned]

  /** The claim is granted, nobody works, the judgment admits a continuation and nobody works yet. */
  lemma RecoveryIsAdmitted(c: Cell, o: Observation, spent: nat, budget: nat)
    requires c.steps == [ClaimingRecovery(o, spent)]
    ensures var d := Answers(c, CLAIMING, budget);
      && d.steps == [Admitted(o, spent)] && d.run == c.run && d.inFlight == c.inFlight
      && d.log == c.log + [Claimed] + [ReadIdle] + [ReadIdle]
  {
    AnswersFour(c, Granted, Idle, Verdict(Continue(true)), Idle, budget);
  }

  lemma AdmittedIsLaunched(c: Cell, o: Observation, spent: nat, budget: nat)
    requires c.steps == [Admitted(o, spent)]
    ensures var d := Answers(c, LAUNCHING, budget);
      && d.steps == [] && !d.inFlight && d.run == c.run.(attempts := c.run.attempts[o.failure := spent + 1])
      && d.log == c.log + [Launched(o.failure)] + [Released]
  {
    AnswersFour(c, Returned, Returned, Returned, Returned, budget);
  }

  /**
   * A mission that its command did not clear, or that has none, gets a fresh agent under a claim as long
   * as this failure's budget lasts; the claim is released and the next pass may look at it again.
   */
  lemma StuckMissionGetsAgent(c: Cell, o: Observation, budget: nat)
    requires Free(c, budget) && o.action.Some? && o.action.value != Merge
    requires o.action.value == Manual || Key(o.action.value, o.progress, o.failure) in c.run.pressed
    requires Get(c.run.attempts, o.failure, 0) < budget
    ensures var d := Answers(Answers(Supervise(c, o, budget), CLAIMING, budget), LAUNCHING, budget);
      && d.steps == [] && !d.inFlight && d.run.outcome.None?
      && d.run.attempts == c.run.attempts[o.failure := Get(c.run.attempts, o.failure, 0) + 1]
      && d.log == c.log + [Claimed] + [ReadIdle] + [ReadIdle] + [Launched(o.failure)] + [Released]
  {
    FirstSegment(c, o, budget);
    var spent := Get(c.run.attempts, o.failure, 0);
    var c0 := Supervise(c, o, budget);
    RecoveryIsAdmitted(c0, o, spent, budget);
    AdmittedIsLaunched(Answers(c0, CLAIMING, budget), o, spent, budget);
  }

  // ---------------------------------------------------------------- settled missions come back

  /**
   * A settled mission that is on the queue again is reopened exactly when it had cleared, when the human
   * it waited for has it owned, worked on or offered another action than merging, or when it escalated
   * for another failure; until then nothing is started for it.
   */
  lemma ReopensExactly(c: Cell, o: Observation, budget: nat)
    requires CellInv(c, budget) && c.run.outcome.Some?
    ensures var d := Supervise(c, o, budget);
      var back := c.run.outcome == Some(Cleared)
        || (c.run.outcome == Some(Human) && (o.owned || o.working || (o.action.Some? && o.action.value != Merge)))
        || (c.run.outcome == Some(Escalated) && c.run.settledFailure != Some(o.failure));
      && (back ==> |d.log| > |c.log| && d.log[|c.log|] == Reopened(c.run.outcome.value, c.run.settledFailure, o.failure)
                   && d.inFlight)
      && (!back ==> d == c.(seen := c.seen + {o}))
  {
  }
}
