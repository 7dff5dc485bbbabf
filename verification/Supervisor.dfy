/**
 * The fleet recovery supervisor, one mission at a time: what a supervision step does to its mission
 * between two awaits, and what every such segment keeps.
 */
module Supervision {
  import opened Prelude

  type Failure = string

  const ACTION_ATTEMPTS: nat := 2

  /** The command the board advertises. Merging is the operator's; manual attention has no command. */
  datatype Kind = Merge | Manual | Command(name: string)

  datatype Lane = Backlog | Refined | Active | Review | Integration | Done

  predicate IsLeadLane(lane: Lane) { lane.Active? || lane.Review? || lane.Integration? }

  /** One attention item; `failure` is the fingerprint of its reason. */
  datatype Observation = Observation(
    lane: Lane, failure: Failure, action: Option<Kind>, owned: bool, working: bool, progress: string)

  /** One state in which one action may be pressed. */
  datatype Key = Key(kind: Kind, progress: string, failure: Failure)

  datatype Outcome = Cleared | Human | Escalated

  datatype Judgment = Wait | Continue(admitted: bool) | Stop

  datatype Result = Settled | Watching | Acted | Rejected

  /** Where a supervision step is suspended. */
  datatype Pc =
    | CheckingBeforeAction(item: Observation)
    | Acting(item: Observation)
    | ClaimingRecovery(item: Observation, spent: nat)
    | CheckingBeforeJudgment(item: Observation, spent: nat)
    | Judging(item: Observation, spent: nat)
    | CheckingAfterJudgment(item: Observation, spent: nat, admitted: bool)
    | Admitted(item: Observation, spent: nat)
    | Launching
    | Releasing(result: Result)
    | Finishing(result: Result)

  datatype Answer = Idle | Working | Returned | Granted | Busy | Threw | Verdict(judgment: Judgment)

  datatype Event =
    | ReadIdle
    | Dispatched(key: Key)
    | Succeeded(key: Key)
    | Claimed
    | Released
    | Launched(failure: Failure)
    | Settlement(outcome: Outcome, settled: Option<Failure>)
    | Reopened(previous: Outcome, settled: Option<Failure>, failure: Failure)

  /** What a run remembers about one mission. */
  datatype Run = Run(
    pressed: set<Key>,
    actionAttempts: map<Key, nat>,
    attempts: map<Failure, nat>,
    outcome: Option<Outcome>,
    settledFailure: Option<Failure>)

  /** A mission under supervision: its run, its unfinished steps, what was done to it and seen of it. */
  datatype Cell = Cell(run: Run, steps: seq<Pc>, inFlight: bool, log: seq<Event>, seen: set<Observation>)

  const NewRun := Run({}, map[], map[], None, None)
  const NewCell := Cell(NewRun, [], false, [], {})

  // ---------------------------------------------------------------- segments

  function KeyOf(o: Observation, kind: Kind): Key { Key(kind, o.progress, o.failure) }

  function Note(c: Cell, events: seq<Event>): Cell { c.(log := c.log + events) }

  function Settle(c: Cell, outcome: Outcome, failure: Option<Failure>): Cell {
    Note(c.(run := c.run.(outcome := Some(outcome), settledFailure := failure)), [Settlement(outcome, failure)])
  }

  /** A human stop is reconsidered once the item is owned, worked on, or offers another action. */
  predicate ReconsiderHuman(o: Observation) {
    o.owned || o.working || (o.action.Some? && o.action.value != Merge)
  }

  predicate Reopens(r: Run, o: Observation) {
    match r.outcome
    case None => false
    case Some(Cleared) => true
    case Some(Human) => ReconsiderHuman(o)
    case Some(Escalated) => r.settledFailure != Some(o.failure)
  }

  function Reopen(c: Cell, o: Observation): Cell {
    if Reopens(c.run, o) then
      Note(c.(run := c.run.(outcome := None, settledFailure := None)),
           [Reopened(c.run.outcome.value, c.run.settledFailure, o.failure)])
    else c
  }

  /** A step up to its first await. */
  function Begin(c: Cell, o: Observation, budget: nat): (Cell, Pc) {
    match o.action
    case None =>
      if o.owned || o.working then (c, Finishing(Watching))
      else (Settle(c, Human, None), Finishing(Settled))
    case Some(Merge) => (Settle(c, Human, None), Finishing(Settled))
    case Some(kind) =>
      if kind != Manual && KeyOf(o, kind) !in c.run.pressed then (c, CheckingBeforeAction(o))
      else
        var spent := Get(c.run.attempts, o.failure, 0);
        if spent >= budget then (Settle(c, Escalated, Some(o.failure)), Finishing(Settled))
        else (c, ClaimingRecovery(o, spent))
  }

  function Start(c: Cell, o: Observation, budget: nat): Cell {
    var (begun, pc) := Begin(c, o, budget);
    begun.(steps := begun.steps + [pc], inFlight := true)
  }

  /** One queue item reconciled with its run; starts a step unless one is in flight. */
  function Supervise(c: Cell, o: Observation, budget: nat): Cell {
    var open := Reopen(c.(seen := c.seen + {o}), o);
    if open.run.outcome.Some? || open.inFlight then open else Start(open, o, budget)
  }

  function To(c: Cell, i: nat, pc: Pc): Cell
    requires i < |c.steps|
  {
    c.(steps := c.steps[i := pc])
  }

  /** The release is called; the step reports `result` once it returned. */
  function Release(c: Cell, i: nat, result: Result): Cell
    requires i < |c.steps|
  {
    To(Note(c, [Released]), i, Releasing(result))
  }

  function Dispatch(c: Cell, i: nat, o: Observation): Cell
    requires i < |c.steps| && o.action.Some?
  {
    To(Note(c, [ReadIdle, Dispatched(KeyOf(o, o.action.value))]), i, Acting(o))
  }

  function ActionReturned(c: Cell, i: nat, k: Key): Cell
    requires i < |c.steps|
  {
    To(Note(c.(run := c.run.(pressed := c.run.pressed + {k})), [Succeeded(k)]), i, Finishing(Acted))
  }

  function ActionThrew(c: Cell, i: nat, k: Key): Cell
    requires i < |c.steps|
  {
    var n := Get(c.run.actionAttempts, k, 0) + 1;
    var counted := c.run.(actionAttempts := c.run.actionAttempts[k := n]);
    if n < ACTION_ATTEMPTS then To(c.(run := counted), i, Finishing(Watching))
    else To(c.(run := counted.(pressed := counted.pressed + {k})), i, Finishing(Acted))
  }

  function Judged(c: Cell, i: nat, o: Observation, spent: nat, j: Judgment): Cell
    requires i < |c.steps|
  {
    match j
    case Wait => Release(c, i, Watching)
    case Stop => Release(Settle(c, Escalated, Some(o.failure)), i, Settled)
    case Continue(admitted) => To(c, i, CheckingAfterJudgment(o, spent, admitted))
  }

  function Launch(c: Cell, i: nat, o: Observation, spent: nat): Cell
    requires i < |c.steps|
  {
    To(Note(c.(run := c.run.(attempts := c.run.attempts[o.failure := spent + 1])), [Launched(o.failure)]), i, Launching)
  }

  /** The step is over: its in-flight mark is dropped. */
  function Finish(c: Cell, i: nat): Cell
    requires i < |c.steps|
  {
    c.(steps := c.steps[..i] + c.steps[i + 1..], inFlight := false)
  }

  /** The segment after the `i`th unfinished step is answered; an impossible answer changes nothing. */
  function Resume(c: Cell, i: nat, a: Answer): Cell
    requires i < |c.steps|
  {
    match c.steps[i]
    case CheckingBeforeAction(o) =>
      if a.Idle? && o.action.Some? then Dispatch(c, i, o)
      else if a.Working? then To(c, i, Finishing(Watching))
      else if a.Threw? then To(c, i, Finishing(Rejected))
      else c
    case Acting(o) =>
      if a.Returned? && o.action.Some? then ActionReturned(c, i, KeyOf(o, o.action.value))
      else if a.Threw? && o.action.Some? then ActionThrew(c, i, KeyOf(o, o.action.value))
      else c
    case ClaimingRecovery(o, spent) =>
      if a.Granted? then To(Note(c, [Claimed]), i, CheckingBeforeJudgment(o, spent))
      else if a.Busy? then To(c, i, Finishing(Watching))
      else if a.Threw? then To(c, i, Finishing(Rejected))
      else c
    case CheckingBeforeJudgment(o, spent) =>
      if a.Idle? then To(Note(c, [ReadIdle]), i, Judging(o, spent))
      else if a.Working? then Release(c, i, Watching)
      else if a.Threw? then Release(c, i, Acted)
      else c
    case Judging(o, spent) =>
      if a.Verdict? then Judged(c, i, o, spent, a.judgment)
      else if a.Threw? then Release(c, i, Acted)
      else c
    case CheckingAfterJudgment(o, spent, admitted) =>
      if a.Idle? then
        if admitted then To(Note(c, [ReadIdle]), i, Admitted(o, spent))
        else Release(Settle(c, Escalated, Some(o.failure)), i, Settled)
      else if a.Working? then Release(c, i, Watching)
      else if a.Threw? then Release(c, i, Acted)
      else c
    case Admitted(o, spent) => if a.Returned? then Launch(c, i, o, spent) else c
    case Launching => if a.Returned? || a.Threw? then Release(c, i, Acted) else c
    case Releasing(result) =>
      if a.Returned? then To(c, i, Finishing(result))
      else if a.Threw? then To(c, i, Finishing(Rejected))
      else c
    case Finishing(_) => if a.Returned? then Finish(c, i) else c
  }

  /** The queue no longer shows the mission and its work is idle. */
  function Clear(c: Cell): Cell {
    Settle(Note(c, [ReadIdle]), Cleared, None)
  }

  // ---------------------------------------------------------------- reading a log

  /** What a log adds up to. */
  datatype Ledger = Ledger(
    status: Option<Outcome>,
    settled: Option<Failure>,
    held: int,
    launches: map<Failure, nat>,
    dispatches: map<Key, nat>,
    successes: map<Key, nat>)

  function Bump<K>(m: map<K, nat>, k: K): map<K, nat> { m[k := Get(m, k, 0) + 1] }

  function Enter(l: Ledger, e: Event): Ledger {
    match e
    case ReadIdle => l
    case Dispatched(k) => l.(dispatches := Bump(l.dispatches, k))
    case Succeeded(k) => l.(successes := Bump(l.successes, k))
    case Claimed => l.(held := l.held + 1)
    case Released => l.(held := l.held - 1)
    case Launched(f) => l.(launches := Bump(l.launches, f))
    case Settlement(outcome, f) => l.(status := Some(outcome), settled := f)
    case Reopened(_, _, _) => l.(status := None, settled := None)
  }

  function Balance(log: seq<Event>): Ledger {
    if log == [] then Ledger(None, None, 0, map[], map[], map[])
    else Enter(Balance(log[..|log| - 1]), log[|log| - 1])
  }

  /** An effect on a mission: nothing settled it, an idle read came right before, a claim covers a launch. */
  ghost predicate SoundEvent(log: seq<Event>, i: nat)
    requires i < |log|
  {
    var before := Balance(log[..i]);
    match log[i]
    case Dispatched(k) => k.kind.Command? && before.status.None? && i > 0 && log[i - 1] == ReadIdle
    case Launched(f) => before.held == 1 && before.status.None? && i > 0 && log[i - 1] == ReadIdle
    case Settlement(outcome, f) =>
      && before.status.None? && (outcome.Escalated? <==> f.Some?)
      && (outcome.Cleared? ==> before.held == 0 && i > 0 && log[i - 1] == ReadIdle)
    case Reopened(previous, settled, f) =>
      before.status == Some(previous) && before.settled == settled && (previous.Escalated? ==> settled.Some? && settled.value != f)
    case Released => before.held == 1
    case Claimed => before.held == 0
    case _ => true
  }

  // ---------------------------------------------------------------- invariant

  /** A step that can still act on its mission. */
  predicate CanAct(pc: Pc) { !pc.Finishing? && !pc.Releasing? && !pc.Launching? }

  predicate HoldsClaim(pc: Pc) {
    pc.CheckingBeforeJudgment? || pc.Judging? || pc.CheckingAfterJudgment? || pc.Admitted? || pc.Launching?
  }

  predicate Recovering(pc: Pc) {
    pc.ClaimingRecovery? || pc.CheckingBeforeJudgment? || pc.Judging? || pc.CheckingAfterJudgment? || pc.Admitted?
  }

  predicate Pressing(pc: Pc) { pc.CheckingBeforeAction? || pc.Acting? }

  predicate ActingOn(c: Cell, k: Key) {
    c.steps != [] && c.steps[0].Acting? && c.steps[0].item.action.Some?
    && KeyOf(c.steps[0].item, c.steps[0].item.action.value) == k
  }

  ghost predicate StepOk(c: Cell, pc: Pc, budget: nat) {
    && (CanAct(pc) ==> c.run.outcome.None?)
    && (Recovering(pc) ==> pc.item in c.seen && pc.spent == Get(c.run.attempts, pc.item.failure, 0) && pc.spent < budget)
    && (Pressing(pc) ==>
          pc.item in c.seen && pc.item.action.Some? && pc.item.action.value.Command?
          && KeyOf(pc.item, pc.item.action.value) !in c.run.pressed)
    && (pc.Admitted? ==> c.log != [] && c.log[|c.log| - 1] == ReadIdle)
  }

  function Claims(c: Cell): int {
    if c.steps != [] && HoldsClaim(c.steps[0]) then 1 else 0
  }

  /** The accounts of one key: every dispatch succeeded, failed or is still running. */
  ghost predicate KeyOk(c: Cell, l: Ledger, k: Key) {
    var failures := Get(c.run.actionAttempts, k, 0);
    var successes := Get(l.successes, k, 0);
    && Get(l.dispatches, k, 0) == successes + failures + (if ActingOn(c, k) then 1 else 0)
    && (k !in c.run.pressed ==> successes == 0 && failures < ACTION_ATTEMPTS)
    && (k in c.run.pressed ==> !ActingOn(c, k) && successes <= 1 && successes + failures <= ACTION_ATTEMPTS)
  }

  /** Everything that was done was done for something that was seen. */
  ghost predicate Witnessed(c: Cell, l: Ledger) {
    && (forall k <- l.dispatches :: exists o :: o in c.seen && o.action == Some(k.kind) && KeyOf(o, k.kind) == k)
    && (forall f <- l.launches :: exists o :: o in c.seen && o.failure == f)
  }

  ghost predicate Accounts(c: Cell, l: Ledger, budget: nat) {
    && l.status == c.run.outcome && l.settled == c.run.settledFailure
    && (c.run.outcome == Some(Escalated) <==> c.run.settledFailure.Some?)
    && l.held == Claims(c)
    && l.launches == c.run.attempts
    && (forall f <- c.run.attempts :: c.run.attempts[f] <= budget)
  }

  ghost predicate CellInv(c: Cell, budget: nat) {
    && |c.steps| == (if c.inFlight then 1 else 0)
    && (c.steps != [] ==> StepOk(c, c.steps[0], budget))
    && Accounts(c, Balance(c.log), budget)
    && (forall k :: KeyOk(c, Balance(c.log), k))
    && Witnessed(c, Balance(c.log))
    && (forall i :: 0 <= i < |c.log| ==> SoundEvent(c.log, i))
  }

  // ---------------------------------------------------------------- every segment keeps it

  lemma LogGrows(log: seq<Event>, e: Event)
    ensures Balance(log + [e]) == Enter(Balance(log), e)
  {
    assert (log + [e])[..|log|] == log;
  }

  lemma SoundnessGrows(log: seq<Event>, e: Event)
    requires forall i :: 0 <= i < |log| ==> SoundEvent(log, i)
    requires SoundEvent(log + [e], |log|)
    ensures forall i :: 0 <= i < |log + [e]| ==> SoundEvent(log + [e], i)
  {
    forall i | 0 <= i < |log + [e]| ensures SoundEvent(log + [e], i) {
      if i < |log| {
        assert SoundEvent(log, i) && (log + [e])[..i] == log[..i];
      }
    }
  }

  /** Appending one sound event. */
  lemma Append(log: seq<Event>, e: Event)
    requires forall i :: 0 <= i < |log| ==> SoundEvent(log, i)
    requires SoundEvent(log + [e], |log|)
    ensures forall i :: 0 <= i < |log + [e]| ==> SoundEvent(log + [e], i)
    ensures Balance(log + [e]) == Enter(Balance(log), e)
  {
    LogGrows(log, e);
    SoundnessGrows(log, e);
  }

  /** The step moved on without touching run or log. */
  lemma MoveOnKeepsInv(c: Cell, budget: nat, pc: Pc)
    requires CellInv(c, budget) && c.steps != []
    requires HoldsClaim(pc) == HoldsClaim(c.steps[0])
    requires !pc.Acting? && !c.steps[0].Acting?
    requires StepOk(c, pc, budget)
    ensures CellInv(To(c, 0, pc), budget)
  {
    var d := To(c, 0, pc);
    forall k ensures KeyOk(d, Balance(d.log), k) { assert KeyOk(c, Balance(c.log), k); }
  }

  lemma ReadIdleKeepsInv(c: Cell, budget: nat, pc: Pc)
    requires CellInv(c, budget) && c.steps != []
    requires HoldsClaim(pc) == HoldsClaim(c.steps[0])
    requires !pc.Acting? && !c.steps[0].Acting?
    requires StepOk(Note(c, [ReadIdle]), pc, budget)
    ensures CellInv(To(Note(c, [ReadIdle]), 0, pc), budget)
  {
    Append(c.log, ReadIdle);
    var d := To(Note(c, [ReadIdle]), 0, pc);
    forall k ensures KeyOk(d, Balance(d.log), k) { assert KeyOk(c, Balance(c.log), k); }
  }

  lemma DispatchKeepsInv(c: Cell, budget: nat, o: Observation)
    requires CellInv(c, budget) && c.steps != [] && c.steps[0] == CheckingBeforeAction(o)
    ensures o.action.Some? && CellInv(Dispatch(c, 0, o), budget)
  {
    var key := KeyOf(o, o.action.value);
    var read := c.log + [ReadIdle];
    Append(c.log, ReadIdle);
    assert (read + [Dispatched(key)])[..|read|] == read;
    Append(read, Dispatched(key));
    var d := Dispatch(c, 0, o);
    assert d.log == read + [Dispatched(key)];
    forall k ensures KeyOk(d, Balance(d.log), k) { assert KeyOk(c, Balance(c.log), k); }
  }

  lemma ActionReturnedKeepsInv(c: Cell, budget: nat, o: Observation)
    requires CellInv(c, budget) && c.steps != [] && c.steps[0] == Acting(o) && o.action.Some?
    ensures CellInv(ActionReturned(c, 0, KeyOf(o, o.action.value)), budget)
  {
    var key := KeyOf(o, o.action.value);
    Append(c.log, Succeeded(key));
    var d := ActionReturned(c, 0, key);
    forall k ensures KeyOk(d, Balance(d.log), k) { assert KeyOk(c, Balance(c.log), k); }
  }

  lemma ActionThrewKeepsInv(c: Cell, budget: nat, o: Observation)
    requires CellInv(c, budget) && c.steps != [] && c.steps[0] == Acting(o) && o.action.Some?
    ensures CellInv(ActionThrew(c, 0, KeyOf(o, o.action.value)), budget)
  {
    var d := ActionThrew(c, 0, KeyOf(o, o.action.value));
    forall k ensures KeyOk(d, Balance(d.log), k) { assert KeyOk(c, Balance(c.log), k); }
  }

  lemma ClaimKeepsInv(c: Cell, budget: nat, o: Observation, spent: nat)
    requires CellInv(c, budget) && c.steps != [] && c.steps[0] == ClaimingRecovery(o, spent)
    ensures CellInv(To(Note(c, [Claimed]), 0, CheckingBeforeJudgment(o, spent)), budget)
  {
    assert (c.log + [Claimed])[..|c.log|] == c.log;
    Append(c.log, Claimed);
    var d := To(Note(c, [Claimed]), 0, CheckingBeforeJudgment(o, spent));
    forall k ensures KeyOk(d, Balance(d.log), k) { assert KeyOk(c, Balance(c.log), k); }
  }

  lemma ReleaseKeepsInv(c: Cell, budget: nat, result: Result)
    requires CellInv(c, budget) && c.steps != [] && HoldsClaim(c.steps[0])
    ensures CellInv(Release(c, 0, result), budget)
  {
    assert (c.log + [Released])[..|c.log|] == c.log;
    Append(c.log, Released);
    var d := Release(c, 0, result);
    forall k ensures KeyOk(d, Balance(d.log), k) { assert KeyOk(c, Balance(c.log), k); }
  }

  /** Settling as escalated and releasing the claim happen in one segment. */
  lemma EscalateKeepsInv(c: Cell, budget: nat, f: Failure)
    requires CellInv(c, budget) && c.steps != [] && HoldsClaim(c.steps[0]) && CanAct(c.steps[0])
    ensures CellInv(Release(Settle(c, Escalated, Some(f)), 0, Settled), budget)
  {
    var e := Settlement(Escalated, Some(f));
    assert (c.log + [e])[..|c.log|] == c.log;
    Append(c.log, e);
    var log := c.log + [e];
    assert (log + [Released])[..|log|] == log;
    Append(log, Released);
    var d := Release(Settle(c, Escalated, Some(f)), 0, Settled);
    forall k ensures KeyOk(d, Balance(d.log), k) { assert KeyOk(c, Balance(c.log), k); }
  }

  lemma LaunchKeepsInv(c: Cell, budget: nat, o: Observation, spent: nat)
    requires CellInv(c, budget) && c.steps != [] && c.steps[0] == Admitted(o, spent)
    ensures CellInv(Launch(c, 0, o, spent), budget)
  {
    var e := Launched(o.failure);
    assert (c.log + [e])[..|c.log|] == c.log;
    Append(c.log, e);
    var d := Launch(c, 0, o, spent);
    forall k ensures KeyOk(d, Balance(d.log), k) { assert KeyOk(c, Balance(c.log), k); }
  }

  lemma FinishKeepsInv(c: Cell, budget: nat)
    requires CellInv(c, budget) && c.steps != [] && c.steps[0].Finishing?
    ensures CellInv(Finish(c, 0), budget)
  {
    var d := Finish(c, 0);
    assert d.steps == [];
    forall k ensures KeyOk(d, Balance(d.log), k) { assert KeyOk(c, Balance(c.log), k); }
  }

  lemma PressingKeepsInv(c: Cell, a: Answer, budget: nat)
    requires CellInv(c, budget) && c.steps != [] && Pressing(c.steps[0])
    ensures CellInv(Resume(c, 0, a), budget)
  {
    match c.steps[0]
    case CheckingBeforeAction(o) =>
      if a.Idle? { DispatchKeepsInv(c, budget, o); }
      else if a.Working? { MoveOnKeepsInv(c, budget, Finishing(Watching)); }
      else if a.Threw? { MoveOnKeepsInv(c, budget, Finishing(Rejected)); }
    case Acting(o) =>
      if a.Returned? { ActionReturnedKeepsInv(c, budget, o); }
      else if a.Threw? { ActionThrewKeepsInv(c, budget, o); }
  }

  lemma ClaimingKeepsInv(c: Cell, a: Answer, budget: nat)
    requires CellInv(c, budget) && c.steps != []
    requires c.steps[0].ClaimingRecovery? || c.steps[0].CheckingBeforeJudgment?
    ensures CellInv(Resume(c, 0, a), budget)
  {
    match c.steps[0]
    case ClaimingRecovery(o, spent) =>
      if a.Granted? { ClaimKeepsInv(c, budget, o, spent); }
      else if a.Busy? { MoveOnKeepsInv(c, budget, Finishing(Watching)); }
      else if a.Threw? { MoveOnKeepsInv(c, budget, Finishing(Rejected)); }
    case CheckingBeforeJudgment(o, spent) =>
      if a.Idle? { ReadIdleKeepsInv(c, budget, Judging(o, spent)); }
      else if a.Working? { ReleaseKeepsInv(c, budget, Watching); }
      else if a.Threw? { ReleaseKeepsInv(c, budget, Acted); }
  }

  lemma JudgingKeepsInv(c: Cell, a: Answer, budget: nat)
    requires CellInv(c, budget) && c.steps != []
    requires c.steps[0].Judging? || c.steps[0].CheckingAfterJudgment?
    ensures CellInv(Resume(c, 0, a), budget)
  {
    match c.steps[0]
    case Judging(o, spent) =>
      if a.Threw? { ReleaseKeepsInv(c, budget, Acted); }
      else if a.Verdict? {
        match a.judgment
        case Wait => ReleaseKeepsInv(c, budget, Watching);
        case Stop => EscalateKeepsInv(c, budget, o.failure);
        case Continue(admitted) => MoveOnKeepsInv(c, budget, CheckingAfterJudgment(o, spent, admitted));
      }
    case CheckingAfterJudgment(o, spent, admitted) =>
      if a.Idle? {
        if admitted { ReadIdleKeepsInv(c, budget, Admitted(o, spent)); } else { EscalateKeepsInv(c, budget, o.failure); }
      } else if a.Working? { ReleaseKeepsInv(c, budget, Watching); }
      else if a.Threw? { ReleaseKeepsInv(c, budget, Acted); }
  }

  lemma EndingKeepsInv(c: Cell, a: Answer, budget: nat)
    requires CellInv(c, budget) && c.steps != []
    requires c.steps[0].Admitted? || c.steps[0].Launching? || c.steps[0].Releasing? || c.steps[0].Finishing?
    ensures CellInv(Resume(c, 0, a), budget)
  {
    match c.steps[0]
    case Admitted(o, spent) => if a.Returned? { LaunchKeepsInv(c, budget, o, spent); }
    case Launching => if a.Returned? || a.Threw? { ReleaseKeepsInv(c, budget, Acted); }
    case Releasing(result) =>
      if a.Returned? { MoveOnKeepsInv(c, budget, Finishing(result)); }
      else if a.Threw? { MoveOnKeepsInv(c, budget, Finishing(Rejected)); }
    case Finishing(_) => if a.Returned? { FinishKeepsInv(c, budget); }
  }

  lemma ResumeKeepsInv(c: Cell, i: nat, a: Answer, budget: nat)
    requires CellInv(c, budget) && i < |c.steps|
    ensures CellInv(Resume(c, i, a), budget)
  {
    assert i == 0;
    var pc := c.steps[0];
    if Pressing(pc) { PressingKeepsInv(c, a, budget); }
    else if pc.ClaimingRecovery? || pc.CheckingBeforeJudgment? { ClaimingKeepsInv(c, a, budget); }
    else if pc.Judging? || pc.CheckingAfterJudgment? { JudgingKeepsInv(c, a, budget); }
    else { EndingKeepsInv(c, a, budget); }
  }

  /** The same mission, seen once more on the queue. */
  lemma SeeKeepsInv(c: Cell, o: Observation, budget: nat)
    requires CellInv(c, budget)
    ensures CellInv(c.(seen := c.seen + {o}), budget)
  {
    var d := c.(seen := c.seen + {o});
    forall k ensures KeyOk(d, Balance(d.log), k) { assert KeyOk(c, Balance(c.log), k); }
  }

  lemma ReopenKeepsInv(c: Cell, o: Observation, budget: nat)
    requires CellInv(c, budget)
    ensures CellInv(Reopen(c, o), budget)
  {
    if Reopens(c.run, o) {
      var e := Reopened(c.run.outcome.value, c.run.settledFailure, o.failure);
      assert (c.log + [e])[..|c.log|] == c.log;
      Append(c.log, e);
      var d := Reopen(c, o);
      forall k ensures KeyOk(d, Balance(d.log), k) { assert KeyOk(c, Balance(c.log), k); }
    }
  }

  lemma SettleKeepsInv(c: Cell, outcome: Outcome, f: Option<Failure>, budget: nat)
    requires CellInv(c, budget) && c.steps == [] && c.run.outcome.None?
    requires outcome.Escalated? <==> f.Some?
    requires outcome.Cleared? ==> c.log != [] && c.log[|c.log| - 1] == ReadIdle
    ensures CellInv(Settle(c, outcome, f), budget)
  {
    var e := Settlement(outcome, f);
    assert (c.log + [e])[..|c.log|] == c.log;
    Append(c.log, e);
    var d := Settle(c, outcome, f);
    forall k ensures KeyOk(d, Balance(d.log), k) { assert KeyOk(c, Balance(c.log), k); }
  }

  lemma EnqueueKeepsInv(c: Cell, pc: Pc, budget: nat)
    requires CellInv(c, budget) && c.steps == []
    requires StepOk(c, pc, budget) && !HoldsClaim(pc) && !pc.Acting?
    ensures CellInv(c.(steps := c.steps + [pc], inFlight := true), budget)
  {
    var d := c.(steps := c.steps + [pc], inFlight := true);
    assert d.steps == [pc];
    forall k ensures KeyOk(d, Balance(d.log), k) { assert KeyOk(c, Balance(c.log), k); }
  }

  lemma StartKeepsInv(c: Cell, o: Observation, budget: nat)
    requires CellInv(c, budget) && c.steps == [] && c.run.outcome.None? && o in c.seen
    ensures CellInv(Start(c, o, budget), budget)
  {
    var (begun, pc) := Begin(c, o, budget);
    if begun != c {
      SettleKeepsInv(c, begun.run.outcome.value, begun.run.settledFailure, budget);
    }
    EnqueueKeepsInv(begun, pc, budget);
  }

  lemma SuperviseKeepsInv(c: Cell, o: Observation, budget: nat)
    requires CellInv(c, budget)
    ensures CellInv(Supervise(c, o, budget), budget)
  {
    var seen := c.(seen := c.seen + {o});
    SeeKeepsInv(c, o, budget);
    ReopenKeepsInv(seen, o, budget);
    var open := Reopen(seen, o);
    if open.run.outcome.None? && !open.inFlight {
      StartKeepsInv(open, o, budget);
    }
  }

  lemma ClearKeepsInv(c: Cell, budget: nat)
    requires CellInv(c, budget) && c.steps == [] && c.run.outcome.None?
    ensures CellInv(Clear(c), budget)
  {
    Append(c.log, ReadIdle);
    var d := Note(c, [ReadIdle]);
    forall k ensures KeyOk(d, Balance(d.log), k) { assert KeyOk(c, Balance(c.log), k); }
    assert CellInv(d, budget);
    SettleKeepsInv(d, Cleared, None, budget);
  }

  lemma NewCellInv(budget: nat)
    ensures CellInv(NewCell, budget)
  {
  }

  // ---------------------------------------------------------------- counting effects

  /** The commands a log dispatched, each as often as it was dispatched. */
  function Presses(log: seq<Event>): multiset<Key> {
    if log == [] then multiset{}
    else
      var e := log[|log| - 1];
      Presses(log[..|log| - 1]) + if e.Dispatched? then multiset{e.key} else multiset{}
  }

  /** The failures a log launched recovery agents for, each as often as it did. */
  function Recoveries(log: seq<Event>): multiset<Failure> {
    if log == [] then multiset{}
    else
      var e := log[|log| - 1];
      Recoveries(log[..|log| - 1]) + if e.Launched? then multiset{e.failure} else multiset{}
  }

  lemma {:induction false} PressesCounted(log: seq<Event>, k: Key)
    ensures Presses(log)[k] == Get(Balance(log).dispatches, k, 0)
  {
    if log != [] {
      PressesCounted(log[..|log| - 1], k);
    }
  }

  lemma {:induction false} RecoveriesCounted(log: seq<Event>, f: Failure)
    ensures Recoveries(log)[f] == Get(Balance(log).launches, f, 0)
  {
    if log != [] {
      RecoveriesCounted(log[..|log| - 1], f);
    }
  }

  lemma {:induction false} BoundedMultiset<T>(m: multiset<T>, domain: set<T>, bound: nat)
    requires forall x <- m :: x in domain && m[x] <= bound
    ensures |m| <= bound * |domain|
  {
    if domain == {} {
      assert m == multiset{};
    } else {
      var x :| x in domain;
      var rest := m[x := 0];
      var n := |domain - {x}|;
      BoundedMultiset(rest, domain - {x}, bound);
      assert |m| == |rest| + m[x];
      assert bound * (n + 1) == bound * n + bound;
    }
  }

  function SeenKeys(seen: set<Observation>): set<Key> {
    set o | o in seen && o.action.Some? :: KeyOf(o, o.action.value)
  }

  function SeenFailures(seen: set<Observation>): set<Failure> {
    set o | o in seen :: o.failure
  }

  /** Board commands and recovery launches are bounded by the states a mission was seen in. */
  lemma EffectsBounded(c: Cell, budget: nat)
    requires CellInv(c, budget)
    ensures |Presses(c.log)| <= 2 * |SeenKeys(c.seen)|
    ensures |Recoveries(c.log)| <= budget * |SeenFailures(c.seen)|
  {
    var l := Balance(c.log);
    forall k <- Presses(c.log)
      ensures k in SeenKeys(c.seen) && Presses(c.log)[k] <= ACTION_ATTEMPTS
    {
      PressesCounted(c.log, k);
      assert KeyOk(c, l, k);
      assert k in l.dispatches;
      var o :| o in c.seen && o.action == Some(k.kind) && KeyOf(o, k.kind) == k;
    }
    BoundedMultiset(Presses(c.log), SeenKeys(c.seen), ACTION_ATTEMPTS);
    forall f <- Recoveries(c.log)
      ensures f in SeenFailures(c.seen) && Recoveries(c.log)[f] <= budget
    {
      RecoveriesCounted(c.log, f);
      assert f in l.launches;
    }
    BoundedMultiset(Recoveries(c.log), SeenFailures(c.seen), budget);
  }

  // ---------------------------------------------------------------- escalation lasts

  predicate ReopenedFor(log: seq<Event>, i: nat, j: nat, f: Failure) {
    exists r :: i < r < j && r < |log| && log[r].Reopened? && log[r].failure != f
  }

  lemma {:induction false} EscalationLasts(log: seq<Event>, i: nat, j: nat, f: Failure)
    requires i < j <= |log| && log[i] == Settlement(Escalated, Some(f))
    requires forall r :: 0 <= r < |log| ==> SoundEvent(log, r)
    ensures ReopenedFor(log, i, j, f)
            || (Balance(log[..j]).status == Some(Escalated) && Balance(log[..j]).settled == Some(f))
    decreases j
  {
    assert log[..j][..j - 1] == log[..j - 1];
    if j > i + 1 {
      EscalationLasts(log, i, j - 1, f);
      assert SoundEvent(log, j - 1);
    }
  }

  /** An escalated mission receives no effect until it is reopened for a failure other than the escalated one. */
  lemma NoEffectWhileEscalated(c: Cell, budget: nat, i: nat, j: nat, f: Failure)
    requires CellInv(c, budget) && i < j < |c.log|
    requires c.log[i] == Settlement(Escalated, Some(f))
    requires c.log[j].Dispatched? || c.log[j].Launched?
    ensures ReopenedFor(c.log, i, j, f)
  {
    EscalationLasts(c.log, i, j, f);
    assert SoundEvent(c.log, j);
  }

  // ---------------------------------------------------------------- any number of passes and answers

  /** What reaches one mission: a pass that finds it on the queue, or an answer to its unfinished step. */
  datatype Encounter = Passed(item: Observation) | Answered(answer: Answer)

  function Go(c: Cell, m: Encounter, budget: nat): Cell {
    match m
    case Passed(o) => Supervise(c, o, budget)
    case Answered(a) => if c.steps == [] then c else Resume(c, 0, a)
  }

  function GoAll(c: Cell, moves: seq<Encounter>, budget: nat): Cell {
    if moves == [] then c else Go(GoAll(c, moves[..|moves| - 1], budget), moves[|moves| - 1], budget)
  }

  lemma GoSnoc(c: Cell, moves: seq<Encounter>, m: Encounter, budget: nat)
    ensures GoAll(c, moves + [m], budget) == Go(GoAll(c, moves, budget), m, budget)
  {
    assert (moves + [m])[..|moves|] == moves;
  }

  lemma {:induction false} GoAllKeepsInv(c: Cell, moves: seq<Encounter>, budget: nat)
    requires CellInv(c, budget)
    ensures CellInv(GoAll(c, moves, budget), budget)
  {
    if moves != [] {
      GoAllKeepsInv(c, moves[..|moves| - 1], budget);
      var d := GoAll(c, moves[..|moves| - 1], budget);
      match moves[|moves| - 1]
      case Passed(o) => SuperviseKeepsInv(d, o, budget);
      case Answered(a) => if d.steps != [] { ResumeKeepsInv(d, 0, a, budget); }
    }
  }
}
