/**
 * Bounded operator judgment: any number of consultations, each reading the authority, asking the model,
 * reading again, recording and reading once more, under a timeout that may fire at any await.
 */
module OperatorJudgment {
  import opened Prelude

  type Mission = string
  type ConsultId = nat
  type LaunchId = nat

  const FRESH_MS: int := 30000
  const MAX_INVOCATIONS: nat := 3
  const MISSION_MS: int := 120000

  datatype Lane = Backlog | Refined | Active | Review | Integration | Done

  datatype Action = Continue | Wait | RequestEvidence | Escalate

  datatype Evidence = Evidence(ref: string, text: string)

  /** What the authority reports; two snapshots have the same identity exactly when they are equal. */
  datatype Snapshot = Snapshot(
    mission: Mission, version: int, operation: Option<string>, progress: string, lane: Lane, working: bool,
    evidence: seq<Evidence>)

  datatype Envelope = Envelope(snapshot: Snapshot, observedAt: int)

  datatype Proposal = Proposal(
    mission: Mission, version: int, operation: Option<string>, progress: string, refs: seq<string>, action: Action)

  // ---------------------------------------------------------------- admission

  predicate MayContinue(s: Snapshot) { !s.working && (s.lane.Active? || s.lane.Review?) }

  function AllowedActions(s: Snapshot): set<Action> {
    if MayContinue(s) then {Continue, Wait, RequestEvidence, Escalate} else {Wait, RequestEvidence, Escalate}
  }

  predicate Cites(s: Snapshot, ref: string) {
    exists i :: 0 <= i < |s.evidence| && s.evidence[i].ref == ref
  }

  /** A parsed proposal is admitted only against the very snapshot it was made for, in time. */
  predicate Admits(p: Proposal, e: Envelope, current: Snapshot, now: int) {
    && e.observedAt <= now <= e.observedAt + FRESH_MS
    && e.snapshot == current
    && p.mission == current.mission && p.version == current.version
    && p.operation == current.operation && p.progress == current.progress
    && p.action in AllowedActions(e.snapshot)
    && (forall i :: 0 <= i < |p.refs| ==> Cites(current, p.refs[i]))
    && (p.action.Continue? ==> MayContinue(current))
  }

  predicate InTime(started: int, now: int) { now - started < MISSION_MS }

  // ---------------------------------------------------------------- consultations

  /** The admitted facts, which travel unchanged to the launch. */
  datatype Admission = Admission(envelope: Envelope, proposal: Proposal)

  datatype Next = Return | Confirm(envelope: Envelope, proposal: Proposal)

  datatype Pc =
    | Reading
    | Asking(envelope: Envelope)
    | Refreshing(envelope: Envelope, answer: Option<Proposal>)
    | Recording(action: Action, next: Next, caught: bool)
    | Confirming(envelope: Envelope, proposal: Proposal)
    | Returned(action: Action, admission: Option<Admission>, at: int)
    | Rejected

  datatype Verdict = Verdict(action: Action, admission: Option<Admission>)

  /** One call of `judge`: its consultation, what it read and recorded, and what the caller got. */
  datatype Consult = Consult(
    mission: Mission, started: int, active: bool, pc: Pc, snapshots: seq<Snapshot>, records: seq<Action>,
    verdict: Option<Verdict>)

  /** The last check before a recovery is launched on an admission that a consultation handed out. */
  datatype Check = Rereading | Passed(current: Snapshot, now: int, later: int) | Refused

  datatype Launch = Launch(consult: ConsultId, admission: Admission, check: Check)

  datatype Ask = Ask(asker: ConsultId, mission: Mission, snapshot: Snapshot)

  datatype Service = Service(
    started: map<Mission, int>, seen: set<Snapshot>, counts: map<Mission, nat>,
    consults: map<ConsultId, Consult>, asked: seq<Ask>, launches: map<LaunchId, Launch>)

  /** A malformed proposal parses to nothing; a throwing record may or may not have been stored. */
  datatype Reply = Read(snapshot: Snapshot) | Proposed(proposal: Option<Proposal>) | Stored | Throws(stored: bool)

  datatype Move =
    | Judge(consult: ConsultId, mission: Mission, now: int)
    | Answer(consult: ConsultId, reply: Reply, now: int, later: int)
    | Timeout(consult: ConsultId)
    | Begin(launch: LaunchId, consult: ConsultId)
    | AnswerLaunch(launch: LaunchId, reply: Reply, now: int, later: int)

  const Empty := Service(map[], {}, map[], map[], [], map[])

  // ---------------------------------------------------------------- segments

  /** The authority reports on the mission it was asked about. */
  function About(m: Mission, s: Snapshot): Snapshot { s.(mission := m) }

  /** The consultation failed: record an escalation, unless the caller has been answered already. */
  function Fail(c: Consult): Consult {
    c.(pc := if c.active then Recording(Escalate, Return, true) else Rejected)
  }

  function AfterRead(s: Service, id: ConsultId, c: Consult, current: Snapshot, now: int, later: int): (Service, Consult) {
    var d := c.(snapshots := c.snapshots + [current]);
    if !c.active then (s, Fail(d))
    else if Get(s.counts, c.mission, 0) >= MAX_INVOCATIONS || !InTime(c.started, now) then
      (s, d.(pc := Recording(Escalate, Return, false)))
    else if current in s.seen then (s, d.(pc := Recording(Wait, Return, false)))
    else
      // Reserve before awaiting, so that concurrent calls cannot ask twice.
      (s.(seen := s.seen + {current}, counts := s.counts[c.mission := Get(s.counts, c.mission, 0) + 1],
          asked := s.asked + [Ask(id, c.mission, current)]),
       d.(pc := Asking(Envelope(current, later))))
  }

  function AfterRefresh(c: Consult, current: Snapshot, now: int, later: int): Consult
    requires c.pc.Refreshing?
  {
    var d := c.(snapshots := c.snapshots + [current]);
    var e := c.pc.envelope;
    if !c.active || c.pc.answer.None? then Fail(d)
    else
      var p := c.pc.answer.value;
      if !Admits(p, e, current, now) || !InTime(c.started, later) then Fail(d)
      else d.(pc := Recording(p.action, Confirm(e, p), false))
  }

  function AfterRecord(c: Consult, now: int): Consult
    requires c.pc.Recording?
  {
    var d := c.(records := c.records + [c.pc.action]);
    if !c.active then d.(pc := Rejected)
    else if !c.pc.action.Escalate? && !InTime(c.started, now) then Fail(d)
    else
      match c.pc.next
      case Return => d.(pc := Returned(c.pc.action, None, now))
      case Confirm(e, p) => d.(pc := Confirming(e, p))
  }

  function AfterConfirm(c: Consult, final: Snapshot, now: int, later: int): Consult
    requires c.pc.Confirming?
  {
    var d := c.(snapshots := c.snapshots + [final]);
    var Confirming(e, p) := c.pc;
    if !c.active || !Admits(p, e, final, now) || !InTime(c.started, later) then Fail(d)
    else d.(pc := Returned(p.action, if p.action.Continue? then Some(Admission(e, p)) else None, later))
  }

  /** An await that threw; a failed escalation record rejects the consultation. */
  function AfterThrow(c: Consult, stored: bool): Consult {
    if !c.pc.Recording? then Fail(c)
    else
      var d := c.(records := if stored then c.records + [c.pc.action] else c.records);
      if c.pc.caught then d.(pc := Rejected) else Fail(d)
  }

  /** What an answer after the first read does to a consultation. */
  function Advance(c: Consult, reply: Reply, now: int, later: int): Consult {
    if reply.Throws? && !c.pc.Returned? && !c.pc.Rejected? then AfterThrow(c, reply.stored)
    else
      match c.pc
      case Asking(e) =>
        if !reply.Proposed? then c else if c.active then c.(pc := Refreshing(e, reply.proposal)) else Fail(c)
      case Refreshing(_, _) => if reply.Read? then AfterRefresh(c, About(c.mission, reply.snapshot), now, later) else c
      case Recording(_, _, _) => if reply.Stored? then AfterRecord(c, now) else c
      case Confirming(_, _) => if reply.Read? then AfterConfirm(c, About(c.mission, reply.snapshot), now, later) else c
      case _ => c
  }

  /** Only the first read touches what consultations share. */
  function Respond(s: Service, id: ConsultId, c: Consult, reply: Reply, now: int, later: int): (Service, Consult) {
    if c.pc.Reading? && reply.Read? then AfterRead(s, id, c, About(c.mission, reply.snapshot), now, later)
    else (s, Advance(c, reply, now, later))
  }

  /** The caller gets the consultation's answer once it settles, unless the timeout came first. */
  function Deliver(c: Consult): Consult {
    if c.verdict.Some? then c
    else
      match c.pc
      case Returned(action, envelope, _) => c.(active := false, verdict := Some(Verdict(action, envelope)))
      case Rejected => c.(active := false, verdict := Some(Verdict(Escalate, None)))
      case _ => c
  }

  /** What the launch asserts of its admission, after one more read. */
  predicate ContinuationHolds(started: Option<int>, a: Admission, current: Snapshot, now: int, later: int) {
    started.Some? && InTime(started.value, now) && Admits(a.proposal, a.envelope, current, later) && a.proposal.action.Continue?
  }

  function StartOf(s: Service, m: Mission): Option<int> {
    if m in s.started then Some(s.started[m]) else None
  }

  /** The read that the check awaited was answered, failed or timed out. */
  function CheckLaunch(s: Service, l: Launch, reply: Reply, now: int, later: int): Launch {
    if !l.check.Rereading? then l
    else if reply.Read? then
      var current := About(l.admission.envelope.snapshot.mission, reply.snapshot);
      l.(check := if ContinuationHolds(StartOf(s, current.mission), l.admission, current, now, later)
                  then Passed(current, now, later) else Refused)
    else l.(check := Refused)
  }

  predicate HandedOut(s: Service, id: ConsultId) {
    id in s.consults && s.consults[id].verdict.Some? && s.consults[id].verdict.value.admission.Some?
  }

  function Step(s: Service, move: Move): Service {
    match move
    case Judge(id, mission, now) =>
      if id in s.consults then s
      else
        var started := Get(s.started, mission, now);
        s.(started := s.started[mission := started],
           consults := s.consults[id := Consult(mission, started, true, Reading, [], [], None)])
    case Answer(id, reply, now, later) =>
      if id !in s.consults then s
      else
        var (t, c) := Respond(s, id, s.consults[id], reply, now, later);
        t.(consults := s.consults[id := Deliver(c)])
    case Timeout(id) =>
      if id !in s.consults || s.consults[id].verdict.Some? then s
      else s.(consults := s.consults[id := s.consults[id].(active := false, verdict := Some(Verdict(Escalate, None)))])
    case Begin(l, id) =>
      if l in s.launches || !HandedOut(s, id) then s
      else s.(launches := s.launches[l := Launch(id, s.consults[id].verdict.value.admission.value, Rereading)])
    case AnswerLaunch(l, reply, now, later) =>
      if l !in s.launches then s else s.(launches := s.launches[l := CheckLaunch(s, s.launches[l], reply, now, later)])
  }

  function Execute(moves: seq<Move>): Service {
    if moves == [] then Empty else Step(Execute(moves[..|moves| - 1]), moves[|moves| - 1])
  }

  // ---------------------------------------------------------------- limits

  function AskedFor(asked: seq<Ask>, m: Mission): nat {
    if asked == [] then 0
    else AskedFor(asked[..|asked| - 1], m) + if asked[|asked| - 1].mission == m then 1 else 0
  }

  ghost predicate LimitsHold(s: Service) {
    && (forall m :: Get(s.counts, m, 0) == AskedFor(s.asked, m) && AskedFor(s.asked, m) <= MAX_INVOCATIONS)
    && (forall i :: 0 <= i < |s.asked| ==> s.asked[i].snapshot in s.seen)
    && (forall i, j :: 0 <= i < j < |s.asked| ==> s.asked[i].snapshot != s.asked[j].snapshot)
  }

  lemma ReadKeepsLimits(s: Service, id: ConsultId, c: Consult, current: Snapshot, now: int, later: int)
    requires LimitsHold(s)
    ensures LimitsHold(AfterRead(s, id, c, current, now, later).0)
  {
    var t := AfterRead(s, id, c, current, now, later).0;
    var ask := Ask(id, c.mission, current);
    assert (s.asked + [ask])[..|s.asked|] == s.asked;
    if t.asked != s.asked {
      assert t.asked == s.asked + [ask];
      forall m ensures Get(t.counts, m, 0) == AskedFor(t.asked, m) && AskedFor(t.asked, m) <= MAX_INVOCATIONS {
        assert Get(s.counts, m, 0) == AskedFor(s.asked, m);
      }
    }
  }

  lemma StepKeepsLimits(s: Service, move: Move)
    requires LimitsHold(s)
    ensures LimitsHold(Step(s, move))
  {
    if move.Answer? && move.consult in s.consults && s.consults[move.consult].pc.Reading? && move.reply.Read? {
      var c := s.consults[move.consult];
      var current := About(c.mission, move.reply.snapshot);
      ReadKeepsLimits(s, move.consult, c, current, move.now, move.later);
      var t := AfterRead(s, move.consult, c, current, move.now, move.later).0;
      assert Step(s, move).asked == t.asked && Step(s, move).counts == t.counts && Step(s, move).seen == t.seen;
      assert forall m :: Get(t.counts, m, 0) == AskedFor(t.asked, m);
    } else {
      var t := Step(s, move);
      assert t.asked == s.asked && t.counts == s.counts && t.seen == s.seen;
      assert forall m :: Get(s.counts, m, 0) == AskedFor(s.asked, m);
    }
  }

  /** Under any interleaving and any timeouts the model is asked at most three times per mission, once per identity. */
  lemma ConsultationIsBounded(moves: seq<Move>)
    ensures var asked := Execute(moves).asked;
      && (forall m :: AskedFor(asked, m) <= 3)
      && (forall i, j :: 0 <= i < j < |asked| ==> asked[i].snapshot != asked[j].snapshot)
  {
    LimitsStay(moves);
  }

  lemma {:induction false} LimitsStay(moves: seq<Move>)
    ensures LimitsHold(Execute(moves))
  {
    if moves != [] {
      LimitsStay(moves[..|moves| - 1]);
      StepKeepsLimits(Execute(moves[..|moves| - 1]), moves[|moves| - 1]);
    }
  }

  // ---------------------------------------------------------------- what a verdict stands for

  predicate LastRecord(c: Consult, a: Action) { c.records != [] && c.records[|c.records| - 1] == a }

  /** A proposal about exactly this snapshot that cites only its evidence, and continues only idle work. */
  ghost predicate Suits(p: Proposal, s: Snapshot) {
    && p.mission == s.mission && p.version == s.version && p.operation == s.operation && p.progress == s.progress
    && (forall ref :: ref in p.refs ==> exists e :: e in s.evidence && e.ref == ref)
    && (p.action.Continue? ==> !s.working && (s.lane.Active? || s.lane.Review?))
  }

  /** Two, and then three, reads of the snapshot the model was asked about. */
  predicate SameSnapshots(c: Consult, e: Envelope, n: nat) {
    |c.snapshots| == n && forall i :: 0 <= i < |c.snapshots| ==> c.snapshots[i] == e.snapshot
  }

  ghost predicate PcOk(c: Consult) {
    match c.pc
    case Reading => c.snapshots == []
    case Asking(e) => SameSnapshots(c, e, 1)
    case Refreshing(e, _) => SameSnapshots(c, e, 1)
    case Recording(a, Return, caught) => (a.Wait? || a.Escalate?) && (caught ==> a.Escalate?)
    case Recording(a, Confirm(e, p), caught) => !caught && a == p.action && SameSnapshots(c, e, 2)
    case Confirming(e, p) => SameSnapshots(c, e, 2) && LastRecord(c, p.action)
    case Returned(a, admission, at) =>
      && (!a.Escalate? ==> LastRecord(c, a) && InTime(c.started, at))
      && (a.Continue? <==> admission.Some?)
      && (a.Continue? ==>
            && SameSnapshots(c, admission.value.envelope, 3) && Suits(admission.value.proposal, admission.value.envelope.snapshot)
            && admission.value.proposal.action.Continue?)
    case Rejected => true
  }

  ghost predicate ConsultOk(c: Consult) {
    && PcOk(c)
    && (c.active <==> c.verdict.None?)
    && (c.verdict.Some? && !c.verdict.value.action.Escalate? ==>
          c.pc.Returned? && c.verdict.value == Verdict(c.pc.action, c.pc.admission))
    && (c.verdict.Some? && c.verdict.value.action.Escalate? ==> c.verdict.value.admission.None?)
    && (c.verdict.None? ==> !c.pc.Returned? && !c.pc.Rejected?)
    && (forall i :: 0 <= i < |c.snapshots| ==> c.snapshots[i].mission == c.mission)
  }

  /** What an answer may do to a consultation: reach a sound point, on its own mission and clock. */
  ghost predicate Proceeds(c: Consult, d: Consult) {
    && PcOk(d) && d.active == c.active && d.verdict == c.verdict && d.mission == c.mission && d.started == c.started
    && (forall i :: 0 <= i < |d.snapshots| ==> d.snapshots[i].mission == c.mission)
    && (c.pc.Returned? || c.pc.Rejected? ==> d == c)
  }

  lemma FirstReadProceeds(s: Service, id: ConsultId, c: Consult, current: Snapshot, now: int, later: int)
    requires ConsultOk(c) && c.pc.Reading? && current.mission == c.mission
    ensures Proceeds(c, AfterRead(s, id, c, current, now, later).1)
  {
  }

  lemma RefreshProceeds(c: Consult, current: Snapshot, now: int, later: int)
    requires ConsultOk(c) && c.pc.Refreshing? && current.mission == c.mission
    ensures Proceeds(c, AfterRefresh(c, current, now, later))
  {
  }

  lemma RecordProceeds(c: Consult, now: int, stored: bool)
    requires ConsultOk(c) && c.pc.Recording?
    ensures Proceeds(c, AfterRecord(c, now)) && Proceeds(c, AfterThrow(c, stored))
  {
  }

  lemma ConfirmProceeds(c: Consult, final: Snapshot, now: int, later: int)
    requires ConsultOk(c) && c.pc.Confirming? && final.mission == c.mission
    ensures Proceeds(c, AfterConfirm(c, final, now, later))
  {
    var Confirming(e, p) := c.pc;
    if Admits(p, e, final, now) { AdmittedSuits(p, e, final, now); }
  }

  lemma RespondKeepsPcOk(s: Service, id: ConsultId, c: Consult, reply: Reply, now: int, later: int)
    requires ConsultOk(c)
    ensures Proceeds(c, Respond(s, id, c, reply, now, later).1)
  {
    if reply.Read? {
      var current := About(c.mission, reply.snapshot);
      if c.pc.Reading? { FirstReadProceeds(s, id, c, current, now, later); }
      else if c.pc.Refreshing? { RefreshProceeds(c, current, now, later); }
      else if c.pc.Confirming? { ConfirmProceeds(c, current, now, later); }
    } else if c.pc.Recording? {
      RecordProceeds(c, now, if reply.Throws? then reply.stored else true);
    }
  }

  lemma StepKeepsConsults(s: Service, move: Move)
    requires forall id <- s.consults :: ConsultOk(s.consults[id])
    ensures forall id <- Step(s, move).consults :: ConsultOk(Step(s, move).consults[id])
  {
    if move.Answer? && move.consult in s.consults {
      RespondKeepsPcOk(s, move.consult, s.consults[move.consult], move.reply, move.now, move.later);
    }
  }

  lemma {:induction false} ConsultsStayOk(moves: seq<Move>)
    ensures forall id <- Execute(moves).consults :: ConsultOk(Execute(moves).consults[id])
  {
    if moves != [] {
      ConsultsStayOk(moves[..|moves| - 1]);
      StepKeepsConsults(Execute(moves[..|moves| - 1]), moves[|moves| - 1]);
    }
  }

  /**
   * Whatever else runs and whenever timeouts fire: a verdict to continue rests on three successive reads
   * of one identical snapshot, idle and in active or review, within the mission's time; and the last
   * record of any consultation that did not end in an escalation names the action the caller got.
   */
  lemma VerdictsAreBacked(moves: seq<Move>, id: ConsultId)
    requires id in Execute(moves).consults && Execute(moves).consults[id].verdict.Some?
    ensures var c := Execute(moves).consults[id];
      var v := c.verdict.value;
      && (!v.action.Escalate? ==> LastRecord(c, v.action) && c.pc.Returned? && c.pc.at - c.started < 120000)
      && (v.action.Continue? <==> v.admission.Some?)
      && (v.action.Continue? ==>
            var snapshot := v.admission.value.envelope.snapshot;
            && |c.snapshots| == 3 && c.snapshots[0] == c.snapshots[1] == c.snapshots[2] == snapshot
            && !snapshot.working && (snapshot.lane.Active? || snapshot.lane.Review?)
            && Suits(v.admission.value.proposal, snapshot) && v.admission.value.proposal.action.Continue?)
  {
    ConsultsStayOk(moves);
    var c := Execute(moves).consults[id];
    assert ConsultOk(c);
  }

  // ---------------------------------------------------------------- what is granted

  function Granted(s: Snapshot, p: Proposal, t: int): Option<Admission> {
    if p.action.Continue? then Some(Admission(Envelope(s, t), p)) else None
  }

  lemma SuitableIsAdmitted(p: Proposal, s: Snapshot, t: int, u: int)
    requires Suits(p, s) && t <= u <= t + 30000
    ensures Admits(p, Envelope(s, t), s, u)
  {
    forall i | 0 <= i < |p.refs| ensures Cites(s, p.refs[i]) {
      var ref := p.refs[i];
      assert ref in p.refs;
      var e :| e in s.evidence && e.ref == ref;
    }
    assert p.action.Continue? || p.action.Wait? || p.action.RequestEvidence? || p.action.Escalate?;
  }

  function Asking3(moves: seq<Move>, id: ConsultId, s: Snapshot, p: Proposal, t: int): seq<Move> {
    moves + [Judge(id, s.mission, t)] + [Answer(id, Read(s), t, t)] + [Answer(id, Proposed(Some(p)), t, t)]
  }

  function Confirming3(moves: seq<Move>, id: ConsultId, s: Snapshot, u: int): seq<Move> {
    moves + [Answer(id, Read(s), u, u)] + [Answer(id, Stored, u, u)] + [Answer(id, Read(s), u, u)]
  }

  lemma ExecuteSnoc(moves: seq<Move>, move: Move)
    ensures Execute(moves + [move]) == Step(Execute(moves), move)
  {
    assert (moves + [move])[..|moves|] == moves;
  }

  /** A first consultation about new evidence, in time, asks the model. */
  lemma NewEvidenceIsAsked(moves: seq<Move>, id: ConsultId, s: Snapshot, p: Proposal, t: int)
    requires var v := Execute(moves);
      && id !in v.consults && s !in v.seen && Get(v.counts, s.mission, 0) < 3
      && (s.mission in v.started ==> t - v.started[s.mission] < 120000)
    ensures var v := Execute(moves);
      var u := Execute(Asking3(moves, id, s, p, t));
      && id in u.consults
      && u.consults[id] == Consult(s.mission, Get(v.started, s.mission, t), true, Refreshing(Envelope(s, t), Some(p)), [s], [], None)
  {
    var m1 := moves + [Judge(id, s.mission, t)];
    var m2 := m1 + [Answer(id, Read(s), t, t)];
    ExecuteSnoc(moves, Judge(id, s.mission, t));
    ExecuteSnoc(m1, Answer(id, Read(s), t, t));
    ExecuteSnoc(m2, Answer(id, Proposed(Some(p)), t, t));
    var c := Consult(s.mission, Get(Execute(moves).started, s.mission, t), true, Reading, [], [], None);
    assert Execute(m1).consults[id] == c;
    assert About(s.mission, s) == s;
    assert Execute(m2).consults[id] == c.(pc := Asking(Envelope(s, t)), snapshots := [s]);
  }

  lemma SuitableIsRecorded(c: Consult, s: Snapshot, p: Proposal, t: int, u: int)
    requires Suits(p, s) && t <= u <= t + 30000 && u - c.started < 120000 && c.active && c.mission == s.mission
    requires c.pc == Refreshing(Envelope(s, t), Some(p))
    ensures Advance(c, Read(s), u, u) == c.(pc := Recording(p.action, Confirm(Envelope(s, t), p), false), snapshots := c.snapshots + [s])
  {
    SuitableIsAdmitted(p, s, t, u);
    assert About(c.mission, s) == s;
  }

  lemma RecordedIsReturned(c: Consult, s: Snapshot, p: Proposal, t: int, u: int)
    requires Suits(p, s) && t <= u <= t + 30000 && u - c.started < 120000 && c.active && c.mission == s.mission
    requires c.pc == Confirming(Envelope(s, t), p)
    ensures Advance(c, Read(s), u, u) == c.(pc := Returned(p.action, Granted(s, p, t), u), snapshots := c.snapshots + [s])
  {
    SuitableIsAdmitted(p, s, t, u);
    assert About(c.mission, s) == s;
  }

  /** The consultation takes this answer in its stride. */
  lemma AnswerAdvances(moves: seq<Move>, id: ConsultId, reply: Reply, u: int)
    requires id in Execute(moves).consults && !Execute(moves).consults[id].pc.Reading?
    ensures var t := Execute(moves + [Answer(id, reply, u, u)]);
      && id in t.consults && t.consults[id] == Deliver(Advance(Execute(moves).consults[id], reply, u, u))
  {
    ExecuteSnoc(moves, Answer(id, reply, u, u));
  }

  /** A proposal that suits an unchanged snapshot in time is what the caller gets. */
  lemma UnchangedEvidenceIsConfirmed(moves: seq<Move>, id: ConsultId, s: Snapshot, p: Proposal, t: int, u: int, started: int)
    requires Suits(p, s) && t <= u <= t + 30000 && u - started < 120000
    requires id in Execute(moves).consults
    requires Execute(moves).consults[id] == Consult(s.mission, started, true, Refreshing(Envelope(s, t), Some(p)), [s], [], None)
    ensures var v := Execute(Confirming3(moves, id, s, u));
      && id in v.consults
      && v.consults[id].verdict == Some(Verdict(p.action, Granted(s, p, t))) && v.consults[id].records == [p.action]
  {
    var m1 := moves + [Answer(id, Read(s), u, u)];
    var m2 := m1 + [Answer(id, Stored, u, u)];
    var c := Execute(moves).consults[id];
    AnswerAdvances(moves, id, Read(s), u);
    SuitableIsRecorded(c, s, p, t, u);
    var c1 := Execute(m1).consults[id];
    AnswerAdvances(m1, id, Stored, u);
    var c2 := Execute(m2).consults[id];
    assert c2 == c1.(pc := Confirming(Envelope(s, t), p), records := [] + [p.action]);
    AnswerAdvances(m2, id, Read(s), u);
    RecordedIsReturned(c2, s, p, t, u);
  }

  /**
   * Whatever happened before: new evidence that three reads in time report unchanged gets the action that
   * was proposed on it, `continue` if the mission is idle and in active or review, every other action always.
   */
  lemma UnchangedEvidenceGetsItsAction(moves: seq<Move>, id: ConsultId, s: Snapshot, p: Proposal, t: int, u: int)
    requires var v := Execute(moves);
      && id !in v.consults && s !in v.seen && Get(v.counts, s.mission, 0) < 3
      && u - Get(v.started, s.mission, t) < 120000
    requires t <= u <= t + 30000
    requires p.mission == s.mission && p.version == s.version && p.operation == s.operation && p.progress == s.progress
    requires forall ref :: ref in p.refs ==> exists e :: e in s.evidence && e.ref == ref
    requires p.action.Continue? ==> !s.working && (s.lane.Active? || s.lane.Review?)
    ensures var v := Execute(Confirming3(Asking3(moves, id, s, p, t), id, s, u));
      && id in v.consults
      && v.consults[id].verdict == Some(Verdict(p.action, if p.action.Continue? then Some(Admission(Envelope(s, t), p)) else None))
  {
    NewEvidenceIsAsked(moves, id, s, p, t);
    UnchangedEvidenceIsConfirmed(Asking3(moves, id, s, p, t), id, s, p, t, u, Get(Execute(moves).started, s.mission, t));
  }

  lemma AdmittedSuits(p: Proposal, e: Envelope, current: Snapshot, now: int)
    requires Admits(p, e, current, now)
    ensures e.snapshot == current && Suits(p, current) && e.observedAt <= now <= e.observedAt + 30000
  {
    forall ref | ref in p.refs ensures exists x :: x in current.evidence && x.ref == ref {
      var i :| 0 <= i < |p.refs| && p.refs[i] == ref;
      var j :| 0 <= j < |current.evidence| && current.evidence[j].ref == p.refs[i];
      assert current.evidence[j] in current.evidence;
    }
  }

  lemma AdmittedExactly(p: Proposal, e: Envelope, current: Snapshot, now: int)
    ensures Admits(p, e, current, now)
            <==> e.snapshot == current && Suits(p, current) && e.observedAt <= now <= e.observedAt + 30000
  {
    if Admits(p, e, current, now) { AdmittedSuits(p, e, current, now); }
    if e.snapshot == current && Suits(p, current) && e.observedAt <= now <= e.observedAt + 30000 {
      SuitableIsAdmitted(p, current, e.observedAt, now);
      assert e == Envelope(current, e.observedAt);
    }
  }

  /**
   * What the model proposed is recorded, and what was recorded is returned, exactly if the caller still
   * waits, it parsed, the read reports the very snapshot the model saw, the proposal suits that, and both
   * clocks are in time; in every other case the consultation escalates or, unheard, is given up.
   */
  lemma ProposalPassesExactly(c: Consult, s: Snapshot, now: int, later: int)
    requires s.mission == c.mission && (c.pc.Confirming? || c.pc.Refreshing?)
    requires c.pc.Refreshing? ==> c.pc.answer.Some?
    ensures var p := if c.pc.Refreshing? then c.pc.answer.value else c.pc.proposal;
      var d := Advance(c, Read(s), now, later).pc;
      var passes := c.active && c.pc.envelope.snapshot == s && Suits(p, s)
        && c.pc.envelope.observedAt <= now <= c.pc.envelope.observedAt + 30000 && later - c.started < 120000;
      && (passes && c.pc.Refreshing? ==> d == Recording(p.action, Confirm(c.pc.envelope, p), false))
      && (passes && c.pc.Confirming? ==> d.Returned? && d.action == p.action)
      && (!passes ==> d == if c.active then Recording(Escalate, Return, true) else Rejected)
  {
    assert About(c.mission, s) == s;
    AdmittedExactly(if c.pc.Refreshing? then c.pc.answer.value else c.pc.proposal, c.pc.envelope, s, now);
  }

  /** The history is told only what the store took. */
  lemma RecordsAreStored(c: Consult, reply: Reply, now: int, later: int)
    ensures Advance(c, reply, now, later).records != c.records ==> reply.Stored? || reply == Throws(true)
  {
  }

  /** An admission whose snapshot a fresh read still reports, in time, passes the check before the launch. */
  lemma UnchangedAdmissionPasses(s: Service, l: Launch, now: int, later: int)
    requires l.check.Rereading?
    requires var a := l.admission;
      && Suits(a.proposal, a.envelope.snapshot) && a.proposal.action.Continue?
      && a.envelope.observedAt <= later <= a.envelope.observedAt + 30000
      && a.envelope.snapshot.mission in s.started && now - s.started[a.envelope.snapshot.mission] < 120000
    ensures CheckLaunch(s, l, Read(l.admission.envelope.snapshot), now, later).check.Passed?
  {
    var e := l.admission.envelope;
    SuitableIsAdmitted(l.admission.proposal, e.snapshot, e.observedAt, later);
    assert About(e.snapshot.mission, e.snapshot) == e.snapshot;
  }

  /** A verdict to continue can be launched on, and the launch passes if its read is the same and in time. */
  lemma GrantedContinuationLaunches(moves: seq<Move>, id: ConsultId, l: LaunchId, now: int, later: int)
    requires var v := Execute(moves);
      && l !in v.launches && id in v.consults && v.consults[id].verdict.Some? && v.consults[id].verdict.value.admission.Some?
      && var a := v.consults[id].verdict.value.admission.value;
         && Suits(a.proposal, a.envelope.snapshot) && a.proposal.action.Continue?
         && a.envelope.observedAt <= later <= a.envelope.observedAt + 30000
         && a.envelope.snapshot.mission in v.started && now - v.started[a.envelope.snapshot.mission] < 120000
    ensures var snapshot := Execute(moves).consults[id].verdict.value.admission.value.envelope.snapshot;
      var u := Execute(moves + [Begin(l, id)] + [AnswerLaunch(l, Read(snapshot), now, later)]);
      l in u.launches && u.launches[l].consult == id && u.launches[l].check.Passed?
  {
    var v := Execute(moves);
    var a := v.consults[id].verdict.value.admission.value;
    ExecuteSnoc(moves, Begin(l, id));
    ExecuteSnoc(moves + [Begin(l, id)], AnswerLaunch(l, Read(a.envelope.snapshot), now, later));
    UnchangedAdmissionPasses(Step(v, Begin(l, id)), Launch(id, a, Rereading), now, later);
  }

  /** A check that is decided is never decided again. */
  lemma ChecksAreFinal(s: Service, move: Move, l: LaunchId)
    requires l in s.launches && !s.launches[l].check.Rereading?
    ensures l in Step(s, move).launches && Step(s, move).launches[l] == s.launches[l]
  {
    if move.Answer? && move.consult in s.consults {
      RespondKeepsBooks(s, move.consult, s.consults[move.consult], move.reply, move.now, move.later);
    }
  }

  // ---------------------------------------------------------------- giving up

  predicate Asked(s: Service, id: ConsultId) {
    exists i :: 0 <= i < |s.asked| && s.asked[i].asker == id
  }

  ghost predicate GaveUp(s: Service, id: ConsultId) {
    id in s.consults && !s.consults[id].active && !Asked(s, id)
  }

  lemma StepKeepsGivenUp(s: Service, move: Move, id: ConsultId)
    requires GaveUp(s, id)
    ensures GaveUp(Step(s, move), id)
  {
    var t := Step(s, move);
    if t.asked != s.asked {
      assert move.Answer? && t.asked == s.asked + [t.asked[|s.asked|]] && t.asked[|s.asked|].asker == move.consult;
      assert s.consults[move.consult].active;
    }
  }

  lemma {:induction false} GivenUpForGood(first: seq<Move>, more: seq<Move>, id: ConsultId)
    requires GaveUp(Execute(first), id)
    ensures GaveUp(Execute(first + more), id)
  {
    if more == [] {
      assert first + more == first;
    } else {
      var rest := more[..|more| - 1];
      GivenUpForGood(first, rest, id);
      assert (first + more)[..|first + more| - 1] == first + rest;
      StepKeepsGivenUp(Execute(first + rest), more[|more| - 1], id);
    }
  }

  /** A consultation whose caller was answered before it reserved never asks the model afterwards. */
  lemma TimedOutNeverReserves(first: seq<Move>, more: seq<Move>, id: ConsultId)
    requires id in Execute(first).consults && Execute(first).consults[id].verdict.Some? && !Asked(Execute(first), id)
    ensures !Asked(Execute(first + more), id)
  {
    ConsultsStayOk(first);
    assert ConsultOk(Execute(first).consults[id]);
    GivenUpForGood(first, more, id);
  }

  // ---------------------------------------------------------------- the last check before a launch

  /** A consultation runs on its mission's clock, which is started once. */
  ghost predicate ClocksAgree(s: Service) {
    forall id <- s.consults :: s.consults[id].mission in s.started && s.started[s.consults[id].mission] == s.consults[id].started
  }

  /** A launch keeps the admission of the verdict it was begun on, and passed only if that still held. */
  ghost predicate LaunchOk(s: Service, l: Launch) {
    && HandedOut(s, l.consult) && s.consults[l.consult].verdict.value.admission == Some(l.admission)
    && (l.check.Passed? ==>
          && l.check.current.mission in s.started
          && ContinuationHolds(Some(s.started[l.check.current.mission]), l.admission, l.check.current, l.check.now, l.check.later))
  }

  ghost predicate LaunchesOk(s: Service) {
    forall l <- s.launches :: LaunchOk(s, s.launches[l])
  }

  /** Verdicts and clocks are never taken back. */
  ghost predicate Keeps(s: Service, t: Service) {
    && (forall id <- s.consults :: id in t.consults && (s.consults[id].verdict.Some? ==> t.consults[id].verdict == s.consults[id].verdict))
    && (forall m <- s.started :: m in t.started && t.started[m] == s.started[m])
  }

  lemma RespondKeepsBooks(s: Service, id: ConsultId, c: Consult, reply: Reply, now: int, later: int)
    ensures var (t, d) := Respond(s, id, c, reply, now, later);
      && t.started == s.started && t.consults == s.consults && t.launches == s.launches
      && d.mission == c.mission && d.started == c.started && d.verdict == c.verdict
  {
  }

  lemma StepKeepsBooks(s: Service, move: Move)
    requires ClocksAgree(s)
    ensures Keeps(s, Step(s, move)) && ClocksAgree(Step(s, move))
  {
    if move.Answer? && move.consult in s.consults {
      RespondKeepsBooks(s, move.consult, s.consults[move.consult], move.reply, move.now, move.later);
    }
  }

  lemma LaunchStaysOk(s: Service, t: Service, l: Launch)
    requires Keeps(s, t) && LaunchOk(s, l)
    ensures LaunchOk(t, l)
  {
  }

  lemma StepKeepsLaunches(s: Service, move: Move)
    requires ClocksAgree(s) && LaunchesOk(s)
    ensures LaunchesOk(Step(s, move))
  {
    var t := Step(s, move);
    StepKeepsBooks(s, move);
    if move.Answer? && move.consult in s.consults {
      RespondKeepsBooks(s, move.consult, s.consults[move.consult], move.reply, move.now, move.later);
    }
    forall l <- t.launches ensures LaunchOk(t, t.launches[l]) {
      if l in s.launches {
        LaunchStaysOk(s, t, s.launches[l]);
        if move.AnswerLaunch? && move.launch == l { CheckStaysOk(t, s, s.launches[l], move.reply, move.now, move.later); }
      }
    }
  }

  lemma CheckStaysOk(t: Service, s: Service, l: Launch, reply: Reply, now: int, later: int)
    requires LaunchOk(t, l) && t.started == s.started
    ensures LaunchOk(t, CheckLaunch(s, l, reply, now, later))
  {
  }

  lemma {:induction false} LaunchesStayOk(moves: seq<Move>)
    ensures ClocksAgree(Execute(moves)) && LaunchesOk(Execute(moves))
  {
    if moves != [] {
      var earlier := moves[..|moves| - 1];
      LaunchesStayOk(earlier);
      StepKeepsBooks(Execute(earlier), moves[|moves| - 1]);
      StepKeepsLaunches(Execute(earlier), moves[|moves| - 1]);
    }
  }

  /**
   * A launch that passes its last check follows a verdict to continue on the same snapshot: the three
   * reads of the consultation and the one of the check are identical, idle and in active or review, and
   * both the verdict and the check were in time on the mission's one clock.
   */
  lemma LaunchIsBacked(moves: seq<Move>, l: LaunchId)
    requires l in Execute(moves).launches && Execute(moves).launches[l].check.Passed?
    ensures var s := Execute(moves);
      var launch := s.launches[l];
      var current := launch.check.current;
      && launch.consult in s.consults
      && var c := s.consults[launch.consult];
         && c.verdict == Some(Verdict(Continue, Some(launch.admission)))
         && |c.snapshots| == 3 && (forall i :: 0 <= i < 3 ==> c.snapshots[i] == current)
         && !current.working && (current.lane.Active? || current.lane.Review?) && current.mission == c.mission
         && c.mission in s.started && c.pc.Returned?
         && c.pc.at - s.started[c.mission] < 120000 && launch.check.now - s.started[c.mission] < 120000
         && launch.admission.envelope.observedAt <= launch.check.later <= launch.admission.envelope.observedAt + 30000
  {
    LaunchesStayOk(moves);
    ConsultsStayOk(moves);
    var s := Execute(moves);
    var launch := s.launches[l];
    assert LaunchOk(s, launch);
    var c := s.consults[launch.consult];
    assert ConsultOk(c);
    VerdictsAreBacked(moves, launch.consult);
    assert c.snapshots[0] == launch.check.current;
  }
}
