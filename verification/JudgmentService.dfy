/**
 * The judgment service and the decision provider in the form they run in: the run-scoped bookkeeping is
 * updated in place, and a reservation is made before the await it pays for. What the calls of one
 * consultation answer, and where its timeout fires, is given.
 */
module JudgmentService {
  import opened Prelude
  import opened OperatorJudgment

  /** What an awaited call answers, and what the clock says before and after. */
  datatype Call = Call(reply: Reply, now: int, later: int)

  /** The calls of one consultation, each known by where it is awaited, and where the timeout fires first. */
  datatype Calls = Calls(answer: Pc -> Call, fires: Pc -> bool)

  /** A call that answers something else than it was asked for has failed. */
  function Heard(pc: Pc, reply: Reply): Reply { if Answers(pc, reply) || reply.Throws? then reply else Throws(false) }

  /** Consultation `id` takes in this move what its call answers, or the timeout that fires before. */
  ghost predicate Hears(s: Service, move: Move, id: ConsultId, calls: Calls) {
    && (move.Answer? && move.consult == id ==>
          && id in s.consults
          && var c := s.consults[id];
             var call := calls.answer(c.pc);
             move == Answer(id, Heard(c.pc, call.reply), call.now, call.later) && (calls.fires(c.pc) ==> c.verdict.Some?))
    && (move.Timeout? && move.consult == id ==> id in s.consults && calls.fires(s.consults[id].pc))
  }

  /** `moves` goes on from `past`, and in it `id` hears what `calls` says. */
  ghost predicate Given(past: seq<Move>, moves: seq<Move>, id: ConsultId, calls: Calls) {
    past <= moves && forall i {:trigger moves[i]} :: |past| <= i < |moves| ==> Hears(Execute(moves[..i]), moves[i], id, calls)
  }

  lemma Hear(past: seq<Move>, moves: seq<Move>, move: Move, id: ConsultId, calls: Calls)
    requires Given(past, moves, id, calls) && Hears(Execute(moves), move, id, calls)
    ensures Given(past, moves + [move], id, calls)
    ensures Execute(moves + [move]) == Step(Execute(moves), move)
  {
    Snoc(moves, move);
    var more := moves + [move];
    forall i | |past| <= i < |more| ensures Hears(Execute(more[..i]), more[i], id, calls) {
      assert more[..i] == moves[..i];
      if i < |moves| { assert more[i] == moves[i]; } else { assert moves[..i] == moves; }
    }
  }

  class OperatorJudgmentService {
    var started: map<Mission, int>
    var seen: set<Snapshot>
    var counts: map<Mission, nat>
    var asked: seq<Ask>
    var others: map<ConsultId, Consult>
    var launches: map<LaunchId, Launch>

    constructor ()
      ensures State() == Empty
    {
      started, seen, counts, asked, others, launches := map[], {}, map[], [], map[], map[];
    }

    function State(): Service
      reads this
    {
      Service(started, seen, counts, others, asked, launches)
    }

    /** The service with consultation `id` at `c`. */
    ghost predicate At(moves: seq<Move>, id: ConsultId, c: Consult)
      reads this
    {
      State().(consults := others[id := c]) == Execute(moves)
    }

    /** The first consultation of a mission starts its clock. */
    method StartClock(ghost past: seq<Move>, id: ConsultId, mission: Mission, now: int, ghost calls: Calls)
      returns (c: Consult, ghost moves: seq<Move>)
      requires State() == Execute(past) && id !in others
      modifies this`started
      ensures At(moves, id, c) && c.pc.Reading? && c.verdict.None? && c.mission == mission && Given(past, moves, id, calls)
      ensures started == old(started)[mission := c.started]
      ensures mission in old(started) ==> c.started == old(started)[mission]
    {
      Hear(past, past, Judge(id, mission, now), id, calls);
      moves := past + [Judge(id, mission, now)];
      var first := Get(started, mission, now);
      started := started[mission := first];
      c := Consult(mission, first, true, Reading, [], [], None);
    }

    /** Other consultations move and the own timeout may fire. */
    method Await(ghost origin: seq<Move>, ghost past: seq<Move>, id: ConsultId, before: Consult, calls: Calls)
      returns (c: Consult, ghost moves: seq<Move>)
      requires At(past, id, before) && before.verdict.None? && Given(origin, past, id, calls)
      modifies this
      ensures At(moves, id, c) && Given(origin, moves, id, calls)
      ensures c == if calls.fires(before.pc) then before.(active := false, verdict := Some(Verdict(Escalate, None))) else before
    {
      c, moves := before, past;
      var foreign: seq<Move> := *;
      for i := 0 to |foreign|
        invariant At(moves, id, before) && Given(origin, moves, id, calls)
      {
        if Foreign(id, foreign[i]) {
          moves := MoveOther(origin, moves, id, before, foreign[i], calls);
        }
      }
      if calls.fires(before.pc) {
        Hear(origin, moves, Timeout(id), id, calls);
        moves := moves + [Timeout(id)];
        c := before.(active := false, verdict := Some(Verdict(Escalate, None)));
      }
    }

    method MoveOther(ghost origin: seq<Move>, ghost past: seq<Move>, id: ConsultId, c: Consult, move: Move, ghost calls: Calls)
      returns (ghost moves: seq<Move>)
      requires At(past, id, c) && Foreign(id, move) && Given(origin, past, id, calls)
      modifies this
      ensures At(moves, id, c) && Given(origin, moves, id, calls)
    {
      var s := State().(consults := others[id := c]);
      OthersKeepConsult(s, move, id);
      Hear(origin, past, move, id, calls);
      moves := past + [move];
      Adopt(Step(s, move));
      assert others[id := c] == others;
    }

    method Adopt(s: Service)
      modifies this
      ensures State() == s
    {
      started, seen, counts, asked, others, launches := s.started, s.seen, s.counts, s.asked, s.consults, s.launches;
    }

    /** What the first read decides: decline, or reserve the one invocation that is asked for next. */
    method ReserveOrDecline(id: ConsultId, before: Consult, current: Snapshot, now: int, later: int) returns (c: Consult)
      modifies this`seen, this`counts, this`asked
      ensures AfterRead(old(State()), id, before, current, now, later) == (State(), c)
    {
      c := before.(snapshots := before.snapshots + [current]);
      var count := Get(counts, c.mission, 0);
      if !c.active {
        c := Fail(c);
      } else if count >= MAX_INVOCATIONS || now - c.started >= MISSION_MS {
        c := c.(pc := Recording(Escalate, Return, false));
      } else if current in seen {
        c := c.(pc := Recording(Wait, Return, false));
      } else {
        seen := seen + {current};
        counts := counts[c.mission := count + 1];
        asked := asked + [Ask(id, c.mission, current)];
        c := c.(pc := Asking(Envelope(current, later)));
      }
    }

    method ReadAndReserve(ghost origin: seq<Move>, ghost past: seq<Move>, id: ConsultId, before: Consult, calls: Calls)
      returns (c: Consult, ghost moves: seq<Move>)
      requires At(past, id, before) && before.pc.Reading? && before.verdict.None? && Given(origin, past, id, calls)
      requires calls.answer(Reading).reply.Read? && !calls.fires(Reading)
      modifies this`seen, this`counts, this`asked
      ensures At(moves, id, c) && !c.pc.Reading? && Given(origin, moves, id, calls)
    {
      ghost var s := State().(consults := others[id := before]);
      var Call(reply, now, later) := calls.answer(Reading);
      var current := About(before.mission, reply.snapshot);
      Hear(origin, past, Answer(id, reply, now, later), id, calls);
      moves := past + [Answer(id, reply, now, later)];
      FirstReadStep(s, id, before, reply.snapshot, now, later);
      ReadIgnoresOthers(State(), s.consults, id, before, current, now, later);
      c := ReserveOrDecline(id, before, current, now, later);
      c := Deliver(c);
      assert s.consults[id := c] == others[id := c];
    }

    /** Whatever failed, the consultation escalates, unless the caller has been answered already. */
    method Escalating(before: Consult) returns (c: Consult)
      ensures c == Fail(before)
    {
      c := before.(pc := if before.active then Recording(Escalate, Return, true) else Rejected);
    }

    /** The model proposed, or what it said does not parse; the authority is read again either way. */
    method Proposed(before: Consult, proposal: Option<Proposal>) returns (c: Consult)
      requires before.pc.Asking?
      ensures forall now, later :: c == Advance(before, Reply.Proposed(proposal), now, later)
    {
      if !before.active {
        c := Escalating(before);
        return;
      }
      c := before.(pc := Refreshing(before.pc.envelope, proposal));
    }

    /** The proposal is admitted against the fresh snapshot and recorded, or the consultation fails. */
    method Refreshed(before: Consult, snapshot: Snapshot, now: int, later: int) returns (c: Consult)
      requires before.pc.Refreshing?
      ensures c == Advance(before, Read(snapshot), now, later)
    {
      var current := About(before.mission, snapshot);
      c := before.(snapshots := before.snapshots + [current]);
      var e, answer := before.pc.envelope, before.pc.answer;
      if !before.active || answer.None? || !Admits(answer.value, e, current, now) || later - before.started >= MISSION_MS {
        c := Escalating(c);
        return;
      }
      c := c.(pc := Recording(answer.value.action, Confirm(e, answer.value), false));
    }

    /** The decision is in the history; only an escalation may be reported late. */
    method Recorded(before: Consult, now: int) returns (c: Consult)
      requires before.pc.Recording?
      ensures forall later :: c == Advance(before, Stored, now, later)
    {
      c := before.(records := before.records + [before.pc.action]);
      if !before.active {
        c := c.(pc := Rejected);
      } else if before.pc.action != Escalate && now - before.started >= MISSION_MS {
        c := Escalating(c);
      } else {
        match before.pc.next {
          case Return => c := c.(pc := Returned(before.pc.action, None, now));
          case Confirm(e, p) => c := c.(pc := Confirming(e, p));
        }
      }
    }

    /** One more read must still admit the recorded proposal; a continuation hands out its admission. */
    method Confirmed(before: Consult, snapshot: Snapshot, now: int, later: int) returns (c: Consult)
      requires before.pc.Confirming?
      ensures c == Advance(before, Read(snapshot), now, later)
    {
      var final := About(before.mission, snapshot);
      c := before.(snapshots := before.snapshots + [final]);
      var e, p := before.pc.envelope, before.pc.proposal;
      if !before.active || !Admits(p, e, final, now) || later - before.started >= MISSION_MS {
        c := Escalating(c);
        return;
      }
      c := c.(pc := Returned(p.action, if p.action == Continue then Some(Admission(e, p)) else None, later));
    }

    /** A call threw; a record may have been stored all the same, and a failed escalation gives up. */
    method Thrown(before: Consult, stored: bool) returns (c: Consult)
      requires !before.pc.Returned? && !before.pc.Rejected?
      ensures forall now, later :: c == Advance(before, Throws(stored), now, later)
    {
      c := before;
      if before.pc.Recording? && stored { c := c.(records := c.records + [before.pc.action]); }
      if before.pc.Recording? && before.pc.caught { c := c.(pc := Rejected); } else { c := Escalating(c); }
    }

    /** Each answer has its own continuation. */
    method Branch(before: Consult, reply: Reply, now: int, later: int) returns (c: Consult)
      requires (Answers(before.pc, reply) && !before.pc.Reading?) || (reply.Throws? && !before.pc.Returned? && !before.pc.Rejected?)
      ensures c == Advance(before, reply, now, later)
    {
      if reply.Throws? {
        c := Thrown(before, reply.stored);
        return;
      }
      match before.pc {
        case Asking(_) => c := Proposed(before, reply.proposal);
        case Refreshing(_, _) => c := Refreshed(before, reply.snapshot, now, later);
        case Recording(_, _, _) => c := Recorded(before, now);
        case Confirming(_, _) => c := Confirmed(before, reply.snapshot, now, later);
      }
    }

    /** One later await of the consultation, or a first read that failed. */
    method Respond(ghost origin: seq<Move>, ghost past: seq<Move>, id: ConsultId, before: Consult, calls: Calls)
      returns (c: Consult, ghost moves: seq<Move>)
      requires At(past, id, before) && before.verdict.None? && ConsultOk(before) && Given(origin, past, id, calls)
      requires !calls.fires(before.pc) && (before.pc.Reading? ==> !calls.answer(Reading).reply.Read?)
      modifies {}
      ensures At(moves, id, c) && ConsultOk(c) && !c.pc.Reading? && Remaining(c.pc) < Remaining(before.pc)
      ensures Given(origin, moves, id, calls)
    {
      var Call(answer, now, later) := calls.answer(before.pc);
      var reply := Heard(before.pc, answer);
      c := Branch(before, reply, now, later);
      RespondProgresses(before, reply, now, later);
      Hear(origin, past, Answer(id, reply, now, later), id, calls);
      moves := past + [Answer(id, reply, now, later)];
      c := Deliver(c);
      StaysOk(moves, id, c);
    }

    /** Judge one mission: the caller always gets a verdict, at the latest when the timeout fires. */
    method JudgeMission(ghost past: seq<Move>, id: ConsultId, mission: Mission, now: int, calls: Calls)
      returns (verdict: Verdict, ghost moves: seq<Move>)
      requires State() == Execute(past) && id !in others
      modifies this
      ensures id in Execute(moves).consults && Execute(moves).consults[id].verdict == Some(verdict)
      ensures Given(past, moves, id, calls)
    {
      var c;
      c, moves := StartClock(past, id, mission, now, calls);
      c, moves := Await(past, moves, id, c, calls);
      if c.verdict.Some? { return c.verdict.value, moves; }
      StaysOk(moves, id, c);
      if calls.answer(Reading).reply.Read? {
        c, moves := ReadAndReserve(past, moves, id, c, calls);
      } else {
        c, moves := Respond(past, moves, id, c, calls);
      }
      StaysOk(moves, id, c);
      verdict, moves := Proceed(past, moves, id, c, calls);
    }

    /** The awaits after the first read, each with the timeout running. */
    method Proceed(ghost origin: seq<Move>, ghost past: seq<Move>, id: ConsultId, before: Consult, calls: Calls)
      returns (verdict: Verdict, ghost moves: seq<Move>)
      requires At(past, id, before) && ConsultOk(before) && !before.pc.Reading? && Given(origin, past, id, calls)
      modifies this
      ensures id in Execute(moves).consults && Execute(moves).consults[id].verdict == Some(verdict)
      ensures Given(origin, moves, id, calls)
    {
      var c := before;
      moves := past;
      while c.verdict.None?
        invariant At(moves, id, c) && ConsultOk(c) && !c.pc.Reading? && Given(origin, moves, id, calls)
        decreases Remaining(c.pc), if c.verdict.None? then 1 else 0
      {
        c, moves := Await(origin, moves, id, c, calls);
        StaysOk(moves, id, c);
        if c.verdict.None? { c, moves := Respond(origin, moves, id, c, calls); }
      }
      verdict := c.verdict.value;
    }

    /** The launch boundary: one more read, bounded in time, against the admission and the mission's clock. */
    method AssertContinuation(ghost past: seq<Move>, l: LaunchId, call: Call) returns (passes: bool, ghost moves: seq<Move>)
      requires State() == Execute(past) && l in launches && launches[l].check.Rereading?
      modifies this
      ensures State() == Execute(moves) && past < moves && NotOwn(past, moves[..|moves| - 1], l)
      ensures moves[|moves| - 1] == AnswerLaunch(l, if call.reply.Read? then call.reply else Throws(false), call.now, call.later)
      ensures l in launches && launches[l] == old(launches[l]).(check := launches[l].check)
      ensures passes <==> launches[l].check.Passed?
      ensures !launches[l].check.Rereading?
    {
      moves := AwaitRead(past, l);
      var launch := launches[l];
      var Call(answer, now, later) := call;
      var reply := if answer.Read? then answer else Throws(false);
      Snoc(moves, AnswerLaunch(l, reply, now, later));
      ghost var before := moves;
      moves := moves + [AnswerLaunch(l, reply, now, later)];
      assert moves[..|moves| - 1] == before;
      var e, p := launch.admission.envelope, launch.admission.proposal;
      if !reply.Read? {
        passes := false;
        launches := launches[l := launch.(check := Refused)];
        return;
      }
      var current := About(e.snapshot.mission, reply.snapshot);
      if current.mission !in started || now - started[current.mission] >= MISSION_MS {
        passes := false;
      } else if !Admits(p, e, current, later) {
        passes := false;
      } else {
        passes := p.action.Continue?;
      }
      launches := launches[l := launch.(check := if passes then Passed(current, now, later) else Refused)];
    }

    /** Anything else happens while the launch awaits its read. */
    method AwaitRead(ghost past: seq<Move>, l: LaunchId) returns (ghost moves: seq<Move>)
      requires State() == Execute(past) && l in launches
      modifies this
      ensures State() == Execute(moves) && l in launches && launches[l] == old(launches[l]) && NotOwn(past, moves, l)
    {
      moves := past;
      var foreign: seq<Move> := *;
      for i := 0 to |foreign|
        invariant State() == Execute(moves) && l in launches && launches[l] == old(launches[l]) && NotOwn(past, moves, l)
      {
        if !(foreign[i].AnswerLaunch? && foreign[i].launch == l) {
          Snoc(moves, foreign[i]);
          OthersKeepLaunch(State(), foreign[i], l);
          Adopt(Step(State(), foreign[i]));
          moves := moves + [foreign[i]];
        }
      }
    }
  }

  /** `moves` goes on from `past` without an answer to launch `l`. */
  ghost predicate NotOwn(past: seq<Move>, moves: seq<Move>, l: LaunchId) {
    past <= moves && forall k :: |past| <= k < |moves| ==> !(moves[k].AnswerLaunch? && moves[k].launch == l)
  }

  lemma OthersKeepConsult(s: Service, move: Move, id: ConsultId)
    requires id in s.consults && Foreign(id, move)
    ensures id in Step(s, move).consults && Step(s, move).consults[id] == s.consults[id]
  {
    if move.Answer? && move.consult in s.consults {
      RespondKeepsBooks(s, move.consult, s.consults[move.consult], move.reply, move.now, move.later);
    }
  }

  lemma ReadIgnoresOthers(s: Service, consults: map<ConsultId, Consult>, id: ConsultId, c: Consult, current: Snapshot, now: int, later: int)
    ensures var (t, d) := AfterRead(s, id, c, current, now, later);
      AfterRead(s.(consults := consults), id, c, current, now, later) == (t.(consults := consults), d) && !d.pc.Reading?
  {
  }

  lemma FirstReadStep(s: Service, id: ConsultId, c: Consult, current: Snapshot, now: int, later: int)
    requires id in s.consults && s.consults[id] == c && c.pc.Reading?
    ensures var (t, d) := AfterRead(s, id, c, About(c.mission, current), now, later);
      Step(s, Answer(id, Read(current), now, later)) == t.(consults := s.consults[id := Deliver(d)])
  {
  }

  lemma OthersKeepLaunch(s: Service, move: Move, l: LaunchId)
    requires l in s.launches && !(move.AnswerLaunch? && move.launch == l)
    ensures l in Step(s, move).launches && Step(s, move).launches[l] == s.launches[l]
  {
    if move.Answer? && move.consult in s.consults {
      RespondKeepsBooks(s, move.consult, s.consults[move.consult], move.reply, move.now, move.later);
    }
  }

  /** A move that is not one of consultation `id`'s own. */
  predicate Foreign(id: ConsultId, move: Move) {
    move.Judge? || move.Answer? || move.Timeout? ==> move.consult != id
  }

  lemma Snoc(moves: seq<Move>, move: Move)
    ensures Execute(moves + [move]) == Step(Execute(moves), move)
  {
    assert (moves + [move])[..|moves|] == moves;
  }

  predicate Answers(pc: Pc, reply: Reply) {
    match pc
    case Reading => reply.Read?
    case Asking(_) => reply.Proposed?
    case Refreshing(_, _) => reply.Read?
    case Recording(_, _, _) => reply.Stored?
    case Confirming(_, _) => reply.Read?
    case _ => false
  }

  /** How many awaits a consultation can still reach. */
  function Remaining(pc: Pc): nat {
    match pc
    case Reading => 7
    case Asking(_) => 6
    case Refreshing(_, _) => 5
    case Recording(_, Confirm(_, _), _) => 4
    case Confirming(_, _) => 3
    case Recording(_, Return, caught) => if caught then 1 else 2
    case _ => 0
  }

  lemma RespondProgresses(c: Consult, reply: Reply, now: int, later: int)
    requires ConsultOk(c) && (c.pc.Reading? ==> reply.Throws?) && c.verdict.None? && (Answers(c.pc, reply) || reply.Throws?)
    ensures Remaining(Deliver(Advance(c, reply, now, later)).pc) < Remaining(c.pc)
  {
  }

  lemma StaysOk(moves: seq<Move>, id: ConsultId, c: Consult)
    ensures id in Execute(moves).consults && Execute(moves).consults[id] == c ==> ConsultOk(c)
  {
    ConsultsStayOk(moves);
  }
}
