/**
 * The fleet loop in the form it runs in. Between two of its own segments, steps may be answered and the
 * run interrupted; every method reports the moves of the state machine it has made. What each read of the
 * board and each liveness read of a pass reports is given.
 */
module FleetLoop {
  import opened Prelude
  import opened Supervision
  import opened Fleet

  /** `boards(k)` is what the `k`th read of the board reports, if it does not fail. */
  datatype Calls = Calls(boards: nat -> Option<seq<Item>>, liveness: (nat, Mission) -> Liveness)

  /** How often the board was read. */
  function Reads(moves: seq<Move>): nat {
    if moves == [] then 0
    else
      var last := moves[|moves| - 1];
      Reads(moves[..|moves| - 1]) + if last.BoardRead? || last.BoardFailed? then 1 else 0
  }

  /** The loop takes in this move what its call reports. */
  ghost predicate Hears(s: State, tries: nat, move: Move, calls: Calls) {
    match move
    case BoardRead(board) => calls.boards(tries) == Some(board)
    case BoardFailed => calls.boards(tries) == None
    case Checked(a) => s.loop.Clearing? && a == calls.liveness(tries, s.loop.mission)
    case _ => true
  }

  ghost predicate Given(options: Options, moves: seq<Move>, calls: Calls) {
    forall i {:trigger moves[i]} :: 0 <= i < |moves| ==>
      Hears(Execute(Initial(options), moves[..i]), Reads(moves[..i]), moves[i], calls)
  }

  lemma Hear(options: Options, moves: seq<Move>, move: Move, calls: Calls)
    requires Given(options, moves, calls) && Hears(Execute(Initial(options), moves), Reads(moves), move, calls)
    ensures Given(options, moves + [move], calls)
    ensures Execute(Initial(options), moves + [move]) == Step(Execute(Initial(options), moves), move)
    ensures Reads(moves + [move]) == Reads(moves) + if move.BoardRead? || move.BoardFailed? then 1 else 0
  {
    Snoc(options, moves, move);
    var more := moves + [move];
    assert more[..|moves|] == moves;
    forall i | 0 <= i < |more| ensures Hears(Execute(Initial(options), more[..i]), Reads(more[..i]), more[i], calls) {
      assert more[..i] == moves[..i];
      if i < |moves| { assert more[i] == moves[i]; } else { assert moves[..i] == moves; }
    }
  }

  class FleetRun {
    const options: Options
    const calls: Calls
    /** How often the board was read. */
    var tries: nat
    var order: seq<Mission>
    var cells: map<Mission, Cell>
    var readFailures: nat
    var aborted: bool

    constructor (options: Options, calls: Calls)
      ensures View(Reading) == Initial(options) && this.calls == calls && tries == 0
    {
      this.options, this.calls, tries := options, calls, 0;
      order, cells, readFailures, aborted := [], map[], 0, false;
    }

    function View(loop: Loop): State
      reads this
    {
      State(options, order, cells, loop, readFailures, aborted)
    }

    ghost predicate At(moves: seq<Move>, loop: Loop)
      reads this
    {
      View(loop) == Execute(Initial(options), moves) && Heard(moves)
    }

    /** Everything so far was as given. */
    ghost predicate Heard(moves: seq<Move>)
      reads this
    {
      Given(options, moves, calls) && Reads(moves) == tries
    }

    /** While the loop awaits, steps are answered and the run may be interrupted. */
    method Await(ghost past: seq<Move>, ghost loop: Loop) returns (ghost moves: seq<Move>)
      requires At(past, loop)
      modifies this`cells, this`aborted
      ensures At(moves, loop) && cells.Keys == old(cells.Keys)
    {
      moves := past;
      var events: nat := *;
      while events > 0
        invariant At(moves, loop) && cells.Keys == old(cells.Keys)
      {
        var interrupt: bool := *;
        var m: Mission := *;
        var a: Supervision.Answer := *;
        ghost var move := if interrupt then Abort else Answer(m, a);
        Hear(options, moves, move, calls);
        if interrupt { aborted := true; }
        else if m in cells && cells[m].steps != [] { cells := cells[m := Resume(cells[m], 0, a)]; }
        moves := moves + [move];
        events := events - 1;
      }
    }

    /** Reconcile each queued mission and start a step for each one that is open and has none. */
    method ProcessAttentionQueue(queue: seq<Item>, ghost loop: Loop) returns (open: nat)
      modifies this`order, this`cells
      ensures View(loop) == ProcessQueue(old(View(loop)), queue)
      ensures open == CountOpen(old(View(loop)), queue)
    {
      open := 0;
      for i := 0 to |queue|
        invariant View(loop) == ProcessQueue(old(View(loop)), queue[..i])
        invariant open == CountOpen(old(View(loop)), queue[..i])
      {
        assert queue[..i + 1][..i] == queue[..i];
        var item := queue[i];
        var run := Get(cells, item.mission, NewCell);
        if item.mission !in cells { order := order + [item.mission]; }
        if Reopen(run, item.observation).run.outcome.None? { open := open + 1; }
        cells := cells[item.mission := Supervise(run, item.observation, options.budget)];
      }
      assert queue[..|queue|] == queue;
    }

    /** Clear every open mission that left the queue and is idle; report whether one still works. */
    method ClearIdleMissions(ghost past: seq<Move>, queue: seq<Item>)
      returns (watching: bool, ghost moves: seq<Move>, ghost loop: Loop)
      requires Execute(Initial(options), past) == ClearFrom(View(Reading), queue, order, false) && Heard(past)
      modifies this`cells, this`aborted
      ensures Execute(Initial(options), moves) == EndPass(View(loop), queue, watching) && Heard(moves)
    {
      watching, moves, loop := false, past, Reading;
      var rest := order;
      while rest != []
        invariant Execute(Initial(options), moves) == ClearFrom(View(loop), queue, rest, watching) && Heard(moves)
        decreases |rest|
      {
        var m := rest[0];
        if m in cells && cells[m].run.outcome.None? && !OnQueue(queue, m) && !cells[m].inFlight {
          watching, moves, loop := CheckMission(moves, loop, queue, m, rest[1..], watching);
        }
        rest := rest[1..];
      }
    }

    method CheckMission(ghost past: seq<Move>, ghost from: Loop, queue: seq<Item>, m: Mission, rest: seq<Mission>, was: bool)
      returns (watching: bool, ghost moves: seq<Move>, ghost loop: Loop)
      requires MayClear(View(from), queue, m)
      requires At(past, Clearing(queue, m, rest, was))
      modifies this`cells, this`aborted
      ensures Execute(Initial(options), moves) == ClearFrom(View(loop), queue, rest, watching) && Heard(moves)
    {
      loop := Clearing(queue, m, rest, was);
      moves := Await(past, loop);
      var liveness := calls.liveness(tries, m);
      Hear(options, moves, Checked(liveness), calls);
      moves := moves + [Checked(liveness)];
      if liveness.Working? { return true, moves, loop; }
      if !liveness.Idle? { return options.keepWatching, moves, loop; }
      cells := cells[m := Clear(cells[m])];
      watching := was;
    }

    /** One pass; `done` once the loop is over, `failed` when the board could not be read. */
    method Pass(ghost past: seq<Move>) returns (done: bool, failed: bool, ghost moves: seq<Move>)
      requires At(past, Reading)
      modifies this
      ensures tries == old(tries) + 1
      ensures if done then At(moves, Draining(failed)) else At(moves, Pausing)
    {
      moves := Await(past, Reading);
      var read := calls.boards(tries);
      if read.None? {
        Hear(options, moves, BoardFailed, calls);
        tries := tries + 1;
        readFailures := readFailures + 1;
        var over := options.once || readFailures >= BOARD_READ_ATTEMPTS;
        return over, over, moves + [BoardFailed];
      }
      var board := read.value;
      Hear(options, moves, BoardRead(board), calls);
      tries := tries + 1;
      moves := moves + [BoardRead(board)];
      if aborted { return true, false, moves; }
      readFailures := 0;
      done, moves := WorkQueue(moves, Attention(options, board));
      failed := false;
    }

    method WorkQueue(ghost past: seq<Move>, queue: seq<Item>) returns (done: bool, ghost moves: seq<Move>)
      requires Execute(Initial(options), past) == ClearFrom(View(Reading), queue, order, false) && Heard(past)
      modifies this`order, this`cells, this`aborted
      ensures if done then At(moves, Draining(false)) else At(moves, Pausing)
    {
      var watching: bool;
      ghost var loop: Loop;
      watching, moves, loop := ClearIdleMissions(past, queue);
      if aborted { return true, moves; }
      var open := ProcessAttentionQueue(queue, loop);
      var inFlight := exists m <- cells :: cells[m].inFlight;
      done := options.once || (!options.keepWatching && open == 0 && !inFlight && !watching);
    }

    /**
     * Watch the queue for `patience` passes, unless the loop ends before; `finished` once it ended and its
     * steps drained.
     */
    method SuperviseFleet(patience: nat) returns (finished: bool, failed: bool, ghost moves: seq<Move>)
      requires View(Reading) == Initial(options) && tries == 0
      modifies this
      ensures Given(options, moves, calls)
      ensures finished ==> At(moves, Finished(failed)) && !AnyInFlight(View(Finished(failed)))
      ensures !finished ==>
        || (At(moves, Reading) && tries == patience)
        || (At(moves, Draining(failed)) && AnyInFlight(View(Draining(failed))))
    {
      moves, failed, finished := [], false, false;
      var done := false;
      var passes := 0;
      while passes < patience && !done
        invariant passes <= patience && (!done ==> tries == passes)
        invariant if done then At(moves, Draining(failed)) else At(moves, Reading)
      {
        passes := passes + 1;
        done, failed, moves := Pass(moves);
        if !done {
          moves := Await(moves, Pausing);
          Hear(options, moves, Wake, calls);
          moves := moves + [Wake];
          done := aborted;
          failed := false;
        }
      }
      if done {
        moves := Await(moves, Draining(failed));
        if !exists m <- cells :: cells[m].inFlight {
          Hear(options, moves, Return, calls);
          moves := moves + [Return];
          finished := true;
        }
      }
    }
  }
}
