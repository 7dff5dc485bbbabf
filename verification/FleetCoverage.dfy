/**
 * What a pass over the board leaves undone: nothing it may act on is overlooked, the run ends exactly
 * when nothing is in flight, and a board that cannot be read is given up on after two reads.
 */
module FleetCoverage {
  import opened Prelude
  import opened Supervision
  import opened Fleet

  // ---------------------------------------------------------------- one pass over a queue

  predicate LeadItem(options: Options, item: Item) {
    var lane := item.observation.lane;
    (lane.Active? || lane.Review? || lane.Integration?) && (options.only.Some? ==> item.mission in options.only.value)
  }

  /** The item was reconciled with its mission's run, which is settled, or a step of it is in flight. */
  predicate TakenCareOf(s: State, item: Item) {
    && item.mission in s.cells
    && var c := s.cells[item.mission];
       item.observation in c.seen && (c.run.outcome.Some? || c.inFlight)
  }

  predicate AllTakenCareOf(s: State, items: seq<Item>) {
    forall item :: item in items ==> TakenCareOf(s, item)
  }

  lemma SuperviseTakesCare(c: Cell, o: Observation, budget: nat)
    ensures var d := Supervise(c, o, budget);
      && d.seen == c.seen + {o} && (d.run.outcome.Some? || d.inFlight) && (c.inFlight ==> d.inFlight)
      && (Reopen(c, o).run.outcome.None? ==> d.inFlight)
  {
  }

  lemma {:induction false} QueueIsTakenCareOf(s: State, queue: seq<Item>)
    ensures AllTakenCareOf(ProcessQueue(s, queue), queue)
  {
    if queue != [] {
      var earlier := queue[..|queue| - 1];
      var item := queue[|queue| - 1];
      QueueIsTakenCareOf(s, earlier);
      var t := ProcessQueue(s, earlier);
      SuperviseTakesCare(CellOf(t, item.mission), item.observation, t.options.budget);
      forall x | x in queue ensures TakenCareOf(Enqueue(t, item), x) {
        if x != item { assert x in earlier; }
      }
    }
  }

  lemma {:induction false} AttentionIsComplete(options: Options, board: seq<Item>, item: Item)
    requires item in board && LeadItem(options, item)
    ensures item in Attention(options, board)
  {
    if item != board[|board| - 1] { AttentionIsComplete(options, board[..|board| - 1], item); }
  }

  lemma {:induction false} OpenIsInFlight(s: State, queue: seq<Item>)
    ensures AnyInFlight(s) || CountOpen(s, queue) > 0 ==> AnyInFlight(ProcessQueue(s, queue))
  {
    if queue != [] {
      var earlier := queue[..|queue| - 1];
      var item := queue[|queue| - 1];
      OpenIsInFlight(s, earlier);
      var t := ProcessQueue(s, earlier);
      var c := CellOf(t, item.mission);
      var o := item.observation;
      SuperviseTakesCare(c, o, t.options.budget);
      var u := Enqueue(t, item);
      if AnyInFlight(t) {
        var m :| m in t.cells && t.cells[m].inFlight;
        assert u.cells[m].inFlight;
      }
      if IsOpen(t, item) {
        OpenStaysOpen(c, o);
        assert u.cells[item.mission].inFlight;
      }
    }
  }

  /** Being seen once more decides nothing about reopening. */
  lemma OpenStaysOpen(c: Cell, o: Observation)
    ensures Reopen(c.(seen := c.seen + {o}), o).run == Reopen(c, o).run
  {
  }

  // ---------------------------------------------------------------- over whole runs

  /** The board of the pass that is under way, or of the last one. */
  function LastBoard(options: Options, moves: seq<Move>): seq<Item> {
    if moves == [] then []
    else
      var earlier := moves[..|moves| - 1];
      var last := moves[|moves| - 1];
      if last.BoardRead? && Execute(Initial(options), earlier).loop.Reading? then last.board else LastBoard(options, earlier)
  }

  /** Where looking for missions to clear can lead. */
  ghost predicate Passing(s: State, t: State, queue: seq<Item>, watching: bool) {
    if t.loop.Clearing? then t.loop.queue == queue
    else
      && !s.aborted && AllTakenCareOf(t, queue)
      && (t.loop.Pausing? || t.loop == Draining(false))
      && (t.loop.Draining? <==> s.options.once || (!s.options.keepWatching && !watching && !AnyInFlight(t)))
  }

  lemma {:induction false} ClearFromPasses(s: State, queue: seq<Item>, rest: seq<Mission>, watching: bool)
    ensures s.aborted || Passing(s, ClearFrom(s, queue, rest, watching), queue, watching)
    decreases |rest|
  {
    if rest == [] {
      QueueIsTakenCareOf(s, queue);
      OpenIsInFlight(s, queue);
      var t := ProcessQueue(s, queue);
      var u := EndPass(s, queue, watching);
      forall item | item in queue && !s.aborted ensures TakenCareOf(u, item) { assert TakenCareOf(t, item); }
      assert AnyInFlight(u) <==> (if s.aborted then AnyInFlight(s) else AnyInFlight(t));
    } else if !MayClear(s, queue, rest[0]) {
      ClearFromPasses(s, queue, rest[1..], watching);
    }
  }

  /** What a pass remembers after one more liveness read. */
  function StillWatching(s: State, a: Liveness): bool
    requires s.loop.Clearing?
  {
    if a.Idle? then s.loop.watching else if a.Working? then true else s.options.keepWatching
  }

  lemma CheckPasses(s: State, a: Liveness)
    requires s.loop.Clearing? && s.loop.mission in s.cells
    ensures s.aborted || Passing(s, CheckIdle(s, a), s.loop.queue, StillWatching(s, a))
  {
    var Clearing(queue, m, rest, watching) := s.loop;
    if a.Idle? { ClearFromPasses(s.(cells := s.cells[m := Clear(s.cells[m])]), queue, rest, watching); }
    else { ClearFromPasses(s, queue, rest, StillWatching(s, a)); }
  }

  lemma {:induction false} LoopRemembersBoard(options: Options, moves: seq<Move>)
    ensures var s := Execute(Initial(options), moves);
      s.loop.Clearing? ==> s.loop.queue == Attention(options, LastBoard(options, moves))
  {
    if moves != [] {
      var earlier := moves[..|moves| - 1];
      var last := moves[|moves| - 1];
      var s := Execute(Initial(options), earlier);
      LoopRemembersBoard(options, earlier);
      RunKeepsInv(options, earlier);
      if last.BoardRead? && s.loop.Reading? && !s.aborted {
        ClearFromPasses(s.(readFailures := 0), Attention(options, last.board), s.order, false);
      } else if last.Checked? && s.loop.Clearing? && s.loop.mission in s.cells {
        CheckAborts(s, last.liveness);
        CheckPasses(s, last.liveness);
      }
    }
  }

  lemma {:induction false} AbortedDoesNotPass(s: State, queue: seq<Item>, rest: seq<Mission>, watching: bool)
    requires s.aborted
    ensures var t := ClearFrom(s, queue, rest, watching); t.loop == Draining(false) || (t.loop.Clearing? && t.loop.queue == queue)
    decreases |rest|
  {
    if rest != [] && !MayClear(s, queue, rest[0]) { AbortedDoesNotPass(s, queue, rest[1..], watching); }
  }

  lemma CheckAborts(s: State, a: Liveness)
    requires s.loop.Clearing? && s.loop.mission in s.cells
    ensures s.aborted && CheckIdle(s, a).loop.Clearing? ==> CheckIdle(s, a).loop.queue == s.loop.queue
  {
    if s.aborted {
      var Clearing(queue, m, rest, watching) := s.loop;
      AbortedDoesNotPass(s.(cells := s.cells[m := Clear(s.cells[m])]), queue, rest, watching);
      AbortedDoesNotPass(s, queue, rest, true);
      AbortedDoesNotPass(s, queue, rest, s.options.keepWatching);
    }
  }

  /** The segment that ends a pass: the board was read or a liveness read answered, and no clearing is left. */
  predicate EndsPass(s: State, move: Move) {
    !s.aborted && ((move.BoardRead? && s.loop.Reading?) || (move.Checked? && s.loop.Clearing?)) && !Step(s, move).loop.Clearing?
  }

  lemma PassEnds(options: Options, moves: seq<Move>, move: Move)
    requires EndsPass(Execute(Initial(options), moves), move)
    ensures var s, t := Execute(Initial(options), moves), Execute(Initial(options), moves + [move]);
      && s.options == options
      && Passing(s, t, Attention(options, LastBoard(options, moves + [move])),
                 WatchingAfter(options.keepWatching, PassReads(options, moves + [move])))
  {
    Snoc(options, moves, move);
    assert (moves + [move])[..|moves|] == moves;
    var s := Execute(Initial(options), moves);
    RunKeepsInv(options, moves);
    LoopRemembersBoard(options, moves);
    LoopRemembersReads(options, moves);
    if move.BoardRead? {
      ClearFromPasses(s.(readFailures := 0), Attention(options, move.board), s.order, false);
    } else {
      WatchingGrows(options.keepWatching, PassReads(options, moves), move.liveness);
      CheckPasses(s, move.liveness);
    }
  }

  /**
   * When a pass over the board ends without an interruption, every item it showed in active, review or
   * integration, of a mission asked for, has been reconciled with its run, and its mission is settled
   * or has a step in flight.
   */
  lemma NothingIsOverlooked(options: Options, moves: seq<Move>, move: Move, item: Item)
    requires EndsPass(Execute(Initial(options), moves), move) && item in LastBoard(options, moves + [move])
    requires item.observation.lane.Active? || item.observation.lane.Review? || item.observation.lane.Integration?
    requires options.only.Some? ==> item.mission in options.only.value
    ensures var t := Execute(Initial(options), moves + [move]);
      && item.mission in t.cells && item.observation in t.cells[item.mission].seen
      && (t.cells[item.mission].run.outcome.Some? || t.cells[item.mission].inFlight)
  {
    PassEnds(options, moves, move);
    AttentionIsComplete(options, LastBoard(options, moves + [move]), item);
    assert TakenCareOf(Execute(Initial(options), moves + [move]), item);
  }

  /**
   * The pass then ends the run exactly if the run was to be one pass, or it does not keep watching,
   * nothing is in flight and the pass remembers no work; otherwise it pauses.
   */
  lemma PassEndsRunExactly(options: Options, moves: seq<Move>, move: Move)
    requires EndsPass(Execute(Initial(options), moves), move)
    ensures var t := Execute(Initial(options), moves + [move]);
      && (t.loop == Draining(false) || t.loop == Pausing)
      && (t.loop == Draining(false) <==>
            options.once
            || (!options.keepWatching && !WatchingAfter(false, PassReads(options, moves + [move]))
                && forall m <- t.cells :: !t.cells[m].inFlight))
  {
    PassEnds(options, moves, move);
  }

  /**
   * A mission becomes cleared only when the board of this pass shows nothing of it to act on, no step of
   * it is in flight and it was just read as idle.
   */
  lemma ClearedMissionLeftTheBoard(options: Options, moves: seq<Move>, move: Move, m: Mission)
    requires CellOf(Execute(Initial(options), moves), m).run.outcome != Some(Cleared)
    requires CellOf(Execute(Initial(options), moves + [move]), m).run.outcome == Some(Cleared)
    ensures move == Checked(Idle) && CellOf(Execute(Initial(options), moves), m).steps == []
    ensures forall item :: item in LastBoard(options, moves) && LeadItem(options, item) ==> item.mission != m
  {
    ClearedOnlyWhenAbsentAndIdle(options, moves, move, m);
    LoopRemembersBoard(options, moves);
    forall item | item in LastBoard(options, moves) && LeadItem(options, item) ensures item.mission != m {
      AttentionIsComplete(options, LastBoard(options, moves), item);
    }
  }

  // ---------------------------------------------------------------- a board that cannot be read

  /** How many reads of the board failed in a row, up to now. */
  function FailedReads(options: Options, moves: seq<Move>): nat {
    if moves == [] then 0
    else
      var earlier := moves[..|moves| - 1];
      var s := Execute(Initial(options), earlier);
      var last := moves[|moves| - 1];
      if last.BoardFailed? && s.loop.Reading? then FailedReads(options, earlier) + 1
      else if last.BoardRead? && s.loop.Reading? && !s.aborted then 0
      else FailedReads(options, earlier)
  }

  lemma {:induction false} ProcessKeepsReads(s: State, queue: seq<Item>)
    ensures ProcessQueue(s, queue).readFailures == s.readFailures
  {
    if queue != [] { ProcessKeepsReads(s, queue[..|queue| - 1]); }
  }

  lemma {:induction false} ClearFromKeepsReads(s: State, queue: seq<Item>, rest: seq<Mission>, watching: bool)
    ensures var t := ClearFrom(s, queue, rest, watching); t.readFailures == s.readFailures && t.loop != Draining(true)
    decreases |rest|
  {
    if rest == [] { ProcessKeepsReads(s, queue); }
    else if !MayClear(s, queue, rest[0]) { ClearFromKeepsReads(s, queue, rest[1..], watching); }
  }

  lemma OthersKeepReads(s: State, move: Move)
    requires !(move.BoardFailed? && s.loop.Reading?)
    ensures var t := Step(s, move);
      && t.readFailures == (if move.BoardRead? && s.loop.Reading? && !s.aborted then 0 else s.readFailures)
      && (t.loop == Draining(true) ==> s.loop == Draining(true))
  {
    if move.BoardRead? && s.loop.Reading? && !s.aborted {
      ClearFromKeepsReads(s.(readFailures := 0), Attention(s.options, move.board), s.order, false);
    } else if move.Checked? && s.loop.Clearing? && s.loop.mission in s.cells {
      var Clearing(queue, m, rest, watching) := s.loop;
      ClearFromKeepsReads(s.(cells := s.cells[m := Clear(s.cells[m])]), queue, rest, watching);
      ClearFromKeepsReads(s, queue, rest, true);
      ClearFromKeepsReads(s, queue, rest, s.options.keepWatching);
    }
  }

  lemma {:induction false} ReadsAreCounted(options: Options, moves: seq<Move>)
    ensures Execute(Initial(options), moves).readFailures == FailedReads(options, moves)
  {
    if moves != [] {
      var earlier := moves[..|moves| - 1];
      var last := moves[|moves| - 1];
      ReadsAreCounted(options, earlier);
      var s := Execute(Initial(options), earlier);
      if !(last.BoardFailed? && s.loop.Reading?) { OthersKeepReads(s, last); }
    }
  }

  /**
   * A run gives up on the board exactly at a failed read that is the second in a row, or the first of a
   * run of one pass; after a single failure it pauses and reads again.
   */
  lemma BoardIsGivenUpExactly(options: Options, moves: seq<Move>, move: Move)
    requires Execute(Initial(options), moves).loop != Draining(true)
    ensures var s, t := Execute(Initial(options), moves), Execute(Initial(options), moves + [move]);
      && (t.loop == Draining(true) <==>
            move == BoardFailed && s.loop == Reading && (options.once || FailedReads(options, moves + [move]) == 2))
      && (move == BoardFailed && s.loop == Reading ==> t.loop == Draining(true) || t.loop == Pausing)
  {
    Snoc(options, moves, move);
    assert (moves + [move])[..|moves|] == moves;
    RunKeepsInv(options, moves);
    ReadsAreCounted(options, moves);
    var s := Execute(Initial(options), moves);
    if !(move.BoardFailed? && s.loop.Reading?) { OthersKeepReads(s, move); }
  }
}
