/**
 * The fleet loop: reading the attention queue, clearing missions that left it, starting one step per
 * mission, and draining at the end, interleaved in any order with the answers the steps receive.
 */
module Fleet {
  import opened Prelude
  import opened Supervision

  type Mission = string

  const BOARD_READ_ATTEMPTS: nat := 2

  datatype Options = Options(budget: nat, only: Option<set<Mission>>, once: bool, keepWatching: bool)

  datatype Item = Item(mission: Mission, observation: Observation)

  /** Where the loop is suspended. */
  datatype Loop =
    | Reading
    | Clearing(queue: seq<Item>, mission: Mission, rest: seq<Mission>, watching: bool)
    | Pausing
    | Draining(failed: bool)
    | Finished(failed: bool)

  /** `order` is the insertion order of `cells`. */
  datatype State = State(
    options: Options,
    order: seq<Mission>,
    cells: map<Mission, Cell>,
    loop: Loop,
    readFailures: nat,
    aborted: bool)

  datatype Move =
    | BoardRead(board: seq<Item>)
    | BoardFailed
    | Checked(liveness: Answer)
    | Wake
    | Answer(mission: Mission, answer: Answer)
    | Abort
    | Return

  // ---------------------------------------------------------------- segments

  predicate Watched(options: Options, item: Item) {
    IsLeadLane(item.observation.lane) && (options.only.Some? ==> item.mission in options.only.value)
  }

  /** The part of the board the supervisor may act on. */
  function Attention(options: Options, board: seq<Item>): seq<Item> {
    if board == [] then []
    else
      var earlier := Attention(options, board[..|board| - 1]);
      var item := board[|board| - 1];
      if Watched(options, item) then earlier + [item] else earlier
  }

  predicate OnQueue(queue: seq<Item>, m: Mission) {
    exists i :: 0 <= i < |queue| && queue[i].mission == m
  }

  function CellOf(s: State, m: Mission): Cell { Get(s.cells, m, NewCell) }

  function Enqueue(s: State, item: Item): State {
    s.(order := if item.mission in s.cells then s.order else s.order + [item.mission],
       cells := s.cells[item.mission := Supervise(CellOf(s, item.mission), item.observation, s.options.budget)])
  }

  predicate IsOpen(s: State, item: Item) {
    Reopen(CellOf(s, item.mission), item.observation).run.outcome.None?
  }

  function ProcessQueue(s: State, queue: seq<Item>): State {
    if queue == [] then s else Enqueue(ProcessQueue(s, queue[..|queue| - 1]), queue[|queue| - 1])
  }

  function CountOpen(s: State, queue: seq<Item>): nat {
    if queue == [] then 0
    else
      CountOpen(s, queue[..|queue| - 1])
      + if IsOpen(ProcessQueue(s, queue[..|queue| - 1]), queue[|queue| - 1]) then 1 else 0
  }

  predicate AnyInFlight(s: State) { exists m <- s.cells :: s.cells[m].inFlight }

  /** The rest of a pass once every idle mission was checked. */
  function EndPass(s: State, queue: seq<Item>, watching: bool): State {
    if s.aborted then s.(loop := Draining(false))
    else
      var t := ProcessQueue(s, queue);
      var idle := !s.options.keepWatching && CountOpen(s, queue) == 0 && !AnyInFlight(t) && !watching;
      t.(loop := if s.options.once || idle then Draining(false) else Pausing)
  }

  predicate MayClear(s: State, queue: seq<Item>, m: Mission) {
    m in s.cells && s.cells[m].run.outcome.None? && !OnQueue(queue, m) && !s.cells[m].inFlight
  }

  /** Look for the next mission whose liveness must be read before it can be cleared. */
  function ClearFrom(s: State, queue: seq<Item>, rest: seq<Mission>, watching: bool): State
    decreases |rest|
  {
    if rest == [] then EndPass(s, queue, watching)
    else if MayClear(s, queue, rest[0]) then s.(loop := Clearing(queue, rest[0], rest[1..], watching))
    else ClearFrom(s, queue, rest[1..], watching)
  }

  function LoopHead(s: State): State { s.(loop := if s.aborted then Draining(false) else Reading) }

  function ReadBoard(s: State, board: seq<Item>): State {
    if s.aborted then s.(loop := Draining(false))
    else ClearFrom(s.(readFailures := 0), Attention(s.options, board), s.order, false)
  }

  function FailBoard(s: State): State {
    s.(readFailures := s.readFailures + 1,
       loop := if s.options.once || s.readFailures + 1 >= BOARD_READ_ATTEMPTS then Draining(true) else Pausing)
  }

  function CheckIdle(s: State, liveness: Answer): State
    requires s.loop.Clearing? && s.loop.mission in s.cells
  {
    var Clearing(queue, m, rest, watching) := s.loop;
    if liveness.Idle? then ClearFrom(s.(cells := s.cells[m := Clear(s.cells[m])]), queue, rest, watching)
    else if liveness.Working? then ClearFrom(s, queue, rest, true)
    else ClearFrom(s, queue, rest, s.options.keepWatching)
  }

  function AnswerStep(s: State, m: Mission, a: Supervision.Answer): State
    requires m in s.cells && s.cells[m].steps != []
  {
    s.(cells := s.cells[m := Resume(s.cells[m], 0, a)])
  }

  /** One atomic segment; an impossible move changes nothing. */
  function Step(s: State, move: Move): State {
    match move
    case BoardRead(board) => if s.loop.Reading? then ReadBoard(s, board) else s
    case BoardFailed => if s.loop.Reading? then FailBoard(s) else s
    case Checked(a) => if s.loop.Clearing? && s.loop.mission in s.cells then CheckIdle(s, a) else s
    case Wake => if s.loop.Pausing? then LoopHead(s) else s
    case Answer(m, a) => if m in s.cells && s.cells[m].steps != [] then AnswerStep(s, m, a) else s
    case Abort => s.(aborted := true)
    case Return => if s.loop.Draining? && !AnyInFlight(s) then s.(loop := Finished(s.loop.failed)) else s
  }

  function Execute(s: State, moves: seq<Move>): State {
    if moves == [] then s else Step(Execute(s, moves[..|moves| - 1]), moves[|moves| - 1])
  }

  function Initial(options: Options): State {
    State(options, [], map[], Reading, 0, false)
  }

  // ---------------------------------------------------------------- invariant

  /** Every item the board ever showed. */
  function Shown(moves: seq<Move>): set<Item> {
    if moves == [] then {}
    else
      var last := moves[|moves| - 1];
      Shown(moves[..|moves| - 1]) + if last.BoardRead? then Items(last.board) else {}
  }

  function Items(board: seq<Item>): set<Item> { set i | 0 <= i < |board| :: board[i] }

  /** Only lead-lane items of the missions asked for are ever acted on. */
  ghost predicate SeenOk(options: Options, items: set<Item>, m: Mission, c: Cell) {
    forall o <- c.seen :: Item(m, o) in items && Watched(options, Item(m, o))
  }

  ghost predicate CellOk(options: Options, items: set<Item>, m: Mission, c: Cell) {
    CellInv(c, options.budget) && SeenOk(options, items, m, c)
  }

  ghost predicate CellsInv(s: State, items: set<Item>) {
    forall m <- s.cells :: CellOk(s.options, items, m, s.cells[m])
  }

  ghost predicate OrderInv(s: State) {
    && (forall i :: 0 <= i < |s.order| ==> s.order[i] in s.cells)
    && (forall m <- s.cells :: m in s.order)
    && (forall i, j :: 0 <= i < j < |s.order| ==> s.order[i] != s.order[j])
  }

  ghost predicate QueueOk(s: State, items: set<Item>, queue: seq<Item>) {
    forall i :: 0 <= i < |queue| ==> queue[i] in items && Watched(s.options, queue[i])
  }

  ghost predicate LoopInv(s: State, items: set<Item>) {
    && (s.loop.Clearing? ==> MayClear(s, s.loop.queue, s.loop.mission) && QueueOk(s, items, s.loop.queue))
    && (s.loop.Finished? ==> !AnyInFlight(s))
    && (!s.loop.Draining? && !s.loop.Finished? ==> s.readFailures < BOARD_READ_ATTEMPTS)
  }

  ghost predicate Inv(s: State, items: set<Item>) {
    CellsInv(s, items) && OrderInv(s) && LoopInv(s, items)
  }

  lemma {:induction false} AttentionOk(s: State, board: seq<Item>)
    ensures QueueOk(s, Items(board), Attention(s.options, board))
  {
    if board != [] {
      var earlier := board[..|board| - 1];
      AttentionOk(s, earlier);
      assert board[|board| - 1] in Items(board);
      forall item <- Items(earlier) ensures item in Items(board) {
        var i :| 0 <= i < |earlier| && earlier[i] == item;
        assert board[i] == item;
      }
    }
  }

  lemma EnqueuedCellOk(options: Options, items: set<Item>, item: Item, c: Cell)
    requires CellOk(options, items, item.mission, c)
    requires item in items && Watched(options, item)
    ensures CellOk(options, items, item.mission, Supervise(c, item.observation, options.budget))
  {
    SuperviseKeepsInv(c, item.observation, options.budget);
    var o := item.observation;
    assert Supervise(c, o, options.budget).seen == c.seen + {o};
    assert item == Item(item.mission, o);
  }

  lemma CellChanges(s: State, items: set<Item>, m: Mission, c: Cell)
    requires CellsInv(s, items) && CellOk(s.options, items, m, c)
    ensures CellsInv(s.(cells := s.cells[m := c]), items)
  {
  }

  lemma EnqueueKeepsCells(s: State, items: set<Item>, item: Item)
    requires CellsInv(s, items) && item in items && Watched(s.options, item)
    ensures CellsInv(Enqueue(s, item), items)
  {
    var c := CellOf(s, item.mission);
    NewCellInv(s.options.budget);
    assert CellOk(s.options, items, item.mission, c);
    EnqueuedCellOk(s.options, items, item, c);
    CellChanges(s, items, item.mission, Supervise(c, item.observation, s.options.budget));
  }

  lemma OrderGrows(s: State, m: Mission, c: Cell)
    requires OrderInv(s)
    ensures OrderInv(s.(order := if m in s.cells then s.order else s.order + [m], cells := s.cells[m := c]))
  {
  }

  lemma EnqueueKeepsInv(s: State, items: set<Item>, item: Item)
    requires CellsInv(s, items) && OrderInv(s) && item in items && Watched(s.options, item)
    ensures CellsInv(Enqueue(s, item), items) && OrderInv(Enqueue(s, item))
  {
    EnqueueKeepsCells(s, items, item);
    OrderGrows(s, item.mission, Supervise(CellOf(s, item.mission), item.observation, s.options.budget));
  }

  lemma {:induction false} ProcessKeepsInv(s: State, items: set<Item>, queue: seq<Item>)
    requires CellsInv(s, items) && OrderInv(s) && QueueOk(s, items, queue)
    ensures CellsInv(ProcessQueue(s, queue), items) && OrderInv(ProcessQueue(s, queue))
    ensures ProcessQueue(s, queue).options == s.options && ProcessQueue(s, queue).readFailures == s.readFailures
  {
    if queue != [] {
      var earlier := queue[..|queue| - 1];
      ProcessKeepsInv(s, items, earlier);
      EnqueueKeepsInv(ProcessQueue(s, earlier), items, queue[|queue| - 1]);
    }
  }

  lemma EndPassKeepsInv(s: State, items: set<Item>, queue: seq<Item>, watching: bool)
    requires CellsInv(s, items) && OrderInv(s) && QueueOk(s, items, queue) && s.readFailures < BOARD_READ_ATTEMPTS
    ensures Inv(EndPass(s, queue, watching), items)
  {
    ProcessKeepsInv(s, items, queue);
  }

  lemma {:induction false} ClearFromKeepsInv(s: State, items: set<Item>, queue: seq<Item>, rest: seq<Mission>, watching: bool)
    requires CellsInv(s, items) && OrderInv(s) && QueueOk(s, items, queue) && s.readFailures < BOARD_READ_ATTEMPTS
    ensures Inv(ClearFrom(s, queue, rest, watching), items)
    decreases |rest|
  {
    if rest == [] { EndPassKeepsInv(s, items, queue, watching); }
    else if !MayClear(s, queue, rest[0]) { ClearFromKeepsInv(s, items, queue, rest[1..], watching); }
  }

  lemma CheckKeepsInv(s: State, items: set<Item>, a: Supervision.Answer)
    requires Inv(s, items) && s.loop.Clearing?
    ensures Inv(CheckIdle(s, a), items)
  {
    var Clearing(queue, m, rest, watching) := s.loop;
    assert CellOk(s.options, items, m, s.cells[m]);
    if a.Idle? {
      ClearKeepsInv(s.cells[m], s.options.budget);
      var t := s.(cells := s.cells[m := Clear(s.cells[m])]);
      CellChanges(s, items, m, Clear(s.cells[m]));
      ClearFromKeepsInv(t, items, queue, rest, watching);
    } else {
      ClearFromKeepsInv(s, items, queue, rest, if a.Working? then true else s.options.keepWatching);
    }
  }

  lemma ResumeKeepsSeen(c: Cell, a: Supervision.Answer)
    requires c.steps != []
    ensures Resume(c, 0, a).seen == c.seen
  {
  }

  lemma AnswerKeepsInv(s: State, items: set<Item>, m: Mission, a: Supervision.Answer)
    requires Inv(s, items) && m in s.cells && s.cells[m].steps != []
    ensures Inv(AnswerStep(s, m, a), items)
  {
    var c := s.cells[m];
    assert CellOk(s.options, items, m, c);
    ResumeKeepsInv(c, 0, a, s.options.budget);
    ResumeKeepsSeen(c, a);
    CellChanges(s, items, m, Resume(c, 0, a));
  }

  lemma MoreItems(s: State, items: set<Item>, more: set<Item>)
    requires Inv(s, items) && items <= more
    ensures Inv(s, more)
  {
    forall m <- s.cells ensures CellOk(s.options, more, m, s.cells[m]) {
      assert CellOk(s.options, items, m, s.cells[m]);
    }
  }

  lemma StepKeepsInv(s: State, items: set<Item>, move: Move)
    requires Inv(s, items)
    requires move.BoardRead? ==> Items(move.board) <= items
    ensures Inv(Step(s, move), items)
  {
    if move.BoardRead? && s.loop.Reading? && !s.aborted {
      AttentionOk(s, move.board);
      ClearFromKeepsInv(s.(readFailures := 0), items, Attention(s.options, move.board), s.order, false);
    } else if move.Checked? && s.loop.Clearing? {
      CheckKeepsInv(s, items, move.liveness);
    } else if move.Answer? && move.mission in s.cells && s.cells[move.mission].steps != [] {
      AnswerKeepsInv(s, items, move.mission, move.answer);
    }
  }

  lemma {:induction false} ProcessKeepsOptions(s: State, queue: seq<Item>)
    ensures ProcessQueue(s, queue).options == s.options
  {
    if queue != [] { ProcessKeepsOptions(s, queue[..|queue| - 1]); }
  }

  lemma {:induction false} ClearFromKeepsOptions(s: State, queue: seq<Item>, rest: seq<Mission>, watching: bool)
    ensures ClearFrom(s, queue, rest, watching).options == s.options
    decreases |rest|
  {
    if rest == [] { ProcessKeepsOptions(s, queue); }
    else if !MayClear(s, queue, rest[0]) { ClearFromKeepsOptions(s, queue, rest[1..], watching); }
  }

  lemma StepKeepsOptions(s: State, move: Move)
    ensures Step(s, move).options == s.options
  {
    if move.BoardRead? && s.loop.Reading? {
      ClearFromKeepsOptions(s.(readFailures := 0), Attention(s.options, move.board), s.order, false);
    } else if move.Checked? && s.loop.Clearing? && s.loop.mission in s.cells {
      var Clearing(queue, m, rest, watching) := s.loop;
      ClearFromKeepsOptions(s.(cells := s.cells[m := Clear(s.cells[m])]), queue, rest, watching);
      ClearFromKeepsOptions(s, queue, rest, true);
      ClearFromKeepsOptions(s, queue, rest, s.options.keepWatching);
    }
  }

  lemma {:induction false} RunKeepsInv(options: Options, moves: seq<Move>)
    ensures Inv(Execute(Initial(options), moves), Shown(moves))
    ensures Execute(Initial(options), moves).options == options
  {
    if moves != [] {
      var earlier := moves[..|moves| - 1];
      var last := moves[|moves| - 1];
      RunKeepsInv(options, earlier);
      var s := Execute(Initial(options), earlier);
      MoreItems(s, Shown(earlier), Shown(moves));
      StepKeepsInv(s, Shown(moves), last);
      StepKeepsOptions(s, last);
    }
  }

  // ---------------------------------------------------------------- what a whole run guarantees

  /** Effects on the missions of `order`: board commands and recovery launches. */
  function Effects(cells: map<Mission, Cell>, order: seq<Mission>): nat {
    if order == [] then 0
    else Effects(cells, order[..|order| - 1]) + EffectsOn(Get(cells, order[|order| - 1], NewCell))
  }

  function EffectsOn(c: Cell): nat { |Presses(c.log)| + |Recoveries(c.log)| }

  /** The distinct states these missions were shown in. */
  function ShownOf(items: set<Item>, order: seq<Mission>): set<Item> {
    set item | item in items && item.mission in order
  }

  lemma {:induction false} ImageNoLarger<A, B>(a: set<A>, b: set<B>, f: map<A, B>)
    requires forall y <- b :: exists x :: x in a && x in f && f[x] == y
    ensures |b| <= |a|
  {
    if b != {} {
      var y :| y in b;
      var x :| x in a && x in f && f[x] == y;
      forall z <- b - {y} ensures exists w :: w in a - {x} && w in f && f[w] == z {
        var w :| w in a && w in f && f[w] == z;
        assert w != x;
      }
      ImageNoLarger(a - {x}, b - {y}, f);
    }
  }

  /** One mission's effects are bounded by the states it was seen in. */
  lemma CellEffectsBounded(c: Cell, budget: nat)
    requires CellInv(c, budget)
    ensures |Presses(c.log)| + |Recoveries(c.log)| <= (ACTION_ATTEMPTS + budget) * |c.seen|
  {
    EffectsBounded(c, budget);
    var keys := map o | o in c.seen && o.action.Some? :: KeyOf(o, o.action.value);
    forall k <- SeenKeys(c.seen) ensures exists o :: o in c.seen && o in keys && keys[o] == k {
      var o :| o in c.seen && o.action.Some? && KeyOf(o, o.action.value) == k;
      assert keys[o] == k;
    }
    ImageNoLarger(c.seen, SeenKeys(c.seen), keys);
    var failures := map o | o in c.seen :: o.failure;
    forall f <- SeenFailures(c.seen) ensures exists o :: o in c.seen && o in failures && failures[o] == f {
      var o :| o in c.seen && o.failure == f;
      assert failures[o] == f;
    }
    ImageNoLarger(c.seen, SeenFailures(c.seen), failures);
    Scaled(budget, |SeenFailures(c.seen)|, |c.seen|);
    assert (ACTION_ATTEMPTS + budget) * |c.seen| == ACTION_ATTEMPTS * |c.seen| + budget * |c.seen|;
  }

  lemma Scaled(n: nat, a: nat, b: nat)
    requires a <= b
    ensures n * a <= n * b
  {
  }

  lemma SeenWithinShown(c: Cell, options: Options, items: set<Item>, m: Mission)
    requires SeenOk(options, items, m, c)
    ensures |c.seen| <= |ShownOf(items, [m])|
  {
    var shown := ShownOf(items, [m]);
    var observed := map item | item in shown :: item.observation;
    forall o <- c.seen ensures exists item :: item in shown && item in observed && observed[item] == o {
      var item := Item(m, o);
      assert item in shown && observed[item] == o;
    }
    ImageNoLarger(shown, c.seen, observed);
  }

  lemma MissionEffectsWithinShown(s: State, items: set<Item>, m: Mission)
    requires CellsInv(s, items) && m in s.cells
    ensures EffectsOn(s.cells[m]) <= (ACTION_ATTEMPTS + s.options.budget) * |ShownOf(items, [m])|
  {
    assert CellOk(s.options, items, m, s.cells[m]);
    CellEffectsBounded(s.cells[m], s.options.budget);
    SeenWithinShown(s.cells[m], s.options, items, m);
    Scaled(ACTION_ATTEMPTS + s.options.budget, |s.cells[m].seen|, |ShownOf(items, [m])|);
  }

  /** Different missions are shown in different items. */
  lemma ShownSplits(items: set<Item>, rest: seq<Mission>, m: Mission)
    requires m !in rest
    ensures |ShownOf(items, rest + [m])| == |ShownOf(items, rest)| + |ShownOf(items, [m])|
  {
    assert ShownOf(items, rest) !! ShownOf(items, [m]);
    assert ShownOf(items, rest + [m]) == ShownOf(items, rest) + ShownOf(items, [m]);
  }

  /** `rate` for each of `n` items. */
  function Allowed(rate: nat, n: nat): nat { if n == 0 then 0 else rate + Allowed(rate, n - 1) }

  lemma {:induction false} AllowedAdds(rate: nat, a: nat, b: nat)
    ensures Allowed(rate, a + b) == Allowed(rate, a) + Allowed(rate, b)
  {
    if b > 0 { AllowedAdds(rate, a, b - 1); }
  }

  lemma {:induction false} AllowedIsProduct(rate: nat, n: nat)
    ensures Allowed(rate, n) == rate * n
  {
    if n > 0 { AllowedIsProduct(rate, n - 1); }
  }

  /** Each of these missions had at most `rate` effects for each item it was shown in. */
  ghost predicate EachWithin(cells: map<Mission, Cell>, items: set<Item>, order: seq<Mission>, rate: nat) {
    forall m :: m in order ==> Within(Get(cells, m, NewCell), items, m, rate)
  }

  predicate Within(c: Cell, items: set<Item>, m: Mission, rate: nat) {
    EffectsOn(c) <= Allowed(rate, |ShownOf(items, [m])|)
  }

  lemma WithinAdds(x: nat, y: nat, a: nat, b: nat, rate: nat)
    requires x <= Allowed(rate, a) && y <= Allowed(rate, b)
    ensures x + y <= Allowed(rate, a + b)
  {
    AllowedAdds(rate, a, b);
  }

  lemma {:induction false} EffectsWithinShown(cells: map<Mission, Cell>, items: set<Item>, order: seq<Mission>, rate: nat)
    requires EachWithin(cells, items, order, rate)
    requires forall i, j :: 0 <= i < j < |order| ==> order[i] != order[j]
    ensures Effects(cells, order) <= Allowed(rate, |ShownOf(items, order)|)
  {
    if order != [] {
      var rest := order[..|order| - 1];
      var m := order[|order| - 1];
      EffectsWithinShown(cells, items, rest, rate);
      assert rest + [m] == order;
      ShownSplits(items, rest, m);
      assert Within(Get(cells, m, NewCell), items, m, rate);
      WithinAdds(Effects(cells, rest), EffectsOn(Get(cells, m, NewCell)), |ShownOf(items, rest)|, |ShownOf(items, [m])|, rate);
    }
  }

  lemma MissionsWithin(s: State, items: set<Item>)
    requires CellsInv(s, items) && OrderInv(s)
    ensures EachWithin(s.cells, items, s.order, ACTION_ATTEMPTS + s.options.budget)
  {
    forall m | m in s.order ensures Within(Get(s.cells, m, NewCell), items, m, ACTION_ATTEMPTS + s.options.budget) {
      MissionEffectsAllowed(s, items, m);
    }
  }

  lemma StateEffectsBounded(s: State, items: set<Item>)
    requires CellsInv(s, items) && OrderInv(s)
    ensures Effects(s.cells, s.order) <= (ACTION_ATTEMPTS + s.options.budget) * |items|
  {
    var rate := ACTION_ATTEMPTS + s.options.budget;
    MissionsWithin(s, items);
    EffectsWithinShown(s.cells, items, s.order, rate);
    AllowedIsProduct(rate, |ShownOf(items, s.order)|);
    ShownOfSome(items, s.order);
    Scaled(rate, |ShownOf(items, s.order)|, |items|);
  }

  lemma MissionEffectsAllowed(s: State, items: set<Item>, m: Mission)
    requires CellsInv(s, items) && m in s.cells
    ensures EffectsOn(s.cells[m]) <= Allowed(ACTION_ATTEMPTS + s.options.budget, |ShownOf(items, [m])|)
  {
    MissionEffectsWithinShown(s, items, m);
    AllowedIsProduct(ACTION_ATTEMPTS + s.options.budget, |ShownOf(items, [m])|);
  }

  /**
   * However many passes a run makes and however its steps interleave, the commands it dispatches and the
   * recovery agents it launches are bounded by the distinct states the board has shown.
   */
  lemma FleetEffectsBounded(options: Options, moves: seq<Move>)
    ensures var s := Execute(Initial(options), moves);
      Effects(s.cells, s.order) <= (2 + options.budget) * |Shown(moves)|
  {
    RunKeepsInv(options, moves);
    StateEffectsBounded(Execute(Initial(options), moves), Shown(moves));
  }

  lemma ShownOfSome(items: set<Item>, order: seq<Mission>)
    ensures |ShownOf(items, order)| <= |items|
  {
    Subset(ShownOf(items, order), items);
  }

  lemma Subset<T>(a: set<T>, b: set<T>)
    requires a <= b
    ensures |a| <= |b|
  {
    assert b == a + (b - a);
  }

  /** Per mission, after any interleaving of passes, answers and interruptions. */
  lemma FleetSafety(options: Options, moves: seq<Move>, m: Mission)
    requires m in Execute(Initial(options), moves).cells
    ensures var c := Execute(Initial(options), moves).cells[m];
      && |c.steps| <= 1 && (c.inFlight <==> c.steps != [])
      && (forall f :: Recoveries(c.log)[f] <= options.budget)
      && (forall k :: Presses(c.log)[k] <= 2 && Get(Balance(c.log).successes, k, 0) <= 1)
      && (forall i :: 0 <= i < |c.log| ==> SoundEvent(c.log, i))
      && (c.run.outcome == Some(Escalated) <==> c.run.settledFailure.Some?)
      && (forall o <- c.seen ::
            && Item(m, o) in Shown(moves) && (o.lane.Active? || o.lane.Review? || o.lane.Integration?)
            && (options.only.Some? ==> m in options.only.value))
  {
    RunKeepsInv(options, moves);
    var s := Execute(Initial(options), moves);
    var c := s.cells[m];
    assert CellOk(options, Shown(moves), m, c);
    CellWithinBounds(c, options.budget);
  }

  lemma {:induction false} LoggedIsCounted(log: seq<Event>, i: nat)
    requires i < |log|
    ensures log[i].Dispatched? ==> log[i].key in Balance(log).dispatches
    ensures log[i].Launched? ==> log[i].failure in Balance(log).launches
  {
    if i < |log| - 1 {
      LoggedIsCounted(log[..|log| - 1], i);
      assert log[..|log| - 1][i] == log[i];
    }
  }

  /** What a dispatched command or a launched agent was for. */
  ghost predicate ActedFor(e: Event, o: Observation) {
    && (e.Dispatched? ==> o.action == Some(e.key.kind) && o.progress == e.key.progress && o.failure == e.key.failure)
    && (e.Launched? ==> o.failure == e.failure)
  }

  /**
   * Every command that is dispatched and every agent that is launched is for something the board showed of
   * this very mission, in active, review or integration, and only if the mission was asked for.
   */
  lemma ActsOnlyOnLeadLanes(options: Options, moves: seq<Move>, m: Mission, i: nat)
    requires m in Execute(Initial(options), moves).cells && i < |Execute(Initial(options), moves).cells[m].log|
    requires var e := Execute(Initial(options), moves).cells[m].log[i]; e.Dispatched? || e.Launched?
    ensures options.only.Some? ==> m in options.only.value
    ensures exists item ::
      && item in Shown(moves) && item.mission == m && ActedFor(Execute(Initial(options), moves).cells[m].log[i], item.observation)
      && (item.observation.lane.Active? || item.observation.lane.Review? || item.observation.lane.Integration?)
  {
    RunKeepsInv(options, moves);
    FleetSafety(options, moves, m);
    var c := Execute(Initial(options), moves).cells[m];
    assert CellOk(options, Shown(moves), m, c);
    LoggedIsCounted(c.log, i);
    var o: Observation :| o in c.seen && ActedFor(c.log[i], o);
    assert Item(m, o) in Shown(moves);
  }

  lemma CellWithinBounds(c: Cell, budget: nat)
    requires CellInv(c, budget)
    ensures forall f :: Recoveries(c.log)[f] <= budget
    ensures forall k :: Presses(c.log)[k] <= 2 && Get(Balance(c.log).successes, k, 0) <= 1
  {
    forall f ensures Recoveries(c.log)[f] <= budget { RecoveriesCounted(c.log, f); }
    forall k ensures Presses(c.log)[k] <= 2 && Get(Balance(c.log).successes, k, 0) <= 1 {
      PressesCounted(c.log, k);
      assert KeyOk(c, Balance(c.log), k);
    }
  }

  /** When the run returns, every step is over and every claim that was obtained has been released. */
  lemma ReturnedRunIsFinished(options: Options, moves: seq<Move>, m: Mission)
    requires Execute(Initial(options), moves).loop.Finished?
    requires m in Execute(Initial(options), moves).cells
    ensures var c := Execute(Initial(options), moves).cells[m]; c.steps == [] && Balance(c.log).held == 0
  {
    RunKeepsInv(options, moves);
    var s := Execute(Initial(options), moves);
    assert CellOk(options, Shown(moves), m, s.cells[m]);
    assert !s.cells[m].inFlight;
  }

  // ---------------------------------------------------------------- clearing

  lemma ReconciledIsNotCleared(c: Cell, o: Observation, budget: nat)
    ensures Supervise(c, o, budget).run.outcome != Some(Cleared)
  {
  }

  lemma StepDoesNotClear(c: Cell, a: Supervision.Answer)
    requires c.steps != [] && c.run.outcome != Some(Cleared)
    ensures Resume(c, 0, a).run.outcome != Some(Cleared)
  {
  }

  lemma {:induction false} ProcessDoesNotClear(s: State, queue: seq<Item>, m: Mission)
    requires CellOf(s, m).run.outcome != Some(Cleared)
    ensures CellOf(ProcessQueue(s, queue), m).run.outcome != Some(Cleared)
  {
    if queue != [] {
      var earlier := queue[..|queue| - 1];
      var item := queue[|queue| - 1];
      ProcessDoesNotClear(s, earlier, m);
      ReconciledIsNotCleared(CellOf(ProcessQueue(s, earlier), item.mission), item.observation, ProcessQueue(s, earlier).options.budget);
    }
  }

  lemma {:induction false} ClearFromDoesNotClear(s: State, queue: seq<Item>, rest: seq<Mission>, watching: bool, m: Mission)
    requires CellOf(s, m).run.outcome != Some(Cleared)
    ensures CellOf(ClearFrom(s, queue, rest, watching), m).run.outcome != Some(Cleared)
    decreases |rest|
  {
    if rest == [] { ProcessDoesNotClear(s, queue, m); }
    else if !MayClear(s, queue, rest[0]) { ClearFromDoesNotClear(s, queue, rest[1..], watching, m); }
  }

  lemma CheckClearsOnlyItsMission(s: State, a: Supervision.Answer, m: Mission)
    requires s.loop.Clearing? && s.loop.mission in s.cells
    requires CellOf(s, m).run.outcome != Some(Cleared)
    requires !a.Idle? || m != s.loop.mission
    ensures CellOf(CheckIdle(s, a), m).run.outcome != Some(Cleared)
  {
    var Clearing(queue, n, rest, watching) := s.loop;
    var t := if a.Idle? then s.(cells := s.cells[n := Clear(s.cells[n])]) else s;
    ClearFromDoesNotClear(t, queue, rest, watching, m);
    ClearFromDoesNotClear(t, queue, rest, true, m);
    ClearFromDoesNotClear(t, queue, rest, s.options.keepWatching, m);
  }

  /** Although the liveness read is an await: at the write, the mission is off the queue, idle and not in flight. */
  lemma ClearedOnlyWhenAbsentAndIdle(options: Options, moves: seq<Move>, move: Move, m: Mission)
    requires CellOf(Execute(Initial(options), moves), m).run.outcome != Some(Cleared)
    requires CellOf(Execute(Initial(options), moves + [move]), m).run.outcome == Some(Cleared)
    ensures var s := Execute(Initial(options), moves);
      && move == Checked(Idle) && s.loop.Clearing? && s.loop.mission == m
      && (forall item :: item in s.loop.queue ==> item.mission != m)
      && m in s.cells && s.cells[m].steps == [] && s.cells[m].run.outcome.None?
  {
    assert (moves + [move])[..|moves|] == moves;
    var s := Execute(Initial(options), moves);
    RunKeepsInv(options, moves);
    if move.BoardRead? && s.loop.Reading? {
      ClearFromDoesNotClear(s.(readFailures := 0), Attention(s.options, move.board), s.order, false, m);
    } else if move.Answer? && move.mission in s.cells && s.cells[move.mission].steps != [] {
      if m == move.mission { StepDoesNotClear(s.cells[m], move.answer); }
    } else if move.Checked? && s.loop.Clearing? && s.loop.mission in s.cells {
      if !move.liveness.Idle? || m != s.loop.mission { CheckClearsOnlyItsMission(s, move.liveness, m); }
      assert CellOk(options, Shown(moves), s.loop.mission, s.cells[s.loop.mission]);
    }
  }

  // ---------------------------------------------------------------- what ends a bounded run

  type Liveness = Supervision.Answer

  predicate Unreadable(a: Liveness) { !a.Idle? && !a.Working? }

  /** What a pass remembers of its liveness reads: an unreadable one replaces what was seen before it. */
  function WatchingAfter(keepWatching: bool, seen: seq<Liveness>): bool {
    if seen == [] then false
    else
      var last := seen[|seen| - 1];
      if last.Idle? then WatchingAfter(keepWatching, seen[..|seen| - 1])
      else if last.Working? then true else keepWatching
  }

  /** The liveness reads of the current pass. */
  function PassReads(options: Options, moves: seq<Move>): seq<Liveness> {
    if moves == [] then []
    else
      var earlier := moves[..|moves| - 1];
      var last := moves[|moves| - 1];
      var s := Execute(Initial(options), earlier);
      if last.BoardRead? && s.loop.Reading? then []
      else if last.Checked? && s.loop.Clearing? && s.loop.mission in s.cells then PassReads(options, earlier) + [last.liveness]
      else PassReads(options, earlier)
  }

  lemma {:induction false} ClearFromKeepsWatching(s: State, queue: seq<Item>, rest: seq<Mission>, watching: bool)
    ensures var t := ClearFrom(s, queue, rest, watching);
      && (t.loop.Clearing? ==> t.loop.watching == watching)
      && (t.loop.Draining? && !s.aborted && !s.options.once && !s.options.keepWatching ==> !watching)
    decreases |rest|
  {
    if rest == [] { ProcessKeepsOptions(s, queue); }
    else if !MayClear(s, queue, rest[0]) { ClearFromKeepsWatching(s, queue, rest[1..], watching); }
  }

  lemma WatchingGrows(keepWatching: bool, seen: seq<Liveness>, a: Liveness)
    ensures WatchingAfter(keepWatching, seen + [a])
            == if a.Idle? then WatchingAfter(keepWatching, seen) else if a.Working? then true else keepWatching
  {
    assert (seen + [a])[..|seen|] == seen;
  }

  /** The outcome of one check, as far as the loop's memory goes. */
  lemma CheckWatches(s: State, a: Liveness, seen: seq<Liveness>)
    requires s.loop.Clearing? && s.loop.mission in s.cells && s.loop.watching == WatchingAfter(s.options.keepWatching, seen)
    ensures var t := CheckIdle(s, a);
      var watching := WatchingAfter(s.options.keepWatching, seen + [a]);
      && (t.loop.Clearing? ==> t.loop.watching == watching)
      && (t.loop.Draining? && !s.aborted && !s.options.once && !s.options.keepWatching ==> !watching)
  {
    var Clearing(queue, m, rest, watching) := s.loop;
    WatchingGrows(s.options.keepWatching, seen, a);
    if a.Idle? { ClearFromKeepsWatching(s.(cells := s.cells[m := Clear(s.cells[m])]), queue, rest, watching); }
    else { ClearFromKeepsWatching(s, queue, rest, if a.Working? then true else s.options.keepWatching); }
  }

  lemma {:induction false} LoopRemembersReads(options: Options, moves: seq<Move>)
    ensures var s := Execute(Initial(options), moves);
      s.loop.Clearing? ==> s.loop.watching == WatchingAfter(options.keepWatching, PassReads(options, moves))
  {
    if moves != [] {
      var earlier := moves[..|moves| - 1];
      var last := moves[|moves| - 1];
      var s := Execute(Initial(options), earlier);
      LoopRemembersReads(options, earlier);
      RunKeepsInv(options, earlier);
      if last.BoardRead? && s.loop.Reading? && !s.aborted {
        ClearFromKeepsWatching(s.(readFailures := 0), Attention(s.options, last.board), s.order, false);
      } else if last.Checked? && s.loop.Clearing? && s.loop.mission in s.cells {
        CheckWatches(s, last.liveness, PassReads(options, earlier));
      }
    }
  }

  /** A forgotten read: some mission was working, and then another could not be read. */
  ghost predicate Forgotten(seen: seq<Liveness>) {
    exists i, j :: 0 <= i < j < |seen| && seen[i].Working? && Unreadable(seen[j])
  }

  lemma {:induction false} UnwatchedWork(seen: seq<Liveness>, i: nat)
    requires !WatchingAfter(false, seen) && i < |seen| && seen[i].Working?
    ensures Forgotten(seen)
  {
    var last := |seen| - 1;
    if seen[last].Idle? {
      UnwatchedWork(seen[..last], i);
      var k, j :| 0 <= k < j < last && seen[..last][k].Working? && Unreadable(seen[..last][j]);
      assert seen[k].Working? && Unreadable(seen[j]);
    } else {
      assert i < last && Unreadable(seen[last]);
    }
  }

  /**
   * When a bounded run ends because a pass left it nothing to watch, no mission was read as working in
   * that pass if and only if no unreadable read followed one that was.
   */
  lemma IdleEndSawNoWork(options: Options, moves: seq<Move>, a: Liveness)
    requires !options.once && !options.keepWatching
    requires var s := Execute(Initial(options), moves);
      s.loop.Clearing? && !s.aborted && Step(s, Checked(a)).loop == Draining(false)
    ensures var seen := PassReads(options, moves + [Checked(a)]);
      (forall i :: 0 <= i < |seen| ==> !seen[i].Working?) <==> !Forgotten(seen)
  {
    assert (moves + [Checked(a)])[..|moves|] == moves;
    RunKeepsInv(options, moves);
    LoopRemembersReads(options, moves);
    var s := Execute(Initial(options), moves);
    CheckWatches(s, a, PassReads(options, moves));
    var seen := PassReads(options, moves + [Checked(a)]);
    assert seen == PassReads(options, moves) + [a];
    if i :| 0 <= i < |seen| && seen[i].Working? { UnwatchedWork(seen, i); }
  }

  const Bounded := Options(2, None, false, false)
  const Waiting := Observation(Active, "f", None, true, false, "p")

  lemma Snoc(options: Options, moves: seq<Move>, move: Move)
    ensures Execute(Initial(options), moves + [move]) == Step(Execute(Initial(options), moves), move)
  {
    assert (moves + [move])[..|moves|] == moves;
  }

  /** An owned mission that was met once, and whose step is over. */
  const Met := NewCell.(seen := {Waiting})

  lemma WaitingIsMet()
    ensures var c := Supervise(NewCell, Waiting, 2);
      c == Met.(steps := [Finishing(Watching)], inFlight := true) && Resume(c, 0, Returned) == Met
  {
    var c := Supervise(NewCell, Waiting, 2);
    assert c.steps == [Finishing(Watching)];
  }

  /** Two owned missions are met and their steps end; then the board shows neither. */
  lemma TwoAreMet() returns (moves: seq<Move>)
    ensures Execute(Initial(Bounded), moves) == State(Bounded, ["x", "y"], map["x" := Met, "y" := Met], Reading, 0, false)
  {
    WaitingIsMet();
    var x, y := Item("x", Waiting), Item("y", Waiting);
    var board := [x, y];
    assert board[..1] == [x] && board[..1][..0] == [];
    assert Attention(Bounded, board[..1]) == [x];
    assert Attention(Bounded, board) == board;
    var s0 := Initial(Bounded);
    var cell := Met.(steps := [Finishing(Watching)], inFlight := true);
    var one := Enqueue(s0, x);
    assert ProcessQueue(s0, board[..1]) == one;
    var two := ProcessQueue(s0, board);
    assert two == Enqueue(one, y);
    assert two.cells == map["x" := cell, "y" := cell] && two.order == ["x", "y"];
    assert CountOpen(s0, board) >= 1 by {
      assert IsOpen(one, y);
    }
    var s1 := Step(s0, BoardRead(board));
    assert s1 == two.(loop := Pausing);
    var s2 := Step(s1, Answer("x", Returned));
    var s3 := Step(s2, Answer("y", Returned));
    assert s3.cells == map["x" := Met, "y" := Met];
    Snoc(Bounded, [], BoardRead(board));
    moves := [] + [BoardRead(board)];
    Snoc(Bounded, moves, Answer("x", Returned));
    moves := moves + [Answer("x", Returned)];
    Snoc(Bounded, moves, Answer("y", Returned));
    moves := moves + [Answer("y", Returned)];
    Snoc(Bounded, moves, Wake);
    moves := moves + [Wake];
  }

  /** One mission is read as working, the next cannot be read: the bounded run ends all the same. */
  lemma UnreadableReadForgetsWork() returns (moves: seq<Move>)
    ensures var s := Execute(Initial(Bounded), moves);
      && s.loop.Clearing? && !s.aborted && Step(s, Checked(Threw)).loop == Draining(false)
      && Forgotten(PassReads(Bounded, moves + [Checked(Threw)]))
  {
    var before := TwoAreMet();
    var s0 := Execute(Initial(Bounded), before);
    assert !OnQueue([], "x") && !OnQueue([], "y");
    var m1 := before + [BoardRead([])];
    var s1 := Step(s0, BoardRead([]));
    Snoc(Bounded, before, BoardRead([]));
    assert MayClear(s0, [], "x") && s0.order[0] == "x" && s0.order[1..] == ["y"];
    assert s1 == s0.(loop := Clearing([], "x", ["y"], false));
    moves := m1 + [Checked(Working)];
    var s2 := Step(s1, Checked(Working));
    Snoc(Bounded, m1, Checked(Working));
    assert MayClear(s1, [], "y") && ["y"][0] == "y" && ["y"][1..] == [];
    assert s2 == ClearFrom(s1, [], ["y"], true);
    assert s2 == s0.(loop := Clearing([], "y", [], true));
    assert Step(s2, Checked(Threw)).loop == Draining(false);
    var all := moves + [Checked(Threw)];
    assert all[..|moves|] == moves && moves[..|m1|] == m1 && m1[..|before|] == before;
    assert PassReads(Bounded, m1) == [];
    assert PassReads(Bounded, moves) == [] + [Working];
    var seen := PassReads(Bounded, all);
    assert seen == [] + [Working] + [Threw];
    assert seen[0].Working? && Unreadable(seen[1]);
  }
}
