/** When a landing run may give up: how often the base has to move under it, and a run that lands all the same. */
module LandingAttempts {
  import opened Prelude
  import opened MergeQueue

  /** How often `p` held the base and found that it had moved. */
  function TimesMoved(trace: seq<Event>, p: Process): nat {
    if trace == [] then 0
    else TimesMoved(trace[..|trace| - 1], p) + if trace[|trace| - 1] == FoundMoved(p) then 1 else 0
  }

  /** An effect that `p` awaited failed, its rebase missed the tip, or another run held its mission. */
  predicate Hindered(trace: seq<Event>, p: Process) {
    EffectFailed(p) in trace || TurnedAway(p) in trace || Rebased(p, false) in trace
  }

  predicate StoppedFor(trace: seq<Event>, p: Process) {
    Stopped(p, ForHuman) in trace || Stopped(p, AlreadyLanded) in trace
  }

  function Publications(trace: seq<Event>, p: Process): nat {
    if trace == [] then 0
    else
      var e := trace[|trace| - 1];
      Publications(trace[..|trace| - 1], p) + if e.Published? && e.process == p then 1 else 0
  }

  predicate LandedOrResumed(trace: seq<Event>, p: Process) { Publications(trace, p) > 0 || Resumed(p) in trace }

  /** The account of a trace is right about these events. */
  predicate Right(d: Deeds, trace: seq<Event>, p: Process) {
    && d.moved == TimesMoved(trace, p) && d.landings == Publications(trace, p)
    && (d.failed <==> Hindered(trace, p)) && (d.stopped <==> StoppedFor(trace, p)) && (d.resumed <==> Resumed(p) in trace)
  }

  lemma RightGrows(d: Deeds, trace: seq<Event>, e: Event, p: Process, m: Mission)
    requires Right(d, trace, p)
    ensures Right(Add(d, e, p, m), trace + [e], p)
  {
    assert (trace + [e])[..|trace|] == trace;
    assert TimesMoved(trace + [e], p) == TimesMoved(trace, p) + if e == FoundMoved(p) then 1 else 0;
    assert Publications(trace + [e], p) == Publications(trace, p) + if e.Published? && e.process == p then 1 else 0;
    if Anonymous(e) || e.process != p { OthersAreRight(d, trace, e, p, m); }
    else if e.Rebased? || e.EffectFailed? || e.TurnedAway? || e.Stopped? { HindrancesAreRight(d, trace, e, p, m); }
  }

  lemma OthersAreRight(d: Deeds, trace: seq<Event>, e: Event, p: Process, m: Mission)
    requires Anonymous(e) || e.process != p
    ensures var f := Add(d, e, p, m); f == d.(dirty := f.dirty, behind := f.behind)
    ensures Hindered(trace + [e], p) <==> Hindered(trace, p)
    ensures StoppedFor(trace + [e], p) <==> StoppedFor(trace, p)
    ensures Resumed(p) in trace + [e] <==> Resumed(p) in trace
  {
  }

  lemma HindrancesAreRight(d: Deeds, trace: seq<Event>, e: Event, p: Process, m: Mission)
    requires !Anonymous(e) && e.process == p && (e.Rebased? || e.EffectFailed? || e.TurnedAway? || e.Stopped?)
    ensures Hindered(trace + [e], p) <==> Hindered(trace, p) || e.EffectFailed? || e.TurnedAway? || (e.Rebased? && !e.onTip)
    ensures StoppedFor(trace + [e], p) <==> StoppedFor(trace, p) || e.Stopped?
    ensures Resumed(p) in trace + [e] <==> Resumed(p) in trace
  {
    assert e.Stopped? ==> e.reason == ForHuman || e.reason == AlreadyLanded;
  }

  /** What the account of a trace says, on the events themselves. */
  lemma {:induction false} DeedsMean(trace: seq<Event>, p: Process, m: Mission)
    ensures Right(DeedsOf(trace, p, m), trace, p)
  {
    if trace != [] {
      var earlier := trace[..|trace| - 1];
      DeedsMean(earlier, p, m);
      RightGrows(DeedsOf(earlier, p, m), earlier, trace[|trace| - 1], p, m);
      assert trace == earlier + [trace[|trace| - 1]];
    }
  }

  /**
   * In every run of the world: an integration that is not a dry run, that nothing failed for and nobody
   * stopped, ends without landing exactly if it found the base moved three times, and it never looks a
   * fourth time.
   */
  lemma GivesUpExactlyAfterThreeMoves(w: World, moves: seq<Move>, p: Process)
    requires Initial(w)
    requires var v := Execute(w, moves);
      && p in v.runs && v.runs[p].phase.Ended? && !v.runs[p].dryRun
      && !Hindered(v.trace, p) && !StoppedFor(v.trace, p)
    ensures var v := Execute(w, moves);
      && (!LandedOrResumed(v.trace, p) <==> TimesMoved(v.trace, p) == 3)
      && TimesMoved(v.trace, p) <= 3
  {
    RunsKeepInv(w, moves);
    var v := Execute(w, moves);
    assert RunInv(v, p);
    DeedsMean(v.trace, p, v.runs[p].mission);
  }

  // ---------------------------------------------------------------- who may stop a run

  /**
   * A run is stopped exactly before its preparation is over, for a human unless it is a dry run, or
   * because its mission had landed already; and for a human instead of a red gate. A landing that is
   * found on the base when it is to be published is resumed.
   */
  lemma StopsExactly(w: World, p: Process, reason: Reason)
    requires p in w.runs && w.runs[p].mission in w.branches
    ensures var r := w.runs[p];
      var v := Step(w, Resume(p, Settled(reason)));
      var stops := (r.phase.Preparing? && (reason.AlreadyLanded? || !r.dryRun)) || (r.phase.Gating? && reason.ForHuman? && !r.dryRun);
      && (stops ==> v.trace == w.trace + [Stopped(p, reason)] && v.runs[p].phase == Ending(0))
      && (r.phase.Publishing? && reason.AlreadyLanded? ==> v.trace == w.trace + [Resumed(p)] && v.runs[p].phase.Closing?)
      && (!stops && !(r.phase.Publishing? && reason.AlreadyLanded?) ==> v == w)
  {
  }

  // ---------------------------------------------------------------- a run that lands at its third attempt

  lemma {:induction false} ExecuteJoins(w: World, first: seq<Move>, second: seq<Move>)
    ensures Execute(w, first + second) == Execute(Execute(w, first), second)
    decreases |second|
  {
    if second == [] {
      assert first + second == first;
    } else {
      var rest := second[..|second| - 1];
      ExecuteJoins(w, first, rest);
      assert (first + second)[..|first + second| - 1] == first + rest;
    }
  }

  lemma ExecuteThree(v: World, a: Move, b: Move, c: Move)
    ensures Execute(v, [a, b, c]) == Step(Step(Step(v, a), b), c)
  {
    ExecuteSnoc(v, [], a);
    ExecuteSnoc(v, [a], b);
    ExecuteSnoc(v, [a, b], c);
    assert [] + [a] == [a] && [a] + [b] == [a, b] && [a, b] + [c] == [a, b, c];
  }

  /** Run 0 is the only one. */
  predicate Sole(v: World, m: Mission, phase: Phase) {
    && v.runs == map[0 := Run(m, false, phase)] && v.claims == map[m := 0] && m in v.branches
  }

  function To(v: World, m: Mission, phase: Phase): World { v.(runs := map[0 := Run(m, false, phase)]) }

  function Holding(v: World): Option<Process> { if v.exclusive then Some(0) else None }

  lemma FindsBaseMoved(v: World, m: Mission, i: nat, c: Candidate)
    requires Sole(v, m, Claiming(i)) && v.holder.None? && v.branches[m].base != v.tip
    ensures Step(v, Resume(0, Ok(c)))
            == To(v, m, Releasing(i, BaseMoved)).(holder := Holding(v), trace := v.trace + [FoundMoved(0)])
  {
    assert v.runs[0 := Run(m, false, Releasing(i, BaseMoved))] == map[0 := Run(m, false, Releasing(i, BaseMoved))];
  }

  lemma GivesBaseBack(v: World, m: Mission, i: nat, c: Candidate)
    requires Sole(v, m, Releasing(i, BaseMoved)) && v.holder == Holding(v)
    ensures Step(v, Resume(0, Ok(c))) == To(v, m, Rebasing(Attempt(i))).(holder := None)
  {
    assert v.runs[0 := Run(m, false, Rebasing(Attempt(i)))] == map[0 := Run(m, false, Rebasing(Attempt(i)))];
  }

  lemma Rebases(v: World, m: Mission, i: nat, c: Candidate)
    requires Sole(v, m, Rebasing(Attempt(i))) && c == Candidate(v.tip, v.commits) && v.branches[m].base <= v.tip
    ensures Step(v, Resume(0, Ok(c)))
            == To(v, m, Gating(Attempt(i), c)).(branches := v.branches[m := c], commits := v.commits + 1, trace := v.trace + [Rebased(0, true)])
  {
    assert v.runs[0 := Run(m, false, Gating(Attempt(i), c))] == map[0 := Run(m, false, Gating(Attempt(i), c))];
  }

  lemma GatesAgain(v: World, m: Mission, i: nat, tree: Candidate, c: Candidate)
    requires Sole(v, m, Gating(Attempt(i), tree))
    ensures Step(v, Resume(0, Ok(c))) == To(v, m, Recovering(i)).(trace := v.trace + [Gated(0, tree, false)])
  {
    assert v.runs[0 := Run(m, false, Recovering(i))] == map[0 := Run(m, false, Recovering(i))];
  }

  /** The first two attempts are followed by another. */
  lemma TriesAgain(v: World, m: Mission, i: nat, c: Candidate)
    requires Sole(v, m, Recovering(i)) && i < 2
    ensures Step(v, Resume(0, Ok(c))) == To(v, m, Claiming(i + 1))
  {
    assert v.runs[0 := Run(m, false, Claiming(i + 1))] == map[0 := Run(m, false, Claiming(i + 1))];
  }

  /** The only run, about to claim the base with a gated branch that is on the tip. */
  predicate Alone(v: World, m: Mission, i: nat) {
    Sole(v, m, Claiming(i)) && v.holder.None? && v.branches[m].base == v.tip
  }

  /** The base moves before the claim, the branch is found behind it, and the base is given back. */
  lemma FindsMoved(v: World, m: Mission, i: nat, c: Candidate)
    requires Alone(v, m, i)
    ensures Execute(v, [AdvanceBase, Resume(0, Ok(c)), Resume(0, Ok(c))])
            == To(v, m, Rebasing(Attempt(i))).(tip := v.tip + 1, trace := v.trace + [BaseAdvanced] + [FoundMoved(0)])
  {
    ExecuteThree(v, AdvanceBase, Resume(0, Ok(c)), Resume(0, Ok(c)));
    var v1 := Step(v, AdvanceBase);
    FindsBaseMoved(v1, m, i, c);
    GivesBaseBack(Step(v1, Resume(0, Ok(c))), m, i, c);
  }

  /** The branch is rebased and gated again, and the run goes for the next attempt. */
  lemma Revalidates(v: World, m: Mission, i: nat, c: Candidate)
    requires Sole(v, m, Rebasing(Attempt(i))) && v.branches[m].base <= v.tip && i < 2 && c == Candidate(v.tip, v.commits)
    ensures Execute(v, [Resume(0, Ok(c)), Resume(0, Ok(c)), Resume(0, Ok(c))])
        == To(v, m, Claiming(i + 1)).(branches := v.branches[m := c], commits := v.commits + 1,
                                      trace := v.trace + [Rebased(0, true)] + [Gated(0, c, false)])
  {
    var go := Resume(0, Ok(c));
    ExecuteThree(v, go, go, go);
    Rebases(v, m, i, c);
    GatesAgain(Step(v, go), m, i, c, c);
    TriesAgain(Step(Step(v, go), go), m, i, c);
  }

  /** One attempt during which the base moved. */
  lemma OneMovedAttempt(v: World, m: Mission, i: nat) returns (moves: seq<Move>)
    requires Alone(v, m, i) && i < 2
    ensures var c := Candidate(v.tip + 1, v.commits);
      && Alone(Execute(v, moves), m, i + 1)
      && Execute(v, moves)
         == To(v, m, Claiming(i + 1)).(branches := v.branches[m := c], commits := v.commits + 1, tip := v.tip + 1,
               trace := v.trace + [BaseAdvanced] + [FoundMoved(0)] + [Rebased(0, true)] + [Gated(0, c, false)])
  {
    var c := Candidate(v.tip + 1, v.commits);
    var go := Resume(0, Ok(c));
    var first := [AdvanceBase, Resume(0, Ok(c)), Resume(0, Ok(c))];
    FindsMoved(v, m, i, c);
    Revalidates(Execute(v, first), m, i, c);
    ExecuteJoins(v, first, [go, go, go]);
    moves := first + [go, go, go];
  }

  lemma ChecksBase(v: World, m: Mission, i: nat, c: Candidate)
    requires Alone(v, m, i)
    ensures Step(v, Resume(0, Ok(c))) == To(v, m, Publishing(i)).(holder := Holding(v), trace := v.trace + [Checked(0)])
  {
    assert v.runs[0 := Run(m, false, Publishing(i))] == map[0 := Run(m, false, Publishing(i))];
  }

  lemma PublishesSquash(v: World, m: Mission, i: nat, c: Candidate)
    requires Sole(v, m, Publishing(i))
    ensures Step(v, Resume(0, Ok(c)))
            == To(v, m, Closing(i)).(tip := v.tip + 1, trace := v.trace + [Published(0, m, v.branches[m], false)])
  {
    assert v.runs[0 := Run(m, false, Closing(i))] == map[0 := Run(m, false, Closing(i))];
  }

  lemma Closes(v: World, m: Mission, i: nat, c: Candidate)
    requires Sole(v, m, Closing(i))
    ensures Step(v, Resume(0, Ok(c))) == To(v, m, Releasing(i, Landed)).(trace := v.trace + [Closed(0)])
  {
    assert v.runs[0 := Run(m, false, Releasing(i, Landed))] == map[0 := Run(m, false, Releasing(i, Landed))];
  }

  lemma Releases(v: World, m: Mission, i: nat, c: Candidate)
    requires Sole(v, m, Releasing(i, Landed)) && v.holder == Holding(v)
    ensures Step(v, Resume(0, Ok(c))) == To(v, m, Ending(0)).(holder := None)
  {
    assert v.runs[0 := Run(m, false, Ending(0))] == map[0 := Run(m, false, Ending(0))];
  }

  lemma Ends(v: World, m: Mission, c: Candidate)
    requires Sole(v, m, Ending(0))
    ensures Step(v, Resume(0, Ok(c))) == To(v, m, Ended(0)).(claims := map[])
  {
    assert v.runs[0 := Run(m, false, Ended(0))] == map[0 := Run(m, false, Ended(0))];
    assert v.claims - {m} == map[];
  }

  lemma Publishes(v: World, m: Mission, i: nat, c: Candidate)
    requires Alone(v, m, i)
    ensures var u := Execute(v, [Resume(0, Ok(c)), Resume(0, Ok(c)), Resume(0, Ok(c))]);
      u == To(v, m, Releasing(i, Landed)).(tip := v.tip + 1, holder := Holding(v),
             trace := v.trace + [Checked(0)] + [Published(0, m, v.branches[m], false)] + [Closed(0)])
  {
    var go := Resume(0, Ok(c));
    ExecuteThree(v, go, go, go);
    ChecksBase(v, m, i, c);
    PublishesSquash(Step(v, go), m, i, c);
    Closes(Step(Step(v, go), go), m, i, c);
  }

  lemma ReleasesAndEnds(v: World, m: Mission, i: nat, c: Candidate)
    requires Sole(v, m, Releasing(i, Landed)) && v.holder == Holding(v)
    ensures Execute(v, [Resume(0, Ok(c)), Resume(0, Ok(c))]) == To(v, m, Ended(0)).(holder := None, claims := map[])
  {
    var go := Resume(0, Ok(c));
    ExecuteSnoc(v, [], go);
    ExecuteSnoc(v, [go], go);
    assert [] + [go] == [go] && [go] + [go] == [go, go];
    Releases(v, m, i, c);
    Ends(Step(v, go), m, c);
  }

  /** A quiet base: the run checks, publishes, closes and exits 0. */
  lemma QuietBaseLands(v: World, m: Mission, i: nat) returns (moves: seq<Move>)
    requires Alone(v, m, i)
    ensures var u := Execute(v, moves);
      && u.runs == map[0 := Run(m, false, Ended(0))] && u.tip == v.tip + 1
      && u.trace == v.trace + [Checked(0)] + [Published(0, m, v.branches[m], false)] + [Closed(0)]
  {
    var go := Resume(0, Ok(v.branches[m]));
    Publishes(v, m, i, v.branches[m]);
    ReleasesAndEnds(Execute(v, [go, go, go]), m, i, v.branches[m]);
    ExecuteJoins(v, [go, go, go], [go, go]);
    moves := [go, go, go] + [go, go];
  }

  lemma ReachesFirstAttempt(w: World, m: Mission) returns (moves: seq<Move>)
    requires Initial(w) && m in w.branches
    ensures var v := Execute(w, moves);
      Alone(v, m, 0) && v.tip == w.tip && v.commits == w.commits + 1 && TimesMoved(v.trace, 0) == 0
  {
    moves := LoneRunReachesLanding(w, m);
    NotMovedYet(Candidate(w.tip, w.commits));
  }

  lemma MovedAttemptCounts(v: World, m: Mission, i: nat) returns (moves: seq<Move>)
    requires Alone(v, m, i) && i < 2
    ensures var u := Execute(v, moves);
      && Alone(u, m, i + 1) && u.tip == v.tip + 1 && u.commits == v.commits + 1
      && u.branches[m] == Candidate(v.tip + 1, v.commits) && TimesMoved(u.trace, 0) == TimesMoved(v.trace, 0) + 1
  {
    moves := OneMovedAttempt(v, m, i);
    MovedOnce(v.trace, Candidate(v.tip + 1, v.commits));
  }

  lemma MovedAttemptFollows(w: World, first: seq<Move>, m: Mission, i: nat) returns (moves: seq<Move>)
    requires Alone(Execute(w, first), m, i) && i < 2
    ensures var v, u := Execute(w, first), Execute(w, moves);
      && Alone(u, m, i + 1) && u.tip == v.tip + 1 && u.commits == v.commits + 1
      && u.branches[m] == Candidate(v.tip + 1, v.commits) && TimesMoved(u.trace, 0) == TimesMoved(v.trace, 0) + 1
  {
    var more := MovedAttemptCounts(Execute(w, first), m, i);
    ExecuteJoins(w, first, more);
    moves := first + more;
  }

  lemma TwoMovedAttempts(w: World, m: Mission) returns (moves: seq<Move>)
    requires Initial(w) && m in w.branches
    ensures var v := Execute(w, moves);
      && Alone(v, m, 2) && v.tip == w.tip + 2 && v.branches[m] == Candidate(w.tip + 2, w.commits + 2)
      && TimesMoved(v.trace, 0) == 2
  {
    moves := ReachesFirstAttempt(w, m);
    moves := MovedAttemptFollows(w, moves, m, 0);
    moves := MovedAttemptFollows(w, moves, m, 1);
  }

  /** Twice the base moves before the claim; the third attempt publishes on the tip and the run exits 0. */
  lemma ThirdAttemptLands(w: World, m: Mission) returns (moves: seq<Move>)
    requires Initial(w) && m in w.branches
    ensures var v := Execute(w, moves);
      && v.runs == map[0 := Run(m, false, Ended(0))] && v.tip == w.tip + 3
      && TimesMoved(v.trace, 0) == 2
      && Published(0, m, Candidate(w.tip + 2, w.commits + 2), false) in v.trace
  {
    moves := TwoMovedAttempts(w, m);
    var v := Execute(w, moves);
    var d := QuietBaseLands(v, m, 2);
    ExecuteJoins(w, moves, d);
    LandedQuietly(v.trace, m, v.branches[m]);
    moves := moves + d;
  }

  lemma LandedQuietly(trace: seq<Event>, m: Mission, c: Candidate)
    ensures var all := trace + [Checked(0)] + [Published(0, m, c, false)] + [Closed(0)];
      TimesMoved(all, 0) == TimesMoved(trace, 0) && Published(0, m, c, false) in all
  {
    MovedGrows(trace, Checked(0));
    MovedGrows(trace + [Checked(0)], Published(0, m, c, false));
    MovedGrows(trace + [Checked(0)] + [Published(0, m, c, false)], Closed(0));
  }

  lemma MovedGrows(trace: seq<Event>, e: Event)
    ensures TimesMoved(trace + [e], 0) == TimesMoved(trace, 0) + if e == FoundMoved(0) then 1 else 0
  {
    assert (trace + [e])[..|trace|] == trace;
  }

  lemma MovedOnce(trace: seq<Event>, c: Candidate)
    ensures TimesMoved(trace + [BaseAdvanced] + [FoundMoved(0)] + [Rebased(0, true)] + [Gated(0, c, false)], 0) == TimesMoved(trace, 0) + 1
  {
    MovedGrows(trace, BaseAdvanced);
    MovedGrows(trace + [BaseAdvanced], FoundMoved(0));
    MovedGrows(trace + [BaseAdvanced] + [FoundMoved(0)], Rebased(0, true));
    MovedGrows(trace + [BaseAdvanced] + [FoundMoved(0)] + [Rebased(0, true)], Gated(0, c, false));
  }

  lemma NotMovedYet(c: Candidate)
    ensures TimesMoved([Rebased(0, true), Gated(0, c, false)], 0) == 0
  {
    MovedGrows([], Rebased(0, true));
    MovedGrows([Rebased(0, true)], Gated(0, c, false));
    assert [] + [Rebased(0, true)] == [Rebased(0, true)];
    assert [Rebased(0, true)] + [Gated(0, c, false)] == [Rebased(0, true), Gated(0, c, false)];
  }
}
