/** The decision provider behind operator judgment: it reserves tokens before it sends a request. */
module OperatorDecision {
  import opened Prelude
  import opened OperatorJudgment

  const INPUT_LIMIT: real := 8192.0
  const CONTEXT_LIMIT: real := 32768.0

  /** What a request may cost; a figure that is not finite is no figure. */
  datatype Budget = Budget(context: Option<real>, input: Option<real>)

  predicate Affordable(reserved: real, b: Budget) {
    && b.context.Some? && b.context.value > 0.0
    && b.input.Some? && 0.0 <= b.input.value <= INPUT_LIMIT
    && reserved + b.context.value <= CONTEXT_LIMIT
  }

  /** The requests that are sent when budgets arrive in this order, from however many calls. */
  function Sent(budgets: seq<Budget>): seq<Budget> {
    if budgets == [] then []
    else
      var earlier := Sent(budgets[..|budgets| - 1]);
      var b := budgets[|budgets| - 1];
      if Affordable(Total(earlier), b) then earlier + [b] else earlier
  }

  function Total(sent: seq<Budget>): real {
    if sent == [] then 0.0
    else
      var b := sent[|sent| - 1];
      Total(sent[..|sent| - 1]) + if b.context.Some? then b.context.value else 0.0
  }

  /** The contexts of everything ever sent fit the limit, and each request's input fits its own. */
  lemma {:induction false} TokensAreBounded(budgets: seq<Budget>)
    ensures 0.0 <= Total(Sent(budgets)) <= 32768.0
    ensures forall i :: 0 <= i < |Sent(budgets)| ==>
      Sent(budgets)[i].context.Some? && Sent(budgets)[i].context.value > 0.0
      && Sent(budgets)[i].input.Some? && 0.0 <= Sent(budgets)[i].input.value <= 8192.0
  {
    if budgets != [] {
      var earlier := budgets[..|budgets| - 1];
      TokensAreBounded(earlier);
      TotalGrows(Sent(earlier), budgets[|budgets| - 1]);
    }
  }

  lemma TotalGrows(sent: seq<Budget>, b: Budget)
    ensures Total(sent + [b]) == Total(sent) + if b.context.Some? then b.context.value else 0.0
  {
    assert (sent + [b])[..|sent|] == sent;
  }

  /** A request that is refused costs nothing, and is refused only for its own figures or the limit. */
  lemma RefusedExactlyWhenUnaffordable(budgets: seq<Budget>, b: Budget)
    ensures Sent(budgets + [b]) == Sent(budgets)
            <==> b.context.None? || b.context.value <= 0.0 || b.input.None? || b.input.value < 0.0
                 || b.input.value > 8192.0 || Total(Sent(budgets)) + b.context.value > 32768.0
  {
    assert (budgets + [b])[..|budgets|] == budgets;
    assert Sent(budgets + [b]) == if Affordable(Total(Sent(budgets)), b) then Sent(budgets) + [b] else Sent(budgets);
    assert |Sent(budgets) + [b]| != |Sent(budgets)|;
  }

  predicate WellFormed(b: Budget) {
    b.context.Some? && b.context.value > 0.0 && b.input.Some? && 0.0 <= b.input.value <= 8192.0
  }

  lemma {:induction false} TotalNeverFalls(budgets: seq<Budget>, more: seq<Budget>)
    ensures Total(Sent(budgets)) <= Total(Sent(budgets + more))
    ensures Sent(budgets) <= Sent(budgets + more)
  {
    if more == [] {
      assert budgets + more == budgets;
    } else {
      var rest := more[..|more| - 1];
      TotalNeverFalls(budgets, rest);
      assert (budgets + more)[..|budgets + more| - 1] == budgets + rest;
      TotalGrows(Sent(budgets + rest), more[|more| - 1]);
    }
  }

  /**
   * Tokens are never given back: a request that was refused is refused for good, in every later history,
   * and among well-formed requests exactly those larger than what is left are.
   */
  lemma RefusalIsFinal(budgets: seq<Budget>, b: Budget, more: seq<Budget>)
    requires Sent(budgets + [b]) == Sent(budgets)
    ensures Sent(budgets + [b] + more + [b]) == Sent(budgets + [b] + more)
    ensures WellFormed(b) ==> b.context.value > 32768.0 - Total(Sent(budgets + [b] + more))
  {
    RefusedExactlyWhenUnaffordable(budgets, b);
    RefusedExactlyWhenUnaffordable(budgets + [b] + more, b);
    TotalNeverFalls(budgets + [b], more);
  }

  lemma AllowedExactly(s: Snapshot, action: Action)
    ensures action in AllowedActions(s) <==> (action.Continue? ==> !s.working && (s.lane.Active? || s.lane.Review?))
  {
    assert action.Continue? || action.Wait? || action.RequestEvidence? || action.Escalate?;
  }

  class DecisionOperatorJudgment {
    var reservedTokens: real
    ghost var budgets: seq<Budget>

    constructor ()
      ensures Valid() && reservedTokens == 0.0 && budgets == []
    {
      reservedTokens, budgets := 0.0, [];
    }

    ghost predicate Valid()
      reads this
    {
      reservedTokens == Total(Sent(budgets))
    }

    /** Other calls reserve while this one waits for the provider to report that it is available. */
    method Await()
      requires Valid()
      modifies this
      ensures Valid() && old(budgets) <= budgets
    {
      var calls: nat := *;
      while calls > 0
        invariant Valid() && old(budgets) <= budgets
      {
        var b: Budget := *;
        var _ := Reserve(b);
        calls := calls - 1;
      }
    }

    /** Reserve the full context allowance; `sent` tells whether the request goes out. */
    method Reserve(b: Budget) returns (sent: bool)
      requires Valid()
      modifies this
      ensures Valid() && budgets == old(budgets) + [b]
      ensures sent <==> Affordable(old(reservedTokens), b)
      ensures reservedTokens == if sent then old(reservedTokens) + b.context.value else old(reservedTokens)
    {
      assert (budgets + [b])[..|budgets|] == budgets;
      TotalGrows(Sent(budgets), b);
      budgets := budgets + [b];
      if b.context.None? || b.context.value <= 0.0 || b.input.None? || b.input.value < 0.0
         || b.input.value > INPUT_LIMIT || reservedTokens + b.context.value > CONTEXT_LIMIT {
        return false;
      }
      reservedTokens := reservedTokens + b.context.value;
      sent := true;
    }

    /**
     * Ask the provider; `turn` is this request's place among all that were ever asked for. There is a
     * proposal exactly if the provider is available, the request can be afforded when its turn comes, and
     * the answer selects an allowed action and assesses the controls.
     */
    method Propose(e: Envelope, available: bool, b: Budget, selected: Option<Action>, controls: bool)
      returns (p: Option<Proposal>, ghost turn: nat)
      requires Valid()
      modifies this
      ensures Valid() && old(budgets) <= budgets
      ensures !available ==> p.None?
      ensures available ==> |old(budgets)| <= turn < |budgets| && budgets[turn] == b
      ensures available ==>
        var asks := b.context.Some? && b.context.value > 0.0 && b.input.Some? && 0.0 <= b.input.value <= 8192.0
          && Total(Sent(budgets[..turn])) + b.context.value <= 32768.0;
        (p.Some? <==> asks && controls && selected.Some?
                      && (selected.value.Continue? ==> !e.snapshot.working && (e.snapshot.lane.Active? || e.snapshot.lane.Review?)))
      ensures p.Some? ==> p.value.action == selected.value && Suits(p.value, e.snapshot)
      ensures p.Some? ==> forall now | e.observedAt <= now <= e.observedAt + 30000 :: Admits(p.value, e, e.snapshot, now)
    {
      turn := 0;
      Await();
      if !available { return None, turn; }
      turn := |budgets|;
      var sent := Reserve(b);
      ghost var asked := budgets;
      assert asked[..turn] == budgets[..turn] && asked[turn] == b;
      if !sent { return None, turn; }
      Await();
      assert budgets[..turn] == asked[..turn] && budgets[turn] == b;
      if !controls { return None, turn; }
      p := Selected(e, selected);
      if p.Some? {
        forall now | e.observedAt <= now <= e.observedAt + 30000 ensures Admits(p.value, e, e.snapshot, now) {
          SuitableIsAdmitted(p.value, e.snapshot, e.observedAt, now);
        }
      }
    }

    /** The proposal made from an answer, unless the answer selects an action that is not allowed. */
    function Selected(e: Envelope, selected: Option<Action>): (p: Option<Proposal>)
      ensures p.Some? <==>
        selected.Some? && (selected.value.Continue? ==> !e.snapshot.working && (e.snapshot.lane.Active? || e.snapshot.lane.Review?))
      ensures p.Some? ==> p.value.action == selected.value && Suits(p.value, e.snapshot)
      ensures p.Some? ==> forall i :: 0 <= i < |e.snapshot.evidence| ==> e.snapshot.evidence[i].ref in p.value.refs
    {
      var s := e.snapshot;
      match selected
      case None => None
      case Some(action) =>
        AllowedExactly(s, action);
        if action in AllowedActions(s) then
          var refs := seq(|s.evidence|, i requires 0 <= i < |s.evidence| => s.evidence[i].ref);
          assert forall i :: 0 <= i < |s.evidence| ==> s.evidence[i].ref == refs[i] && s.evidence[i] in s.evidence;
          Some(Proposal(s.mission, s.version, s.operation, s.progress, refs, action))
        else None
    }
  }
}
