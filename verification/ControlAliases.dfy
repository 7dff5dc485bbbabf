/**
 * Which names of a file stand for an imported control operation, and which brace blocks enclose a call.
 */
module ControlAliases {
  import opened Prelude

  type Name = string

  /** A name bound from up to two sources: a direct binding and an injected default. */
  datatype Binding = Binding(name: Name, direct: Option<Name>, fallback: Option<Name>)

  predicate From(b: Binding, names: set<Name>) {
    (b.direct.Some? && b.direct.value in names) || (b.fallback.Some? && b.fallback.value in names)
  }

  ghost predicate Closed(names: set<Name>, bindings: seq<Binding>) {
    forall i :: 0 <= i < |bindings| ==> (From(bindings[i], names) ==> bindings[i].name in names)
  }

  /** A chain of bindings that leads from the imported name to another. */
  ghost predicate Path(path: seq<Name>, bindings: seq<Binding>, imported: Name) {
    && path != [] && path[0] == imported
    && forall k :: 1 <= k < |path| ==> Binds(bindings, path[k - 1], path[k])
  }

  ghost predicate Binds(bindings: seq<Binding>, source: Name, name: Name) {
    exists i :: 0 <= i < |bindings| && bindings[i].name == name
      && (bindings[i].direct == Some(source) || bindings[i].fallback == Some(source))
  }

  ghost predicate Reaches(bindings: seq<Binding>, imported: Name, name: Name) {
    exists path :: Path(path, bindings, imported) && path[|path| - 1] == name
  }

  function Sources(bindings: seq<Binding>): set<Name> { set i | 0 <= i < |bindings| :: bindings[i].name }

  lemma Extend(bindings: seq<Binding>, imported: Name, source: Name, i: nat)
    requires Reaches(bindings, imported, source) && i < |bindings|
    requires bindings[i].direct == Some(source) || bindings[i].fallback == Some(source)
    ensures Reaches(bindings, imported, bindings[i].name)
  {
    var path :| Path(path, bindings, imported) && path[|path| - 1] == source;
    var longer := path + [bindings[i].name];
    assert Binds(bindings, source, bindings[i].name);
    assert Path(longer, bindings, imported);
  }

  lemma ReachesItself(bindings: seq<Binding>, imported: Name)
    ensures Reaches(bindings, imported, imported)
  {
    assert Path([imported], bindings, imported);
  }

  /** A closed set that holds the imported name holds everything a chain reaches. */
  lemma {:induction false} ClosedHoldsPath(names: set<Name>, bindings: seq<Binding>, imported: Name, path: seq<Name>)
    requires Closed(names, bindings) && imported in names && Path(path, bindings, imported)
    ensures path[|path| - 1] in names
  {
    if |path| > 1 {
      var shorter := path[..|path| - 1];
      assert Path(shorter, bindings, imported) by {
        forall k | 1 <= k < |shorter| ensures Binds(bindings, shorter[k - 1], shorter[k]) {
          assert Binds(bindings, path[k - 1], path[k]);
        }
      }
      ClosedHoldsPath(names, bindings, imported, shorter);
      assert Binds(bindings, path[|path| - 2], path[|path| - 1]);
    }
  }

  lemma ClosedHoldsReachable(names: set<Name>, bindings: seq<Binding>, imported: Name)
    requires Closed(names, bindings) && imported in names
    ensures forall n :: Reaches(bindings, imported, n) ==> n in names
  {
    forall n | Reaches(bindings, imported, n) ensures n in names {
      var path :| Path(path, bindings, imported) && path[|path| - 1] == n;
      ClosedHoldsPath(names, bindings, imported, path);
    }
  }

  /** The aliases are exactly the names a chain of bindings reaches. */
  ghost predicate Exact(names: set<Name>, bindings: seq<Binding>, imported: Name) {
    forall n :: n in names <==> Reaches(bindings, imported, n)
  }

  /** Grow the set of names until a whole round over the bindings adds nothing. */
  method AliasesOf(bindings: seq<Binding>, imported: Name) returns (names: set<Name>)
    ensures Exact(names, bindings, imported)
    ensures imported in names && Closed(names, bindings)
  {
    names := {imported};
    ReachesItself(bindings, imported);
    var changed := true;
    while changed
      invariant imported in names && names <= Sources(bindings) + {imported}
      invariant forall n <- names :: Reaches(bindings, imported, n)
      invariant !changed ==> Closed(names, bindings)
      decreases |Sources(bindings) + {imported} - names|, if changed then 1 else 0
    {
      ghost var before := names;
      changed, names := Round(bindings, imported, names);
      if changed { Shrinks(Sources(bindings) + {imported}, before, names); }
    }
    ClosedHoldsReachable(names, bindings, imported);
  }

  /** One round over the bindings in their order. */
  method Round(bindings: seq<Binding>, ghost imported: Name, start: set<Name>) returns (changed: bool, names: set<Name>)
    requires start <= Sources(bindings) + {imported} && forall n <- start :: Reaches(bindings, imported, n)
    ensures start <= names <= Sources(bindings) + {imported}
    ensures forall n <- names :: Reaches(bindings, imported, n)
    ensures changed <==> names != start
    ensures !changed ==> Closed(names, bindings)
  {
    names, changed := start, false;
    for i := 0 to |bindings|
      invariant start <= names <= Sources(bindings) + {imported}
      invariant forall n <- names :: Reaches(bindings, imported, n)
      invariant changed <==> names != start
      invariant !changed ==> forall k :: 0 <= k < i ==> (From(bindings[k], names) ==> bindings[k].name in names)
    {
      var b := bindings[i];
      if b.name !in names && From(b, names) {
        Extend(bindings, imported, if b.direct.Some? && b.direct.value in names then b.direct.value else b.fallback.value, i);
        names := names + {b.name};
        changed := true;
      }
    }
  }

  lemma Shrinks(all: set<Name>, before: set<Name>, after: set<Name>)
    requires before <= after <= all && before != after
    ensures |all - after| < |all - before|
  {
    var n :| n in after && n !in before;
    assert all - after <= all - before - {n};
    SubsetSize(all - after, all - before - {n});
  }

  lemma SubsetSize<T>(a: set<T>, b: set<T>)
    requires a <= b
    ensures |a| <= |b|
  {
    assert b == a + (b - a);
  }

  /** The exact aliases are the least closed set that holds the imported name. */
  lemma ExactIsLeastClosed(names: set<Name>, bindings: seq<Binding>, imported: Name)
    ensures Exact(names, bindings, imported) <==>
      && imported in names && Closed(names, bindings)
      && forall other :: imported in other && Closed(other, bindings) ==> names <= other
  {
    if Exact(names, bindings, imported) {
      ExactIsClosed(names, bindings, imported);
      forall other | imported in other && Closed(other, bindings) ensures names <= other {
        ClosedHoldsReachable(other, bindings, imported);
      }
    }
    if imported in names && Closed(names, bindings) && (forall other :: imported in other && Closed(other, bindings) ==> names <= other) {
      ClosedHoldsReachable(names, bindings, imported);
      var least := set n | n in names && Reaches(bindings, imported, n);
      ReachesItself(bindings, imported);
      ReachableIsClosed(least, names, bindings, imported);
      assert names <= least;
    }
  }

  lemma ExactIsClosed(names: set<Name>, bindings: seq<Binding>, imported: Name)
    requires Exact(names, bindings, imported)
    ensures imported in names && Closed(names, bindings)
  {
    ReachesItself(bindings, imported);
    ReachableIsClosed(names, names, bindings, imported);
  }

  lemma ReachableIsClosed(least: set<Name>, names: set<Name>, bindings: seq<Binding>, imported: Name)
    requires forall n :: n in least <==> n in names && Reaches(bindings, imported, n)
    requires forall n :: Reaches(bindings, imported, n) ==> n in names
    ensures Closed(least, bindings)
  {
    forall i | 0 <= i < |bindings| && From(bindings[i], least) ensures bindings[i].name in least {
      var b := bindings[i];
      Extend(bindings, imported, if b.direct.Some? && b.direct.value in least then b.direct.value else b.fallback.value, i);
    }
  }

  /** Two files with the same bindings in any order and number have the same aliases. */
  lemma OrderDoesNotMatter(bindings: seq<Binding>, others: seq<Binding>, imported: Name, names: set<Name>, others_names: set<Name>)
    requires forall b :: b in bindings <==> b in others
    requires Exact(names, bindings, imported) && Exact(others_names, others, imported)
    ensures names == others_names
  {
    ExactIsClosed(names, bindings, imported);
    ExactIsClosed(others_names, others, imported);
    forall i | 0 <= i < |others| && From(others[i], names) ensures others[i].name in names { assert others[i] in bindings; }
    forall i | 0 <= i < |bindings| && From(bindings[i], others_names) ensures bindings[i].name in others_names { assert bindings[i] in others; }
    ClosedHoldsReachable(names, others, imported);
    ClosedHoldsReachable(others_names, bindings, imported);
  }

  // ---------------------------------------------------------------- enclosing blocks

  datatype Brace = Open | Close

  /** The stack after one more brace at position `at`. */
  function Entered(stack: seq<nat>, at: nat, b: Brace): seq<nat> {
    match b
    case Open => stack + [at]
    case Close => if stack == [] then [] else stack[..|stack| - 1]
  }

  /** The stack of opening braces that are not closed yet; a stray closing brace is ignored. */
  function Enclosing(braces: seq<Brace>): seq<nat> {
    if braces == [] then []
    else
      Entered(Enclosing(braces[..|braces| - 1]), |braces| - 1, braces[|braces| - 1])
  }

  method EnclosingBlocks(braces: seq<Brace>) returns (stack: seq<nat>)
    ensures stack == Enclosing(braces)
  {
    stack := [];
    for i := 0 to |braces|
      invariant stack == Enclosing(braces[..i])
    {
      assert braces[..i + 1][..i] == braces[..i];
      match braces[i] {
        case Open => stack := stack + [i];
        case Close => if stack != [] { stack := stack[..|stack| - 1]; }
      }
    }
    assert braces[..|braces|] == braces;
  }

  function Depth(braces: seq<Brace>): int {
    if braces == [] then 0
    else Depth(braces[..|braces| - 1]) + if braces[|braces| - 1].Open? then 1 else -1
  }

  /** The brace at `i` opens a block that nothing behind it closes. */
  ghost predicate Unclosed(braces: seq<Brace>, i: nat) {
    i < |braces| && braces[i].Open? && forall j :: i < j <= |braces| ==> Depth(braces[i..j]) >= 1
  }

  lemma DepthSnoc(braces: seq<Brace>, b: Brace, i: nat)
    requires i <= |braces|
    ensures Depth((braces + [b])[i..]) == Depth(braces[i..]) + if b.Open? then 1 else -1
    ensures forall j :: i <= j <= |braces| ==> (braces + [b])[i..j] == braces[i..j]
  {
    assert (braces + [b])[i..] == braces[i..] + [b];
    assert (braces[i..] + [b])[..|braces[i..]|] == braces[i..];
  }

  /** One more brace leaves a block open if it opens one more level or closes a deeper one. */
  lemma UnclosedSnoc(braces: seq<Brace>, b: Brace, i: nat)
    requires i < |braces|
    ensures Unclosed(braces + [b], i) <==> Unclosed(braces, i) && (b.Open? || Depth(braces[i..]) >= 2)
  {
    DepthSnoc(braces, b, i);
    var more := braces + [b];
    assert more[i..|more|] == more[i..] && braces[i..|braces|] == braces[i..];
    if Unclosed(more, i) {
      forall j | i < j <= |braces| ensures Depth(braces[i..j]) >= 1 { assert Depth(more[i..j]) >= 1; }
      assert Depth(more[i..|more|]) >= 1;
    }
    if Unclosed(braces, i) && (b.Open? || Depth(braces[i..]) >= 2) {
      forall j | i < j <= |more| ensures Depth(more[i..j]) >= 1 {
        assert Depth(braces[i..|braces|]) >= 1;
        if j <= |braces| { assert Depth(braces[i..j]) >= 1; }
      }
    }
  }

  lemma LastOpens(braces: seq<Brace>)
    ensures Unclosed(braces + [Open], |braces|) && Depth((braces + [Open])[|braces|..]) == 1
    ensures !Unclosed(braces + [Close], |braces|)
  {
    DepthSnoc(braces, Open, |braces|);
    assert braces[|braces|..] == [];
    assert forall j :: |braces| < j <= |braces| + 1 ==> (braces + [Open])[|braces|..j] == (braces + [Open])[|braces|..];
  }

  /** The stack holds exactly the unclosed braces, outermost first, each at its depth. */
  ghost predicate HoldsUnclosed(stack: seq<nat>, braces: seq<Brace>) {
    && (forall i :: i in stack <==> Unclosed(braces, i))
    && (forall k, l :: 0 <= k < l < |stack| ==> stack[k] < stack[l])
    && (forall k :: 0 <= k < |stack| ==> stack[k] < |braces| && Depth(braces[stack[k]..]) == |stack| - k)
  }

  lemma OpenKeepsStack(stack: seq<nat>, braces: seq<Brace>)
    requires HoldsUnclosed(stack, braces)
    ensures HoldsUnclosed(stack + [|braces|], braces + [Open])
  {
    var more, top := braces + [Open], stack + [|braces|];
    LastOpens(braces);
    forall i: nat ensures i in top <==> Unclosed(more, i) {
      if i < |braces| { UnclosedSnoc(braces, Open, i); }
    }
    forall k | 0 <= k < |top| ensures top[k] < |more| && Depth(more[top[k]..]) == |top| - k {
      if k < |stack| { DepthSnoc(braces, Open, stack[k]); }
    }
  }

  lemma CloseKeepsStack(stack: seq<nat>, braces: seq<Brace>)
    requires HoldsUnclosed(stack, braces)
    ensures HoldsUnclosed(if stack == [] then [] else stack[..|stack| - 1], braces + [Close])
  {
    var more := braces + [Close];
    var rest := if stack == [] then [] else stack[..|stack| - 1];
    LastOpens(braces);
    forall i: nat ensures i in rest <==> Unclosed(more, i) {
      if i < |braces| {
        UnclosedSnoc(braces, Close, i);
        if i in stack {
          var k :| 0 <= k < |stack| && stack[k] == i;
          assert Depth(braces[i..]) == |stack| - k;
        }
      }
    }
    forall k | 0 <= k < |rest| ensures rest[k] < |more| && Depth(more[rest[k]..]) == |rest| - k {
      DepthSnoc(braces, Close, stack[k]);
    }
  }

  lemma BraceKeepsStack(stack: seq<nat>, earlier: seq<Brace>, b: Brace)
    requires HoldsUnclosed(stack, earlier)
    ensures HoldsUnclosed(Entered(stack, |earlier|, b), earlier + [b])
  {
    match b
    case Open => OpenKeepsStack(stack, earlier);
    case Close => CloseKeepsStack(stack, earlier);
  }

  lemma NothingUnclosed()
    ensures HoldsUnclosed([], [])
  {
  }

  /** Whatever braces come before a call, balanced or not, the stack is the blocks still open around it. */
  lemma {:induction false} EnclosingIsUnclosed(braces: seq<Brace>)
    ensures HoldsUnclosed(Enclosing(braces), braces)
  {
    if braces == [] {
      NothingUnclosed();
    } else {
      var earlier := braces[..|braces| - 1];
      EnclosingIsUnclosed(earlier);
      BraceKeepsStack(Enclosing(earlier), earlier, braces[|braces| - 1]);
      assert braces == earlier + [braces[|braces| - 1]];
    }
  }
}
