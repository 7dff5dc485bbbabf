/**
 * Publishing a build: the entries of the staged tree replace those of the published one by single
 * renames, and every directory a reader or a crash can observe in between is accounted for.
 */
module DirectorySwap {
  import opened Prelude

  datatype Node = File(content: nat) | Directory(content: nat)

  type Tree = map<string, Node>

  /** The entry that another build owns. */
  const SEA: string := "sea"

  predicate Lists(names: seq<string>, t: Tree) {
    && (forall i :: 0 <= i < |names| ==> names[i] in t)
    && (forall n <- t :: n in names)
    && (forall i, j :: 0 <= i < j < |names| ==> names[i] != names[j])
  }

  /** The staged tree, and the old `sea` when the build stages none. */
  function Target(was: Tree, staged: Tree): Tree {
    map n | n in staged.Keys + (was.Keys * {SEA}) :: if n in staged then staged[n] else was[n]
  }

  predicate Same(n: string, t: Tree, u: Tree) {
    (n in t <==> n in u) && (n in t ==> t[n] == u[n])
  }

  function Last(trail: seq<Tree>): Tree
    requires trail != []
  {
    trail[|trail| - 1]
  }

  /** One rename binds or unbinds one name. */
  ghost predicate OnlyChanges(e: string, t: Tree, u: Tree) {
    forall n :: n != e ==> Same(n, t, u)
  }

  /** Name `n` is as before, then absent, then as published; `gone` is where it leaves and `back` where it settles. */
  ghost predicate Settles(n: string, trail: seq<Tree>, was: Tree, target: Tree, gone: nat, back: nat) {
    && gone <= back <= gone + 1 && back < |trail|
    && forall k :: 0 <= k < |trail| ==>
         (k < gone ==> Same(n, trail[k], was))
         && (gone <= k < back ==> n !in trail[k])
         && (back <= k ==> Same(n, trail[k], target))
  }

  /** An existing entry that a rename cannot overwrite: anything but a file by a file. */
  predicate MustPark(n: string, was: Tree, staged: Tree) {
    n in was && n in staged && !(was[n].File? && staged[n].File?)
  }

  /** Only an entry that must be parked is ever absent in between, and then after exactly one rename. */
  ghost predicate Settled(n: string, trail: seq<Tree>, was: Tree, staged: Tree) {
    exists gone: nat, back: nat :: SettlesAt(n, trail, was, staged, gone, back)
  }

  ghost predicate SettlesAt(n: string, trail: seq<Tree>, was: Tree, staged: Tree, gone: nat, back: nat) {
    Settles(n, trail, was, Target(was, staged), gone, back) && back == if MustPark(n, was, staged) then gone + 1 else gone
  }

  ghost predicate Untouched(n: string, trail: seq<Tree>, was: Tree) {
    forall k :: 0 <= k < |trail| ==> Same(n, trail[k], was)
  }

  /** Every name so far either settled or is untouched. */
  ghost predicate Progress(trail: seq<Tree>, done: set<string>, was: Tree, staged: Tree) {
    forall n :: if n in done then Settled(n, trail, was, staged) else Untouched(n, trail, was)
  }

  // ---------------------------------------------------------------- one rename

  lemma OthersProgress(trail: seq<Tree>, u: Tree, done: set<string>, was: Tree, staged: Tree, e: string, n: string)
    requires trail != [] && Progress(trail, done, was, staged)
    requires n != e && Same(n, Last(trail), u)
    ensures if n in done then Settled(n, trail + [u], was, staged) else Untouched(n, trail + [u], was)
  {
    if n in done {
      var gone: nat, back: nat :| SettlesAt(n, trail, was, staged, gone, back);
      assert SettlesAt(n, trail + [u], was, staged, gone, back);
    }
  }

  /** A rename that brings `e` straight to its target. */
  lemma DirectRename(trail: seq<Tree>, u: Tree, done: set<string>, was: Tree, staged: Tree, e: string)
    requires trail != [] && Progress(trail, done, was, staged) && e !in done
    requires OnlyChanges(e, Last(trail), u)
    requires !MustPark(e, was, staged) && Same(e, u, Target(was, staged))
    ensures Progress(trail + [u], done + {e}, was, staged)
  {
    forall n ensures if n in done + {e} then Settled(n, trail + [u], was, staged) else Untouched(n, trail + [u], was) {
      assert n != e ==> Same(n, Last(trail), u);
      if n == e {
        assert Untouched(e, trail, was);
        assert SettlesAt(e, trail + [u], was, staged, |trail|, |trail|);
      } else {
        OthersProgress(trail, u, done, was, staged, e, n);
      }
    }
  }

  /** Two renames: `e` is parked, then put in place. */
  lemma ParkedRename(trail: seq<Tree>, v: Tree, u: Tree, done: set<string>, was: Tree, staged: Tree, e: string)
    requires trail != [] && Progress(trail, done, was, staged) && e !in done && MustPark(e, was, staged)
    requires OnlyChanges(e, Last(trail), v) && OnlyChanges(e, v, u)
    requires e !in v && Same(e, u, Target(was, staged))
    ensures Progress(trail + [v, u], done + {e}, was, staged)
  {
    assert trail + [v, u] == trail + [v] + [u];
    forall n ensures if n in done + {e} then Settled(n, trail + [v, u], was, staged) else Untouched(n, trail + [v, u], was) {
      assert n != e ==> Same(n, Last(trail), v) && Same(n, v, u);
      if n == e {
        assert Untouched(e, trail, was);
        assert SettlesAt(e, trail + [v, u], was, staged, |trail|, |trail| + 1);
      } else if n in done {
        var gone: nat, back: nat :| SettlesAt(n, trail, was, staged, gone, back);
        assert Same(n, Last(trail), Target(was, staged));
        assert SettlesAt(n, trail + [v, u], was, staged, gone, back);
      } else {
        assert Same(n, Last(trail), was);
      }
    }
  }

  /** Once every staged or retired name settled, all names have. */
  lemma AllSettled(trail: seq<Tree>, done: set<string>, was: Tree, staged: Tree)
    requires trail != [] && Progress(trail, done, was, staged)
    requires forall n :: n in staged || (n in was && n != SEA) ==> n in done
    ensures forall n :: Settled(n, trail, was, staged)
    ensures Last(trail) == Target(was, staged)
  {
    var target := Target(was, staged);
    forall n ensures Settled(n, trail, was, staged) && Same(n, Last(trail), Target(was, staged)) {
      if n !in done {
        assert Untouched(n, trail, was) && Same(n, was, target);
        assert SettlesAt(n, trail, was, staged, 0, 0);
      }
      var gone: nat, back: nat :| SettlesAt(n, trail, was, staged, gone, back);
      assert trail[|trail| - 1] == Last(trail);
    }
    SameEverywhere(Last(trail), target);
  }

  lemma SameEverywhere(t: Tree, u: Tree)
    requires forall n :: Same(n, t, u)
    ensures t == u
  {
    forall n ensures n in t <==> n in u { assert Same(n, t, u); }
    forall n | n in t ensures t[n] == u[n] { assert Same(n, t, u); }
  }

  // ---------------------------------------------------------------- what a reader can observe

  /** At every moment, a file published before and after is there, with its old or its new content. */
  lemma FilesNeverVanish(trail: seq<Tree>, was: Tree, staged: Tree, n: string, k: nat)
    requires forall m :: Settled(m, trail, was, staged)
    requires k < |trail| && n in was && n in staged && was[n].File? && staged[n].File?
    ensures n in trail[k] && (trail[k][n] == was[n] || trail[k][n] == staged[n])
  {
    var target := Target(was, staged);
    assert Settled(n, trail, was, staged);
    var gone: nat, back: nat :| SettlesAt(n, trail, was, staged, gone, back);
    assert Same(n, trail[k], was) || Same(n, trail[k], target);
  }

  /** No reader ever sees a name that was in neither tree, or content that came from neither. */
  lemma NothingForeign(trail: seq<Tree>, was: Tree, staged: Tree, n: string, k: nat)
    requires forall m :: Settled(m, trail, was, staged)
    requires k < |trail| && n in trail[k]
    ensures (n in was && trail[k][n] == was[n]) || (n in staged && trail[k][n] == staged[n])
  {
    var target := Target(was, staged);
    assert Settled(n, trail, was, staged);
    var gone: nat, back: nat :| SettlesAt(n, trail, was, staged, gone, back);
    assert Same(n, trail[k], was) || Same(n, trail[k], target);
  }

  /** A build that stages no `sea`, or stages the very regular file that is published. */
  predicate LeavesSea(was: Tree, staged: Tree) {
    SEA !in staged || (SEA in was && was[SEA].File? && staged[SEA] == was[SEA])
  }

  /** `sea` is as it was at every moment exactly when the build leaves it alone. */
  lemma SeaUntouchedExactly(trail: seq<Tree>, was: Tree, staged: Tree)
    requires trail != [] && forall n :: Settled(n, trail, was, staged)
    ensures Untouched(SEA, trail, was) <==> LeavesSea(was, staged)
  {
    var target := Target(was, staged);
    assert Settled(SEA, trail, was, staged);
    var gone: nat, back: nat :| SettlesAt(SEA, trail, was, staged, gone, back);
    if LeavesSea(was, staged) {
      assert Same(SEA, was, target);
    } else if MustPark(SEA, was, staged) {
      assert SEA !in trail[gone] && !Same(SEA, trail[gone], was);
    } else {
      assert Same(SEA, trail[back], target) && !Same(SEA, trail[back], was);
    }
  }

  /** A published `sea` that a rename cannot overwrite is absent at exactly one moment. */
  lemma ParkedSeaIsAbsentOnce(trail: seq<Tree>, was: Tree, staged: Tree) returns (k: nat)
    requires MustPark(SEA, was, staged) && forall n :: Settled(n, trail, was, staged)
    ensures k < |trail| && forall j :: 0 <= j < |trail| ==> (SEA !in trail[j] <==> j == k)
  {
    assert Settled(SEA, trail, was, staged);
    var gone: nat, back: nat :| SettlesAt(SEA, trail, was, staged, gone, back);
    k := gone;
    forall j | 0 <= j < |trail| ensures SEA !in trail[j] <==> j == k {
      assert j < gone ==> Same(SEA, trail[j], was);
      assert back <= j ==> Same(SEA, trail[j], Target(was, staged));
    }
  }

  // ---------------------------------------------------------------- the swap

  class BuildTree {
    var staging: Tree
    var published: Option<Tree>
    var retired: Tree
    ghost var trail: seq<Tree>

    constructor (staging: Tree, published: Option<Tree>, leftover: Tree)
      ensures this.staging == staging && this.published == published && retired == leftover && trail == []
    {
      this.staging, this.published, retired, trail := staging, published, leftover, [];
    }

    /** rename(published/e, retired/e), which must not collide with anything parked before. */
    method Park(e: string)
      requires published.Some? && e in published.value && e !in retired
      modifies this`published, this`retired, this`trail
      ensures published == Some(old(published.value) - {e})
      ensures retired == old(retired)[e := old(published.value)[e]]
      ensures trail == old(trail) + [published.value] && OnlyChanges(e, old(published.value), published.value)
    {
      retired := retired[e := published.value[e]];
      published := Some(published.value - {e});
      trail := trail + [published.value];
    }

    /** rename(staging/e, published/e), onto nothing or file over file. */
    method Put(e: string)
      requires published.Some? && e in staging
      requires e in published.value ==> published.value[e].File? && staging[e].File?
      modifies this`published, this`staging, this`trail
      ensures published == Some(old(published.value)[e := old(staging)[e]]) && staging == old(staging) - {e}
      ensures trail == old(trail) + [published.value] && OnlyChanges(e, old(published.value), published.value)
    {
      published := Some(published.value[e := staging[e]]);
      staging := staging - {e};
      trail := trail + [published.value];
    }

    /** Park what this build no longer publishes, except `sea`. */
    method RetireUnstaged(publishedEntries: seq<string>, staged: set<string>) returns (ghost done: set<string>)
      requires published.Some? && Lists(publishedEntries, published.value) && staged == staging.Keys
      requires retired == map[] && trail == [published.value]
      modifies this`published, this`retired, this`trail
      ensures published.Some? && trail != [] && Last(trail) == published.value
      ensures old(trail) <= trail
      ensures retired.Keys == done && done == old(published.value).Keys - staged - {SEA}
      ensures Progress(trail, done, old(published.value), staging)
    {
      ghost var was := published.value;
      done := {};
      for i := 0 to |publishedEntries|
        invariant published.Some? && trail != [] && Last(trail) == published.value && old(trail) <= trail
        invariant retired.Keys == done
        invariant forall n :: n in done <==> n !in staged && n != SEA && n in publishedEntries[..i]
        invariant Progress(trail, done, was, staging)
      {
        var entry := publishedEntries[i];
        assert forall n :: n in publishedEntries[..i + 1] <==> n in publishedEntries[..i] || n == entry;
        if entry != SEA && entry !in staged {
          assert entry !in publishedEntries[..i] && entry !in done;
          assert Untouched(entry, trail, was) && Same(entry, Last(trail), was);
          ghost var before := trail;
          Park(entry);
          DirectRename(before, published.value, done, was, staging, entry);
          done := done + {entry};
        }
      }
    }

    /** Put every staged entry in place, parking what it cannot overwrite. */
    method PutStaged(stagedEntries: seq<string>, ghost was: Tree, ghost start: set<string>)
      requires published.Some? && Lists(stagedEntries, staging) && trail != [] && Last(trail) == published.value
      requires retired.Keys == start && start !! staging.Keys && Progress(trail, start, was, staging)
      modifies this
      ensures published.Some? && trail != [] && Last(trail) == published.value && old(trail) <= trail
      ensures Progress(trail, start + old(staging).Keys, was, old(staging))
    {
      ghost var staged := staging;
      ghost var done := start;
      for i := 0 to |stagedEntries|
        invariant published.Some? && trail != [] && Last(trail) == published.value && old(trail) <= trail
        invariant forall n :: n in done <==> n in start || n in stagedEntries[..i]
        invariant retired.Keys <= done
        invariant forall n :: n in staging <==> n in staged && n !in stagedEntries[..i]
        invariant forall n <- staging :: staging[n] == staged[n]
        invariant Progress(trail, done, was, staged)
      {
        var entry := stagedEntries[i];
        assert forall n :: n in stagedEntries[..i + 1] <==> n in stagedEntries[..i] || n == entry;
        assert entry !in stagedEntries[..i] && entry !in done;
        assert Untouched(entry, trail, was) && Same(entry, Last(trail), was);
        PutEntry(entry, was, staged, done);
        done := done + {entry};
      }
      assert done == start + staged.Keys;
    }

    method PutEntry(entry: string, ghost was: Tree, ghost staged: Tree, ghost done: set<string>)
      requires published.Some? && trail != [] && Last(trail) == published.value
      requires entry in staging && entry in staged && staging[entry] == staged[entry]
      requires entry !in done && retired.Keys <= done && Progress(trail, done, was, staged)
      requires Same(entry, published.value, was)
      modifies this
      ensures published.Some? && trail != [] && Last(trail) == published.value && old(trail) <= trail
      ensures staging == old(staging) - {entry} && retired.Keys <= done + {entry}
      ensures Progress(trail, done + {entry}, was, staged)
    {
      ghost var before := trail;
      if entry in published.value && !(published.value[entry].File? && staging[entry].File?) {
        Park(entry);
        ghost var parked := published.value;
        Put(entry);
        assert trail == before + [parked, published.value];
        ParkedRename(before, parked, published.value, done, was, staged, entry);
      } else {
        Put(entry);
        DirectRename(before, published.value, done, was, staged, entry);
      }
    }

    /**
     * Replace the published tree by the staged one, entry by entry. `trail` is every published tree that
     * existed meanwhile, which is also every one a crash can leave behind.
     */
    method PublishTree(stagedEntries: seq<string>, publishedEntries: seq<string>)
      requires Lists(stagedEntries, staging)
      requires published.Some? ==> Lists(publishedEntries, published.value)
      requires trail == []
      modifies this
      ensures old(published).None? ==> published == Some(old(staging)) && trail == [old(staging)]
      ensures old(published).Some? ==>
        && published == Some(Target(old(published).value, old(staging)))
        && trail != [] && trail[0] == old(published).value && Last(trail) == published.value
        && (forall n :: Settled(n, trail, old(published).value, old(staging)))
        && retired == map[]
    {
      retired := map[];
      if published.None? {
        published := Some(staging);
        trail := [staging];
        return;
      }
      ghost var was := published.value;
      ghost var staged := staging;
      trail := [was];
      Began(was, staged);
      ghost var done := RetireUnstaged(publishedEntries, staging.Keys);
      PutStaged(stagedEntries, was, done);
      AllSettled(trail, done + staged.Keys, was, staged);
      retired := map[];
    }
  }

  lemma Began(was: Tree, staged: Tree)
    ensures Progress([was], {}, was, staged)
  {
  }

  /** A staged `sea` directory over a published one: after the first rename there is none. */
  method SwapOverSea() returns (tree: BuildTree, ghost k: nat)
    ensures fresh(tree) && tree.published == Some(map[SEA := Directory(1)])
    ensures k < |tree.trail| && SEA !in tree.trail[k] && SEA in tree.trail[0]
  {
    var was, staged := map[SEA := Directory(0)], map[SEA := Directory(1)];
    tree := new BuildTree(staged, Some(was), map[]);
    tree.PublishTree([SEA], [SEA]);
    assert Target(was, staged) == staged;
    k := ParkedSeaIsAbsentOnce(tree.trail, was, staged);
  }
}
