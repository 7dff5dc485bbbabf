/**
 * The bug report's cohort: completed missions in the order they were added, one entry per mission, cut
 * to a size. The log is given line by line, already split into headers and added task files.
 */
module Cohort {
  import opened Prelude

  /** `rank` is the id's place in the numeric collation; different ids may collate alike. */
  datatype Id = Id(name: string, rank: int)

  datatype Line = Header(commit: string, date: int) | Added(id: Id) | Other

  datatype Addition = Addition(commit: string, date: int, order: nat, id: Id)

  // ---------------------------------------------------------------- parsing

  datatype Scan = Scan(current: Option<Line>, additions: seq<Addition>)

  function ScanLine(s: Scan, line: Line): Scan {
    match line
    case Header(_, _) => s.(current := Some(line))
    case Added(id) =>
      if s.current.Some? && s.current.value.Header? then
        s.(additions := s.additions + [Addition(s.current.value.commit, s.current.value.date, |s.additions| + 1, id)])
      else s
    case Other => s
  }

  function ScanLog(lines: seq<Line>): Scan {
    if lines == [] then Scan(None, []) else ScanLine(ScanLog(lines[..|lines| - 1]), lines[|lines| - 1])
  }

  function Additions(lines: seq<Line>): seq<Addition> { ScanLog(lines).additions }

  method ParseLog(lines: seq<Line>) returns (additions: seq<Addition>)
    ensures additions == Additions(lines)
  {
    additions := [];
    var current: Option<Line> := None;
    var order := 0;
    for i := 0 to |lines|
      invariant Scan(current, additions) == ScanLog(lines[..i]) && order == |additions|
      invariant current.Some? ==> current.value.Header?
    {
      assert lines[..i + 1][..i] == lines[..i];
      match lines[i] {
        case Header(_, _) => current := Some(lines[i]);
        case Added(id) =>
          if current.Some? {
            order := order + 1;
            additions := additions + [Addition(current.value.commit, current.value.date, order, id)];
          }
        case Other =>
      }
    }
    assert lines[..|lines|] == lines;
  }

  /** The log names each commit once. */
  ghost predicate EachCommitOnce(lines: seq<Line>) {
    forall i, j :: 0 <= i < j < |lines| && lines[i].Header? && lines[j].Header? ==> lines[i].commit != lines[j].commit
  }

  /** The additions of one commit share its date and stand together, numbered in the order of the log. */
  ghost predicate Grouped(s: seq<Addition>) {
    && (forall i :: 0 <= i < |s| ==> s[i].order == i + 1)
    && (forall i, j :: 0 <= i < |s| && 0 <= j < |s| && s[i].commit == s[j].commit ==> s[i].date == s[j].date)
    && (forall i, j, k :: 0 <= i < j < k < |s| && s[i].commit == s[k].commit ==> s[j].commit == s[i].commit)
  }

  ghost predicate FromHeaders(s: seq<Addition>, lines: seq<Line>) {
    forall i :: 0 <= i < |s| ==> Header(s[i].commit, s[i].date) in lines
  }

  /** The current header is one of the log, and its additions are the last ones. */
  ghost predicate CurrentIsLast(s: Scan, lines: seq<Line>) {
    s.current.Some? ==>
      && s.current.value.Header? && s.current.value in lines
      && (forall i, j :: 0 <= i < j < |s.additions| && s.additions[i].commit == s.current.value.commit ==>
            s.additions[j].commit == s.current.value.commit)
  }

  lemma HeaderDatesAgree(lines: seq<Line>, a: Line, b: Line)
    requires EachCommitOnce(lines) && a in lines && b in lines && a.Header? && b.Header? && a.commit == b.commit
    ensures a == b
  {
  }

  lemma {:induction false} ParsedIsGrouped(lines: seq<Line>)
    requires EachCommitOnce(lines)
    ensures Grouped(Additions(lines)) && FromHeaders(Additions(lines), lines) && CurrentIsLast(ScanLog(lines), lines)
  {
    if lines != [] {
      var earlier := lines[..|lines| - 1];
      var last := lines[|lines| - 1];
      ParsedIsGrouped(earlier);
      StaysFromHeaders(Additions(earlier), earlier, last);
      assert lines == earlier + [last];
      match last
      case Header(_, _) => NewHeader(ScanLog(earlier), earlier, last);
      case Added(id) => NewAddition(ScanLog(earlier), earlier, id);
      case Other => assert forall line <- earlier :: line in lines;
    }
  }

  lemma StaysFromHeaders(s: seq<Addition>, lines: seq<Line>, last: Line)
    requires FromHeaders(s, lines)
    ensures FromHeaders(s, lines + [last])
  {
  }

  lemma NewHeader(s: Scan, lines: seq<Line>, header: Line)
    requires header.Header? && EachCommitOnce(lines + [header]) && FromHeaders(s.additions, lines)
    ensures CurrentIsLast(ScanLine(s, header), lines + [header])
  {
    forall i | 0 <= i < |s.additions| ensures s.additions[i].commit != header.commit {
      var j :| 0 <= j < |lines| && lines[j] == Header(s.additions[i].commit, s.additions[i].date);
      assert (lines + [header])[j] == lines[j] && (lines + [header])[|lines|] == header;
    }
  }

  lemma NewAddition(s: Scan, lines: seq<Line>, id: Id)
    requires EachCommitOnce(lines) && Grouped(s.additions) && FromHeaders(s.additions, lines) && CurrentIsLast(s, lines)
    ensures var t := ScanLine(s, Added(id));
      Grouped(t.additions) && FromHeaders(t.additions, lines + [Added(id)]) && CurrentIsLast(t, lines + [Added(id)])
  {
    if s.current.Some? {
      var header := s.current.value;
      forall i | 0 <= i < |s.additions| && s.additions[i].commit == header.commit ensures s.additions[i].date == header.date {
        HeaderDatesAgree(lines, Header(header.commit, s.additions[i].date), header);
      }
      JoinsGroup(s.additions, Addition(header.commit, header.date, |s.additions| + 1, id));
    }
  }

  /** One more addition of the commit that came last. */
  lemma JoinsGroup(s: seq<Addition>, a: Addition)
    requires Grouped(s) && a.order == |s| + 1
    requires forall i :: 0 <= i < |s| && s[i].commit == a.commit ==> s[i].date == a.date
    requires forall i, j :: 0 <= i < j < |s| && s[i].commit == a.commit ==> s[j].commit == a.commit
    ensures Grouped(s + [a])
  {
  }

  // ---------------------------------------------------------------- the comparator

  function Compare(l: Addition, r: Addition): int {
    if l.date != r.date then l.date - r.date
    else if l.commit != r.commit then l.order - r.order
    else l.id.rank - r.id.rank
  }

  ghost predicate Transitive(s: seq<Addition>) {
    forall a, b, c :: a in s && b in s && c in s && Compare(a, b) <= 0 && Compare(b, c) <= 0 ==> Compare(a, c) <= 0
  }

  /** Between two additions of one commit stands one of another commit of the same date. */
  predicate Interleaved(x: Addition, y: Addition, z: Addition) {
    && x.commit == z.commit && y.commit != x.commit && x.date == y.date == z.date
    && x.order < y.order < z.order
  }

  ghost predicate Numbered(s: seq<Addition>) {
    && (forall i :: 0 <= i < |s| ==> s[i].order == i + 1)
    && (forall i, j :: 0 <= i < |s| && 0 <= j < |s| && s[i].commit == s[j].commit ==> s[i].date == s[j].date)
  }

  lemma Antisymmetric(l: Addition, r: Addition)
    ensures Compare(l, r) == -Compare(r, l)
  {
  }

  /** The comparator orders additions consistently exactly when every interleaved pair collates in log order. */
  lemma TransitiveExactly(s: seq<Addition>)
    requires Numbered(s)
    ensures Transitive(s) <==>
      forall x, y, z :: x in s && y in s && z in s && Interleaved(x, y, z) ==> x.id.rank < z.id.rank
  {
    if Transitive(s) {
      forall x, y, z | x in s && y in s && z in s && Interleaved(x, y, z) ensures x.id.rank < z.id.rank {
        assert Compare(z, x) <= 0 && Compare(x, y) <= 0 ==> Compare(z, y) <= 0;
      }
    }
    if forall x, y, z :: x in s && y in s && z in s && Interleaved(x, y, z) ==> x.id.rank < z.id.rank {
      forall a, b, c | a in s && b in s && c in s && Compare(a, b) <= 0 && Compare(b, c) <= 0 ensures Compare(a, c) <= 0 {
        NoInversion(s, a, b, c);
      }
    }
  }

  lemma NoInversion(s: seq<Addition>, a: Addition, b: Addition, c: Addition)
    requires Numbered(s) && a in s && b in s && c in s && Compare(a, b) <= 0 && Compare(b, c) <= 0
    requires forall x, y, z :: x in s && y in s && z in s && Interleaved(x, y, z) ==> x.id.rank < z.id.rank
    ensures Compare(a, c) <= 0
  {
    assert Interleaved(b, c, a) ==> b.id.rank < a.id.rank;
    assert Interleaved(c, a, b) ==> c.id.rank < b.id.rank;
    assert Interleaved(a, b, c) ==> a.id.rank < c.id.rank;
  }

  /** Whatever the log adds, its additions can be sorted by the comparator. */
  lemma ParsedIsPreordered(lines: seq<Line>)
    requires EachCommitOnce(lines)
    ensures Transitive(Additions(lines))
  {
    ParsedIsGrouped(lines);
    var s := Additions(lines);
    forall x, y, z | x in s && y in s && z in s ensures !Interleaved(x, y, z) {
      assert s[x.order - 1] == x && s[y.order - 1] == y && s[z.order - 1] == z;
    }
    TransitiveExactly(s);
  }

  /** Were a commit listed twice, the comparator could be inconsistent. */
  lemma InterleavedCommitsBreakOrder() returns (lines: seq<Line>)
    ensures !EachCommitOnce(lines) && !Transitive(Additions(lines))
  {
    var two, one := Id("TASK-2", 2), Id("TASK-1", 1);
    var x, y, z := Addition("a", 0, 1, two), Addition("b", 0, 2, one), Addition("a", 0, 3, one);
    var l1 := [] + [Header("a", 0)];
    var l2 := l1 + [Added(two)];
    var l3 := l2 + [Header("b", 0)];
    var l4 := l3 + [Added(one)];
    var l5 := l4 + [Header("a", 0)];
    lines := l5 + [Added(one)];
    ScanSnoc([], Header("a", 0));
    ScanSnoc(l1, Added(two));
    ScanSnoc(l2, Header("b", 0));
    ScanSnoc(l3, Added(one));
    ScanSnoc(l4, Header("a", 0));
    ScanSnoc(l5, Added(one));
    assert lines[0].commit == lines[4].commit;
    var s := Additions(lines);
    assert s == [x, y, z];
    assert s[0] == x && s[1] == y && s[2] == z;
    assert Compare(x, y) <= 0 && Compare(y, z) <= 0 && Compare(x, z) > 0;
  }

  lemma ScanSnoc(lines: seq<Line>, line: Line)
    ensures ScanLog(lines + [line]) == ScanLine(ScanLog(lines), line)
  {
    assert (lines + [line])[..|lines|] == lines;
  }

  // ---------------------------------------------------------------- sorting

  ghost predicate Sorted(s: seq<Addition>) {
    forall i, j :: 0 <= i < j < |s| ==> Compare(s[i], s[j]) <= 0
  }

  function Insert(s: seq<Addition>, a: Addition): seq<Addition> {
    if s == [] || Compare(s[|s| - 1], a) <= 0 then s + [a]
    else Insert(s[..|s| - 1], a) + [s[|s| - 1]]
  }

  /** What a stable sort by the comparator leaves. */
  function Sort(s: seq<Addition>): seq<Addition> {
    if s == [] then [] else Insert(Sort(s[..|s| - 1]), s[|s| - 1])
  }

  lemma {:induction false} InsertKeepsElements(s: seq<Addition>, a: Addition)
    ensures multiset(Insert(s, a)) == multiset(s) + multiset{a}
  {
    if s != [] && Compare(s[|s| - 1], a) > 0 {
      InsertKeepsElements(s[..|s| - 1], a);
      assert s == s[..|s| - 1] + [s[|s| - 1]];
    }
  }

  lemma {:induction false} SortKeepsElements(s: seq<Addition>)
    ensures multiset(Sort(s)) == multiset(s)
  {
    if s != [] {
      SortKeepsElements(s[..|s| - 1]);
      InsertKeepsElements(Sort(s[..|s| - 1]), s[|s| - 1]);
      assert s == s[..|s| - 1] + [s[|s| - 1]];
    }
  }

  lemma SameElements(s: seq<Addition>, t: seq<Addition>)
    requires multiset(s) == multiset(t)
    ensures forall a :: a in s <==> a in t
  {
    forall a ensures a in s <==> a in t { assert a in multiset(s) <==> a in multiset(t); }
  }

  lemma AppendKeepsSorted(s: seq<Addition>, last: Addition)
    requires Sorted(s) && forall b <- s :: Compare(b, last) <= 0
    ensures Sorted(s + [last])
  {
    forall i | 0 <= i < |s| ensures Compare(s[i], last) <= 0 { assert s[i] in s; }
  }

  lemma BelowLast(all: seq<Addition>, s: seq<Addition>, a: Addition)
    requires Transitive(all) && Sorted(s) && s != [] && a in all && (forall b <- s :: b in all)
    requires Compare(s[|s| - 1], a) <= 0
    ensures forall b <- s :: Compare(b, a) <= 0
  {
    var last := s[|s| - 1];
    Antisymmetric(last, last);
    forall b <- s ensures Compare(b, a) <= 0 { assert Compare(b, last) <= 0; }
  }

  lemma {:induction false} InsertKeepsSorted(all: seq<Addition>, s: seq<Addition>, a: Addition)
    requires Transitive(all) && Sorted(s) && a in all && (forall b <- s :: b in all)
    ensures Sorted(Insert(s, a))
  {
    if s == [] {
      assert Insert(s, a) == [a];
    } else if Compare(s[|s| - 1], a) <= 0 {
      BelowLast(all, s, a);
      AppendKeepsSorted(s, a);
    } else {
      var rest := s[..|s| - 1];
      var last := s[|s| - 1];
      InsertKeepsSorted(all, rest, a);
      InsertKeepsElements(rest, a);
      SameElements(Insert(rest, a), rest + [a]);
      Antisymmetric(last, a);
      forall b <- Insert(rest, a) ensures Compare(b, last) <= 0 { assert b in rest + [a]; }
      AppendKeepsSorted(Insert(rest, a), last);
    }
  }

  lemma {:induction false} SortSorts(all: seq<Addition>, s: seq<Addition>)
    requires Transitive(all) && forall b <- s :: b in all
    ensures Sorted(Sort(s))
  {
    if s != [] {
      var rest := s[..|s| - 1];
      SortSorts(all, rest);
      SortKeepsElements(rest);
      SameElements(Sort(rest), rest);
      InsertKeepsSorted(all, Sort(rest), s[|s| - 1]);
    }
  }

  // ---------------------------------------------------------------- one addition per mission

  predicate HasId(s: seq<Addition>, id: Id) { exists i :: 0 <= i < |s| && s[i].id == id }

  function Unique(s: seq<Addition>): seq<Addition> {
    if s == [] then []
    else
      var earlier := Unique(s[..|s| - 1]);
      if HasId(s[..|s| - 1], s[|s| - 1].id) then earlier else earlier + [s[|s| - 1]]
  }

  method Deduplicate(s: seq<Addition>) returns (unique: seq<Addition>)
    ensures unique == Unique(s)
  {
    var seen: set<Id> := {};
    unique := [];
    for i := 0 to |s|
      invariant unique == Unique(s[..i])
      invariant forall id :: id in seen <==> HasId(s[..i], id)
    {
      assert s[..i + 1][..i] == s[..i];
      SeenGrows(s, i);
      if s[i].id !in seen {
        seen := seen + {s[i].id};
        unique := unique + [s[i]];
      }
    }
    assert s[..|s|] == s;
  }

  lemma SeenGrows(s: seq<Addition>, n: nat)
    requires n < |s|
    ensures forall id :: HasId(s[..n + 1], id) <==> HasId(s[..n], id) || id == s[n].id
  {
    forall id ensures HasId(s[..n + 1], id) <==> HasId(s[..n], id) || id == s[n].id {
      if HasId(s[..n], id) {
        var i :| 0 <= i < |s[..n]| && s[..n][i].id == id;
        assert s[..n + 1][i].id == id;
      }
      if id == s[n].id { assert s[..n + 1][n].id == id; }
      if HasId(s[..n + 1], id) {
        var i :| 0 <= i < |s[..n + 1]| && s[..n + 1][i].id == id;
        assert i < n ==> s[..n][i].id == id;
      }
    }
  }

  /** The entry of an id is its first addition. */
  ghost predicate First(s: seq<Addition>, a: Addition) {
    exists i :: 0 <= i < |s| && s[i] == a && !HasId(s[..i], a.id)
  }

  lemma {:induction false} UniqueIsFirsts(s: seq<Addition>)
    ensures var u := Unique(s);
      && (forall i, j :: 0 <= i < j < |u| ==> u[i].id != u[j].id)
      && (forall a <- u :: First(s, a))
      && (forall id :: HasId(s, id) <==> HasId(u, id))
  {
    if s != [] {
      var rest := s[..|s| - 1];
      var last := s[|s| - 1];
      UniqueIsFirsts(rest);
      assert s == rest + [last] && s[..|s|] == s;
      SeenGrows(s, |rest|);
      FirstsStay(rest, last);
      UniqueCovers(rest, last);
    }
  }

  lemma FirstsStay(rest: seq<Addition>, last: Addition)
    ensures forall a :: First(rest, a) ==> First(rest + [last], a)
    ensures !HasId(rest, last.id) ==> First(rest + [last], last)
  {
    var s := rest + [last];
    forall a | First(rest, a) ensures First(s, a) {
      var i :| 0 <= i < |rest| && rest[i] == a && !HasId(rest[..i], a.id);
      assert s[..i] == rest[..i] && s[i] == a;
    }
    assert s[..|rest|] == rest && s[|rest|] == last;
  }

  lemma UniqueCovers(rest: seq<Addition>, last: Addition)
    requires forall id :: HasId(rest, id) <==> HasId(Unique(rest), id)
    ensures forall id :: HasId(Unique(rest + [last]), id) <==> HasId(rest, id) || id == last.id
  {
    assert (rest + [last])[..|rest|] == rest;
    var u, v := Unique(rest), Unique(rest + [last]);
    if v != u {
      assert v == u + [last] && v[..|u|] == u && v[..|v|] == v;
      SeenGrows(v, |u|);
    }
  }

  // ---------------------------------------------------------------- the cohort

  function Take<T>(s: seq<T>, n: nat): seq<T> { if n < |s| then s[..n] else s }

  function Representatives(lines: seq<Line>): seq<Addition> { Unique(Sort(Additions(lines))) }

  function CohortOf(lines: seq<Line>, size: nat): seq<Addition> { Take(Representatives(lines), size) }

  /** Parse, sort, keep the first addition of each mission, cut. */
  method CohortFromGit(lines: seq<Line>, size: nat) returns (ids: seq<Id>)
    ensures |ids| == |CohortOf(lines, size)|
    ensures forall i :: 0 <= i < |ids| ==> ids[i] == CohortOf(lines, size)[i].id
  {
    var additions := ParseLog(lines);
    var sorted := Sort(additions);
    var unique := Deduplicate(sorted);
    var chosen := Take(unique, size);
    ids := seq(|chosen|, i requires 0 <= i < |chosen| => chosen[i].id);
  }

  /** `a` is the least addition of its mission. */
  ghost predicate Least(s: seq<Addition>, a: Addition) {
    a in s && forall b :: b in s && b.id == a.id ==> Compare(a, b) <= 0
  }

  lemma FirstIsLeast(s: seq<Addition>, a: Addition)
    requires Sorted(s) && First(s, a)
    ensures Least(s, a)
  {
    var i :| 0 <= i < |s| && s[i] == a && !HasId(s[..i], a.id);
    forall k | 0 <= k < i ensures s[k].id != a.id { assert s[..i][k] == s[k]; }
    forall b | b in s && b.id == a.id ensures Compare(a, b) <= 0 {
      Antisymmetric(a, a);
    }
  }

  lemma {:induction false} UniqueKeepsSorted(s: seq<Addition>)
    requires Sorted(s)
    ensures Sorted(Unique(s)) && forall a <- Unique(s) :: a in s
  {
    if s != [] {
      var rest := s[..|s| - 1];
      UniqueKeepsSorted(rest);
      var u := Unique(rest);
      forall i | 0 <= i < |u| ensures Compare(u[i], s[|s| - 1]) <= 0 {
        assert u[i] in rest;
      }
    }
  }

  lemma UniqueOfSorted(s: seq<Addition>)
    requires Sorted(s)
    ensures var u := Unique(s);
      && Sorted(u)
      && (forall i, j :: 0 <= i < j < |u| ==> u[i].id != u[j].id)
      && (forall i :: 0 <= i < |u| ==> Least(s, u[i]))
      && (forall a <- s :: HasId(u, a.id))
  {
    UniqueIsFirsts(s);
    var u := Unique(s);
    UniqueKeepsSorted(s);
    forall i | 0 <= i < |u| ensures Least(s, u[i]) {
      assert First(s, u[i]);
      FirstIsLeast(s, u[i]);
    }
    forall a <- s ensures HasId(u, a.id) {
      var i :| 0 <= i < |s| && s[i] == a;
      assert HasId(s, a.id);
    }
  }

  lemma RepresentativesAreLeast(lines: seq<Line>)
    requires EachCommitOnce(lines)
    ensures var u := Representatives(lines);
      && Sorted(u)
      && (forall i, j :: 0 <= i < j < |u| ==> u[i].id != u[j].id)
      && (forall i :: 0 <= i < |u| ==> Least(Additions(lines), u[i]))
      && (forall a <- Additions(lines) :: HasId(u, a.id))
  {
    var all := Additions(lines);
    var s := Sort(all);
    ParsedIsPreordered(lines);
    SortSorts(all, all);
    SortKeepsElements(all);
    SameElements(s, all);
    UniqueOfSorted(s);
    var u := Representatives(lines);
    forall i | 0 <= i < |u| ensures Least(all, u[i]) {
      assert Least(s, u[i]);
    }
  }

  lemma ChosenComeFirst(all: seq<Addition>, u: seq<Addition>, c: seq<Addition>, i: nat, a: Addition)
    requires Transitive(all) && Sorted(u) && c <= u && i < |c| && a in all && !HasId(c, a.id) && HasId(u, a.id)
    requires forall k :: 0 <= k < |u| ==> Least(all, u[k])
    ensures Compare(c[i], a) <= 0
  {
    var k :| 0 <= k < |u| && u[k].id == a.id;
    assert forall j :: 0 <= j < |c| ==> c[j].id != a.id;
    assert Least(all, u[k]) && Least(all, u[i]);
    assert Compare(u[i], u[k]) <= 0 && Compare(u[k], a) <= 0;
  }

  /**
   * The cohort names different missions, each by its least addition; every mission left out of it has no
   * addition before any chosen one; and it is full unless every mission was chosen.
   */
  lemma CohortIsEarliest(lines: seq<Line>, size: nat)
    requires EachCommitOnce(lines)
    ensures var c := CohortOf(lines, size);
      && |c| <= size
      && (forall i, j :: 0 <= i < j < |c| ==> c[i].id != c[j].id)
      && (forall i :: 0 <= i < |c| ==> Least(Additions(lines), c[i]))
      && (forall i :: 0 <= i < |c| ==> forall a <- Additions(lines) :: !HasId(c, a.id) ==> Compare(c[i], a) <= 0)
      && (|c| < size ==> forall a <- Additions(lines) :: HasId(c, a.id))
  {
    RepresentativesAreLeast(lines);
    ParsedIsPreordered(lines);
    var u, c, all := Representatives(lines), CohortOf(lines, size), Additions(lines);
    forall i, a | 0 <= i < |c| && a in all && !HasId(c, a.id) ensures Compare(c[i], a) <= 0 {
      ChosenComeFirst(all, u, c, i, a);
    }
  }

  /** The rule of the enumeration: committer date, then place in the log, then task id within one commit. */
  predicate NotAfter(a: Addition, b: Addition) {
    && a.date <= b.date
    && (a.date == b.date && a.commit != b.commit ==> a.order <= b.order)
    && (a.date == b.date && a.commit == b.commit ==> a.id.rank <= b.id.rank)
  }

  lemma ComparedMeans(a: Addition, b: Addition)
    ensures Compare(a, b) <= 0 <==> NotAfter(a, b)
  {
  }

  /**
   * The cohort stands in the order of the rule, represents each mission by an addition that no other
   * addition of it comes before, and is preceded by no addition of a mission that was left out.
   */
  lemma CohortFollowsTheRule(lines: seq<Line>, size: nat)
    requires EachCommitOnce(lines)
    ensures var c := CohortOf(lines, size);
      && (forall i, j :: 0 <= i < j < |c| ==> NotAfter(c[i], c[j]))
      && (forall i, a :: 0 <= i < |c| && a in Additions(lines) && (a.id == c[i].id || !HasId(c, a.id)) ==> NotAfter(c[i], a))
  {
    CohortIsEarliest(lines, size);
    RepresentativesAreLeast(lines);
    var c := CohortOf(lines, size);
    forall i, j | 0 <= i < j < |c| ensures NotAfter(c[i], c[j]) { ComparedMeans(c[i], c[j]); }
    forall i, a | 0 <= i < |c| && a in Additions(lines) && (a.id == c[i].id || !HasId(c, a.id)) ensures NotAfter(c[i], a) {
      assert Least(Additions(lines), c[i]);
      ComparedMeans(c[i], a);
    }
  }

  /** A larger cohort extends a smaller one. */
  lemma CohortGrowsAtTheEnd(lines: seq<Line>, size: nat)
    ensures CohortOf(lines, size) <= CohortOf(lines, size + 1)
    ensures |CohortOf(lines, size + 1)| <= |CohortOf(lines, size)| + 1
  {
  }
}
