/**
 * The identity of a failure: the board's words with case, numbers and spacing normalised, cut to a
 * length. It decides which recovery budget a failure spends.
 */
module FailureFingerprint {

  const LENGTH: nat := 200

  predicate IsUpper(c: char) { 'A' <= c <= 'Z' }
  predicate IsDigit(c: char) { '0' <= c <= '9' }
  predicate IsSpace(c: char) { c in {' ', '\t', '\n', '\r', '\U{b}', '\U{c}', '\U{a0}'} }

  function LowerChar(c: char): char {
    if IsUpper(c) then 'a' + (c - 'A') else c
  }

  function Lower(s: string): string {
    if s == "" then "" else Lower(s[..|s| - 1]) + [LowerChar(s[|s| - 1])]
  }

  predicate Among(digits: bool, c: char) { if digits then IsDigit(c) else IsSpace(c) }

  predicate EndsAmong(digits: bool, s: string) { s != "" && Among(digits, s[|s| - 1]) }

  /** Every maximal run of digits (or of spaces) becomes one mark. */
  function Squeeze(digits: bool, s: string): string {
    if s == "" then ""
    else
      var rest := s[..|s| - 1];
      var c := s[|s| - 1];
      if !Among(digits, c) then Squeeze(digits, rest) + [c]
      else if EndsAmong(digits, rest) then Squeeze(digits, rest)
      else Squeeze(digits, rest) + [Mark(digits)]
  }

  function Mark(digits: bool): char { if digits then '#' else ' ' }

  function TrimStart(s: string): string { if s != "" && IsSpace(s[0]) then TrimStart(s[1..]) else s }

  function TrimEnd(s: string): string { if s != "" && IsSpace(s[|s| - 1]) then TrimEnd(s[..|s| - 1]) else s }

  function Cut(s: string): string { if |s| > LENGTH then s[..LENGTH] else s }

  function Fingerprint(detail: string): string {
    Cut(TrimEnd(TrimStart(Squeeze(false, Squeeze(true, Lower(detail))))))
  }

  // ---------------------------------------------------------------- what does not matter

  predicate AllAmong(digits: bool, s: string) { s != "" && forall i :: 0 <= i < |s| ==> Among(digits, s[i]) }

  /** A run counts once, whatever it is made of. */
  lemma {:induction false} SqueezeRun(digits: bool, a: string, run: string)
    requires AllAmong(digits, run)
    ensures Squeeze(digits, a + run) == if EndsAmong(digits, a) then Squeeze(digits, a) else Squeeze(digits, a) + [Mark(digits)]
    ensures EndsAmong(digits, a + run)
  {
    var rest := run[..|run| - 1];
    assert (a + run)[..|a + run| - 1] == a + rest;
    if rest != "" {
      SqueezeRun(digits, a, rest);
    } else {
      assert a + rest == a;
    }
  }

  lemma {:induction false} SqueezeIgnoresRun(digits: bool, a: string, m: string, n: string, b: string)
    requires AllAmong(digits, m) && AllAmong(digits, n)
    ensures Squeeze(digits, a + m + b) == Squeeze(digits, a + n + b)
    ensures EndsAmong(digits, a + m + b) == EndsAmong(digits, a + n + b)
  {
    if b == "" {
      SqueezeRun(digits, a, m);
      SqueezeRun(digits, a, n);
      assert a + m + b == a + m && a + n + b == a + n;
    } else {
      var rest := b[..|b| - 1];
      SqueezeIgnoresRun(digits, a, m, n, rest);
      assert (a + m + b)[..|a + m + b| - 1] == a + m + rest;
      assert (a + n + b)[..|a + n + b| - 1] == a + n + rest;
    }
  }

  lemma {:induction false} LowerJoins(a: string, b: string)
    ensures Lower(a + b) == Lower(a) + Lower(b) && |Lower(b)| == |b|
  {
    if b == "" {
      assert a + b == a;
    } else {
      LowerJoins(a, b[..|b| - 1]);
      assert (a + b)[..|a + b| - 1] == a + b[..|b| - 1];
    }
  }

  lemma {:induction false} LowerKeepsRun(digits: bool, s: string)
    requires AllAmong(digits, s)
    ensures Lower(s) == s
  {
    var rest := s[..|s| - 1];
    assert s == rest + [s[|s| - 1]];
    if rest != "" { LowerKeepsRun(digits, rest); }
  }

  /** A line number, a count or a timestamp that changed is still the same failure. */
  lemma NumbersDoNotMatter(a: string, m: string, n: string, b: string)
    requires AllAmong(true, m) && AllAmong(true, n)
    ensures Fingerprint(a + m + b) == Fingerprint(a + n + b)
  {
    LowerJoins(a + m, b);
    LowerJoins(a, m);
    LowerJoins(a + n, b);
    LowerJoins(a, n);
    LowerKeepsRun(true, m);
    LowerKeepsRun(true, n);
    SqueezeIgnoresRun(true, Lower(a), m, n, Lower(b));
  }

  // ---------------------------------------------------------------- fingerprinting a fingerprint

  /** Nothing left to normalise, except perhaps a space at an end. */
  predicate Clean(s: string) {
    && (forall i :: 0 <= i < |s| ==> !IsUpper(s[i]) && !IsDigit(s[i]) && (IsSpace(s[i]) ==> s[i] == ' '))
    && (forall i :: 1 <= i < |s| ==> !(IsSpace(s[i - 1]) && IsSpace(s[i])))
  }

  predicate Lowered(s: string) { forall i :: 0 <= i < |s| ==> !IsUpper(s[i]) }

  predicate Numberless(s: string) { forall i :: 0 <= i < |s| ==> !IsDigit(s[i]) }

  lemma {:induction false} LowerLowers(s: string)
    ensures Lowered(Lower(s))
  {
    if s != "" { LowerLowers(s[..|s| - 1]); }
  }

  lemma {:induction false} DigitsGo(s: string)
    requires Lowered(s)
    ensures Lowered(Squeeze(true, s)) && Numberless(Squeeze(true, s))
  {
    if s != "" { DigitsGo(s[..|s| - 1]); }
  }

  lemma {:induction false} SpacesSqueeze(s: string)
    requires Lowered(s) && Numberless(s)
    ensures Clean(Squeeze(false, s))
    ensures EndsAmong(false, Squeeze(false, s)) == EndsAmong(false, s)
  {
    if s != "" { SpacesSqueeze(s[..|s| - 1]); }
  }

  lemma {:induction false} TrimStartKeepsClean(s: string)
    requires Clean(s)
    ensures Clean(TrimStart(s)) && (TrimStart(s) != "" ==> !IsSpace(TrimStart(s)[0]))
  {
    if s != "" && IsSpace(s[0]) { TrimStartKeepsClean(s[1..]); }
  }

  lemma {:induction false} TrimEndKeepsClean(s: string)
    requires Clean(s) && (s != "" ==> !IsSpace(s[0]))
    ensures Clean(TrimEnd(s)) && TrimEnd(s) <= s
    ensures TrimEnd(s) != "" ==> !IsSpace(TrimEnd(s)[0])
    decreases |s|
  {
    if s != "" && IsSpace(s[|s| - 1]) { TrimEndKeepsClean(s[..|s| - 1]); }
  }

  lemma FingerprintIsClean(detail: string)
    ensures var f := Fingerprint(detail); Clean(f) && |f| <= 200 && (f != "" ==> !IsSpace(f[0]))
  {
    LowerLowers(detail);
    DigitsGo(Lower(detail));
    SpacesSqueeze(Squeeze(true, Lower(detail)));
    var s := Squeeze(false, Squeeze(true, Lower(detail)));
    TrimStartKeepsClean(s);
    TrimEndKeepsClean(TrimStart(s));
  }

  lemma {:induction false} CleanStays(s: string)
    requires Clean(s)
    ensures Lower(s) == s && Squeeze(true, s) == s && Squeeze(false, s) == s
  {
    if s != "" {
      var rest := s[..|s| - 1];
      CleanStays(rest);
      assert s == rest + [s[|s| - 1]];
    }
  }

  /**
   * A fingerprint is its own fingerprint exactly when the cut did not leave it ending in a space; then a
   * failure that reports an earlier fingerprint is not taken for that failure.
   */
  lemma FingerprintIsStableExactly(detail: string)
    ensures var f := Fingerprint(detail);
      Fingerprint(f) == f <==> f == "" || f[|f| - 1] != ' '
  {
    FingerprintIsClean(detail);
    var f := Fingerprint(detail);
    CleanStays(f);
    TrimEndKeepsClean(f);
    assert TrimStart(f) == f;
    if f != "" && f[|f| - 1] == ' ' {
      TrimEndKeepsClean(f[..|f| - 1]);
      assert |TrimEnd(f)| < |f|;
    }
  }

  /**
   * Details that only differ in what matters stay apart: one without capitals, digits, doubled or odd
   * spaces, and at most 200 characters long, is its own fingerprint.
   */
  lemma CleanDetailIsItsOwn(detail: string)
    requires forall i :: 0 <= i < |detail| ==>
      !('A' <= detail[i] <= 'Z') && !('0' <= detail[i] <= '9')
      && detail[i] != '\t' && detail[i] != '\n' && detail[i] != '\r' && detail[i] != '\U{b}' && detail[i] != '\U{c}' && detail[i] != '\U{a0}'
    requires forall i :: 1 <= i < |detail| ==> detail[i - 1] != ' ' || detail[i] != ' '
    requires |detail| <= 200 && (detail != "" ==> detail[0] != ' ' && detail[|detail| - 1] != ' ')
    ensures Fingerprint(detail) == detail
  {
    assert Clean(detail);
    CleanStays(detail);
    TrimEndKeepsClean(detail);
    assert TrimStart(detail) == detail && TrimEnd(detail) == detail;
  }

  /** So two failures that differ in a word have different fingerprints. */
  lemma WordsMatter(a: string, b: string)
    requires a != b && Clean(a) && Clean(b) && |a| <= 200 && |b| <= 200
    requires a != "" ==> a[0] != ' ' && a[|a| - 1] != ' '
    requires b != "" ==> b[0] != ' ' && b[|b| - 1] != ' '
    ensures Fingerprint(a) != Fingerprint(b)
  {
    CleanDetailIsItsOwn(a);
    CleanDetailIsItsOwn(b);
  }

  lemma {:induction false} MarkedAndJoined(a: string, m: string, b: string)
    requires AllAmong(true, m) && Clean(a) && Clean(b)
    ensures Squeeze(true, a + m + b) == a + ['#'] + b
  {
    if b == "" {
      CleanStays(a);
      SqueezeRun(true, a, m);
      assert a + m + b == a + m;
    } else {
      var rest := b[..|b| - 1];
      MarkedAndJoined(a, m, rest);
      assert (a + m + b)[..|a + m + b| - 1] == a + m + rest;
      assert b == rest + [b[|b| - 1]];
    }
  }

  /** A number leaves one `#`: it is not mistaken for nothing, for a space, or for a word. */
  lemma NumbersLeaveAMark(a: string, m: string, b: string)
    requires AllAmong(true, m) && Clean(a) && Clean(b) && |a| + 1 + |b| <= 200
    requires (a != "" ==> a[0] != ' ') && (b != "" ==> b[|b| - 1] != ' ')
    ensures Fingerprint(a + m + b) == a + "#" + b
  {
    NumberIsMarked(a, m, b);
    MarkJoins(a, b);
    var f := a + ['#'] + b;
    CleanStays(f);
    TrimEndKeepsClean(f);
    assert TrimStart(f) == f && TrimEnd(f) == f;
  }

  lemma NumberIsMarked(a: string, m: string, b: string)
    requires AllAmong(true, m) && Clean(a) && Clean(b)
    ensures Squeeze(true, Lower(a + m + b)) == a + ['#'] + b
  {
    CleanStays(a);
    CleanStays(b);
    LowerKeepsRun(true, m);
    LowerJoins(a + m, b);
    LowerJoins(a, m);
    MarkedAndJoined(a, m, b);
  }

  lemma MarkJoins(a: string, b: string)
    requires Clean(a) && Clean(b) && (a != "" ==> a[0] != ' ') && (b != "" ==> b[|b| - 1] != ' ')
    ensures var f := a + ['#'] + b; Clean(f) && f[0] != ' ' && f[|f| - 1] != ' '
  {
    var f := a + ['#'] + b;
    forall i | 1 <= i < |f| ensures !(IsSpace(f[i - 1]) && IsSpace(f[i])) {
      if i > |a| + 1 { assert f[i] == b[i - |a| - 1] && f[i - 1] == b[i - |a| - 2]; }
    }
  }

  /** Capitals count as their small letters. */
  lemma CaseDoesNotMatter(a: string, c: char, b: string)
    requires 'A' <= c <= 'Z'
    ensures Fingerprint(a + [c] + b) == Fingerprint(a + ['a' + (c - 'A')] + b)
  {
    var small := 'a' + (c - 'A');
    LowerJoins(a + [c], b);
    LowerJoins(a, [c]);
    LowerJoins(a + [small], b);
    LowerJoins(a, [small]);
    assert Lower([c]) == [small] && Lower([small]) == [small];
  }

  lemma {:induction false} SpacesPassDigits(a: string, m: string)
    requires AllAmong(false, m)
    ensures Squeeze(true, a + m) == Squeeze(true, a) + m && !EndsAmong(true, a + m)
  {
    var rest := m[..|m| - 1];
    assert (a + m)[..|a + m| - 1] == a + rest && m == rest + [m[|m| - 1]];
    if rest != "" { SpacesPassDigits(a, rest); } else { assert a + rest == a; }
  }

  /** Numbers on both sides of a space are squeezed apart from each other. */
  lemma {:induction false} SpacesPart(a: string, m: string, b: string)
    requires AllAmong(false, m)
    ensures Squeeze(true, a + m + b) == Squeeze(true, a) + m + Squeeze(true, b)
    ensures EndsAmong(true, a + m + b) == EndsAmong(true, b)
  {
    if b == "" {
      SpacesPassDigits(a, m);
      assert a + m + b == a + m;
    } else {
      var rest := b[..|b| - 1];
      SpacesPart(a, m, rest);
      assert (a + m + b)[..|a + m + b| - 1] == a + m + rest;
    }
  }

  /** Any run of blanks counts as one space. */
  lemma SpacingDoesNotMatter(a: string, m: string, n: string, b: string)
    requires AllAmong(false, m) && AllAmong(false, n)
    ensures Fingerprint(a + m + b) == Fingerprint(a + n + b)
  {
    LowerJoins(a + m, b);
    LowerJoins(a, m);
    LowerJoins(a + n, b);
    LowerJoins(a, n);
    LowerKeepsRun(false, m);
    LowerKeepsRun(false, n);
    SpacesPart(Lower(a), m, Lower(b));
    SpacesPart(Lower(a), n, Lower(b));
    SqueezeIgnoresRun(false, Squeeze(true, Lower(a)), m, n, Squeeze(true, Lower(b)));
  }
}
