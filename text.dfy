/** Character and string helpers the ledger relies on: Python's notion of
    whitespace, `str.strip()` without arguments, and the order Python uses to
    compare two `str` values (lexicographic by code point). */
module Text {

  /** Python's `str.isspace()` for one character. */
  predicate IsSpace(c: char) {
    c in Whitespace
  }

  /** The characters Python counts as whitespace. */
  const Whitespace: set<char> :=
    {'\t', '\n', '\U{0B}', '\U{0C}', '\r', '\U{1C}', '\U{1D}', '\U{1E}', '\U{1F}', ' ',
     '\U{85}', '\U{A0}', '\U{1680}',
     '\U{2000}', '\U{2001}', '\U{2002}', '\U{2003}', '\U{2004}', '\U{2005}',
     '\U{2006}', '\U{2007}', '\U{2008}', '\U{2009}', '\U{200A}',
     '\U{2028}', '\U{2029}', '\U{202F}', '\U{205F}', '\U{3000}'}

  predicate AllSpace(s: string) {
    forall i :: 0 <= i < |s| ==> IsSpace(s[i])
  }

  /** How many whitespace characters `s` starts with. */
  function LeadingSpace(s: string): (n: nat)
    ensures n <= |s|
    ensures forall i :: 0 <= i < n ==> IsSpace(s[i])
    ensures n < |s| ==> !IsSpace(s[n])
  {
    if s == [] || !IsSpace(s[0]) then 0
    else
      var n := 1 + LeadingSpace(s[1..]);
      assert forall i :: 1 <= i < n ==> s[i] == s[1..][i - 1];
      n
  }

  /** How many whitespace characters `s` ends with. */
  function TrailingSpace(s: string): (n: nat)
    ensures n <= |s|
    ensures forall i :: |s| - n <= i < |s| ==> IsSpace(s[i])
    ensures n < |s| ==> !IsSpace(s[|s| - n - 1])
  {
    if s == [] || !IsSpace(s[|s| - 1]) then 0
    else
      1 + TrailingSpace(s[..|s| - 1])
  }

  /** Python's `s.strip()`: `s` with its leading and trailing whitespace
      removed. What is left is the window of `s` that starts at the first
      and ends at the last non-whitespace character, and everything cut off
      on either side is whitespace. */
  function Strip(s: string): (r: string)
    ensures r == [] || (!IsSpace(r[0]) && !IsSpace(r[|r| - 1]))
    ensures var lo := LeadingSpace(s);
            && lo + |r| <= |s| && r == s[lo..lo + |r|]
            && (forall i :: 0 <= i < lo ==> IsSpace(s[i]))
            && (forall i :: lo + |r| <= i < |s| ==> IsSpace(s[i]))
  {
    var lo := LeadingSpace(s);
    if lo == |s| then
      []
    else
      var hi := |s| - TrailingSpace(s);
      s[lo..hi]
  }

  /** Stripping leaves nothing exactly when the text is all whitespace. */
  lemma StripEmptyIffBlank(s: string)
    ensures Strip(s) == [] <==> AllSpace(s)
  {
    var r := Strip(s);
    if r != [] {
      assert r[0] == s[LeadingSpace(s)];
    }
  }

  /** Python's `a < b` on `str`: the first differing code point decides, and
      a proper prefix comes first. */
  predicate Less(a: string, b: string) {
    if a == [] || b == [] then a == [] && b != []
    else if a[0] == b[0] then Less(a[1..], b[1..])
    else a[0] < b[0]
  }

  /** Two texts with a common prefix of length `i` are ordered by their
      characters at `i`. */
  lemma {:induction false} LessAtFirstDifference(a: string, b: string, i: nat)
    requires i < |a| && i < |b| && a[..i] == b[..i] && a[i] < b[i]
    ensures Less(a, b)
  {
    if i > 0 {
      assert a[0] == a[..i][0] == b[..i][0] == b[0];
      assert a[1..][..i - 1] == a[..i][1..] == b[..i][1..] == b[1..][..i - 1];
      LessAtFirstDifference(a[1..], b[1..], i - 1);
    }
  }

  /** Two texts that share a prefix are ordered by what follows it. */
  lemma {:induction false} LessAfterPrefix(p: string, x: string, y: string)
    requires x != [] && y != [] && x[0] < y[0]
    ensures Less(p + x, p + y)
  {
    assert (p + x)[..|p|] == p == (p + y)[..|p|];
    LessAtFirstDifference(p + x, p + y, |p|);
  }

  lemma {:induction false} LessIrreflexive(a: string)
    ensures !Less(a, a)
  {
    if a != [] {
      LessIrreflexive(a[1..]);
    }
  }

  lemma {:induction false} LessTransitive(a: string, b: string, c: string)
    requires Less(a, b) && Less(b, c)
    ensures Less(a, c)
  {
    if a != [] && b != [] && c != [] && a[0] == b[0] && b[0] == c[0] {
      LessTransitive(a[1..], b[1..], c[1..]);
    }
  }

  lemma {:induction false} LessTotal(a: string, b: string)
    requires a != b
    ensures Less(a, b) || Less(b, a)
  {
    if a != [] && b != [] && a[0] == b[0] {
      assert a == [a[0]] + a[1..] && b == [b[0]] + b[1..];
      LessTotal(a[1..], b[1..]);
    }
  }

  lemma LessAsymmetric(a: string, b: string)
    requires Less(a, b)
    ensures !Less(b, a)
  {
    if Less(b, a) {
      LessTransitive(a, b, a);
      LessIrreflexive(a);
    }
  }
}
