/**
 * The string primitives the backend and the form rely on: Python's `str.strip()`
 * and JavaScript's `String.prototype.trim()` (one trim, parameterised by the
 * language's notion of white space), Python's `str.replace` for a non-empty
 * pattern, and substring occurrence.
 */
module Text {

  /** Whose definition of white space a trim uses. */
  datatype Flavour = Python | JavaScript

  /**
   * Python: the characters for which `str.isspace()` holds.
   * JavaScript: the WhiteSpace and LineTerminator code points that `trim` removes.
   * The two differ on U+001C..U+001F and U+0085 (Python only) and U+FEFF (JavaScript only).
   */
  predicate IsSpace(f: Flavour, c: char) {
    || c == ' ' || c == '\t' || c == '\n' || c == '\r' || c == '\U{B}' || c == '\U{C}'
    || c == '\U{A0}' || c == '\U{1680}' || ('\U{2000}' <= c <= '\U{200A}')
    || c == '\U{2028}' || c == '\U{2029}' || c == '\U{202F}' || c == '\U{205F}' || c == '\U{3000}'
    || (f == Python && (('\U{1C}' <= c <= '\U{1F}') || c == '\U{85}'))
    || (f == JavaScript && c == '\U{FEFF}')
  }

  /** Every character of `s` is white space. */
  predicate AllSpace(f: Flavour, s: string) {
    forall i :: 0 <= i < |s| ==> IsSpace(f, s[i])
  }

  /** Drops leading white space: the result is the longest suffix that does not start with white space. */
  function TrimStart(f: Flavour, s: string): (r: string)
    ensures |r| <= |s| && r == s[|s| - |r|..]
    ensures r == [] || !IsSpace(f, r[0])
    ensures forall i :: 0 <= i < |s| - |r| ==> IsSpace(f, s[i])
  {
    if s != [] && IsSpace(f, s[0]) then TrimStart(f, s[1..]) else s
  }

  /** Drops trailing white space: the result is the longest prefix that does not end with white space. */
  function TrimEnd(f: Flavour, s: string): (r: string)
    ensures |r| <= |s| && r == s[..|r|]
    ensures r == [] || !IsSpace(f, r[|r| - 1])
    ensures forall i :: |r| <= i < |s| ==> IsSpace(f, s[i])
  {
    if s != [] && IsSpace(f, s[|s| - 1]) then TrimEnd(f, s[..|s| - 1]) else s
  }

  /** `r` is `s` with white space cut off: `k` characters in front and the rest behind it. */
  predicate CutFrom(f: Flavour, s: string, r: string, k: nat) {
    k + |r| <= |s| && s[k..k + |r|] == r && AllSpace(f, s[..k]) && AllSpace(f, s[k + |r|..])
  }

  /**
   * `s.strip()` in Python, `s.trim()` in JavaScript: what is cut off on either side is
   * white space, and what is left neither starts nor ends with it.
   */
  function Trim(f: Flavour, s: string): (r: string)
    ensures Contains(s, r)
    ensures exists k: nat :: CutFrom(f, s, r, k)
    ensures r == [] <==> AllSpace(f, s)
    ensures r != [] ==> !IsSpace(f, r[0]) && !IsSpace(f, r[|r| - 1])
  {
    TrimOccurs(f, s);
    TrimStartCut(f, s);
    TrimEmptyIffAllSpace(f, s);
    TrimEnd(f, TrimStart(f, s))
  }

  lemma TrimOccurs(f: Flavour, s: string)
    ensures Contains(s, TrimEnd(f, TrimStart(f, s)))
  {
    var t := TrimStart(f, s);
    var r := TrimEnd(f, t);
    var k := |s| - |t|;
    assert t == s[k..] && r == t[..|r|];
    assert OccursAt(s, r, k);
  }

  lemma TrimStartCut(f: Flavour, s: string)
    ensures exists k: nat :: CutFrom(f, s, TrimEnd(f, TrimStart(f, s)), k)
  {
    var t := TrimStart(f, s);
    var r := TrimEnd(f, t);
    var k := |s| - |t|;
    assert t == s[k..] && r == t[..|r|];
    assert s[k..k + |r|] == r;
    assert AllSpace(f, s[..k]);
    assert s[k + |r|..] == t[|r|..];
    AllSpaceSuffix(f, t, |r|);
    assert CutFrom(f, s, r, k);
  }

  lemma AllSpaceSuffix(f: Flavour, t: string, n: nat)
    requires n <= |t| && forall i :: n <= i < |t| ==> IsSpace(f, t[i])
    ensures AllSpace(f, t[n..])
  {
    forall i | 0 <= i < |t[n..]| ensures IsSpace(f, t[n..][i]) {
      assert t[n..][i] == t[n + i];
    }
  }

  lemma TrimEmptyIffAllSpace(f: Flavour, s: string)
    ensures TrimEnd(f, TrimStart(f, s)) == [] <==> AllSpace(f, s)
  {
    if TrimEnd(f, TrimStart(f, s)) == [] {
      TrimEmptyOnlyIfAllSpace(f, s);
    } else {
      var t := TrimStart(f, s);
      assert s[|s| - |t|] == t[0] == TrimEnd(f, t)[0];
    }
  }

  lemma TrimEmptyOnlyIfAllSpace(f: Flavour, s: string)
    requires TrimEnd(f, TrimStart(f, s)) == []
    ensures AllSpace(f, s)
  {
    assert TrimStart(f, s) == [];
  }

  /** The blank test both halves use: nothing is left after trimming. */
  predicate IsBlank(f: Flavour, s: string) {
    Trim(f, s) == []
  }

  /** Runs the blank test: `s` trims to the empty string exactly when it is all white space. */
  method TrimsToEmpty(f: Flavour, s: string) returns (empty: bool)
    ensures empty <==> AllSpace(f, s)
  {
    empty := Trim(f, s) == [];
  }

  /** Trimming a trimmed string changes nothing. */
  lemma TrimIdempotent(f: Flavour, s: string)
    ensures Trim(f, Trim(f, s)) == Trim(f, s)
  {
    var r := Trim(f, s);
    assert TrimStart(f, r) == r;
    assert TrimEnd(f, r) == r;
  }

  /** `q` occurs in `s` starting at index `i`. */
  predicate OccursAt(s: string, q: string, i: nat) {
    i + |q| <= |s| && s[i..i + |q|] == q
  }

  /** Python's `q in s`. */
  predicate Contains(s: string, q: string) {
    exists i: nat | i <= |s| :: OccursAt(s, q, i)
  }

  /**
   * Python's `s.replace(pat, rep)` for a non-empty `pat`: scanning from the left,
   * every occurrence of `pat` that does not overlap an earlier replaced one is
   * replaced by `rep`; the replacement text is not scanned again.
   */
  function ReplaceAll(s: string, pat: string, rep: string): (r: string)
    requires pat != []
    decreases |s|
  {
    if |s| < |pat| then s
    else if s[..|pat|] == pat then rep + ReplaceAll(s[|pat|..], pat, rep)
    else [s[0]] + ReplaceAll(s[1..], pat, rep)
  }

  /** A string in which the pattern does not occur is left as it is. */
  lemma {:induction false} ReplaceAbsent(s: string, pat: string, rep: string)
    requires pat != [] && !Contains(s, pat)
    ensures ReplaceAll(s, pat, rep) == s
    decreases |s|
  {
    if |s| >= |pat| {
      assert !OccursAt(s, pat, 0);
      assert !Contains(s[1..], pat) by {
        forall i: nat | OccursAt(s[1..], pat, i) ensures OccursAt(s, pat, i + 1) {
          assert s[1..][i..i + |pat|] == s[i + 1..i + 1 + |pat|];
        }
      }
      ReplaceAbsent(s[1..], pat, rep);
    }
  }

  /** A prefix that cannot start an occurrence of the pattern passes through untouched. */
  lemma {:induction false} ReplaceKeepsPrefix(t: string, u: string, pat: string, rep: string)
    requires pat != [] && pat[0] !in t
    ensures ReplaceAll(t + u, pat, rep) == t + ReplaceAll(u, pat, rep)
    decreases |t|
  {
    if t != [] {
      var s := t + u;
      if |s| < |pat| {
        assert ReplaceAll(u, pat, rep) == u;
      } else {
        assert s[..|pat|][0] == t[0];
        assert s[1..] == t[1..] + u;
        ReplaceKeepsPrefix(t[1..], u, pat, rep);
      }
    } else {
      assert t + u == u;
    }
  }

  /** The first occurrence after a prefix that cannot start the pattern is replaced by `rep`. */
  lemma {:induction false} ReplaceAfterPrefix(t: string, u: string, pat: string, rep: string)
    requires pat != [] && pat[0] !in t
    ensures ReplaceAll(t + pat + u, pat, rep) == t + rep + ReplaceAll(u, pat, rep)
  {
    assert t + pat + u == t + (pat + u);
    ReplaceKeepsPrefix(t, pat + u, pat, rep);
    assert (pat + u)[..|pat|] == pat;
    assert (pat + u)[|pat|..] == u;
  }
}
