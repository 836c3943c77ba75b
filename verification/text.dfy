/**
 * The JavaScript string primitives the decoder is built from: `trim`,
 * `includes`, `startsWith`, `replace` with a string pattern, and the
 * case-insensitive comparison with the language tag `sql`.
 */
module Text {
  import opened Wrappers

  /**
   * The characters `String.prototype.trim` removes and the regular-expression
   * class `\s` matches: the ECMAScript WhiteSpace and LineTerminator code points.
   */
  predicate IsSpace(c: char) {
    || c == '\t' || c == '\n' || c == '\U{B}' || c == '\U{C}' || c == '\r' || c == ' '
    || c == '\U{A0}' || c == '\U{1680}' || ('\U{2000}' <= c <= '\U{200A}')
    || c == '\U{2028}' || c == '\U{2029}' || c == '\U{202F}' || c == '\U{205F}'
    || c == '\U{3000}' || c == '\U{FEFF}'
  }

  predicate AllSpace(s: string) {
    forall i :: 0 <= i < |s| ==> IsSpace(s[i])
  }

  /** Neither end of `s` is white space. */
  predicate IsTrimmed(s: string) {
    s == [] || (!IsSpace(s[0]) && !IsSpace(s[|s| - 1]))
  }

  /** `s` with its leading white space removed. */
  function TrimStart(s: string): (r: string)
    ensures |r| <= |s|
    ensures r == [] || !IsSpace(r[0])
    decreases |s|
  {
    if |s| > 0 && IsSpace(s[0]) then TrimStart(s[1..]) else s
  }

  /** What `TrimStart` keeps is a suffix of `s`, and what it cuts off is white space. */
  lemma {:induction false} TrimStartIsSuffix(s: string)
    ensures var r := TrimStart(s);
            r == s[|s| - |r|..] && AllSpace(s[..|s| - |r|])
    decreases |s|
  {
    if |s| > 0 && IsSpace(s[0]) {
      var r := TrimStart(s[1..]);
      TrimStartIsSuffix(s[1..]);
      var k := |s| - |r|;
      assert s[1..][|s| - 1 - |r|..] == s[k..];
      forall i | 0 <= i < k ensures IsSpace(s[..k][i]) {
        if i > 0 {
          assert s[..k][i] == s[1..][..k - 1][i - 1];
          assert IsSpace(s[1..][..k - 1][i - 1]);
        } else {
          assert s[..k][i] == s[0];
        }
      }
    }
  }

  /** `s` with its trailing white space removed. */
  function TrimEnd(s: string): (r: string)
    ensures |r| <= |s|
    ensures r == [] || !IsSpace(r[|r| - 1])
    decreases |s|
  {
    if |s| > 0 && IsSpace(s[|s| - 1]) then TrimEnd(s[..|s| - 1]) else s
  }

  /** What `TrimEnd` keeps is a prefix of `s`, and what it cuts off is white space. */
  lemma {:induction false} TrimEndIsPrefix(s: string)
    ensures var r := TrimEnd(s);
            r == s[..|r|] && AllSpace(s[|r|..])
    decreases |s|
  {
    if |s| > 0 && IsSpace(s[|s| - 1]) {
      var u := s[..|s| - 1];
      var r := TrimEnd(u);
      TrimEndIsPrefix(u);
      assert u[..|r|] == s[..|r|];
      forall k | 0 <= k < |s| - |r| ensures IsSpace(s[|r|..][k]) {
        if k < |s| - 1 - |r| {
          assert s[|r|..][k] == u[|r|..][k];
          assert IsSpace(u[|r|..][k]);
        } else {
          assert s[|r|..][k] == s[|s| - 1];
        }
      }
    }
  }

  /** `String.prototype.trim`: `s` with white space cut from both ends. */
  function Trim(s: string): (r: string)
    ensures IsTrimmed(r) && |r| <= |s|
  {
    var t := TrimStart(s);
    var r := TrimEnd(t);
    TrimEndIsPrefix(t);
    assert r != [] ==> r[0] == t[0];
    r
  }

  /** What `Trim` keeps is one slice of `s`, and all it cuts off is white space. */
  lemma TrimIsSlice(s: string)
    ensures var lo := |s| - |TrimStart(s)|;
            var r := Trim(s);
            && lo + |r| <= |s| && r == s[lo..lo + |r|]
            && AllSpace(s[..lo]) && AllSpace(s[lo + |r|..])
  {
    var t := TrimStart(s);
    var r := TrimEnd(t);
    var lo := |s| - |t|;
    TrimStartIsSuffix(s);
    TrimEndIsPrefix(t);
    assert t == s[lo..];
    assert r == t[..|r|];
    assert AllSpace(t[|r|..]);
    SliceOfSuffix(s, lo, |r|);
  }

  lemma SliceOfSuffix(s: string, lo: nat, n: nat)
    requires lo + n <= |s|
    ensures s[lo..][..n] == s[lo..lo + n] && s[lo..][n..] == s[lo + n..]
  {
  }

  lemma {:induction false} TrimStartOfSpacePrefix(w: string, x: string)
    requires AllSpace(w)
    requires x == [] || !IsSpace(x[0])
    ensures TrimStart(w + x) == x
    decreases |w|
  {
    if w != [] {
      assert (w + x)[1..] == w[1..] + x;
      TrimStartOfSpacePrefix(w[1..], x);
    } else {
      assert w + x == x;
    }
  }

  lemma {:induction false} TrimEndOfSpaceSuffix(x: string, w: string)
    requires AllSpace(w)
    requires x == [] || !IsSpace(x[|x| - 1])
    ensures TrimEnd(x + w) == x
    decreases |w|
  {
    if w != [] {
      assert (x + w)[..|x + w| - 1] == x + w[..|w| - 1];
      TrimEndOfSpaceSuffix(x, w[..|w| - 1]);
    } else {
      assert x + w == x;
    }
  }

  /** Trimming a trimmed text padded with white space on both sides gives the text back. */
  lemma TrimPadded(w1: string, x: string, w2: string)
    requires AllSpace(w1) && AllSpace(w2) && IsTrimmed(x)
    ensures Trim(w1 + x + w2) == x
  {
    if x == [] {
      assert w1 + x + w2 == w1 + w2;
      TrimStartOfSpacePrefix(w1 + w2, []);
      assert w1 + w2 + [] == w1 + w2;
      TrimEndOfSpaceSuffix([], []);
    } else {
      assert w1 + x + w2 == w1 + (x + w2);
      TrimStartOfSpacePrefix(w1, x + w2);
      TrimEndOfSpaceSuffix(x, w2);
    }
  }

  /** Trimming is idempotent. */
  lemma TrimIdempotent(s: string)
    ensures Trim(Trim(s)) == Trim(s)
  {
    var t := Trim(s);
    assert [] + t + [] == t;
    TrimPadded([], t, []);
  }

  /** A text made only of white space trims to the empty string, and only such a text does. */
  lemma TrimEmptyIffAllSpace(s: string)
    ensures Trim(s) == [] <==> AllSpace(s)
  {
    TrimIsSlice(s);
    if AllSpace(s) {
      assert s + [] + [] == s;
      TrimPadded(s, [], []);
    }
  }

  /** `pat` occurs in `s` at index `i`. */
  predicate OccursAt(s: string, pat: string, i: nat) {
    i + |pat| <= |s| && s[i..i + |pat|] == pat
  }

  /** `String.prototype.indexOf(pat, from)`: the first index at or after `from` where `pat` occurs. */
  function IndexOf(s: string, pat: string, from: nat): (r: Option<nat>)
    ensures r.Some? ==> from <= r.value && r.value + |pat| <= |s|
    decreases |s| - from
  {
    if from + |pat| > |s| then None
    else if s[from..from + |pat|] == pat then Some(from)
    else IndexOf(s, pat, from + 1)
  }

  /**
   * The index `IndexOf` returns is an occurrence with none before it from
   * `from` on; when it returns none, the pattern occurs nowhere from `from` on.
   */
  lemma {:induction false} IndexOfSpec(s: string, pat: string, from: nat)
    ensures var r := IndexOf(s, pat, from);
            && (r.Some? ==> OccursAt(s, pat, r.value) && forall j :: from <= j < r.value ==> !OccursAt(s, pat, j))
            && (r.None? ==> forall j :: from <= j ==> !OccursAt(s, pat, j))
    decreases |s| - from
  {
    if from + |pat| <= |s| && s[from..from + |pat|] != pat {
      IndexOfSpec(s, pat, from + 1);
    }
  }

  /** `String.prototype.includes`. */
  predicate Contains(s: string, pat: string) {
    IndexOf(s, pat, 0).Some?
  }

  /** `pat` is contained in `s` exactly when it occurs at some index. */
  lemma ContainsSpec(s: string, pat: string)
    ensures Contains(s, pat) <==> exists i :: OccursAt(s, pat, i)
  {
    IndexOfSpec(s, pat, 0);
  }

  /** `String.prototype.startsWith`. */
  predicate StartsWith(s: string, prefix: string) {
    |prefix| <= |s| && s[..|prefix|] == prefix
  }

  /** `String.prototype.replace` with a string pattern: only the first occurrence is replaced. */
  function ReplaceFirst(s: string, pat: string, rep: string): string {
    match IndexOf(s, pat, 0)
    case None => s
    case Some(i) => s[..i] + rep + s[i + |pat|..]
  }

  /** Without an occurrence the text is kept; otherwise the leftmost occurrence, and only it, is replaced. */
  lemma ReplaceFirstSpec(s: string, pat: string, rep: string)
    ensures !Contains(s, pat) ==> ReplaceFirst(s, pat, rep) == s
    ensures Contains(s, pat) ==>
      exists i: nat :: OccursAt(s, pat, i) && (forall j :: 0 <= j < i ==> !OccursAt(s, pat, j))
                  && ReplaceFirst(s, pat, rep) == s[..i] + rep + s[i + |pat|..]
  {
    ContainsSpec(s, pat);
    IndexOfSpec(s, pat, 0);
    if Contains(s, pat) {
      var i := IndexOf(s, pat, 0).value;
      assert OccursAt(s, pat, i) && (forall j :: 0 <= j < i ==> !OccursAt(s, pat, j));
    }
  }

  /**
   * `t.toLowerCase() === "sql"`. No code point other than the ASCII letters
   * lower-cases to `s`, `q` or `l`, so this is an ASCII case-insensitive match.
   */
  predicate LowerIsSql(t: string) {
    && |t| == 3
    && (t[0] == 's' || t[0] == 'S')
    && (t[1] == 'q' || t[1] == 'Q')
    && (t[2] == 'l' || t[2] == 'L')
  }
}
