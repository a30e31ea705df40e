/** The Python `str` operations the scripts rely on, with Python's own semantics:
    `str.replace`, `str.split(':')[0]`, slicing `s[:n]`, and the code-point order
    in which Python and NumPy compare strings. */
module PyStr {

  /** `s` holds `pat` starting at position `i`. */
  predicate MatchesAt(s: string, i: nat, pat: string)
    requires i + |pat| <= |s|
    decreases |pat|
  {
    |pat| == 0 || (s[i] == pat[0] && MatchesAt(s, i + 1, pat[1..]))
  }

  lemma {:induction false} MatchesAtIsSlice(s: string, i: nat, pat: string)
    requires i + |pat| <= |s|
    ensures MatchesAt(s, i, pat) <==> s[i..i + |pat|] == pat
    decreases |pat|
  {
    if |pat| > 0 {
      MatchesAtIsSlice(s, i + 1, pat[1..]);
      assert s[i..i + |pat|] == [s[i]] + s[i + 1..i + 1 + |pat[1..]|];
      assert pat == [pat[0]] + pat[1..];
    }
  }

  /** The scan of `str.replace` from position `i` on. */
  function ReplaceFrom(s: string, i: nat, pat: string, rep: string): string
    requires |pat| > 0 && i <= |s|
    decreases |s| - i
  {
    if i + |pat| > |s| then s[i..]
    else if MatchesAt(s, i, pat) then rep + ReplaceFrom(s, i + |pat|, pat, rep)
    else [s[i]] + ReplaceFrom(s, i + 1, pat, rep)
  }

  /** Python's `s.replace(pat, rep)` for a non-empty `pat`: every non-overlapping
      occurrence, found left to right, is replaced by `rep`. */
  function Replace(s: string, pat: string, rep: string): string
    requires |pat| > 0
  {
    ReplaceFrom(s, 0, pat, rep)
  }

  /** `pat` is a substring of `s`. */
  ghost predicate Occurs(s: string, pat: string) {
    exists i :: 0 <= i && i + |pat| <= |s| && MatchesAt(s, i, pat)
  }

  lemma {:induction false} ReplaceFromAbsent(s: string, i: nat, pat: string, rep: string)
    requires |pat| > 0 && i <= |s|
    requires forall j :: i <= j && j + |pat| <= |s| ==> !MatchesAt(s, j, pat)
    ensures ReplaceFrom(s, i, pat, rep) == s[i..]
    decreases |s| - i
  {
    if i + |pat| <= |s| {
      ReplaceFromAbsent(s, i + 1, pat, rep);
      assert s[i..] == [s[i]] + s[i + 1..];
    }
  }

  /** `str.replace` leaves a string without the pattern unchanged. */
  lemma ReplaceAbsent(s: string, pat: string, rep: string)
    requires |pat| > 0 && !Occurs(s, pat)
    ensures Replace(s, pat, rep) == s
  {
    ReplaceFromAbsent(s, 0, pat, rep);
  }

  lemma {:induction false} ReplaceFromRemovesChar(s: string, i: nat, c: char, rep: string)
    requires i <= |s| && c !in rep
    ensures c !in ReplaceFrom(s, i, [c], rep)
    decreases |s| - i
  {
    if i + 1 <= |s| {
      assert MatchesAt(s, i, [c]) <==> s[i] == c by {
        assert [c][1..] == [];
      }
      ReplaceFromRemovesChar(s, i + 1, c, rep);
    }
  }

  /** Replacing a single character by text without it removes every copy of it. */
  lemma ReplaceRemovesChar(s: string, c: char, rep: string)
    requires c !in rep
    ensures c !in Replace(s, [c], rep)
  {
    ReplaceFromRemovesChar(s, 0, c, rep);
  }

  /** No `p` in `s` is directly followed by `q`. */
  predicate NoPair(s: string, p: char, q: char) {
    forall i :: 0 <= i < |s| - 1 ==> !(s[i] == p && s[i + 1] == q)
  }

  lemma MatchesPair(s: string, i: nat, p: char, q: char)
    requires i + 2 <= |s|
    ensures MatchesAt(s, i, [p, q]) <==> s[i] == p && s[i + 1] == q
  {
    assert [p, q][1..] == [q] && [q][1..] == [];
    assert MatchesAt(s, i, [p, q]) <==> s[i] == p && MatchesAt(s, i + 1, [q]);
    assert MatchesAt(s, i + 1, [q]) <==> s[i + 1] == q && MatchesAt(s, i + 2, []);
  }

  lemma MatchesChar(s: string, i: nat, c: char)
    requires i + 1 <= |s|
    ensures MatchesAt(s, i, [c]) <==> s[i] == c
  {
    assert [c][1..] == [];
  }

  lemma {:induction false} ReplaceFromShift(x: string, y: string, i: nat, pat: string, rep: string)
    requires |pat| > 0 && i <= |y|
    ensures ReplaceFrom(x + y, |x| + i, pat, rep) == ReplaceFrom(y, i, pat, rep)
    decreases |y| - i, 1
  {
    var s := x + y;
    var j := |x| + i;
    if i + |pat| <= |y| {
      MatchesAtShift(x, y, i, pat);
      if MatchesAt(y, i, pat) {
        ReplaceFromShiftMatch(x, y, i, pat, rep);
      } else {
        ReplaceFromShiftSkip(x, y, i, pat, rep);
      }
    } else {
      assert ReplaceFrom(y, i, pat, rep) == y[i..];
      assert ReplaceFrom(s, j, pat, rep) == s[j..];
      assert s[j..] == y[i..];
    }
  }

  lemma {:induction false} ReplaceFromShiftMatch(x: string, y: string, i: nat, pat: string, rep: string)
    requires |pat| > 0 && i + |pat| <= |y| && MatchesAt(y, i, pat) && MatchesAt(x + y, |x| + i, pat)
    ensures ReplaceFrom(x + y, |x| + i, pat, rep) == ReplaceFrom(y, i, pat, rep)
    decreases |y| - i, 0
  {
    ReplaceFromShift(x, y, i + |pat|, pat, rep);
    assert ReplaceFrom(y, i, pat, rep) == rep + ReplaceFrom(y, i + |pat|, pat, rep);
    assert ReplaceFrom(x + y, |x| + i, pat, rep) == rep + ReplaceFrom(x + y, |x| + i + |pat|, pat, rep);
  }

  lemma {:induction false} ReplaceFromShiftSkip(x: string, y: string, i: nat, pat: string, rep: string)
    requires |pat| > 0 && i + |pat| <= |y| && !MatchesAt(y, i, pat) && !MatchesAt(x + y, |x| + i, pat)
    ensures ReplaceFrom(x + y, |x| + i, pat, rep) == ReplaceFrom(y, i, pat, rep)
    decreases |y| - i, 0
  {
    var s := x + y;
    ReplaceFromShift(x, y, i + 1, pat, rep);
    assert s[|x| + i] == y[i];
    assert ReplaceFrom(y, i, pat, rep) == [y[i]] + ReplaceFrom(y, i + 1, pat, rep);
    assert ReplaceFrom(s, |x| + i, pat, rep) == [s[|x| + i]] + ReplaceFrom(s, |x| + i + 1, pat, rep);
  }

  lemma {:induction false} MatchesAtShift(x: string, y: string, i: nat, pat: string)
    requires i + |pat| <= |y|
    ensures MatchesAt(x + y, |x| + i, pat) == MatchesAt(y, i, pat)
    decreases |pat|
  {
    if |pat| > 0 {
      assert (x + y)[|x| + i] == y[i];
      MatchesAtShift(x, y, i + 1, pat[1..]);
    }
  }

  /** A string without the pair is left as it is by replacing the pair. */
  lemma ReplaceNoPair(s: string, p: char, q: char, rep: string)
    requires NoPair(s, p, q)
    ensures Replace(s, [p, q], rep) == s
  {
    forall j | 0 <= j && j + 2 <= |s|
      ensures !MatchesAt(s, j, [p, q])
    {
      MatchesPair(s, j, p, q);
    }
    ReplaceFromAbsent(s, 0, [p, q], rep);
  }

  lemma {:induction false} ReplaceFromBeforePair(a: string, b: string, i: nat, p: char, q: char, rep: string)
    requires p != q && NoPair(a, p, q) && i <= |a|
    ensures ReplaceFrom(a + [p, q] + b, i, [p, q], rep) == a[i..] + rep + Replace(b, [p, q], rep)
    decreases |a| - i
  {
    var s := a + [p, q] + b;
    MatchesPair(s, i, p, q);
    if i < |a| {
      ReplaceFromBeforePair(a, b, i + 1, p, q, rep);
      assert a[i..] == [a[i]] + a[i + 1..];
    } else {
      assert s == (a + [p, q]) + b;
      ReplaceFromShift(a + [p, q], b, 0, [p, q], rep);
    }
  }

  /** The first occurrence of a pair of distinct characters is replaced, the scan going on after it. */
  lemma ReplaceFirstPair(a: string, b: string, p: char, q: char, rep: string)
    requires p != q && NoPair(a, p, q)
    ensures Replace(a + [p, q] + b, [p, q], rep) == a + rep + Replace(b, [p, q], rep)
  {
    ReplaceFromBeforePair(a, b, 0, p, q, rep);
  }

  lemma {:induction false} ReplaceFromDropLast(t: string, c: char, i: nat)
    requires c !in t && i <= |t|
    ensures ReplaceFrom(t + [c], i, [c], []) == t[i..]
    decreases |t| - i
  {
    var s := t + [c];
    MatchesChar(s, i, c);
    if i < |t| {
      ReplaceFromDropLast(t, c, i + 1);
      assert t[i..] == [t[i]] + t[i + 1..];
    }
  }

  /** Removing a character that occurs only at the end drops the end. */
  lemma ReplaceDropLast(t: string, c: char)
    requires c !in t
    ensures Replace(t + [c], [c], []) == t
  {
    ReplaceFromDropLast(t, c, 0);
  }

  /** Python's `s[:n]`: at most the first `n` characters, never an error. */
  function Head(s: string, n: nat): (r: string)
    ensures r <= s
    ensures |r| == if |s| < n then |s| else n
  {
    if |s| <= n then s else s[..n]
  }

  /** Python's `s.split(':')[0]`: the text before the first colon, or all of `s`. */
  function BeforeColon(s: string): (r: string)
    ensures r <= s && ':' !in r
    ensures |r| < |s| ==> s[|r|] == ':'
  {
    if s == [] || s[0] == ':' then [] else [s[0]] + BeforeColon(s[1..])
  }

  /** The order in which Python and NumPy compare strings: lexicographic by code point,
      a proper prefix coming first. */
  predicate Below(a: string, b: string) {
    if a == [] then b != []
    else b != [] && (a[0] < b[0] || (a[0] == b[0] && Below(a[1..], b[1..])))
  }

  lemma {:induction false} BelowIrreflexive(a: string)
    ensures !Below(a, a)
  {
    if a != [] {
      BelowIrreflexive(a[1..]);
    }
  }

  lemma {:induction false} BelowTransitive(a: string, b: string, c: string)
    requires Below(a, b) && Below(b, c)
    ensures Below(a, c)
  {
    if a != [] && a[0] == b[0] && b[0] == c[0] {
      BelowTransitive(a[1..], b[1..], c[1..]);
    }
  }

  lemma {:induction false} BelowTotal(a: string, b: string)
    ensures a == b || Below(a, b) || Below(b, a)
  {
    if a != [] && b != [] && a[0] == b[0] {
      BelowTotal(a[1..], b[1..]);
      if a[1..] == b[1..] {
        assert a == [a[0]] + a[1..] && b == [b[0]] + b[1..];
      }
    }
  }

  lemma BelowAsymmetric(a: string, b: string)
    requires Below(a, b)
    ensures !Below(b, a) && a != b
  {
    BelowIrreflexive(a);
    if Below(b, a) {
      BelowTransitive(a, b, a);
    }
  }
}
