/** String operations of .NET that the modelled code relies on: ordinal
    `string.Replace`, ordinal case-insensitive comparison (ASCII letters) and
    the decimal rendering of an integer. */
module Strings {

  /** `pat` occurs in `s` starting at index `i`. */
  predicate OccursAt(s: string, pat: string, i: nat)
  {
    i + |pat| <= |s| && s[i..i + |pat|] == pat
  }

  predicate Contains(s: string, pat: string)
  {
    exists i: nat | i <= |s| :: OccursAt(s, pat, i)
  }

  /** Ordinal `s.Replace(pat, rep)`: scans left to right and replaces every
      non-overlapping occurrence of `pat`. .NET rejects an empty `pat`. */
  function Replace(s: string, pat: string, rep: string): string
    requires pat != []
    decreases |s|
  {
    if |s| < |pat| then s
    else if s[..|pat|] == pat then rep + Replace(s[|pat|..], pat, rep)
    else [s[0]] + Replace(s[1..], pat, rep)
  }

  /** Replace finds the leftmost occurrence: when `pat` first occurs at `i`,
      the text before it is kept, that occurrence becomes `rep`, and the scan
      resumes after it. */
  lemma {:induction false} ReplaceLeftmost(s: string, pat: string, rep: string, i: nat)
    requires pat != []
    requires OccursAt(s, pat, i)
    requires forall j: nat :: j < i ==> !OccursAt(s, pat, j)
    ensures Replace(s, pat, rep) == s[..i] + rep + Replace(s[i + |pat|..], pat, rep)
  {
    if i == 0 {
      ReplaceAtStart(s, pat, rep);
    } else {
      assert !OccursAt(s, pat, 0);
      NoEarlierOccurrence(s, pat, i);
      OccurrenceInTail(s, pat, i);
      ReplaceLeftmost(s[1..], pat, rep, i - 1);
      LeftmostStep(s, pat, rep, i);
    }
  }

  /** The inductive step of `ReplaceLeftmost`: the kept first character goes
      in front of the tail's replacement. */
  lemma LeftmostStep(s: string, pat: string, rep: string, i: nat)
    requires pat != [] && 0 < i && OccursAt(s, pat, i) && !OccursAt(s, pat, 0)
    requires Replace(s[1..], pat, rep)
      == s[1..][..i - 1] + rep + Replace(s[1..][i - 1 + |pat|..], pat, rep)
    ensures Replace(s, pat, rep) == s[..i] + rep + Replace(s[i + |pat|..], pat, rep)
  {
    ReplaceKeepsFirst(s, pat, rep);
    TailSlices(s, i, |pat|);
    var x := Replace(s[i + |pat|..], pat, rep);
    assert Replace(s[1..], pat, rep) == s[1..][..i - 1] + rep + x;
    ConsConcat(Replace(s, pat, rep), Replace(s[1..], pat, rep), s[0], s[1..][..i - 1], s[..i], rep, x);
  }

  lemma ConsConcat(r: string, t: string, c: char, a: string, p: string, rep: string, x: string)
    requires r == [c] + t && t == a + rep + x && [c] + a == p
    ensures r == p + rep + x
  {
  }

  lemma ReplaceAtStart(s: string, pat: string, rep: string)
    requires pat != [] && OccursAt(s, pat, 0)
    ensures Replace(s, pat, rep) == s[..0] + rep + Replace(s[|pat|..], pat, rep)
  {
    assert s[..|pat|] == pat;
    assert s[..0] + rep == rep;
  }

  /** Where `pat` does not start `s`, Replace keeps the first character. */
  lemma ReplaceKeepsFirst(s: string, pat: string, rep: string)
    requires pat != [] && |s| >= |pat| && !OccursAt(s, pat, 0)
    ensures Replace(s, pat, rep) == [s[0]] + Replace(s[1..], pat, rep)
  {
    assert s[..|pat|] != pat;
  }

  lemma OccurrenceInTail(s: string, pat: string, i: nat)
    requires 0 < i && OccursAt(s, pat, i)
    ensures OccursAt(s[1..], pat, i - 1)
  {
    assert s[1..][i - 1..i - 1 + |pat|] == s[i..i + |pat|];
  }

  lemma TailSlices(s: string, i: nat, n: nat)
    requires 0 < i && i + n <= |s|
    ensures s[1..][i - 1 + n..] == s[i + n..]
    ensures [s[0]] + s[1..][..i - 1] == s[..i]
  {
  }

  lemma NoEarlierOccurrence(s: string, pat: string, i: nat)
    requires 0 < i <= |s|
    requires forall j: nat :: j < i ==> !OccursAt(s, pat, j)
    ensures forall j: nat :: j < i - 1 ==> !OccursAt(s[1..], pat, j)
  {
    forall j: nat | j < i - 1
      ensures !OccursAt(s[1..], pat, j)
    {
      assert !OccursAt(s, pat, j + 1);
      if j + |pat| <= |s[1..]| {
        assert s[1..][j..j + |pat|] == s[j + 1..j + 1 + |pat|];
      }
    }
  }

  /** A text in which the pattern does not occur is returned unchanged. */
  lemma {:induction false} ReplaceAbsent(s: string, pat: string, rep: string)
    requires pat != []
    requires !Contains(s, pat)
    ensures Replace(s, pat, rep) == s
  {
    if |s| >= |pat| {
      assert !OccursAt(s, pat, 0);
      forall i: nat | OccursAt(s[1..], pat, i)
        ensures OccursAt(s, pat, i + 1)
      {
        assert s[i + 1..i + 1 + |pat|] == s[1..][i..i + |pat|];
      }
      ReplaceAbsent(s[1..], pat, rep);
    }
  }

  /** Replacing a pattern by itself changes nothing. */
  lemma {:induction false} ReplaceSelf(s: string, pat: string)
    requires pat != []
    ensures Replace(s, pat, pat) == s
  {
    if |s| >= |pat| {
      if s[..|pat|] == pat {
        ReplaceSelf(s[|pat|..], pat);
        assert s == s[..|pat|] + s[|pat|..];
      } else {
        ReplaceSelf(s[1..], pat);
        assert s == [s[0]] + s[1..];
      }
    }
  }

  /** A text that holds exactly the pattern becomes exactly the replacement. */
  lemma ReplaceWhole(pat: string, rep: string)
    requires pat != []
    ensures Replace(pat, pat, rep) == rep
  {
    assert pat[..|pat|] == pat;
    assert Replace(pat[|pat|..], pat, rep) == [];
  }

  /** Up to the first replacement, the result agrees with the input: any
      prefix of the result either is a prefix of the input or already holds
      the first character of the replacement. */
  lemma {:induction false} ReplacePrefix(s: string, pat: string, rep: string, m: nat)
    requires pat != [] && rep != []
    requires m <= |Replace(s, pat, rep)|
    ensures (m <= |s| && Replace(s, pat, rep)[..m] == s[..m]) || rep[0] in Replace(s, pat, rep)[..m]
  {
    if |s| < |pat| || m == 0 {
    } else if s[..|pat|] == pat {
      assert Replace(s, pat, rep)[..m][0] == rep[0];
    } else {
      var r := Replace(s[1..], pat, rep);
      ReplacePrefix(s[1..], pat, rep, m - 1);
      assert Replace(s, pat, rep)[..m] == [s[0]] + r[..m - 1];
      if m - 1 <= |s[1..]| && r[..m - 1] == s[1..][..m - 1] {
        TailSlices(s, m, 0);
      } else {
        assert rep[0] in r[..m - 1];
      }
    }
  }

  /** Dropping a prefix keeps "every occurrence of `p` is one of `pat`". */
  lemma OccurrencesShift(s: string, pat: string, p: string, k: nat)
    requires k <= |s|
    requires forall i: nat :: OccursAt(s, p, i) ==> OccursAt(s, pat, i)
    ensures forall i: nat :: OccursAt(s[k..], p, i) ==> OccursAt(s[k..], pat, i)
  {
    forall i: nat | OccursAt(s[k..], p, i)
      ensures OccursAt(s[k..], pat, i)
    {
      assert s[k + i..k + i + |p|] == s[k..][i..i + |p|];
      assert OccursAt(s, p, k + i);
      assert s[k + i..k + i + |pat|] == s[k..][i..i + |pat|];
    }
  }

  /** An occurrence in `a + b` lies in `a`, lies in `b`, or covers the last
      character of `a`. */
  lemma NoOccurrenceInJoin(a: string, b: string, p: string)
    requires p != [] && a != [] && a[|a| - 1] !in p
    requires !Contains(a, p) && !Contains(b, p)
    ensures !Contains(a + b, p)
  {
    var r := a + b;
    forall i: nat | i <= |r|
      ensures !OccursAt(r, p, i)
    {
      if i + |p| > |r| {
      } else if i + |p| <= |a| {
        assert r[i..i + |p|] == a[i..i + |p|];
        assert !OccursAt(a, p, i);
      } else if i >= |a| {
        assert r[i..i + |p|] == b[i - |a|..i - |a| + |p|];
        assert !OccursAt(b, p, i - |a|);
      } else {
        assert r[i..i + |p|][|a| - 1 - i] == a[|a| - 1];
      }
    }
  }

  lemma OccurrenceCovers(r: string, p: string, i: nat, k: nat)
    requires OccursAt(r, p, i) && i <= k < i + |p|
    ensures r[k] in p
  {
    assert r[k] == r[i..i + |p|][k - i];
  }

  /** No occurrence of `p` survives replacing `pat` by `rep`, provided every
      occurrence of `p` in the input is one of `pat`, the replacement holds no
      `p`, and its first and last characters do not occur in `p` (so that no
      occurrence can straddle a replacement's boundary). With `p == pat`:
      every occurrence of the pattern is replaced. */
  lemma {:induction false} ReplaceLeavesNoOccurrence(s: string, pat: string, rep: string, p: string)
    requires pat != [] && p != [] && rep != []
    requires rep[0] !in p && rep[|rep| - 1] !in p
    requires !Contains(rep, p)
    requires forall i: nat :: OccursAt(s, p, i) ==> OccursAt(s, pat, i)
    ensures !Contains(Replace(s, pat, rep), p)
    decreases |s|
  {
    if |s| < |pat| {
    } else if s[..|pat|] == pat {
      OccurrencesShift(s, pat, p, |pat|);
      ReplaceLeavesNoOccurrence(s[|pat|..], pat, rep, p);
      NoOccurrenceInJoin(rep, Replace(s[|pat|..], pat, rep), p);
    } else {
      OccurrencesShift(s, pat, p, 1);
      ReplaceLeavesNoOccurrence(s[1..], pat, rep, p);
      NoOccurrenceAfterKeptChar(s, pat, rep, p);
    }
  }

  /** The step of `ReplaceLeavesNoOccurrence` where the first character is
      kept: an occurrence at index 0 of the result would be one in the input. */
  lemma NoOccurrenceAfterKeptChar(s: string, pat: string, rep: string, p: string)
    requires pat != [] && p != [] && rep != []
    requires |s| >= |pat| && s[..|pat|] != pat
    requires rep[0] !in p
    requires forall i: nat :: OccursAt(s, p, i) ==> OccursAt(s, pat, i)
    requires !Contains(Replace(s[1..], pat, rep), p)
    ensures !Contains(Replace(s, pat, rep), p)
  {
    assert !OccursAt(s, pat, 0);
    ReplaceKeepsFirst(s, pat, rep);
    NoLeadingOccurrence(s, pat, rep, p);
    NoOccurrenceInCons(s[0], Replace(s[1..], pat, rep), p);
  }

  /** A character put in front of a text without `p` creates an occurrence
      only at index 0. */
  lemma NoOccurrenceInCons(c: char, tail: string, p: string)
    requires p != []
    requires !OccursAt([c] + tail, p, 0)
    requires !Contains(tail, p)
    ensures !Contains([c] + tail, p)
  {
    var r := [c] + tail;
    forall i: nat | i <= |r|
      ensures !OccursAt(r, p, i)
    {
      if 0 < i && i + |p| <= |r| {
        assert r[i..i + |p|] == tail[i - 1..i - 1 + |p|];
        assert !OccursAt(tail, p, i - 1);
      }
    }
  }

  lemma NoLeadingOccurrence(s: string, pat: string, rep: string, p: string)
    requires pat != [] && p != [] && rep != []
    requires |s| >= |pat| && s[..|pat|] != pat
    requires rep[0] !in p
    requires forall i: nat :: OccursAt(s, p, i) ==> OccursAt(s, pat, i)
    ensures !OccursAt([s[0]] + Replace(s[1..], pat, rep), p, 0)
  {
    if OccursAt([s[0]] + Replace(s[1..], pat, rep), p, 0) {
      LeadingOccurrenceFromInput(s, pat, rep, p);
      assert false;
    }
  }

  /** An occurrence at index 0 of `[s[0]] + Replace(s[1..], ...)` that does
      not involve the replacement is one of the input. */
  lemma LeadingOccurrenceFromInput(s: string, pat: string, rep: string, p: string)
    requires pat != [] && p != [] && rep != [] && s != []
    requires rep[0] !in p
    requires OccursAt([s[0]] + Replace(s[1..], pat, rep), p, 0)
    ensures OccursAt(s, p, 0)
  {
    var t := s[1..];
    var tail := Replace(t, pat, rep);
    assert tail[..|p| - 1] == ([s[0]] + tail)[1..|p|];
    assert rep[0] !in tail[..|p| - 1];
    ReplacePrefix(t, pat, rep, |p| - 1);
    assert s[..|p|] == [s[0]] + t[..|p| - 1];
  }

  function LowerChar(c: char): char
  {
    if 'A' <= c <= 'Z' then (c as int + 32) as char else c
  }

  function Lower(s: string): (r: string)
    ensures |r| == |s|
    ensures forall i :: 0 <= i < |s| ==> r[i] == LowerChar(s[i])
  {
    seq(|s|, i requires 0 <= i < |s| => LowerChar(s[i]))
  }

  /** `string.Equals(a, b, StringComparison.OrdinalIgnoreCase)`, restricted
      to ASCII case folding. */
  predicate EqualsIgnoreCase(a: string, b: string)
  {
    Lower(a) == Lower(b)
  }

  /** Texts of different length, or whose first letters differ ignoring
      case, are not equal ignoring case. */
  lemma DifferIgnoringCase(a: string, b: string)
    requires a != [] && b != []
    requires |a| != |b| || LowerChar(a[0]) != LowerChar(b[0])
    ensures !EqualsIgnoreCase(a, b)
  {
    if |a| == |b| {
      assert Lower(a)[0] != Lower(b)[0];
    }
  }

  function DigitChar(d: nat): char
    requires d < 10
  {
    ('0' as int + d) as char
  }

  function NatToText(n: nat): (r: string)
    ensures r != []
    ensures forall i :: 0 <= i < |r| ==> '0' <= r[i] <= '9'
  {
    if n < 10 then [DigitChar(n)] else NatToText(n / 10) + [DigitChar(n % 10)]
  }

  /** `char.IsWhiteSpace`: the Unicode space, line and paragraph separators,
      the controls U+0009 to U+000D, and U+0085. */
  predicate IsWhiteSpace(c: char)
  {
    var n := c as int;
    (0x09 <= n <= 0x0D) || n == 0x20 || n == 0x85 || n == 0xA0 || n == 0x1680
    || (0x2000 <= n <= 0x200A) || n == 0x2028 || n == 0x2029 || n == 0x202F
    || n == 0x205F || n == 0x3000
  }

  /** A character `Boolean.Parse` trims from either end: white space or NUL. */
  predicate IsWhiteSpaceOrNull(c: char)
  {
    IsWhiteSpace(c) || c as int == 0
  }

  predicate AllWhiteSpaceOrNull(s: string)
  {
    forall k :: 0 <= k < |s| ==> IsWhiteSpaceOrNull(s[k])
  }

  /** The text without its leading white space and NUL characters. */
  function TrimStart(s: string): (r: string)
    ensures |r| <= |s| && r == s[|s| - |r|..]
    ensures AllWhiteSpaceOrNull(s[..|s| - |r|])
    ensures r != [] ==> !IsWhiteSpaceOrNull(r[0])
  {
    if s != [] && IsWhiteSpaceOrNull(s[0]) then TrimStart(s[1..]) else s
  }

  /** The text without its trailing white space and NUL characters. */
  function TrimEnd(s: string): (r: string)
    ensures |r| <= |s| && r == s[..|r|]
    ensures AllWhiteSpaceOrNull(s[|r|..])
    ensures r != [] ==> !IsWhiteSpaceOrNull(r[|r| - 1])
  {
    if s != [] && IsWhiteSpaceOrNull(s[|s| - 1]) then TrimEnd(s[..|s| - 1]) else s
  }

  /** `TrimWhiteSpaceAndNull`, as `Boolean.Parse` applies it. */
  function Trim(s: string): string
  {
    TrimEnd(TrimStart(s))
  }

  /** Leading padding does not change what `TrimStart` keeps. */
  lemma {:induction false} TrimStartPadded(p: string, u: string)
    requires AllWhiteSpaceOrNull(p)
    ensures TrimStart(p + u) == TrimStart(u)
  {
    if p != [] {
      assert (p + u)[0] == p[0] && IsWhiteSpaceOrNull(p[0]);
      assert (p + u)[1..] == p[1..] + u;
      assert forall k :: 0 <= k < |p[1..]| ==> p[1..][k] == p[k + 1];
      TrimStartPadded(p[1..], u);
    } else {
      assert p + u == u;
    }
  }

  /** Trailing padding does not change what `TrimEnd` keeps. */
  lemma {:induction false} TrimEndPadded(u: string, q: string)
    requires AllWhiteSpaceOrNull(q)
    ensures TrimEnd(u + q) == TrimEnd(u)
  {
    if q != [] {
      assert (u + q)[|u + q| - 1] == q[|q| - 1] && IsWhiteSpaceOrNull(q[|q| - 1]);
      assert (u + q)[..|u + q| - 1] == u + q[..|q| - 1];
      assert forall k :: 0 <= k < |q| - 1 ==> q[..|q| - 1][k] == q[k];
      TrimEndPadded(u, q[..|q| - 1]);
    } else {
      assert u + q == u;
    }
  }

  /** Trimming a text padded on both sides gives the text back, when the
      text neither starts nor ends with a character that would be trimmed. */
  lemma TrimPadded(p: string, t: string, q: string)
    requires AllWhiteSpaceOrNull(p) && AllWhiteSpaceOrNull(q)
    requires t != [] && !IsWhiteSpaceOrNull(t[0]) && !IsWhiteSpaceOrNull(t[|t| - 1])
    ensures Trim(p + t + q) == t
  {
    var u := t + q;
    assert p + t + q == p + u;
    TrimStartPadded(p, u);
    assert u[0] == t[0];
    assert TrimStart(u) == u;
    TrimEndPadded(t, q);
    assert TrimEnd(t) == t;
  }

  /** `long.ToString()` with the invariant culture. */
  function IntToText(i: int): string
  {
    if i < 0 then "-" + NatToText(-i) else NatToText(i)
  }
}
