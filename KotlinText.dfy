/** The Kotlin standard-library string functions the view-models rely on, written out with
    the semantics of their JVM implementation: `trim`, `substringAfter`, `substringBefore`,
    `removeSurrounding`, `lines`, `joinToString`, `trimIndent` and `Long.toString`.
    A string is a sequence of Unicode scalar values. */
module KotlinText {
  import opened Common

  // ---------------------------------------------------------------------------------------
  // Whitespace and trim
  // ---------------------------------------------------------------------------------------

  /** Kotlin's `Char.isWhitespace()` on the JVM, which is
      `Character.isWhitespace(c) || Character.isSpaceChar(c)`: the ASCII controls TAB to CR,
      the separators U+001C to U+001F, and every space, line and paragraph separator. */
  predicate IsWhitespace(c: char) {
    c == ' ' || ('\t' <= c <= '\r') || ('\U{1C}' <= c <= '\U{1F}')
    || c == '\U{A0}' || c == '\U{1680}' || ('\U{2000}' <= c <= '\U{200A}')
    || c == '\U{2028}' || c == '\U{2029}' || c == '\U{202F}' || c == '\U{205F}' || c == '\U{3000}'
  }

  predicate AllWhitespace(s: string) {
    forall i :: 0 <= i < |s| ==> IsWhitespace(s[i])
  }

  /** Kotlin's `isBlank()`: empty or made of whitespace only. */
  predicate IsBlank(s: string) {
    AllWhitespace(s)
  }

  /** The number of leading whitespace characters (Kotlin's `indentWidth`). */
  function LeadingWhitespace(s: string): (k: nat)
    ensures k <= |s|
    ensures AllWhitespace(s[..k])
    ensures k < |s| ==> !IsWhitespace(s[k])
  {
    if s != [] && IsWhitespace(s[0]) then
      var k' := LeadingWhitespace(s[1..]);
      assert forall i :: 1 <= i < 1 + k' ==> s[i] == s[1..][i - 1];
      1 + k'
    else 0
  }

  /** The number of trailing whitespace characters. */
  function TrailingWhitespace(s: string): (k: nat)
    ensures k <= |s|
    ensures AllWhitespace(s[|s| - k..])
    ensures k < |s| ==> !IsWhitespace(s[|s| - k - 1])
  {
    if s != [] && IsWhitespace(s[|s| - 1]) then
      var k' := TrailingWhitespace(s[..|s| - 1]);
      assert forall i :: |s| - 1 - k' <= i < |s| - 1 ==> s[i] == s[..|s| - 1][i];
      1 + k'
    else 0
  }

  /** Kotlin's `trim()`: the text between the leading and the trailing whitespace. */
  function Trim(s: string): (r: string)
    ensures |r| <= |s|
    ensures var k := LeadingWhitespace(s);
      k + |r| <= |s| && r == s[k..k + |r|] && AllWhitespace(s[..k]) && AllWhitespace(s[k + |r|..])
    ensures r == [] || (!IsWhitespace(r[0]) && !IsWhitespace(r[|r| - 1]))
  {
    var k := LeadingWhitespace(s);
    var t := s[k..];
    var m := TrailingWhitespace(t);
    var r := t[..|t| - m];
    assert r == s[k..k + |r|];
    assert s[k + |r|..] == t[|t| - m..];
    assert r != [] ==> r[0] == s[k] && r[|r| - 1] == t[|t| - m - 1];
    r
  }

  /** Leading whitespace ends where the first non-whitespace character is. */
  lemma {:induction false} LeadingWhitespaceOf(a: string, x: string)
    requires AllWhitespace(a)
    requires x == [] || !IsWhitespace(x[0])
    ensures LeadingWhitespace(a + x) == |a|
    decreases |a|
  {
    if a == [] {
      assert a + x == x;
    } else {
      assert (a + x)[0] == a[0];
      assert (a + x)[1..] == a[1..] + x;
      LeadingWhitespaceOf(a[1..], x);
    }
  }

  /** A whitespace prefix is part of the indent, whatever follows it. */
  lemma LeadingWhitespaceAtLeast(a: string, x: string)
    requires AllWhitespace(a)
    ensures LeadingWhitespace(a + x) >= |a|
  {
  }

  /** Trailing whitespace starts after the last non-whitespace character. */
  lemma {:induction false} TrailingWhitespaceOf(x: string, b: string)
    requires AllWhitespace(b)
    requires x == [] || !IsWhitespace(x[|x| - 1])
    ensures TrailingWhitespace(x + b) == |b|
    decreases |b|
  {
    if b == [] {
      assert x + b == x;
    } else {
      var s := x + b;
      assert s[|s| - 1] == b[|b| - 1];
      assert s[..|s| - 1] == x + b[..|b| - 1];
      TrailingWhitespaceOf(x, b[..|b| - 1]);
    }
  }

  /** The text a string trims to is determined by its shape: whatever is cut off at either
      end is whitespace, and what is kept neither starts nor ends with whitespace. */
  lemma TrimUnique(a: string, r: string, b: string)
    requires AllWhitespace(a) && AllWhitespace(b)
    requires r == [] || (!IsWhitespace(r[0]) && !IsWhitespace(r[|r| - 1]))
    ensures Trim(a + r + b) == r
  {
    var s := a + r + b;
    if r == [] {
      assert s == (a + b) + [];
      LeadingWhitespaceOf(a + b, []);
    } else {
      assert s == a + (r + b);
      LeadingWhitespaceOf(a, r + b);
      assert s[|a|..] == r + b;
      TrailingWhitespaceOf(r, b);
      assert (r + b)[..|r|] == r;
    }
  }

  /** Trimming twice is trimming once. */
  lemma TrimIdempotent(s: string)
    ensures Trim(Trim(s)) == Trim(s)
  {
    var t := Trim(s);
    assert t == [] + t + [];
    TrimUnique([], t, []);
  }

  // ---------------------------------------------------------------------------------------
  // Searching: indexOf, substringAfter, substringBefore
  // ---------------------------------------------------------------------------------------

  predicate StartsWith(s: string, p: string) {
    |p| <= |s| && s[..|p|] == p
  }

  predicate EndsWith(s: string, q: string) {
    |q| <= |s| && s[|s| - |q|..] == q
  }

  /** `d` occurs in `s` starting at index `k`. */
  predicate OccursAt(s: string, d: string, k: nat) {
    k + |d| <= |s| && s[k..k + |d|] == d
  }

  ghost predicate Contains(s: string, d: string) {
    exists k: nat :: OccursAt(s, d, k)
  }

  /** The first occurrence of `d` in `s` at or after `from` (Kotlin's `indexOf`). */
  function IndexOfFrom(s: string, d: string, from: nat): (r: Option<nat>)
    decreases |s| - from
    ensures r.Some? ==> from <= r.value && OccursAt(s, d, r.value)
    ensures r.Some? ==> forall k: nat :: from <= k < r.value ==> !OccursAt(s, d, k)
    ensures r.None? ==> forall k: nat :: from <= k ==> !OccursAt(s, d, k)
  {
    if from + |d| > |s| then None
    else if s[from..from + |d|] == d then Some(from)
    else IndexOfFrom(s, d, from + 1)
  }

  function IndexOf(s: string, d: string): (r: Option<nat>)
    ensures r.Some? <==> Contains(s, d)
    ensures r.Some? ==> OccursAt(s, d, r.value) && forall k: nat :: k < r.value ==> !OccursAt(s, d, k)
  {
    var r := IndexOfFrom(s, d, 0);
    if r.Some? then assert OccursAt(s, d, r.value); r else r
  }

  /** Kotlin's `substringAfter(d)`: the text after the first occurrence of `d`, or the whole
      string when `d` does not occur. */
  function SubstringAfter(s: string, d: string): (r: string)
    ensures !Contains(s, d) ==> r == s
    ensures Contains(s, d) ==>
      && |d| + |r| <= |s| && r == s[|s| - |r|..]
      && OccursAt(s, d, |s| - |r| - |d|)
      && forall k: nat :: k < |s| - |r| - |d| ==> !OccursAt(s, d, k)
  {
    match IndexOf(s, d)
    case None => s
    case Some(i) => s[i + |d|..]
  }

  /** Kotlin's `substringBefore(d)`: the text before the first occurrence of `d`, or the
      whole string when `d` does not occur. */
  function SubstringBefore(s: string, d: string): (r: string)
    ensures !Contains(s, d) ==> r == s
    ensures Contains(s, d) ==>
      && |r| <= |s| && r == s[..|r|] && OccursAt(s, d, |r|)
      && forall k: nat :: k < |r| ==> !OccursAt(s, d, k)
  {
    match IndexOf(s, d)
    case None => s
    case Some(i) => s[..i]
  }

  /** An occurrence in a suffix is an occurrence in the whole string. */
  lemma ContainsInSuffix(s: string, j: nat, d: string)
    requires j <= |s| && Contains(s[j..], d)
    ensures Contains(s, d)
  {
    var k: nat :| OccursAt(s[j..], d, k);
    assert s[j + k..j + k + |d|] == s[j..][k..k + |d|];
    assert OccursAt(s, d, j + k);
  }

  /** An occurrence in a prefix is an occurrence in the whole string. */
  lemma ContainsInPrefix(s: string, j: nat, d: string)
    requires j <= |s| && Contains(s[..j], d)
    ensures Contains(s, d)
  {
    var k: nat :| OccursAt(s[..j], d, k);
    assert s[k..k + |d|] == s[..j][k..k + |d|];
    assert OccursAt(s, d, k);
  }

  /** A marker whose first character does not reappear inside it, such as `[EXPLANATION]`. */
  predicate IsMarker(d: string) {
    |d| >= 1 && forall t :: 1 <= t < |d| ==> d[t] != d[0]
  }

  /** When `p` does not contain the marker `d` and `q` starts with it, the first occurrence
      of `d` in `p + q` is the one at the seam: no occurrence can straddle it. */
  lemma MarkerFoundAtSeam(p: string, d: string, q: string)
    requires IsMarker(d) && !Contains(p, d) && StartsWith(q, d)
    ensures IndexOf(p + q, d) == Some(|p|)
  {
    var s := p + q;
    assert s[|p|..|p| + |d|] == q[..|d|];
    assert OccursAt(s, d, |p|);
    forall k: nat | k < |p| ensures !OccursAt(s, d, k) {
      if k + |d| <= |p| {
        assert s[k..k + |d|] == p[k..k + |d|];
        assert !OccursAt(p, d, k);
      } else {
        assert s[|p|] == d[0];
        if k + |d| <= |s| {
          assert s[k..k + |d|][|p| - k] == s[|p|];
        }
      }
    }
  }

  /** The text after the first marker `d` of `p + d + r`, when `p` does not hold it. */
  lemma AfterSeam(p: string, d: string, r: string)
    requires IsMarker(d) && !Contains(p, d)
    ensures SubstringAfter(p + d + r, d) == r
  {
    assert p + d + r == p + (d + r);
    MarkerFoundAtSeam(p, d, d + r);
    assert (p + d + r)[|p| + |d|..] == r;
  }

  /** The text before the first marker `d` of `p + d + r`, when `p` does not hold it. */
  lemma BeforeSeam(p: string, d: string, r: string)
    requires IsMarker(d) && !Contains(p, d)
    ensures SubstringBefore(p + d + r, d) == p
  {
    assert p + d + r == p + (d + r);
    MarkerFoundAtSeam(p, d, d + r);
    assert (p + d + r)[..|p|] == p;
  }

  // ---------------------------------------------------------------------------------------
  // removeSurrounding
  // ---------------------------------------------------------------------------------------

  /** Kotlin's `removeSurrounding(prefix, suffix)`: strips both only when the string is long
      enough to hold them without overlap, starts with `prefix` and ends with `suffix`. */
  function RemoveSurrounding(s: string, prefix: string, suffix: string): (r: string)
    ensures |s| >= |prefix| + |suffix| && StartsWith(s, prefix) && EndsWith(s, suffix)
      ==> s == prefix + r + suffix
    ensures !(|s| >= |prefix| + |suffix| && StartsWith(s, prefix) && EndsWith(s, suffix)) ==> r == s
  {
    if |s| >= |prefix| + |suffix| && StartsWith(s, prefix) && EndsWith(s, suffix) then
      s[|prefix|..|s| - |suffix|]
    else s
  }

  /** removeSurrounding undoes wrapping. */
  lemma RemoveSurroundingWrapped(prefix: string, x: string, suffix: string)
    ensures RemoveSurrounding(prefix + x + suffix, prefix, suffix) == x
  {
    var s := prefix + x + suffix;
    assert s[..|prefix|] == prefix;
    assert s[|s| - |suffix|..] == suffix;
    assert s == prefix + RemoveSurrounding(s, prefix, suffix) + suffix;
  }

  // ---------------------------------------------------------------------------------------
  // lines and joinToString
  // ---------------------------------------------------------------------------------------

  predicate IsLineBreak(c: char) {
    c == '\n' || c == '\r'
  }

  predicate NoLineBreak(s: string) {
    forall k :: 0 <= k < |s| ==> !IsLineBreak(s[k])
  }

  predicate AllWithoutLineBreak(ls: seq<string>) {
    forall i :: 0 <= i < |ls| ==> NoLineBreak(ls[i])
  }

  lemma NoLineBreakAppend(a: string, b: string)
    requires NoLineBreak(a) && NoLineBreak(b)
    ensures NoLineBreak(a + b)
  {
  }

  /** A text written as a concatenation of literal pieces. */
  function Concat(pieces: seq<string>): string
    decreases |pieces|
  {
    if pieces == [] then [] else pieces[0] + Concat(pieces[1..])
  }

  lemma {:induction false} NoLineBreakConcat(pieces: seq<string>)
    requires AllWithoutLineBreak(pieces)
    ensures NoLineBreak(Concat(pieces))
    decreases |pieces|
  {
    if pieces != [] {
      NoLineBreakConcat(pieces[1..]);
      NoLineBreakAppend(pieces[0], Concat(pieces[1..]));
    }
  }

  /** Kotlin's `lines()`: split at "\r\n", "\n" and "\r" (the first of these that matches at
      a position wins). There is always at least one line; "" gives [""]. */
  function Lines(s: string): (r: seq<string>)
    ensures |r| >= 1
    decreases |s|
  {
    if s == [] then [[]]
    else if s[0] == '\n' then [[]] + Lines(s[1..])
    else if s[0] == '\r' then
      if |s| > 1 && s[1] == '\n' then [[]] + Lines(s[2..]) else [[]] + Lines(s[1..])
    else
      var rest := Lines(s[1..]);
      [[s[0]] + rest[0]] + rest[1..]
  }

  /** No line that `lines()` returns holds a line break. */
  lemma {:induction false} LinesWithoutLineBreak(s: string)
    ensures AllWithoutLineBreak(Lines(s))
    decreases |s|
  {
    if s == [] {
    } else if s[0] == '\n' {
      LinesWithoutLineBreak(s[1..]);
      assert Lines(s)[1..] == Lines(s[1..]);
    } else if s[0] == '\r' {
      if |s| > 1 && s[1] == '\n' {
        LinesWithoutLineBreak(s[2..]);
        assert Lines(s)[1..] == Lines(s[2..]);
      } else {
        LinesWithoutLineBreak(s[1..]);
        assert Lines(s)[1..] == Lines(s[1..]);
      }
    } else {
      var rest := Lines(s[1..]);
      LinesWithoutLineBreak(s[1..]);
      assert NoLineBreak([s[0]] + rest[0]);
      assert Lines(s)[1..] == rest[1..];
    }
  }

  /** Kotlin's `joinToString(sep)`. */
  function Join(parts: seq<string>, sep: string): string
    decreases |parts|
  {
    if |parts| == 0 then []
    else if |parts| == 1 then parts[0]
    else parts[0] + sep + Join(parts[1..], sep)
  }

  lemma JoinAppend(a: seq<string>, b: seq<string>, sep: string)
    requires |a| >= 1 && |b| >= 1
    ensures Join(a + b, sep) == Join(a, sep) + sep + Join(b, sep)
    decreases |a|
  {
    if |a| == 1 {
      assert (a + b)[1..] == b;
    } else {
      assert (a + b)[1..] == a[1..] + b;
      JoinAppend(a[1..], b, sep);
    }
  }

  /** Joining lines without line breaks by a separator without line breaks gives one line. */
  lemma {:induction false} NoLineBreakJoin(parts: seq<string>, sep: string)
    requires AllWithoutLineBreak(parts) && NoLineBreak(sep)
    ensures NoLineBreak(Join(parts, sep))
    decreases |parts|
  {
    if |parts| >= 2 {
      NoLineBreakJoin(parts[1..], sep);
      NoLineBreakAppend(parts[0], sep);
      NoLineBreakAppend(parts[0] + sep, Join(parts[1..], sep));
    }
  }

  /** A text without line breaks is one line. */
  lemma {:induction false} LinesOfLine(a: string)
    requires NoLineBreak(a)
    ensures Lines(a) == [a]
    decreases |a|
  {
    if a != [] {
      LinesOfLine(a[1..]);
      assert [a[0]] + a[1..] == a;
    }
  }

  /** A line followed by "\n" starts a new line. */
  lemma {:induction false} LinesCons(a: string, rest: string)
    requires NoLineBreak(a)
    ensures Lines(a + "\n" + rest) == [a] + Lines(rest)
    decreases |a|
  {
    var s := a + "\n" + rest;
    if a == [] {
      assert s[0] == '\n' && s[1..] == rest;
    } else {
      assert s[0] == a[0] && !IsLineBreak(a[0]);
      assert s[1..] == a[1..] + "\n" + rest;
      LinesCons(a[1..], rest);
      assert [a[0]] + a[1..] == a;
    }
  }

  /** Splitting a "\n"-joined list of lines gives the lines back. */
  lemma {:induction false} LinesOfJoin(ls: seq<string>)
    requires |ls| >= 1 && AllWithoutLineBreak(ls)
    ensures Lines(Join(ls, "\n")) == ls
    decreases |ls|
  {
    if |ls| == 1 {
      LinesOfLine(ls[0]);
    } else {
      LinesCons(ls[0], Join(ls[1..], "\n"));
      LinesOfJoin(ls[1..]);
      assert [ls[0]] + ls[1..] == ls;
    }
  }

  /** Joining the lines of a text without "\r" with "\n" gives the text back. */
  lemma {:induction false} JoinOfLines(s: string)
    requires forall k :: 0 <= k < |s| ==> s[k] != '\r'
    ensures Join(Lines(s), "\n") == s
    decreases |s|
  {
    if s == [] {
    } else if s[0] == '\n' {
      JoinOfLines(s[1..]);
      assert Lines(s) == [[]] + Lines(s[1..]);
      assert Join(Lines(s), "\n") == [] + "\n" + Join(Lines(s[1..]), "\n") by {
        assert Lines(s)[1..] == Lines(s[1..]);
      }
      assert [s[0]] + s[1..] == s;
    } else {
      var rest := Lines(s[1..]);
      JoinOfLines(s[1..]);
      var r := Lines(s);
      assert r == [[s[0]] + rest[0]] + rest[1..];
      if |rest| == 1 {
        assert Join(r, "\n") == [s[0]] + rest[0];
      } else {
        assert r[1..] == rest[1..];
        assert Join(r, "\n") == [s[0]] + rest[0] + "\n" + Join(rest[1..], "\n");
        assert Join(rest, "\n") == rest[0] + "\n" + Join(rest[1..], "\n");
      }
      assert [s[0]] + s[1..] == s;
    }
  }

  // ---------------------------------------------------------------------------------------
  // trimIndent
  // ---------------------------------------------------------------------------------------

  /** The smallest indent of the non-blank lines, if there is a non-blank line. */
  function MinIndent(ls: seq<string>): Option<nat>
    decreases |ls|
  {
    if ls == [] then None
    else
      var rest := MinIndent(ls[1..]);
      if IsBlank(ls[0]) then rest
      else if rest.None? || LeadingWhitespace(ls[0]) <= rest.value then Some(LeadingWhitespace(ls[0]))
      else rest
  }

  /** There is a smallest indent exactly when some line is not blank; it bounds every
      non-blank line's indent from below and is the indent of one of them. */
  lemma {:induction false} MinIndentSpec(ls: seq<string>)
    ensures MinIndent(ls).None? <==> forall i :: 0 <= i < |ls| ==> IsBlank(ls[i])
    ensures MinIndent(ls).Some? ==>
      forall i :: 0 <= i < |ls| && !IsBlank(ls[i]) ==> MinIndent(ls).value <= LeadingWhitespace(ls[i])
    ensures MinIndent(ls).Some? ==>
      exists i :: 0 <= i < |ls| && !IsBlank(ls[i]) && LeadingWhitespace(ls[i]) == MinIndent(ls).value
    decreases |ls|
  {
    if ls != [] {
      MinIndentSpec(ls[1..]);
      assert forall i :: 1 <= i < |ls| ==> ls[i] == ls[1..][i - 1];
    }
  }

  /** Kotlin's `drop(n)` on a string. */
  function Drop(s: string, n: nat): (r: string)
    ensures n <= |s| ==> r == s[n..]
    ensures n > |s| ==> r == []
  {
    if n >= |s| then [] else s[n..]
  }

  /** Every line with its first `n` characters dropped. */
  function CutIndent(ls: seq<string>, n: nat): (r: seq<string>)
    ensures |r| == |ls|
    decreases |ls|
  {
    if ls == [] then [] else [Drop(ls[0], n)] + CutIndent(ls[1..], n)
  }

  lemma {:induction false} CutIndentAt(ls: seq<string>, n: nat)
    ensures forall i :: 0 <= i < |ls| ==> CutIndent(ls, n)[i] == Drop(ls[i], n)
    decreases |ls|
  {
    if ls != [] {
      CutIndentAt(ls[1..], n);
    }
  }

  /** The lines trimIndent keeps: a blank first line and a blank last line are removed. */
  function KeptLines(ls: seq<string>): seq<string> {
    if |ls| == 0 then []
    else if |ls| == 1 then (if IsBlank(ls[0]) then [] else ls)
    else
      (if IsBlank(ls[0]) then [] else [ls[0]]) + ls[1..|ls| - 1]
      + (if IsBlank(ls[|ls| - 1]) then [] else [ls[|ls| - 1]])
  }

  /** Kotlin's `trimIndent()`: drop a blank first and last line, then remove the smallest
      indent of the non-blank lines from every line. In Kotlin this runs on the string after
      interpolation, so interpolated lines take part in the smallest indent. */
  function TrimIndent(s: string): string {
    var ls := Lines(s);
    Join(CutIndent(KeptLines(ls), MinIndent(ls).GetOr(0)), "\n")
  }

  /** A raw string literal opened and closed on lines of their own is the "\n"-join of an
      empty first line, its body lines and the closing line's padding; splitting it gives
      those lines back. */
  lemma TemplateLines(body: seq<string>, pad: string)
    requires AllWithoutLineBreak(body) && NoLineBreak(pad)
    ensures Lines(Join([[]] + body + [pad], "\n")) == [[]] + body + [pad]
  {
    var ls := [[]] + body + [pad];
    assert AllWithoutLineBreak(ls) by {
      forall i | 0 <= i < |ls| ensures NoLineBreak(ls[i]) {
        if 1 <= i < |ls| - 1 { assert ls[i] == body[i - 1]; }
      }
    }
    LinesOfJoin(ls);
  }

  lemma KeptTemplateLines(body: seq<string>, pad: string)
    requires |body| >= 1 && IsBlank(pad)
    ensures KeptLines([[]] + body + [pad]) == body
  {
    var ls := [[]] + body + [pad];
    assert IsBlank(ls[0]) && ls[|ls| - 1] == pad;
    assert ls[1..|ls| - 1] == body;
  }

  /** The smallest indent of the template's lines is the smallest indent of its body. */
  lemma MinIndentOfTemplate(body: seq<string>, pad: string, n: nat)
    requires IsBlank(pad)
    requires forall i :: 0 <= i < |body| && !IsBlank(body[i]) ==> n <= LeadingWhitespace(body[i])
    requires exists i :: 0 <= i < |body| && !IsBlank(body[i]) && LeadingWhitespace(body[i]) == n
    ensures MinIndent([[]] + body + [pad]) == Some(n)
  {
    var ls := [[]] + body + [pad];
    TailOfCons([], body, [pad]);
    MinIndentBlankFirst(ls);
    MinIndentBlankLast(body, pad);
    MinIndentIs(body, n);
  }

  lemma TailOfCons<T>(x: T, b: seq<T>, c: seq<T>)
    ensures ([x] + b + c)[1..] == b + c
  {
  }

  /** A blank first line does not change the smallest indent. */
  lemma MinIndentBlankFirst(ls: seq<string>)
    requires ls != [] && IsBlank(ls[0])
    ensures MinIndent(ls) == MinIndent(ls[1..])
  {
  }

  /** A blank last line does not change the smallest indent. */
  lemma {:induction false} MinIndentBlankLast(ls: seq<string>, pad: string)
    requires IsBlank(pad)
    ensures MinIndent(ls + [pad]) == MinIndent(ls)
    decreases |ls|
  {
    if ls != [] {
      assert (ls + [pad])[1..] == ls[1..] + [pad];
      MinIndentBlankLast(ls[1..], pad);
    }
  }

  /** The smallest indent is the one bounding every non-blank line's indent from below and
      met by one of them. */
  lemma MinIndentIs(ls: seq<string>, n: nat)
    requires forall i :: 0 <= i < |ls| && !IsBlank(ls[i]) ==> n <= LeadingWhitespace(ls[i])
    requires exists i :: 0 <= i < |ls| && !IsBlank(ls[i]) && LeadingWhitespace(ls[i]) == n
    ensures MinIndent(ls) == Some(n)
  {
    var w :| 0 <= w < |ls| && !IsBlank(ls[w]) && LeadingWhitespace(ls[w]) == n;
    MinIndentSpec(ls);
    var m := MinIndent(ls);
    assert m.Some?;
    var v := m.value;
    assert v <= n;
    var j :| 0 <= j < |ls| && !IsBlank(ls[j]) && LeadingWhitespace(ls[j]) == v;
    assert n <= v;
  }

  /** The shape of a raw string literal opened and closed on lines of their own: when every
      non-blank body line is indented by at least `n` and one by exactly `n`, trimIndent
      removes the opening and closing lines and `n` characters from every body line. */
  lemma TrimIndentOfTemplate(body: seq<string>, pad: string, n: nat)
    requires |body| >= 1 && AllWithoutLineBreak(body)
    requires NoLineBreak(pad) && IsBlank(pad)
    requires forall i :: 0 <= i < |body| && !IsBlank(body[i]) ==> n <= LeadingWhitespace(body[i])
    requires exists i :: 0 <= i < |body| && !IsBlank(body[i]) && LeadingWhitespace(body[i]) == n
    ensures TrimIndent(Join([[]] + body + [pad], "\n")) == Join(CutIndent(body, n), "\n")
  {
    TemplateLines(body, pad);
    KeptTemplateLines(body, pad);
    MinIndentOfTemplate(body, pad, n);
  }

  function Spaces(n: nat): (r: string)
    ensures |r| == n && AllWhitespace(r) && NoLineBreak(r)
  {
    seq(n, _ => ' ')
  }

  lemma SpacesAppend(a: nat, b: nat)
    ensures Spaces(a + b) == Spaces(a) + Spaces(b)
  {
  }

  /** Removing `n` of the `n + m` spaces before a text leaves `m` of them. */
  lemma IndentedDeeper(x: string, n: nat, m: nat)
    ensures IndentedLine(Spaces(n + m) + x, Spaces(m) + x, n)
  {
    SpacesAppend(n, m);
    assert Spaces(n) + Spaces(m) + x == Spaces(n) + (Spaces(m) + x);
  }

  /** One line of an indented template: `n` spaces before the text, or an empty line. */
  predicate IndentedLine(line: string, x: string, n: nat) {
    line == Spaces(n) + x || (line == [] && x == [])
  }

  lemma IndentedLineFacts(line: string, x: string, n: nat)
    requires IndentedLine(line, x, n) && NoLineBreak(x)
    ensures NoLineBreak(line)
    ensures !IsBlank(line) ==> n <= LeadingWhitespace(line)
    ensures Drop(line, n) == x
    ensures x != [] && !IsWhitespace(x[0]) ==> !IsBlank(line) && LeadingWhitespace(line) == n
  {
    if line == Spaces(n) + x {
      NoLineBreakAppend(Spaces(n), x);
      LeadingWhitespaceAtLeast(Spaces(n), x);
      assert line[n..] == x;
      if x != [] && !IsWhitespace(x[0]) {
        LeadingWhitespaceOf(Spaces(n), x);
        assert line[n] == x[0];
      }
    }
  }

  lemma CutIndentOf(body: seq<string>, xs: seq<string>, n: nat)
    requires |body| == |xs| && forall k :: 0 <= k < |xs| ==> Drop(body[k], n) == xs[k]
    ensures CutIndent(body, n) == xs
  {
    var cut := CutIndent(body, n);
    CutIndentAt(body, n);
    assert forall k :: 0 <= k < |xs| ==> cut[k] == xs[k];
  }

  /** A raw string literal whose body lines are indented by `n` spaces (empty lines left
      empty), at least one of them starting with a non-whitespace character: trimIndent gives
      back the lines without the indentation. */
  lemma TrimIndentOfIndented(body: seq<string>, xs: seq<string>, n: nat, pad: string)
    requires |body| == |xs| >= 1 && AllWithoutLineBreak(xs)
    requires forall k :: 0 <= k < |xs| ==> IndentedLine(body[k], xs[k], n)
    requires exists k :: 0 <= k < |xs| && xs[k] != [] && !IsWhitespace(xs[k][0])
    requires NoLineBreak(pad) && IsBlank(pad)
    ensures TrimIndent(Join([[]] + body + [pad], "\n")) == Join(xs, "\n")
  {
    forall k | 0 <= k < |xs|
      ensures NoLineBreak(body[k])
      ensures !IsBlank(body[k]) ==> n <= LeadingWhitespace(body[k])
      ensures Drop(body[k], n) == xs[k]
    {
      IndentedLineFacts(body[k], xs[k], n);
    }
    assert AllWithoutLineBreak(body);
    var w :| 0 <= w < |xs| && xs[w] != [] && !IsWhitespace(xs[w][0]);
    IndentedLineFacts(body[w], xs[w], n);
    assert 0 <= w < |body| && !IsBlank(body[w]) && LeadingWhitespace(body[w]) == n;
    TrimIndentOfTemplate(body, pad, n);
    CutIndentOf(body, xs, n);
  }

  /** A template whose lines already start at the margin, one of them (line `w`) with a
      printing character: `trimIndent` only drops the opening and the closing line. */
  lemma TrimIndentOfFlush(body: seq<string>, w: nat, pad: string)
    requires AllWithoutLineBreak(body)
    requires w < |body| && body[w] != [] && !IsWhitespace(body[w][0])
    requires NoLineBreak(pad) && IsBlank(pad)
    ensures TrimIndent(Join([[]] + body + [pad], "\n")) == Join(body, "\n")
  {
    assert Spaces(0) == [];
    assert forall k :: 0 <= k < |body| ==> IndentedLine(body[k], body[k], 0);
    TrimIndentOfIndented(body, body, 0, pad);
  }

  // ---------------------------------------------------------------------------------------
  // Long.toString
  // ---------------------------------------------------------------------------------------

  predicate IsDigit(c: char) {
    '0' <= c <= '9'
  }

  function DigitChar(d: nat): (c: char)
    requires d < 10
    ensures IsDigit(c)
  {
    ('0' as int + d) as char
  }

  function DigitValue(c: char): (d: nat)
    requires IsDigit(c)
    ensures d < 10 && DigitChar(d) == c
  {
    c as int - '0' as int
  }

  /** Decimal digits of a natural number, most significant first, without leading zeros. */
  function NatToString(n: nat): (r: string)
    ensures |r| >= 1 && forall k :: 0 <= k < |r| ==> IsDigit(r[k])
    decreases n
  {
    if n < 10 then [DigitChar(n)] else NatToString(n / 10) + [DigitChar(n % 10)]
  }

  /** Kotlin's `Long.toString()`: a minus sign for negative numbers, then the decimal digits. */
  function IntToString(n: int): (r: string)
    ensures |r| >= 1
    ensures forall k :: 0 <= k < |r| ==> IsDigit(r[k]) || (k == 0 && r[k] == '-')
  {
    if n < 0 then "-" + NatToString(-n) else NatToString(n)
  }

  /** Reads decimal digits back. */
  function ParseNat(s: string): nat
    requires forall k :: 0 <= k < |s| ==> IsDigit(s[k])
    decreases |s|
  {
    if s == [] then 0 else ParseNat(s[..|s| - 1]) * 10 + DigitValue(s[|s| - 1])
  }

  /** Reads an optional minus sign and decimal digits back. */
  function ParseInt(s: string): int
    requires forall k :: 0 <= k < |s| ==> IsDigit(s[k]) || (k == 0 && s[k] == '-')
  {
    if s != [] && s[0] == '-' then -(ParseNat(s[1..]) as int) else ParseNat(s)
  }

  lemma {:induction false} ParseNatToString(n: nat)
    ensures ParseNat(NatToString(n)) == n
    decreases n
  {
    if n >= 10 {
      var s := NatToString(n);
      assert s[..|s| - 1] == NatToString(n / 10);
      ParseNatToString(n / 10);
    }
  }

  /** Long.toString loses nothing: the number can be read back from its text. */
  lemma ParseIntToString(n: int)
    ensures ParseInt(IntToString(n)) == n
  {
    if n < 0 {
      ParseNatToString(-n);
      assert IntToString(n)[1..] == NatToString(-n);
    } else {
      ParseNatToString(n);
    }
  }

  lemma IntToStringInjective(a: int, b: int)
    requires IntToString(a) == IntToString(b)
    ensures a == b
  {
    ParseIntToString(a);
    ParseIntToString(b);
  }
}
