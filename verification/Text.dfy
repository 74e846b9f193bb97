/** Strings as the Python code sees them: character classes, searching, maximal
    runs, joining and the line model of `str.splitlines`. */
module Text {

  // ---------------------------------------------------------------- characters

  /** `str.isspace` / the regular expression class `\s`. */
  predicate IsSpace(c: char) {
    || '\t' <= c <= '\r' || '\U{1C}' <= c <= ' ' || c == '\U{85}' || c == '\U{A0}'
    || c == '\U{1680}' || '\U{2000}' <= c <= '\U{200A}' || c == '\U{2028}'
    || c == '\U{2029}' || c == '\U{202F}' || c == '\U{205F}' || c == '\U{3000}'
  }

  /** The line boundaries of `str.splitlines`. */
  predicate IsLineBreak(c: char) {
    || '\n' <= c <= '\r' || '\U{1C}' <= c <= '\U{1E}' || c == '\U{85}'
    || c == '\U{2028}' || c == '\U{2029}'
  }

  predicate IsAlnum(c: char) {
    'a' <= c <= 'z' || 'A' <= c <= 'Z' || '0' <= c <= '9'
  }

  /** The token alphabet `[A-Za-z0-9_./-]`. */
  predicate IsTokenChar(c: char) {
    IsAlnum(c) || c == '_' || c == '.' || c == '/' || c == '-'
  }

  function LowerChar(c: char): char {
    if 'A' <= c <= 'Z' then (c as int + 32) as char else c
  }

  function Lower(t: string): (r: string)
    ensures |r| == |t|
  {
    seq(|t|, i requires 0 <= i < |t| => LowerChar(t[i]))
  }

  /** `t.replace(marker, put)`: leftmost occurrences, none overlapping. */
  function Replace(t: string, marker: string, put: string): string
    requires marker != []
  {
    if t == [] then []
    else if marker <= t then put + Replace(t[|marker|..], marker, put)
    else [t[0]] + Replace(t[1..], marker, put)
  }

  predicate All(t: string, p: char -> bool) {
    forall i :: 0 <= i < |t| ==> p(t[i])
  }

  predicate None(t: string, p: char -> bool) {
    forall i :: 0 <= i < |t| ==> !p(t[i])
  }

  lemma LowerConcat(a: string, b: string)
    ensures Lower(a + b) == Lower(a) + Lower(b)
  {
  }

  /** Folding a token character gives a token character and never makes one. */
  lemma LowerKeepsTokenChars(c: char)
    ensures IsTokenChar(LowerChar(c)) == IsTokenChar(c)
  {
  }

  // ----------------------------------------------------------------- searching

  predicate OccursAt(t: string, s: string, i: nat) {
    i + |s| <= |t| && t[i..i + |s|] == s
  }

  /** Python's `s in t`. */
  predicate Contains(t: string, s: string) {
    exists i :: 0 <= i <= |t| && OccursAt(t, s, i)
  }

  predicate AnyContains(ts: seq<string>, s: string) {
    exists i :: 0 <= i < |ts| && Contains(ts[i], s)
  }

  lemma AnyContainsConcat(a: seq<string>, b: seq<string>, s: string)
    ensures AnyContains(a + b, s) <==> AnyContains(a, s) || AnyContains(b, s)
  {
    if AnyContains(a, s) {
      var i :| 0 <= i < |a| && Contains(a[i], s);
      assert (a + b)[i] == a[i];
    }
    if AnyContains(b, s) {
      var i :| 0 <= i < |b| && Contains(b[i], s);
      assert (a + b)[|a| + i] == b[i];
    }
  }

  lemma OccursInside(a: string, t: string, b: string, s: string, i: nat)
    requires OccursAt(t, s, i)
    ensures OccursAt(a + t + b, s, |a| + i)
    ensures Contains(a + t + b, s)
  {
    var u := a + t + b;
    assert u[|a| + i..|a| + i + |s|] == t[i..i + |s|];
    assert OccursAt(u, s, |a| + i);
  }

  lemma OccursShift(a: string, b: string, s: string, j: nat)
    ensures OccursAt(a + b, s, |a| + j) <==> OccursAt(b, s, j)
  {
    if j + |s| <= |b| {
      assert (a + b)[|a| + j..|a| + j + |s|] == b[j..j + |s|];
    }
  }

  lemma ContainsPart(a: string, t: string, b: string, s: string)
    requires Contains(t, s)
    ensures Contains(a + t + b, s)
  {
    var i :| 0 <= i <= |t| && OccursAt(t, s, i);
    OccursInside(a, t, b, s, i);
  }

  lemma OccursAtChar(t: string, s: string, i: nat, k: nat)
    requires k < |s|
    ensures OccursAt(t, s, i) ==> i + k < |t| && t[i + k] == s[k]
  {
    if OccursAt(t, s, i) {
      assert t[i..i + |s|][k] == s[k];
    }
  }

  /** A text without the separator's characters is found in `a + sep + b`
      exactly when it is found on one side. */
  lemma ContainsSplit(a: string, sep: string, b: string, s: string, p: char -> bool)
    requires s != [] && sep != [] && All(s, p) && None(sep, p)
    ensures Contains(a + sep + b, s) <==> Contains(a, s) || Contains(b, s)
  {
    var t := a + sep + b;
    if Contains(t, s) {
      var i :| 0 <= i <= |t| && OccursAt(t, s, i);
      if i + |s| <= |a| {
        assert a[i..i + |s|] == t[i..i + |s|];
        assert OccursAt(a, s, i);
      } else if i >= |a| + |sep| {
        OccursShift(a + sep, b, s, i - |a| - |sep|);
      } else {
        var k := if i < |a| then |a| - i else 0;
        OccursAtChar(t, s, i, k);
        assert false;
      }
    }
    if Contains(a, s) {
      ContainsPart([], a, sep + b, s);
      assert [] + a + (sep + b) == t;
    }
    if Contains(b, s) {
      ContainsPart(a + sep, b, [], s);
      assert (a + sep) + b + [] == t;
    }
  }

  // ---------------------------------------------------------------------- runs

  /** Length of the longest prefix of characters in the class. */
  function Span(t: string, p: char -> bool): (n: nat)
    ensures n <= |t| && All(t[..n], p)
    ensures n < |t| ==> !p(t[n])
  {
    if t == [] || !p(t[0]) then 0
    else
      var m := Span(t[1..], p);
      assert t[..m + 1] == [t[0]] + t[1..][..m];
      m + 1
  }

  /** The maximal non-empty runs of class characters, left to right: `re.findall`
      of a one-class pattern, and `str.split()` for the non-space class. */
  function Runs(t: string, p: char -> bool): (r: seq<string>)
    ensures forall i :: 0 <= i < |r| ==> r[i] != [] && All(r[i], p)
  {
    if t == [] then []
    else if !p(t[0]) then Runs(t[1..], p)
    else
      var n := Span(t, p);
      [t[..n]] + Runs(t[n..], p)
  }

  lemma {:induction false} SpanConcat(a: string, b: string, p: char -> bool)
    requires b == [] || !p(b[0])
    ensures Span(a + b, p) == Span(a, p)
  {
    if a == [] {
      assert a + b == b;
    } else {
      SpanConcat(a[1..], b, p);
      assert (a + b)[1..] == a[1..] + b;
    }
  }

  /** A non-class character ends every run. */
  lemma {:induction false} RunsSplit(a: string, c: char, b: string, p: char -> bool)
    requires !p(c)
    ensures Runs(a + [c] + b, p) == Runs(a, p) + Runs(b, p)
    decreases |a|
  {
    var t := a + [c] + b;
    if a == [] {
      assert t[1..] == b;
    } else if !p(a[0]) {
      RunsSplit(a[1..], c, b, p);
      assert t[1..] == a[1..] + [c] + b;
    } else {
      var n := Span(a, p);
      SpanConcat(a, [c] + b, p);
      assert t == a + ([c] + b);
      RunsSplit(a[n..], c, b, p);
      assert t[n..] == a[n..] + [c] + b;
      assert t[..n] == a[..n];
      assert Runs(t, p) == [t[..n]] + Runs(t[n..], p);
    }
  }

  lemma {:induction false} RunsSkipSep(sep: string, b: string, p: char -> bool)
    requires None(sep, p)
    ensures Runs(sep + b, p) == Runs(b, p)
  {
    if sep == [] {
      assert sep + b == b;
    } else {
      RunsSkipSep(sep[1..], b, p);
      assert (sep + b)[1..] == sep[1..] + b;
    }
  }

  lemma RunsJoinSep(a: string, sep: string, b: string, p: char -> bool)
    requires sep != [] && None(sep, p)
    ensures Runs(a + sep + b, p) == Runs(a, p) + Runs(b, p)
  {
    RunsSplit(a, sep[0], sep[1..] + b, p);
    RunsSkipSep(sep[1..], b, p);
    assert a + sep + b == a + [sep[0]] + (sep[1..] + b);
  }

  lemma RunsDropSep(a: string, sep: string, p: char -> bool)
    requires None(sep, p)
    ensures Runs(a + sep, p) == Runs(a, p)
  {
    if sep == [] {
      assert a + sep == a;
    } else {
      RunsJoinSep(a, sep, [], p);
      assert a + sep + [] == a + sep;
    }
  }

  /** A non-empty text of class characters is found in `t` exactly when it is
      found inside one maximal run of `t`. */
  lemma {:induction false} ContainsIffInRun(t: string, s: string, p: char -> bool)
    requires s != [] && All(s, p)
    ensures Contains(t, s) <==> AnyContains(Runs(t, p), s)
    decreases |t|
  {
    if t == [] {
      assert !OccursAt(t, s, 0);
    } else if !p(t[0]) {
      ContainsSplit([], [t[0]], t[1..], s, p);
      assert [] + [t[0]] + t[1..] == t;
      assert !OccursAt([], s, 0);
      ContainsIffInRun(t[1..], s, p);
    } else {
      var n := Span(t, p);
      var rest := Runs(t[n..], p);
      AnyContainsConcat([t[..n]], rest, s);
      assert [t[..n]][0] == t[..n];
      assert AnyContains([t[..n]], s) <==> Contains(t[..n], s);
      if n == |t| {
        assert t[..n] == t && rest == [];
        assert !AnyContains([], s);
      } else {
        ContainsSplit(t[..n], [t[n]], t[n + 1..], s, p);
        assert t[..n] + [t[n]] + t[n + 1..] == t;
        assert t[n..][1..] == t[n + 1..];
        ContainsIffInRun(t[n + 1..], s, p);
      }
    }
  }

  lemma {:induction false} SpanLower(t: string, p: char -> bool)
    requires forall c :: p(LowerChar(c)) == p(c)
    ensures Span(Lower(t), p) == Span(t, p)
  {
    if t != [] {
      SpanLower(t[1..], p);
      assert Lower(t)[1..] == Lower(t[1..]);
    }
  }

  // ------------------------------------------------------------ words and joins

  function Join(parts: seq<string>, sep: string): string {
    if parts == [] then []
    else if |parts| == 1 then parts[0]
    else parts[0] + sep + Join(parts[1..], sep)
  }

  /** `t.split()`. */
  function Words(t: string): seq<string> {
    Runs(t, (c: char) => !IsSpace(c))
  }

  /** `re.sub(r"\s+", " ", t).strip()`. */
  function Compact(t: string): string {
    Join(Words(t), " ")
  }

  function IsWordChar(): char -> bool {
    (c: char) => 'a' <= c <= 'z' || '0' <= c <= '9'
  }

  /** `re.sub(r"[^a-z0-9]+", " ", t.lower()).strip()`: the lower-case words, one space
      between, as the passes compare summaries. */
  function Normalize(t: string): string {
    Join(Runs(Lower(t), IsWordChar()), " ")
  }

  lemma {:induction false} JoinConcat(a: seq<string>, b: seq<string>, sep: string)
    requires a != [] && b != []
    ensures Join(a + b, sep) == Join(a, sep) + sep + Join(b, sep)
  {
    assert (a + b)[1..] == a[1..] + b;
    if |a| == 1 {
      assert a[1..] + b == b;
    } else {
      JoinConcat(a[1..], b, sep);
      var x, y, z := a[0] + sep, Join(a[1..], sep), sep + Join(b, sep);
      assert x + (y + sep + Join(b, sep)) == (x + y) + sep + Join(b, sep);
    }
  }

  lemma {:induction false} RunsExtensional(t: string, p: char -> bool, q: char -> bool)
    requires forall c :: p(c) == q(c)
    ensures Span(t, p) == Span(t, q) && Runs(t, p) == Runs(t, q)
    decreases |t|
  {
    if t != [] {
      RunsExtensional(t[1..], p, q);
      if p(t[0]) {
        RunsExtensional(t[Span(t, p)..], p, q);
      }
    }
  }

  lemma {:induction false} RunsOfJoin(parts: seq<string>, sep: string, p: char -> bool)
    requires sep != [] && None(sep, p)
    ensures Runs(Join(parts, sep), p) == FlatRuns(parts, p)
  {
    if |parts| == 1 {
      assert parts[1..] == [];
    } else if parts != [] {
      RunsJoinSep(parts[0], sep, Join(parts[1..], sep), p);
      RunsOfJoin(parts[1..], sep, p);
    }
  }

  function FlatRuns(parts: seq<string>, p: char -> bool): seq<string> {
    if parts == [] then [] else Runs(parts[0], p) + FlatRuns(parts[1..], p)
  }

  /** Searching a joined text for a separator-free term is searching its parts. */
  lemma {:induction false} ContainsJoin(parts: seq<string>, sep: string, s: string, p: char -> bool)
    requires s != [] && sep != [] && All(s, p) && None(sep, p)
    ensures Contains(Join(parts, sep), s) <==> AnyContains(parts, s)
  {
    if parts == [] {
      assert !OccursAt([], s, 0);
    } else if |parts| == 1 {
      assert parts == [parts[0]];
    } else {
      ContainsSplit(parts[0], sep, Join(parts[1..], sep), s, p);
      ContainsJoin(parts[1..], sep, s, p);
      AnyContainsConcat([parts[0]], parts[1..], s);
      assert [parts[0]] + parts[1..] == parts;
      assert [parts[0]][0] == parts[0];
    }
  }

  /** Collapsing white space does not change which space-free terms are found. */
  lemma ContainsCompact(t: string, s: string)
    requires s != [] && All(s, (c: char) => !IsSpace(c))
    ensures Contains(Compact(t), s) <==> Contains(t, s)
  {
    var p := (c: char) => !IsSpace(c);
    ContainsIffInRun(t, s, p);
    ContainsJoin(Words(t), " ", s, p);
  }

  function DropLeft(t: string, p: char -> bool): (r: string)
    ensures r == [] || !p(r[0])
  {
    t[Span(t, p)..]
  }

  function DropRight(t: string, p: char -> bool): (r: string)
    ensures r <= t
    ensures r == [] || !p(r[|r| - 1])
    ensures All(t[|r|..], p)
  {
    if t == [] || !p(t[|t| - 1]) then t
    else
      var r := DropRight(t[..|t| - 1], p);
      assert t[|r|..] == t[..|t| - 1][|r|..] + [t[|t| - 1]];
      r
  }

  /** `t.strip()`. */
  function Strip(t: string): string {
    DropRight(DropLeft(t, IsSpace), IsSpace)
  }

  /** No white space at either end. */
  predicate Trimmed(t: string) {
    t == [] || (!IsSpace(t[0]) && !IsSpace(t[|t| - 1]))
  }

  lemma StripTrimmed(t: string)
    ensures Trimmed(t) ==> Strip(t) == t
    ensures Trimmed(Strip(t))
  {
    var l := DropLeft(t, IsSpace);
    var r := DropRight(l, IsSpace);
    if r != [] {
      assert r[0] == l[0];
    }
    if Trimmed(t) && t != [] {
      assert l == t;
      assert DropRight(t, IsSpace) == t;
    }
  }

  /** Where the first colon stands: the length of a line without one. */
  function ColonAt(line: string): nat {
    Span(line, (c: char) => c != ':')
  }

  lemma {:induction false} ColonAfter(key: string, tail: string)
    requires ':' !in key && tail != [] && tail[0] == ':'
    ensures ColonAt(key + tail) == |key|
  {
    if key == [] {
      assert key + tail == tail;
    } else {
      assert (key + tail)[1..] == key[1..] + tail;
      ColonAfter(key[1..], tail);
    }
  }

  lemma StripSpaced(t: string)
    requires Trimmed(t)
    ensures Strip(" " + t) == t
  {
    assert (" " + t)[1..] == t;
    assert DropLeft(" " + t, IsSpace) == t;
  }

  /** `str(n)`. */
  function Digits(n: nat): string {
    if n < 10 then [('0' as int + n) as char] else Digits(n / 10) + [('0' as int + n % 10) as char]
  }

  // --------------------------------------------------------------------- lines

  function LineLength(t: string): (n: nat)
    ensures n <= |t| && None(t[..n], IsLineBreak)
    ensures n < |t| ==> IsLineBreak(t[n])
  {
    if t == [] || IsLineBreak(t[0]) then 0
    else
      var m := LineLength(t[1..]);
      assert t[..m + 1] == [t[0]] + t[1..][..m];
      m + 1
  }

  /** Width of the break at the head of `t`: a carriage return and the line feed
      after it are one break. */
  function BreakWidth(t: string): nat
    requires t != []
  {
    if |t| >= 2 && t[0] == '\r' && t[1] == '\n' then 2 else 1
  }

  /** `t.splitlines()`. */
  function SplitLines(t: string): (r: seq<string>)
    ensures forall i :: 0 <= i < |r| ==> None(r[i], IsLineBreak)
    decreases |t|
  {
    if t == [] then []
    else
      var n := LineLength(t);
      if n == |t| then (assert t[..n] == t; [t])
      else [t[..n]] + SplitLines(t[n + BreakWidth(t[n..])..])
  }

  lemma {:induction false} LineLengthOf(a: string, b: string)
    requires None(a, IsLineBreak) && (b == [] || IsLineBreak(b[0]))
    ensures LineLength(a + b) == |a|
  {
    if a == [] {
      assert a + b == b;
    } else {
      LineLengthOf(a[1..], b);
      assert (a + b)[1..] == a[1..] + b;
    }
  }

  /** A line feed ends the line before it and starts the rest afresh. */
  lemma SplitLinesHead(line: string, rest: string)
    requires None(line, IsLineBreak)
    ensures SplitLines(line + "\n" + rest) == [line] + SplitLines(rest)
  {
    var t := line + "\n" + rest;
    LineLengthOf(line, "\n" + rest);
    assert t == line + ("\n" + rest);
    assert t[|line|..] == "\n" + rest;
    assert BreakWidth(t[|line|..]) == 1;
    assert t[|line| + 1..] == rest;
    assert t[..|line|] == line;
  }

  predicate BreakFree(lines: seq<string>) {
    forall i :: 0 <= i < |lines| ==> None(lines[i], IsLineBreak)
  }

  function Unlines(lines: seq<string>): string {
    if lines == [] then [] else lines[0] + "\n" + Unlines(lines[1..])
  }

  lemma {:induction false} SplitUnlines(lines: seq<string>, rest: string)
    requires BreakFree(lines)
    ensures SplitLines(Unlines(lines) + rest) == lines + SplitLines(rest)
  {
    if lines == [] {
      assert Unlines(lines) + rest == rest;
    } else {
      SplitUnlines(lines[1..], rest);
      UnlinesStep(lines, rest);
      ConsAssociates(lines, SplitLines(rest));
    }
  }

  lemma UnlinesStep(lines: seq<string>, rest: string)
    requires lines != [] && None(lines[0], IsLineBreak)
    ensures SplitLines(Unlines(lines) + rest) == [lines[0]] + SplitLines(Unlines(lines[1..]) + rest)
  {
    hide SplitLines;
    var tail := Unlines(lines[1..]);
    SplitLinesHead(lines[0], tail + rest);
    assert Unlines(lines) + rest == lines[0] + "\n" + (tail + rest);
  }

  lemma ConsAssociates<T>(a: seq<T>, b: seq<T>)
    requires a != []
    ensures [a[0]] + (a[1..] + b) == a + b
  {
  }

  // ------------------------------------------------------- lexicographic order

  /** Python's `a < b` on strings: order by code point. */
  predicate Less(a: string, b: string) {
    b != [] && (a == [] || a[0] < b[0] || (a[0] == b[0] && Less(a[1..], b[1..])))
  }

  lemma {:induction false} LessIrreflexive(a: string)
    ensures !Less(a, a)
  {
    if a != [] {
      LessIrreflexive(a[1..]);
    }
  }

  lemma {:induction false} LessTransitive(a: string, b: string, c: string)
    requires Less(a, b) && Less(b, c)
    ensures Less(a, c)
  {
    if a != [] && a[0] == b[0] && b[0] == c[0] {
      LessTransitive(a[1..], b[1..], c[1..]);
    }
  }

  lemma {:induction false} LessTotal(a: string, b: string)
    ensures a == b || Less(a, b) || Less(b, a)
  {
    if a != [] && b != [] && a[0] == b[0] {
      LessTotal(a[1..], b[1..]);
      assert a == [a[0]] + a[1..] && b == [b[0]] + b[1..];
    }
  }

  lemma LessAsymmetric(a: string, b: string)
    ensures !(Less(a, b) && Less(b, a))
  {
    if Less(a, b) && Less(b, a) {
      LessTransitive(a, b, a);
      LessIrreflexive(a);
    }
  }
}
