/** Python's `str` and `repr` of strings, lists and dictionaries. The tree code turns
    whole containers into text before it searches or tokenises them. */
module PyRepr {
  import opened Text
  import opened Memory
  import opened Seqs

  function HexDigit(n: nat): char
    requires n < 16
  {
    if n < 10 then ('0' as int + n) as char else ('a' as int + n - 10) as char
  }

  function Hex(n: nat, width: nat): (r: string)
    ensures |r| == width
  {
    if width == 0 then [] else Hex(n / 16, width - 1) + [HexDigit(n % 16)]
  }

  /** `c.isprintable()`: ASCII here, the rest from the character database. */
  predicate Printable(env: Env, c: char) {
    ' ' <= c <= '~' || (c > '\U{A0}' && env.printable(c))
  }

  function ReprChar(env: Env, quote: char, c: char): string {
    if c == quote || c == '\\' then ['\\', c]
    else if c == '\t' then "\\t"
    else if c == '\n' then "\\n"
    else if c == '\r' then "\\r"
    else if Printable(env, c) then [c]
    else if c as int < 0x100 then "\\x" + Hex(c as int, 2)
    else if c as int < 0x1_0000 then "\\u" + Hex(c as int, 4)
    else "\\U" + Hex(c as int, 8)
  }

  function ReprBody(env: Env, quote: char, t: string): string {
    if t == [] then [] else ReprChar(env, quote, t[0]) + ReprBody(env, quote, t[1..])
  }

  function QuoteFor(t: string): char {
    if '\'' in t && '"' !in t then '"' else '\''
  }

  function Repr(env: Env, t: string): string {
    [QuoteFor(t)] + ReprBody(env, QuoteFor(t), t) + [QuoteFor(t)]
  }

  function ReprList(env: Env, xs: seq<string>): string {
    "[" + Join(Mapped(xs, x => Repr(env, x)), ", ") + "]"
  }

  function ReprVal(env: Env, v: Val): string {
    match v case One(t) => Repr(env, t) case Many(xs) => ReprList(env, xs)
  }

  /** `str(v)`: a string is itself, a list is its repr. */
  function StrVal(env: Env, v: Val): string {
    match v case One(t) => t case Many(xs) => ReprList(env, xs)
  }

  function ReprPair(env: Env, p: Pair): string {
    Repr(env, p.key) + ": " + ReprVal(env, p.val)
  }

  function ReprDict(env: Env, d: seq<Pair>): string {
    "{" + Join(Mapped(d, p => ReprPair(env, p)), ", ") + "}"
  }

  function LinkDict(l: Link): seq<Pair> {
    [Pair("relation", One(l.relation)), Pair("target_node_id", One(l.target)), Pair("evidence", One(l.evidence))]
  }

  function ReprLink(env: Env, l: Link): string {
    ReprDict(env, LinkDict(l))
  }

  function ReprLinks(env: Env, ls: seq<Link>): string {
    "[" + Join(Mapped(ls, l => ReprLink(env, l)), ", ") + "]"
  }

  // -------------------------------------------------------------------- search

  /** A search term: at least one character, all of them token characters. */
  predicate IsTerm(s: string) {
    s != [] && All(s, IsTokenChar)
  }

  /** The term occurs in the text once the text is folded to lower case. */
  predicate Found(t: string, s: string) {
    Contains(Lower(t), s)
  }

  predicate AnyFound(ts: seq<string>, s: string) {
    exists i :: 0 <= i < |ts| && Found(ts[i], s)
  }

  /** No character of the text is spelled by Python's repr with letters or digits. */
  predicate Clean(env: Env, t: string) {
    forall i :: 0 <= i < |t| ==> Printable(env, t[i])
  }

  lemma LowerNone(t: string)
    requires None(t, IsTokenChar)
    ensures None(Lower(t), IsTokenChar)
  {
    forall i | 0 <= i < |t| ensures !IsTokenChar(Lower(t)[i]) {
      LowerKeepsTokenChars(t[i]);
    }
  }

  lemma FoundSplit(a: string, sep: string, b: string, s: string)
    requires IsTerm(s) && sep != [] && None(sep, IsTokenChar)
    ensures Found(a + sep + b, s) <==> Found(a, s) || Found(b, s)
  {
    LowerConcat(a + sep, b);
    LowerConcat(a, sep);
    LowerNone(sep);
    ContainsSplit(Lower(a), Lower(sep), Lower(b), s, IsTokenChar);
  }

  lemma FoundNowhere(s: string)
    requires s != []
    ensures !Found([], s)
  {
    assert !OccursAt([], s, 0);
  }

  /** Brackets and quotes around a text neither hide nor add a term. */
  lemma FoundWrapped(l: string, t: string, r: string, s: string)
    requires IsTerm(s) && l != [] && r != [] && None(l, IsTokenChar) && None(r, IsTokenChar)
    ensures Found(l + t + r, s) <==> Found(t, s)
  {
    FoundSplit([], l, t + r, s);
    FoundSplit(t, r, [], s);
    FoundNowhere(s);
    assert [] + l + (t + r) == l + t + r;
    assert t + r + [] == t + r;
  }

  lemma {:induction false} FoundJoin(parts: seq<string>, sep: string, s: string)
    requires IsTerm(s) && sep != [] && None(sep, IsTokenChar)
    ensures Found(Join(parts, sep), s) <==> AnyFound(parts, s)
  {
    if parts == [] {
      FoundNowhere(s);
    } else if |parts| == 1 {
      assert parts == [parts[0]];
    } else {
      FoundSplit(parts[0], sep, Join(parts[1..], sep), s);
      FoundJoin(parts[1..], sep, s);
      AnyFoundCons(parts, s);
    }
  }

  lemma AnyFoundCons(parts: seq<string>, s: string)
    requires parts != []
    ensures AnyFound(parts, s) <==> Found(parts[0], s) || AnyFound(parts[1..], s)
  {
    if AnyFound(parts, s) {
      var i :| 0 <= i < |parts| && Found(parts[i], s);
      if i > 0 {
        assert parts[1..][i - 1] == parts[i];
      }
    }
    if AnyFound(parts[1..], s) {
      var i :| 0 <= i < |parts[1..]| && Found(parts[1..][i], s);
      assert parts[i + 1] == parts[1..][i];
    }
  }

  /** What a clean character contributes: itself, or only characters outside tokens. */
  lemma ReprCharShape(env: Env, quote: char, c: char)
    requires Printable(env, c) && !IsTokenChar(quote)
    ensures IsTokenChar(c) ==> ReprChar(env, quote, c) == [c]
    ensures !IsTokenChar(c) ==> ReprChar(env, quote, c) != [] && None(ReprChar(env, quote, c), IsTokenChar)
  {
  }

  lemma {:induction false} FoundReprBody(env: Env, quote: char, pre: string, t: string, s: string)
    requires IsTerm(s) && Clean(env, t) && !IsTokenChar(quote) && All(pre, IsTokenChar)
    ensures Found(pre + ReprBody(env, quote, t), s) <==> Found(pre + t, s)
    decreases |t|
  {
    if t == [] {
    } else {
      ReprCharShape(env, quote, t[0]);
      assert Clean(env, t[1..]);
      var rest := ReprBody(env, quote, t[1..]);
      if IsTokenChar(t[0]) {
        FoundReprBody(env, quote, pre + [t[0]], t[1..], s);
        assert pre + ReprBody(env, quote, t) == pre + [t[0]] + rest;
        assert pre + t == pre + [t[0]] + t[1..];
      } else {
        var e := ReprChar(env, quote, t[0]);
        FoundReprBody(env, quote, [], t[1..], s);
        FoundSplit(pre, e, rest, s);
        FoundSplit(pre, [t[0]], t[1..], s);
        assert pre + ReprBody(env, quote, t) == pre + e + rest;
        assert pre + t == pre + [t[0]] + t[1..];
        assert [] + rest == rest && [] + t[1..] == t[1..];
      }
    }
  }

  /** For a clean text, searching its repr is searching the text. */
  lemma FoundRepr(env: Env, t: string, s: string)
    requires IsTerm(s) && Clean(env, t)
    ensures Found(Repr(env, t), s) <==> Found(t, s)
  {
    var q := QuoteFor(t);
    FoundWrapped([q], ReprBody(env, q, t), [q], s);
    FoundReprBody(env, q, [], t, s);
    assert [] + t == t && [] + ReprBody(env, q, t) == ReprBody(env, q, t);
  }

  predicate AllClean(env: Env, ts: seq<string>) {
    forall t :: t in ts ==> Clean(env, t)
  }

  lemma FoundReprList(env: Env, xs: seq<string>, s: string)
    requires IsTerm(s) && AllClean(env, xs)
    ensures Found(ReprList(env, xs), s) <==> AnyFound(xs, s)
  {
    var parts := Mapped(xs, x => Repr(env, x));
    FoundWrapped("[", Join(parts, ", "), "]", s);
    FoundJoin(parts, ", ", s);
    forall i | 0 <= i < |xs| ensures Found(parts[i], s) <==> Found(xs[i], s) {
      FoundRepr(env, xs[i], s);
    }
    if AnyFound(parts, s) {
      var i :| 0 <= i < |parts| && Found(parts[i], s);
      assert Found(xs[i], s);
    }
    if AnyFound(xs, s) {
      var i :| 0 <= i < |xs| && Found(xs[i], s);
      assert Found(parts[i], s);
    }
  }

  // ------------------------------------------------------------- case folding

  lemma {:induction false} RunsLower(t: string, p: char -> bool)
    requires forall c :: p(LowerChar(c)) == p(c)
    ensures Runs(Lower(t), p) == Mapped(Runs(t, p), Lower)
    decreases |t|
  {
    if t == [] {
    } else if !p(t[0]) {
      RunsLower(t[1..], p);
      assert Lower(t)[1..] == Lower(t[1..]);
    } else {
      var n := Span(t, p);
      SpanLower(t, p);
      RunsLower(t[n..], p);
      assert Lower(t)[n..] == Lower(t[n..]) && Lower(t)[..n] == Lower(t[..n]);
      assert Lower(t)[0] == LowerChar(t[0]);
    }
  }

  lemma {:induction false} JoinLower(parts: seq<string>, sep: string)
    requires Lower(sep) == sep
    ensures Join(Mapped(parts, Lower), sep) == Lower(Join(parts, sep))
  {
    if |parts| > 1 {
      JoinLower(parts[1..], sep);
      assert Mapped(parts, Lower)[1..] == Mapped(parts[1..], Lower);
      LowerConcat(parts[0] + sep, Join(parts[1..], sep));
      LowerConcat(parts[0], sep);
    }
  }

  /** Compacting white space before folding case, as the scorer does, changes no hit. */
  lemma FoundCompact(t: string, s: string)
    requires IsTerm(s)
    ensures Contains(Lower(Compact(t)), s) <==> Found(t, s)
  {
    var p := (c: char) => !IsSpace(c);
    RunsLower(t, p);
    JoinLower(Words(t), " ");
    assert Compact(Lower(t)) == Lower(Compact(t));
    ContainsCompact(Lower(t), s);
  }
}
