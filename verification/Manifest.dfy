/** The archive manifest: one JSON object a line, written with non-ASCII characters as
    they are and read back by splitting the text into lines. */
module Manifest {
  import opened Text
  import opened Seqs
  import opened JsonText

  datatype Record = Record(threadId: string, bytes: nat, source: string, dest: string)

  // -------------------------------------------------------------------- writing

  /** One character under `ensure_ascii=False`: only quotes, backslashes and control
      characters are escaped. */
  function RawEscaped(c: char): string {
    if c == '"' || c == '\\' || c < ' ' then Escaped(c) else [c]
  }

  function RawAll(t: string): string {
    if t == [] then [] else RawEscaped(t[0]) + RawAll(t[1..])
  }

  function RawQuote(t: string): string {
    "\"" + RawAll(t) + "\""
  }

  const HEAD := "{\"thread_id\": "
  const BYTES := ", \"bytes\": "
  const FROM := ", \"from\": "
  const TO := ", \"to\": "

  function RecordLine(r: Record): string {
    HEAD + (RawQuote(r.threadId) + (BYTES + (Digits(r.bytes) +
        (FROM + (RawQuote(r.source) + (TO + (RawQuote(r.dest) + "}")))))))
  }

  // -------------------------------------------------------------------- reading

  /** A value read and the text after it. */
  datatype Got<T> = Got(value: T, rest: string)

  function Expect(t: string, word: string): Option<Got<()>> {
    if word <= t then Some(Got((), t[|word|..])) else Absent
  }

  /** The rest of a string literal and the text after its closing quote. */
  function ReadTail(t: string): Option<Got<string>>
    decreases |t|
  {
    if t == [] then Absent
    else if t[0] == '"' then Some(Got("", t[1..]))
    else
      var r := ReadChar(t);
      if r.Absent? then Absent
      else
        var tail := ReadTail(t[r.value.width..]);
        if tail.Some? then Some(Got([r.value.c] + tail.value.value, tail.value.rest)) else Absent
  }

  function ReadLiteral(t: string): Option<Got<string>> {
    if t != [] && t[0] == '"' then ReadTail(t[1..]) else Absent
  }

  function IsDigit(): char -> bool {
    (c: char) => '0' <= c <= '9'
  }

  function ValueOf(t: string): nat
    requires All(t, IsDigit())
  {
    if t == [] then 0
    else
      assert All(t[..|t| - 1], IsDigit()) && IsDigit()(t[|t| - 1]);
      ValueOf(t[..|t| - 1]) * 10 + (t[|t| - 1] as int - '0' as int)
  }

  function ReadNumber(t: string): Option<Got<nat>> {
    var n := Span(t, IsDigit());
    if n == 0 then Absent else Some(Got(ValueOf(t[..n]), t[n..]))
  }

  /** `json.loads` on a line of the manifest's shape. */
  function ReadRecord(line: string): Option<Record> {
    var a := Expect(line, HEAD);
    if a.Absent? then Absent else
    var id := ReadLiteral(a.value.rest);
    if id.Absent? then Absent else
    var b := Expect(id.value.rest, BYTES);
    if b.Absent? then Absent else
    var bytes := ReadNumber(b.value.rest);
    if bytes.Absent? then Absent else
    var c := Expect(bytes.value.rest, FROM);
    if c.Absent? then Absent else
    var source := ReadLiteral(c.value.rest);
    if source.Absent? then Absent else
    var d := Expect(source.value.rest, TO);
    if d.Absent? then Absent else
    var dest := ReadLiteral(d.value.rest);
    if dest.Absent? then Absent else
    if dest.value.rest == "}" then Some(Record(id.value.value, bytes.value.value, source.value.value,
        dest.value.value)) else Absent
  }

  // ----------------------------------------------------------------- round trip

  lemma ExpectWord(word: string, rest: string)
    ensures Expect(word + rest, word) == Some(Got((), rest))
  {
    assert (word + rest)[..|word|] == word;
  }

  lemma ReadRawEscaped(c: char, rest: string)
    ensures var t := RawEscaped(c) + rest; t != [] && t[0] != '"' && ReadChar(t) == Some(Read(c, |RawEscaped(c)|))
    ensures (RawEscaped(c) + rest)[|RawEscaped(c)|..] == rest
  {
    hide ReadUnicode, Escaped;
    if RawEscaped(c) == Escaped(c) {
      ReadEscaped(c, rest);
    }
  }

  lemma {:induction false} ReadTailOf(t: string, rest: string)
    ensures ReadTail(RawAll(t) + "\"" + rest) == Some(Got(t, rest))
  {
    if t == [] {
      assert RawAll(t) + "\"" + rest == "\"" + rest;
    } else {
      hide ReadChar, RawEscaped;
      var more := RawAll(t[1..]) + "\"" + rest;
      assert RawAll(t) + "\"" + rest == RawEscaped(t[0]) + more;
      ReadRawEscaped(t[0], more);
      ReadTailOf(t[1..], rest);
      assert [t[0]] + t[1..] == t;
    }
  }

  lemma ReadQuoted(t: string, rest: string)
    ensures ReadLiteral(RawQuote(t) + rest) == Some(Got(t, rest))
  {
    ReadTailOf(t, rest);
    assert (RawQuote(t) + rest)[1..] == RawAll(t) + "\"" + rest;
  }

  lemma {:induction false} DigitsAreDigits(n: nat)
    ensures Digits(n) != [] && All(Digits(n), IsDigit()) && ValueOf(Digits(n)) == n
  {
    if n >= 10 {
      DigitsAreDigits(n / 10);
      var t := Digits(n);
      assert t[..|t| - 1] == Digits(n / 10);
    } else {
      assert Digits(n)[..0] == [];
    }
  }

  lemma {:induction false} SpanOfDigits(t: string, rest: string)
    requires All(t, IsDigit()) && (rest == [] || !IsDigit()(rest[0]))
    ensures Span(t + rest, IsDigit()) == |t|
  {
    if t == [] {
      assert t + rest == rest;
    } else {
      assert (t + rest)[1..] == t[1..] + rest;
      SpanOfDigits(t[1..], rest);
    }
  }

  lemma ReadDigits(n: nat, rest: string)
    requires rest != [] && !IsDigit()(rest[0])
    ensures ReadNumber(Digits(n) + rest) == Some(Got(n, rest))
  {
    DigitsAreDigits(n);
    SpanOfDigits(Digits(n), rest);
    assert (Digits(n) + rest)[..|Digits(n)|] == Digits(n) && (Digits(n) + rest)[|Digits(n)|..] == rest;
  }

  /** A written line reads back as its record. */
  lemma ReadInvertsLine(r: Record)
    ensures ReadRecord(RecordLine(r)) == Some(r)
  {
    hide Expect, ReadLiteral, ReadNumber, RawQuote, Digits;
    var t8 := RawQuote(r.dest) + "}";
    var t7 := TO + t8;
    var t6 := RawQuote(r.source) + t7;
    var t5 := FROM + t6;
    var t4 := Digits(r.bytes) + t5;
    var t3 := BYTES + t4;
    var t2 := RawQuote(r.threadId) + t3;
    ExpectWord(HEAD, t2);
    ReadQuoted(r.threadId, t3);
    ExpectWord(BYTES, t4);
    ReadDigits(r.bytes, t5);
    ExpectWord(FROM, t6);
    ReadQuoted(r.source, t7);
    ExpectWord(TO, t8);
    ReadQuoted(r.dest, "}");
  }

  // ------------------------------------------------- a cut line does not read

  lemma ExpectMore(t: string, word: string, more: string)
    requires Expect(t, word).Some?
    ensures Expect(t + more, word) == Some(Got((), Expect(t, word).value.rest + more))
  {
    assert (t + more)[..|word|] == t[..|word|];
    assert (t + more)[|word|..] == t[|word|..] + more;
  }

  lemma HexAtMore(t: string, more: string)
    requires HexAt(t, 4).Some?
    ensures HexAt(t + more, 4) == HexAt(t, 4)
  {
    assert (t + more)[..4] == t[..4];
  }

  lemma ReadUnicodeMore(t: string, more: string)
    requires ReadUnicode(t).Some?
    ensures ReadUnicode(t + more) == ReadUnicode(t)
  {
    hide HexAt;
    var u := t + more;
    assert u[..2] == t[..2];
    HexAtMore(t[2..], more);
    assert u[2..] == t[2..] + more;
    if ReadUnicode(t).value.width == 12 {
      HexAtMore(t[8..], more);
      assert u[8..] == t[8..] + more;
      assert u[6..][..2] == t[6..][..2];
    }
  }

  lemma NeedsPrefix(t: string)
    requires ReadUnicode(t).Some?
    ensures |t| >= 2 && "\\u" <= t
  {
  }

  lemma ReadCharMore(t: string, more: string)
    requires t != [] && ReadChar(t).Some?
    ensures ReadChar(t + more) == ReadChar(t)
  {
    hide ReadUnicode;
    var u := t + more;
    assert u[0] == t[0] && (|t| >= 2 ==> u[1] == t[1]);
    if t[0] == '\\' && !(|t| >= 2 && ShortEscape(t[1]).Some?) {
      assert ReadUnicode(t).Some?;
      ReadUnicodeMore(t, more);
      assert |t| >= 2 && "\\u" <= t by {
        NeedsPrefix(t);
      }
    }
  }

  lemma {:induction false} ReadTailMore(t: string, more: string)
    requires ReadTail(t).Some?
    ensures ReadTail(t + more) == Some(Got(ReadTail(t).value.value, ReadTail(t).value.rest + more))
    decreases |t|
  {
    hide ReadChar;
    var u := t + more;
    assert u[0] == t[0];
    if t[0] == '"' {
      assert u[1..] == t[1..] + more;
    } else {
      var n := ReadChar(t).value.width;
      ReadCharMore(t, more);
      ReadTailMore(t[n..], more);
      assert u[n..] == t[n..] + more;
      assert ReadTail(u).Some?;
    }
  }

  lemma ReadLiteralMore(t: string, more: string)
    requires ReadLiteral(t).Some?
    ensures ReadLiteral(t + more) == Some(Got(ReadLiteral(t).value.value, ReadLiteral(t).value.rest + more))
  {
    hide ReadTail;
    var u := t + more;
    assert u[0] == t[0] && u[1..] == t[1..] + more;
    ReadTailMore(t[1..], more);
  }

  lemma ReadNumberMore(t: string, more: string)
    requires ReadNumber(t).Some? && ReadNumber(t).value.rest != []
    ensures ReadNumber(t + more) == Some(Got(ReadNumber(t).value.value, ReadNumber(t).value.rest + more))
  {
    var n := Span(t, IsDigit());
    var u := t + more;
    SpanOfDigits(t[..n], t[n..] + more);
    assert t[..n] + (t[n..] + more) == u;
    assert u[..n] == t[..n] && u[n..] == t[n..] + more;
  }

  /** No line that reads is a proper prefix of another. */
  lemma LinesArePrefixFree(line: string, more: string)
    requires ReadRecord(line).Some? && more != []
    ensures ReadRecord(line + more).Absent?
  {
    hide Expect, ReadLiteral, ReadNumber;
    var a := Expect(line, HEAD).value.rest;
    ExpectMore(line, HEAD, more);
    var id := ReadLiteral(a).value.rest;
    ReadLiteralMore(a, more);
    var b := Expect(id, BYTES).value.rest;
    ExpectMore(id, BYTES, more);
    var n := ReadNumber(b).value.rest;
    ExpectNonEmpty(n, FROM);
    ReadNumberMore(b, more);
    var c := Expect(n, FROM).value.rest;
    ExpectMore(n, FROM, more);
    var source := ReadLiteral(c).value.rest;
    ReadLiteralMore(c, more);
    var d := Expect(source, TO).value.rest;
    ExpectMore(source, TO, more);
    ReadLiteralMore(d, more);
    assert |"}" + more| > 1;
  }

  lemma ExpectNonEmpty(t: string, word: string)
    requires Expect(t, word).Some? && word != []
    ensures t != []
  {
  }

  // ------------------------------------------------------------ one line or more

  /** The line boundaries that JSON does not escape: NEL, LINE SEPARATOR and PARAGRAPH
      SEPARATOR. */
  predicate IsRawBreak(c: char) {
    c == '\U{85}' || c == '\U{2028}' || c == '\U{2029}'
  }

  predicate Clean(r: Record) {
    None(r.threadId, IsRawBreak) && None(r.source, IsRawBreak) && None(r.dest, IsRawBreak)
  }

  lemma PlainIsOneLine(t: string)
    requires All(t, IsPlain)
    ensures None(t, IsLineBreak)
  {
  }

  lemma RawEscapedBreaks(c: char)
    ensures None(RawEscaped(c), IsLineBreak) <==> !IsRawBreak(c)
  {
    hide Escaped;
    EscapedIsPlain(c);
    if c == '"' || c == '\\' || c < ' ' {
      PlainIsOneLine(Escaped(c));
    } else {
      assert RawEscaped(c)[0] == c;
    }
  }

  lemma NoneConcat(a: string, b: string)
    ensures None(a + b, IsLineBreak) <==> None(a, IsLineBreak) && None(b, IsLineBreak)
  {
    if None(a + b, IsLineBreak) {
      forall i | 0 <= i < |a| ensures !IsLineBreak(a[i]) {
        assert (a + b)[i] == a[i];
      }
      forall i | 0 <= i < |b| ensures !IsLineBreak(b[i]) {
        assert (a + b)[|a| + i] == b[i];
      }
    }
  }

  lemma {:induction false} RawAllBreaks(t: string)
    ensures None(RawAll(t), IsLineBreak) <==> None(t, IsRawBreak)
  {
    hide RawEscaped, IsLineBreak, IsRawBreak;
    if t != [] {
      RawEscapedBreaks(t[0]);
      RawAllBreaks(t[1..]);
      NoneConcat(RawEscaped(t[0]), RawAll(t[1..]));
      if None(t[1..], IsRawBreak) && !IsRawBreak(t[0]) {
        forall i | 0 <= i < |t| ensures !IsRawBreak(t[i]) {
          assert i > 0 ==> t[i] == t[1..][i - 1];
        }
      }
    }
  }

  lemma RawQuoteBreaks(t: string)
    ensures None(RawQuote(t), IsLineBreak) <==> None(t, IsRawBreak)
  {
    hide RawAll;
    RawAllBreaks(t);
    NoneConcat("\"", RawAll(t) + "\"");
    NoneConcat(RawAll(t), "\"");
    assert RawQuote(t) == "\"" + (RawAll(t) + "\"");
  }

  /** A record is written on one line exactly when its strings are clean. */
  lemma OneLineIffClean(r: Record)
    ensures None(RecordLine(r), IsLineBreak) <==> Clean(r)
  {
    hide None, RawQuote, Digits, IsLineBreak;
    var t8 := RawQuote(r.dest) + "}";
    var t7 := TO + t8;
    var t6 := RawQuote(r.source) + t7;
    var t5 := FROM + t6;
    var t4 := Digits(r.bytes) + t5;
    var t3 := BYTES + t4;
    var t2 := RawQuote(r.threadId) + t3;
    NoneConcat(HEAD, t2);
    NoneConcat(RawQuote(r.threadId), t3);
    NoneConcat(BYTES, t4);
    NoneConcat(Digits(r.bytes), t5);
    NoneConcat(FROM, t6);
    NoneConcat(RawQuote(r.source), t7);
    NoneConcat(TO, t8);
    NoneConcat(RawQuote(r.dest), "}");
    RawQuoteBreaks(r.threadId);
    RawQuoteBreaks(r.source);
    RawQuoteBreaks(r.dest);
    FixedTextIsOneLine(r.bytes);
  }

  lemma FixedTextIsOneLine(n: nat)
    ensures None(HEAD, IsLineBreak) && None(BYTES, IsLineBreak) && None(FROM, IsLineBreak) && None(TO, IsLineBreak)
    ensures None("}", IsLineBreak) && None(Digits(n), IsLineBreak)
  {
    DigitsAreDigits(n);
  }

  /** The first line of a manifest reads as its record, or, when the record was broken
      over lines, as nothing. */
  lemma FirstLine(r: Record, rest: string)
    ensures SplitLines(RecordLine(r) + "\n" + rest) != []
    ensures Clean(r) ==> SplitLines(RecordLine(r) + "\n" + rest) == [RecordLine(r)] + SplitLines(rest)
    ensures !Clean(r) ==> ReadRecord(SplitLines(RecordLine(r) + "\n" + rest)[0]).Absent?
  {
    hide RecordLine, ReadRecord, Clean;
    var line := RecordLine(r);
    OneLineIffClean(r);
    if Clean(r) {
      SplitLinesHead(line, rest);
    } else {
      var text := line + "\n" + rest;
      var n := LineLength(text);
      FirstBreak(line, "\n" + rest);
      assert text == line + ("\n" + rest);
      var piece := line[..n];
      assert SplitLines(text)[0] == text[..n] == piece;
      ReadInvertsLine(r);
      assert piece + line[n..] == line;
      if ReadRecord(piece).Some? {
        LinesArePrefixFree(piece, line[n..]);
      }
    }
  }

  lemma FirstBreak(line: string, rest: string)
    requires !None(line, IsLineBreak)
    ensures LineLength(line + rest) < |line|
  {
    var n := LineLength(line + rest);
    if n >= |line| {
      forall i | 0 <= i < |line| ensures !IsLineBreak(line[i]) {
        assert (line + rest)[..n][i] == line[i];
      }
      assert false;
    }
  }
}
