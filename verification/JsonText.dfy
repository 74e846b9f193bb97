/** JSON string literals as `json.dumps(..., ensure_ascii=True)` writes them and
    `json.loads` reads them (section 7 of RFC 8259). */
module JsonText {
  import opened Text
  import opened Seqs
  import opened PyRepr

  // -------------------------------------------------------------------- writing

  function Unicode(n: nat): string {
    "\\u" + Hex(n, 4)
  }

  /** One character inside a literal: printable ASCII stands for itself, the seven short
      escapes, and `\uXXXX` for the rest, as a surrogate pair beyond the basic plane. */
  function Escaped(c: char): string {
    if c == '"' then "\\\"" else if c == '\\' then "\\\\"
    else if c == '\n' then "\\n" else if c == '\r' then "\\r" else if c == '\t' then "\\t"
    else if c == '\U{C}' then "\\f" else if c == '\U{8}' then "\\b"
    else if ' ' <= c <= '~' then [c]
    else if c as int < 0x1_0000 then Unicode(c as int)
    else
      var v := c as int - 0x1_0000;
      Unicode(0xD800 + v / 0x400) + Unicode(0xDC00 + v % 0x400)
  }

  function EscapedAll(t: string): string {
    if t == [] then [] else Escaped(t[0]) + EscapedAll(t[1..])
  }

  function Quote(t: string): string {
    "\"" + EscapedAll(t) + "\""
  }

  predicate IsPlain(c: char) {
    ' ' <= c <= '~'
  }

  // -------------------------------------------------------------------- reading

  function HexValue(c: char): Option<nat> {
    if '0' <= c <= '9' then Some(c as int - '0' as int)
    else if 'a' <= c <= 'f' then Some(c as int - 'a' as int + 10)
    else if 'A' <= c <= 'F' then Some(c as int - 'A' as int + 10)
    else Absent
  }

  /** The number written by `width` hexadecimal digits at the head of `t`. */
  function HexAt(t: string, width: nat): (r: Option<nat>)
    ensures width == 4 && r.Some? ==> r.value < 0x1_0000
  {
    if |t| < width then Absent
    else
      var r := HexRead(t[..width]);
      assert width == 4 && r.Some? ==> r.value < 0x1_0000 by {
        if width == 4 {
          FourDigits(t[..width]);
        }
      }
      r
  }

  function HexRead(t: string): Option<nat> {
    if t == [] then Some(0)
    else
      var high, low := HexRead(t[..|t| - 1]), HexValue(t[|t| - 1]);
      if high.Some? && low.Some? then Some(high.value * 16 + low.value) else Absent
  }

  lemma FourDigits(t: string)
    requires |t| == 4
    ensures HexRead(t).Some? ==> HexRead(t).value < 0x1_0000
  {
    var a, b, c := t[..3], t[..3][..2], t[..3][..2][..1];
    assert c[..0] == [];
    assert HexRead(c).Some? ==> HexRead(c).value < 0x10;
    assert HexRead(b).Some? ==> HexRead(b).value < 0x100;
    assert HexRead(a).Some? ==> HexRead(a).value < 0x1000;
  }

  /** A character read and the number of input characters it took. */
  datatype Read = Read(c: char, width: nat)

  function ShortEscape(c: char): Option<char> {
    if c == '"' || c == '\\' || c == '/' then Some(c)
    else if c == 'b' then Some('\U{8}') else if c == 'f' then Some('\U{C}')
    else if c == 'n' then Some('\n') else if c == 'r' then Some('\r') else if c == 't' then Some('\t')
    else Absent
  }

  /** The code unit after a `\u`, joined with a following low surrogate. A lone surrogate
      is not a character. */
  function ReadUnicode(t: string): (r: Option<Read>)
    ensures r.Some? ==> 0 < r.value.width <= |t|
  {
    if !("\\u" <= t) then Absent
    else
      var unit := HexAt(t[2..], 4);
      if unit.Absent? then Absent
      else if 0xD800 <= unit.value < 0xDC00 then
        if !("\\u" <= t[6..]) then Absent
        else
          var low := HexAt(t[8..], 4);
          if low.Some? && 0xDC00 <= low.value < 0xE000 then
            Some(Read((0x1_0000 + (unit.value - 0xD800) * 0x400 + (low.value - 0xDC00)) as char, 12))
          else Absent
      else if 0xDC00 <= unit.value < 0xE000 then Absent
      else Some(Read(unit.value as char, 6))
  }

  function ReadChar(t: string): (r: Option<Read>)
    requires t != []
    ensures r.Some? ==> 0 < r.value.width <= |t|
  {
    if t[0] < ' ' then Absent
    else if t[0] != '\\' then Some(Read(t[0], 1))
    else if |t| >= 2 && ShortEscape(t[1]).Some? then Some(Read(ShortEscape(t[1]).value, 2))
    else ReadUnicode(t)
  }

  /** The rest of a literal, up to a closing quote that ends the text. */
  function ReadBody(t: string): Option<string>
    decreases |t|
  {
    if t == [] then Absent
    else if t[0] == '"' then if |t| == 1 then Some("") else Absent
    else
      var r := ReadChar(t);
      if r.Absent? then Absent
      else
        var rest := ReadBody(t[r.value.width..]);
        if rest.Some? then Some([r.value.c] + rest.value) else Absent
  }

  /** `json.loads(t)` when `t` is one string literal. */
  function ReadString(t: string): Option<string> {
    if t != [] && t[0] == '"' then ReadBody(t[1..]) else Absent
  }

  // ----------------------------------------------------------------- round trip

  lemma {:induction false} HexReadsBack(n: nat, width: nat)
    requires width == 0 ==> n == 0
    requires width > 0 ==> n / 16 < Power16(width - 1)
    ensures HexRead(Hex(n, width)) == Some(n)
  {
    if width > 0 {
      var t := Hex(n, width);
      assert t[..|t| - 1] == Hex(n / 16, width - 1);
      if width > 1 {
        assert Power16(width - 1) == 16 * Power16(width - 2);
        assert n / 16 / 16 < Power16(width - 2);
      } else {
        assert n / 16 == 0;
      }
      HexReadsBack(n / 16, width - 1);
    }
  }

  function Power16(k: nat): (r: nat)
    ensures r > 0
  {
    if k == 0 then 1 else 16 * Power16(k - 1)
  }

  lemma UnicodeReadsBack(n: nat, rest: string)
    requires n < 0x1_0000
    ensures var t := Unicode(n) + rest; "\\u" <= t && |t| >= 6 && t[6..] == rest && HexAt(t[2..], 4) == Some(n)
  {
    hide Hex, HexRead;
    var t := Unicode(n) + rest;
    assert Power16(3) == 0x1000 by { assert Power16(0) == 1 && Power16(1) == 16 && Power16(2) == 256; }
    HexReadsBack(n, 4);
    assert t[2..][..4] == Hex(n, 4);
  }

  lemma ReadEscaped(c: char, rest: string)
    ensures var t := Escaped(c) + rest; t != [] && t[0] != '"' && ReadChar(t) == Some(Read(c, |Escaped(c)|))
    ensures (Escaped(c) + rest)[|Escaped(c)|..] == rest
  {
    hide HexAt, Hex;
    var t := Escaped(c) + rest;
    if c as int >= 0x1_0000 {
      var v := c as int - 0x1_0000;
      var low := Unicode(0xDC00 + v % 0x400);
      UnicodeReadsBack(0xD800 + v / 0x400, low + rest);
      UnicodeReadsBack(0xDC00 + v % 0x400, rest);
      assert t == Unicode(0xD800 + v / 0x400) + (low + rest);
      assert t[8..] == t[6..][2..];
    } else if Escaped(c) == Unicode(c as int) {
      UnicodeReadsBack(c as int, rest);
    }
  }

  lemma {:induction false} ReadBodyInvertsEscapes(t: string)
    ensures ReadBody(EscapedAll(t) + "\"") == Some(t)
  {
    if t == [] {
      assert EscapedAll(t) + "\"" == "\"";
    } else {
      hide ReadChar, Escaped;
      var rest := EscapedAll(t[1..]) + "\"";
      assert EscapedAll(t) + "\"" == Escaped(t[0]) + rest;
      ReadEscaped(t[0], rest);
      ReadBodyInvertsEscapes(t[1..]);
      assert [t[0]] + t[1..] == t;
    }
  }

  /** Reading a written literal gives back the string, whatever characters it holds. */
  lemma ReadInvertsQuote(t: string)
    ensures ReadString(Quote(t)) == Some(t)
  {
    ReadBodyInvertsEscapes(t);
    assert Quote(t)[1..] == EscapedAll(t) + "\"";
  }

  // -------------------------------------------------------------- plain literals

  lemma {:induction false} HexIsPlain(n: nat, width: nat)
    ensures All(Hex(n, width), IsPlain)
  {
    if width > 0 {
      HexIsPlain(n / 16, width - 1);
    }
  }

  lemma EscapedIsPlain(c: char)
    ensures All(Escaped(c), IsPlain)
  {
    hide Hex;
    forall n: nat ensures All(Unicode(n), IsPlain) {
      HexIsPlain(n, 4);
    }
  }

  lemma {:induction false} EscapedAllIsPlain(t: string)
    ensures All(EscapedAll(t), IsPlain)
  {
    if t != [] {
      hide Escaped;
      EscapedIsPlain(t[0]);
      EscapedAllIsPlain(t[1..]);
    }
  }

  /** A literal is printable ASCII on one line, with no white space at its ends. */
  lemma QuoteIsPlain(t: string)
    ensures Quote(t) != [] && All(Quote(t), IsPlain) && None(Quote(t), IsLineBreak) && Trimmed(Quote(t))
  {
    hide EscapedAll;
    EscapedAllIsPlain(t);
    assert All(Quote(t), IsPlain);
  }
}
