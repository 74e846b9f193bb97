/** The front matter block: its printer, its parser, and how far one undoes the other. */
module FrontMatter {
  import opened Text
  import opened Seqs
  import opened JsonText

  /** One `key: value` pair; a dictionary is the sequence of its pairs in order. */
  datatype Field = Field(key: string, value: string)

  // -------------------------------------------------------------------- printing

  const FENCE := "---"

  function FieldLine(f: Field): string {
    f.key + ": " + Quote(f.value)
  }

  function FieldLines(fields: seq<Field>): seq<string> {
    Mapped(fields, (f: Field) => FieldLine(f))
  }

  function BlockLines(fields: seq<Field>): seq<string> {
    [FENCE] + FieldLines(fields) + [FENCE]
  }

  /** `render_frontmatter`. */
  method RenderFrontmatter(fields: seq<Field>) returns (r: string)
    ensures r == Join(BlockLines(fields), "\n")
  {
    var lines := [FENCE];
    for i := 0 to |fields|
      invariant lines == [FENCE] + FieldLines(fields[..i])
    {
      assert fields[..i + 1] == fields[..i] + [fields[i]];
      lines := lines + [FieldLine(fields[i])];
    }
    assert fields[..|fields|] == fields;
    lines := lines + [FENCE];
    r := Join(lines, "\n");
  }

  // --------------------------------------------------------------------- parsing

  datatype Page = Page(metadata: map<string, string>, body: string)

  /** The value of a line: a JSON string literal, or `other` for any other text (a JSON
      value of another kind as text, or the text without its quotes). */
  function ValueOf(raw: string, other: string -> string): string {
    match ReadString(Strip(raw))
    case Some(value) => value
    case Absent => other(Strip(raw))
  }

  function Record(line: string, metadata: map<string, string>, other: string -> string): map<string, string> {
    var n := ColonAt(line);
    if n == |line| then metadata else metadata[Strip(line[..n]) := ValueOf(line[n + 1..], other)]
  }

  /** The metadata of the lines before the closing fence, and the lines after it. */
  function Scan(lines: seq<string>, metadata: map<string, string>, other: string -> string): Option<(map<string,
      string>, seq<string>)>
    decreases |lines|
  {
    if lines == [] then Absent
    else if Strip(lines[0]) == FENCE then Some((metadata, lines[1..]))
    else Scan(lines[1..], Record(lines[0], metadata, other), other)
  }

  function Parse(text: string, other: string -> string): Page {
    if !(FENCE <= text) then Page(map[], text)
    else
      var found := Scan(SplitLines(text)[1..], map[], other);
      if found.Some? then Page(found.value.0, Join(found.value.1, "\n")) else Page(map[], text)
  }

  /** A text that opens a fence has a first line. */
  lemma FencedHasLine(text: string)
    requires FENCE <= text
    ensures SplitLines(text) != []
  {
  }

  /** `frontmatter`: the loop over the lines. */
  method Frontmatter(text: string, other: string -> string) returns (page: Page)
    ensures page == Parse(text, other)
  {
    hide Strip, SplitLines, ValueOf;
    if !(FENCE <= text) {
      return Page(map[], text);
    }
    FencedHasLine(text);
    var lines := SplitLines(text);
    var metadata: map<string, string> := map[];
    for i := 1 to |lines|
      invariant Scan(lines[i..], metadata, other) == Scan(lines[1..], map[], other)
    {
      var line := lines[i];
      assert lines[i..][1..] == lines[i + 1..];
      if Strip(line) == FENCE {
        return Page(metadata, Join(lines[i + 1..], "\n"));
      }
      var n := ColonAt(line);
      if n == |line| {
        continue;
      }
      metadata := metadata[Strip(line[..n]) := ValueOf(line[n + 1..], other)];
    }
    assert lines[|lines|..] == [];
    page := Page(map[], text);
  }

  // ------------------------------------------------------------------ round trip

  predicate GoodKey(key: string) {
    ':' !in key && None(key, IsLineBreak) && Trimmed(key)
  }

  function MapOf(fields: seq<Field>): map<string, string> {
    if fields == [] then map[]
    else MapOf(fields[..|fields| - 1])[fields[|fields| - 1].key := fields[|fields| - 1].value]
  }

  lemma FieldLineIs(f: Field)
    ensures FieldLine(f) == f.key + ": " + Quote(f.value)
  {
  }

  /** A printed line is no fence and is read as the field it was printed from. */
  lemma FieldLineReads(f: Field, metadata: map<string, string>, other: string -> string)
    requires GoodKey(f.key)
    ensures None(FieldLine(f), IsLineBreak) && Strip(FieldLine(f)) != FENCE
    ensures Record(FieldLine(f), metadata, other) == metadata[f.key := f.value]
  {
    hide Quote, ReadString, IsSpace, IsLineBreak, None, ColonAt, Trimmed, Strip, FieldLine;
    var line, tail := f.key + ": " + Quote(f.value), ": " + Quote(f.value);
    FieldLineIs(f);
    QuoteIsPlain(f.value);
    ReadInvertsQuote(f.value);
    StripSpaced(Quote(f.value));
    ColonAfter(f.key, tail);
    assert line == f.key + tail;
    assert line[..|f.key|] == f.key && line[|f.key| + 1..] == " " + Quote(f.value);
    StripTrimmed(f.key);
    FieldLineIsOneLine(f);
  }

  lemma FieldLineIsOneLine(f: Field)
    requires GoodKey(f.key) && None(Quote(f.value), IsLineBreak) && Quote(f.value) != []
    requires Trimmed(Quote(f.value))
    ensures None(FieldLine(f), IsLineBreak) && Strip(FieldLine(f)) != FENCE
  {
    hide Quote;
    var line := FieldLine(f);
    assert line[|line| - 1] == Quote(f.value)[|Quote(f.value)| - 1];
    if f.key != [] {
      assert line[0] == f.key[0];
    }
    assert Trimmed(line);
    StripTrimmed(line);
    assert line[|f.key|] == ':';
  }

  lemma ScanField(f: Field, lines: seq<string>, metadata: map<string, string>, other: string -> string)
    requires GoodKey(f.key)
    ensures Scan([FieldLine(f)] + lines, metadata, other) == Scan(lines, metadata[f.key := f.value], other)
  {
    hide Strip, FieldLine, Record, GoodKey;
    FieldLineReads(f, metadata, other);
    assert ([FieldLine(f)] + lines)[1..] == lines;
  }

  lemma ScanFence(rest: seq<string>, metadata: map<string, string>, other: string -> string)
    ensures Scan([FENCE] + rest, metadata, other) == Some((metadata, rest))
  {
    StripTrimmed(FENCE);
    assert ([FENCE] + rest)[1..] == rest;
  }

  lemma MapOfSnoc(fields: seq<Field>, f: Field)
    ensures MapOf(fields + [f]) == MapOf(fields)[f.key := f.value]
  {
    assert (fields + [f])[..|fields|] == fields;
  }

  lemma {:induction false} ScanPrinted(fields: seq<Field>, done: seq<Field>, rest: seq<string>, other: string -> string)
    requires forall i :: 0 <= i < |fields| ==> GoodKey(fields[i].key)
    ensures Scan(FieldLines(fields) + [FENCE] + rest, MapOf(done), other) == Some((MapOf(done + fields), rest))
    decreases |fields|
  {
    hide Scan, MapOf, FieldLine, GoodKey;
    var lines := FieldLines(fields) + [FENCE] + rest;
    if fields == [] {
      assert lines == [FENCE] + rest && done + fields == done;
      ScanFence(rest, MapOf(done), other);
    } else {
      var f := fields[0];
      var later := FieldLines(fields[1..]) + [FENCE] + rest;
      assert lines == [FieldLine(f)] + later;
      ScanField(f, later, MapOf(done), other);
      MapOfSnoc(done, f);
      ScanPrinted(fields[1..], done + [f], rest, other);
      assert done + [f] + fields[1..] == done + fields;
    }
  }

  lemma {:induction false} JoinIsUnlines(lines: seq<string>)
    requires lines != []
    ensures Join(lines, "\n") + "\n" == Unlines(lines)
  {
    if |lines| > 1 {
      JoinIsUnlines(lines[1..]);
    } else {
      assert Unlines(lines[1..]) == [];
    }
  }

  /** Reading a rendered block followed by a body gives back the metadata, and the lines
      of the body. */
  lemma ParseInvertsRender(fields: seq<Field>, body: string, other: string -> string)
    requires forall i :: 0 <= i < |fields| ==> GoodKey(fields[i].key)
    ensures Parse(Join(BlockLines(fields), "\n") + "\n" + body, other) == Page(MapOf(fields),
        Join(SplitLines(body), "\n"))
  {
    hide SplitLines, FieldLines, FieldLine, Join, Unlines, Scan, GoodKey, MapOf, Parse;
    var lines := BlockLines(fields);
    JoinIsUnlines(lines);
    BlockIsBreakFree(fields, other);
    SplitUnlines(lines, body);
    StartsWithFence(lines, body);
    var rest := FieldLines(fields) + [FENCE] + SplitLines(body);
    assert lines + SplitLines(body) == [FENCE] + rest;
    NoFields();
    assert [] + fields == fields;
    ScanPrinted(fields, [], SplitLines(body), other);
    ParseFenced(Unlines(lines) + body, rest, MapOf(fields), SplitLines(body), other);
  }

  lemma BlockIsBreakFree(fields: seq<Field>, other: string -> string)
    requires forall i :: 0 <= i < |fields| ==> GoodKey(fields[i].key)
    ensures BreakFree(BlockLines(fields))
  {
    hide FieldLine, GoodKey;
    forall i | 0 <= i < |fields| ensures None(FieldLine(fields[i]), IsLineBreak) {
      FieldLineReads(fields[i], map[], other);
    }
  }

  lemma ParseFenced(text: string, rest: seq<string>, metadata: map<string, string>, lines: seq<string>,
      other: string -> string)
    requires FENCE <= text && SplitLines(text) == [FENCE] + rest && Scan(rest, map[], other) == Some((metadata, lines))
    ensures Parse(text, other) == Page(metadata, Join(lines, "\n"))
  {
    hide SplitLines, Scan, Join;
    assert ([FENCE] + rest)[1..] == rest;
  }

  lemma StartsWithFence(lines: seq<string>, body: string)
    requires lines != [] && lines[0] == FENCE
    ensures FENCE <= Unlines(lines) + body
  {
    assert (Unlines(lines) + body)[..3] == FENCE;
  }

  lemma NoFields()
    ensures MapOf([]) == map[]
  {
  }

  /** The metadata keeps every pair of a dictionary, whose keys are distinct. */
  lemma {:induction false} MapOfHasEachField(fields: seq<Field>, i: nat)
    requires i < |fields|
    requires forall j, k :: 0 <= j < k < |fields| ==> fields[j].key != fields[k].key
    ensures fields[i].key in MapOf(fields) && MapOf(fields)[fields[i].key] == fields[i].value
  {
    if i < |fields| - 1 {
      MapOfHasEachField(fields[..|fields| - 1], i);
    }
  }

  // -------------------------------------------------------- when the body survives

  /** Line feeds are the only line boundaries, and none ends the body. */
  predicate LineFeedsOnly(body: string) {
    && (forall i :: 0 <= i < |body| && IsLineBreak(body[i]) ==> body[i] == '\n')
    && (body == [] || body[|body| - 1] != '\n')
  }

  lemma {:induction false} JoinBreaksAreLineFeeds(lines: seq<string>)
    requires BreakFree(lines)
    ensures forall i :: 0 <= i < |Join(lines, "\n")| && IsLineBreak(Join(lines, "\n")[i]) ==>
        Join(lines, "\n")[i] == '\n'
  {
    if |lines| > 1 {
      JoinBreaksAreLineFeeds(lines[1..]);
    }
  }

  /** Joining never gives more than was split, and less when a boundary ends the body. */
  lemma {:induction false} JoinDropsFinalBreak(body: string)
    ensures |Join(SplitLines(body), "\n")| <= |body|
    ensures body != [] && IsLineBreak(body[|body| - 1]) ==> |Join(SplitLines(body), "\n")| < |body|
    decreases |body|
  {
    var n := LineLength(body);
    if n < |body| {
      var rest := body[n + BreakWidth(body[n..])..];
      JoinDropsFinalBreak(rest);
      assert SplitLines(body) == [body[..n]] + SplitLines(rest);
      assert SplitLines(body)[1..] == SplitLines(rest);
      if rest != [] {
        assert rest[|rest| - 1] == body[|body| - 1];
      }
    }
  }

  lemma {:induction false} JoinOfSplit(body: string)
    requires LineFeedsOnly(body)
    ensures Join(SplitLines(body), "\n") == body
    decreases |body|
  {
    hide SplitLines, LineFeedsOnly, LineLength, Join;
    var n := LineLength(body);
    if n < |body| {
      var rest := body[n + 1..];
      SplitAtLineFeed(body);
      JoinOfSplit(rest);
      JoinCons(body[..n], SplitLines(rest));
      assert body[..n] + "\n" + rest == body;
    } else {
      OneLineIsJoined(body);
    }
  }

  lemma JoinCons(line: string, lines: seq<string>)
    requires lines != []
    ensures Join([line] + lines, "\n") == line + "\n" + Join(lines, "\n")
  {
    assert ([line] + lines)[1..] == lines;
  }

  lemma OneLineIsJoined(body: string)
    requires LineLength(body) == |body|
    ensures Join(SplitLines(body), "\n") == body
  {
  }

  lemma SplitAtLineFeed(body: string)
    requires LineFeedsOnly(body) && LineLength(body) < |body|
    ensures
      var n := LineLength(body);
      && n + 1 < |body| && body[n] == '\n' && LineFeedsOnly(body[n + 1..])
      && SplitLines(body) == [body[..n]] + SplitLines(body[n + 1..]) && SplitLines(body[n + 1..]) != []
  {
    hide SplitLines, LineLength, LineFeedsOnly, None, IsLineBreak;
    var n := LineLength(body);
    LineFeedInside(body, n);
    CutAt(body, n);
    SplitLinesHead(body[..n], body[n + 1..]);
    SomeLine(body[n + 1..]);
  }

  lemma CutAt(body: string, n: nat)
    requires n < |body| && body[n] == '\n'
    ensures body[..n] + "\n" + body[n + 1..] == body
  {
  }

  lemma LineFeedInside(body: string, n: nat)
    requires LineFeedsOnly(body) && n < |body| && IsLineBreak(body[n])
    ensures n + 1 < |body| && body[n] == '\n' && LineFeedsOnly(body[n + 1..])
  {
    hide IsLineBreak;
    var rest := body[n + 1..];
    assert forall i :: 0 <= i < |rest| ==> rest[i] == body[i + n + 1];
  }

  lemma SomeLine(t: string)
    requires t != []
    ensures SplitLines(t) != []
  {
  }

  /** The body comes back exactly when line feeds are its only line boundaries and it
      does not end with one: `splitlines` forgets which boundary it was and a final one. */
  lemma BodyComesBackIff(body: string)
    ensures Join(SplitLines(body), "\n") == body <==> LineFeedsOnly(body)
  {
    hide SplitLines;
    if LineFeedsOnly(body) {
      JoinOfSplit(body);
    }
    var lines := SplitLines(body);
    if Join(lines, "\n") == body {
      JoinBreaksAreLineFeeds(lines);
      JoinDropsFinalBreak(body);
    }
  }

  /** The whole round trip, and exactly when it holds. */
  lemma RoundTripIff(fields: seq<Field>, body: string, other: string -> string)
    requires forall i :: 0 <= i < |fields| ==> GoodKey(fields[i].key)
    ensures Parse(Join(BlockLines(fields), "\n") + "\n" + body, other) == Page(MapOf(fields), body) <==>
        LineFeedsOnly(body)
  {
    hide Parse, BlockLines, MapOf, SplitLines;
    ParseInvertsRender(fields, body, other);
    BodyComesBackIff(body);
  }
}
