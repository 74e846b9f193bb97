/** Delimiter integrity of the rendered memory block: no content can forge a marker. */
module Delimiters {
  import opened Text
  import opened Seqs
  import opened JsonText
  import opened TaskIntake

  // ---------------------------------------------------------------- replacement

  /** The replacement text and the word can only overlap by containing one another whole. */
  predicate Apart(w: string, put: string) {
    w != [] && put != [] && put[0] !in w && w[0] !in put
  }

  lemma PrefixCons(w: string, c: char, rest: string)
    requires w != []
    ensures w <= [c] + rest <==> w[0] == c && w[1..] <= rest
  {
    if w <= [c] + rest {
      assert w[1..] == ([c] + rest)[1..|w|];
    }
    if w[0] == c && w[1..] <= rest {
      assert w == [c] + w[1..];
    }
  }

  /** A prefix without the replacement's first character was there before. */
  lemma {:induction false} PrefixWasThere(t: string, marker: string, put: string, w: string)
    requires marker != [] && put != [] && put[0] !in w
    ensures w <= Replace(t, marker, put) ==> w <= t
    decreases |t|
  {
    if w != [] && t != [] {
      assert w[0] in w;
      assert marker <= t ==> Replace(t, marker, put)[0] == put[0];
      if !(marker <= t) && w <= Replace(t, marker, put) {
        var later := Replace(t[1..], marker, put);
        PrefixWasThere(t[1..], marker, put, w[1..]);
        assert Replace(t, marker, put) == [t[0]] + later;
        hide Replace;
        PrefixCons(w, t[0], later);
        PrefixCons(w, t[0], t[1..]);
        assert t == [t[0]] + t[1..];
      }
    }
  }

  /** Replacing brings in no occurrence of a word that was not in the text, and leaves
      none of the marker itself. */
  lemma {:induction false} ReplaceMakesNone(t: string, marker: string, put: string, w: string)
    requires marker != [] && Apart(w, put) && (w == marker || !Contains(t, w))
    ensures !Contains(Replace(t, marker, put), w)
    decreases |t|
  {
    var r := Replace(t, marker, put);
    if t == [] {
    } else if marker <= t {
      var rest := t[|marker|..];
      TailContains(t, |marker|, w);
      ReplaceMakesNone(rest, marker, put, w);
      NoneAhead(put, Replace(rest, marker, put), w);
    } else {
      TailContains(t, 1, w);
      ReplaceMakesNone(t[1..], marker, put, w);
      PrefixWasThere(t, marker, put, w);
      HeadContains(t, w);
      NoneAheadOfOne(t[0], Replace(t[1..], marker, put), w);
    }
  }

  lemma TailContains(t: string, n: nat, w: string)
    requires n <= |t|
    ensures Contains(t[n..], w) ==> Contains(t, w)
  {
    if Contains(t[n..], w) {
      ContainsPart(t[..n], t[n..], [], w);
      assert t[..n] + t[n..] + [] == t;
    }
  }

  lemma HeadContains(t: string, w: string)
    ensures w <= t ==> Contains(t, w)
  {
    assert w <= t ==> OccursAt(t, w, 0);
  }

  lemma NoneAhead(put: string, rest: string, w: string)
    requires Apart(w, put) && !Contains(rest, w)
    ensures !Contains(put + rest, w)
  {
    forall i | 0 <= i <= |put + rest| ensures !OccursAt(put + rest, w, i) {
      if i < |put| {
        OccursAtChar(put + rest, w, i, 0);
      } else {
        OccursShift(put, rest, w, i - |put|);
      }
    }
  }

  lemma NoneAheadOfOne(c: char, rest: string, w: string)
    requires w != [] && !Contains(rest, w) && !(w <= [c] + rest)
    ensures !Contains([c] + rest, w)
  {
    ContainsStep([c], rest, w);
  }

  /** `safe_memory_content` leaves neither marker, whatever the content. */
  lemma SafeHasNoMarker(t: string)
    ensures !Contains(Safe(t), BEGIN) && !Contains(Safe(t), END)
  {
    hide Replace, Contains;
    ReplaceMakesNone(t, BEGIN, ESCAPED_BEGIN, BEGIN);
    var once := Replace(t, BEGIN, ESCAPED_BEGIN);
    ReplaceMakesNone(once, END, ESCAPED_END, BEGIN);
    ReplaceMakesNone(once, END, ESCAPED_END, END);
  }

  lemma {:induction false} ReplaceKeepsOther(t: string, marker: string, put: string)
    requires marker != [] && !Contains(t, marker)
    ensures Replace(t, marker, put) == t
    decreases |t|
  {
    if t != [] {
      HeadContains(t, marker);
      TailContains(t, 1, marker);
      ReplaceKeepsOther(t[1..], marker, put);
      assert [t[0]] + t[1..] == t;
    }
  }

  /** Content is changed exactly when it holds a marker. */
  lemma SafeChangesMarkersOnly(t: string)
    ensures Safe(t) == t <==> !Contains(t, BEGIN) && !Contains(t, END)
  {
    hide Replace, Contains;
    SafeHasNoMarker(t);
    if !Contains(t, BEGIN) && !Contains(t, END) {
      ReplaceKeepsOther(t, BEGIN, ESCAPED_BEGIN);
      ReplaceKeepsOther(t, END, ESCAPED_END);
    }
  }

  // ------------------------------------------------------------------- escaping

  /** A word whose characters JSON leaves alone, and whose first occurs in no escape. */
  predicate Literal(w: string) {
    && w != [] && w[0] == '<'
    && forall i :: 0 <= i < |w| ==> Escaped(w[i]) == [w[i]] && w[i] != '\\' && w[i] != '"'
  }

  lemma {:induction false} HexHasNoAngle(n: nat, width: nat)
    ensures '<' !in PyRepr.Hex(n, width)
  {
    if width > 0 {
      HexHasNoAngle(n / 16, width - 1);
    }
  }

  /** An escape is one literal character, or starts with a backslash and has no `<`. */
  lemma EscapedShape(c: char)
    ensures Escaped(c) == [c] || (Escaped(c)[0] == '\\' && '<' !in Escaped(c))
  {
    hide PyRepr.Hex;
    forall n: nat ensures '<' !in Unicode(n) {
      HexHasNoAngle(n, 4);
    }
  }

  lemma {:induction false} EscapedPrefix(t: string, w: string)
    requires '\\' !in w
    ensures w <= EscapedAll(t) ==> w <= t
    decreases |w|
  {
    if w != [] && t != [] && w <= EscapedAll(t) {
      hide Escaped;
      EscapedShape(t[0]);
      assert EscapedAll(t)[0] == Escaped(t[0])[0] == w[0];
      assert Escaped(t[0]) == [t[0]];
      assert EscapedAll(t)[1..] == EscapedAll(t[1..]);
      assert w[1..] <= EscapedAll(t[1..]);
      EscapedPrefix(t[1..], w[1..]);
      assert w == [w[0]] + w[1..] && t == [t[0]] + t[1..];
    }
  }

  lemma {:induction false} PrefixEscaped(t: string, w: string)
    requires forall i :: 0 <= i < |w| ==> Escaped(w[i]) == [w[i]]
    ensures w <= t ==> w <= EscapedAll(t)
    decreases |w|
  {
    if w != [] && w <= t {
      hide Escaped;
      assert w[0] == t[0] && w[1..] <= t[1..];
      PrefixEscaped(t[1..], w[1..]);
      assert EscapedAll(t) == [t[0]] + EscapedAll(t[1..]);
      assert w == [w[0]] + w[1..];
    }
  }

  /** JSON escaping neither makes nor hides an occurrence of a marker. */
  lemma {:induction false} EscapingKeepsMarkers(t: string, w: string)
    requires Literal(w)
    ensures Contains(EscapedAll(t), w) <==> Contains(t, w)
    decreases |t|
  {
    if t == [] {
    } else {
      hide Escaped, Contains;
      var head, rest := Escaped(t[0]), EscapedAll(t[1..]);
      EscapedShape(t[0]);
      EscapingKeepsMarkers(t[1..], w);
      EscapedPrefix(t, w);
      PrefixEscaped(t, w);
      ContainsStep([t[0]], t[1..], w);
      assert [t[0]] + t[1..] == t;
      ContainsStep(head, rest, w);
    }
  }

  /** An occurrence starts at the head or lies in the rest, when only the first character
      of the head can start one. */
  lemma ContainsStep(head: string, rest: string, w: string)
    requires w != [] && head != [] && w[0] !in head[1..]
    ensures Contains(head + rest, w) <==> (w <= head + rest || Contains(rest, w))
  {
    var t := head + rest;
    forall i | 0 < i <= |t| ensures OccursAt(t, w, i) ==> Contains(rest, w) {
      if i < |head| {
        OccursAtChar(t, w, i, 0);
        assert head[1..][i - 1] == t[i];
      } else {
        OccursShift(head, rest, w, i - |head|);
        assert OccursAt(rest, w, i - |head|) ==> Contains(rest, w);
      }
    }
    HeadContains(t, w);
    assert OccursAt(t, w, 0) ==> w <= t;
    TailContains(t, |head|, w);
    assert t[|head|..] == rest;
  }

  // ------------------------------------------------------------------- one line

  function NoQuote(): char -> bool {
    (c: char) => c != '"'
  }

  /** A text with no `<` holds no marker. */
  lemma NoAngleNoMarker(t: string, w: string)
    requires Literal(w) && '<' !in t
    ensures !Contains(t, w)
  {
    hide Escaped;
    forall i | 0 <= i <= |t| ensures !OccursAt(t, w, i) {
      OccursAtChar(t, w, i, 0);
    }
  }

  lemma QuotedPart(before: string, t: string, after: string, w: string)
    requires Literal(w) && '<' !in before
    ensures Contains(before + Quote(t) + after, w) <==> Contains(t, w) || Contains(after, w)
  {
    hide Contains, EscapedAll, Escaped;
    var sep, body := "\"", EscapedAll(t);
    assert before + Quote(t) + after == before + sep + (body + sep + after);
    NoQuotesIn(w);
    ContainsSplit(before, sep, body + sep + after, w, NoQuote());
    ContainsSplit(body, sep, after, w, NoQuote());
    NoAngleNoMarker(before, w);
    EscapingKeepsMarkers(t, w);
  }

  lemma NoQuotesIn(w: string)
    requires Literal(w)
    ensures All(w, NoQuote()) && None("\"", NoQuote())
  {
    hide Escaped;
  }

  ghost predicate PlainNumbers(h: Host) {
    forall x: real :: '<' !in h.number(x)
  }

  lemma AuthorityHasNoAngle(m: Memory)
    ensures '<' !in Authority(m)
  {
  }

  /** A rendered line holds a marker exactly when the memory's id does. */
  lemma LineHoldsMarkerIff(h: Host, m: Memory, w: string)
    requires PlainNumbers(h) && Literal(w) && !Contains(Safe(Body(m)), w)
    ensures Contains(Line(h, m), w) <==> Contains(m.id, w)
  {
    hide Contains, Quote, Safe, Body, Authority, Literal;
    var tail := ", \"score\": " + h.number(m.score) + "}";
    var fromId := ", \"id\": " + Quote(m.id) + tail;
    var fromContent := ", \"content\": " + Quote(Safe(Body(m))) + fromId;
    QuotedPart("{\"authority\": ", Authority(m), fromContent, w);
    QuotedPart(", \"content\": ", Safe(Body(m)), fromId, w);
    QuotedPart(", \"id\": ", m.id, tail, w);
    AuthorityHasNoAngle(m);
    NoAngleNoMarker(Authority(m), w);
    NoAngleNoMarker(tail, w);
    LineIs(h, m);
    assert Line(h, m) == "{\"authority\": " + Quote(Authority(m)) + fromContent;
  }

  lemma LineIs(h: Host, m: Memory)
    ensures Line(h, m) == "{\"authority\": " + Quote(Authority(m)) +
      (", \"content\": " + Quote(Safe(Body(m))) + (", \"id\": " + Quote(m.id) +
          (", \"score\": " + h.number(m.score) + "}")))
  {
    hide Quote, Safe, Body, Authority;
  }

  // ------------------------------------------------------------------- the block

  function NoLineFeed(): char -> bool {
    (c: char) => c != '\n'
  }

  predicate IsMarkerChar(c: char) {
    c == '<' || c == '>' || c == '_' || 'A' <= c <= 'Z'
  }

  lemma MarkerIsLiteral(w: string)
    requires w != [] && w[0] == '<' && All(w, IsMarkerChar)
    ensures Literal(w) && All(w, NoLineFeed())
  {
  }

  lemma MarkersAreLiteral()
    ensures Literal(BEGIN) && All(BEGIN, NoLineFeed())
    ensures Literal(END) && All(END, NoLineFeed())
  {
    hide Literal;
    MarkerIsLiteral(BEGIN);
    MarkerIsLiteral(END);
  }

  /** The text between the two markers: the notice and the selected lines. */
  function Middle(h: Host, selected: seq<Memory>): string {
    Join([NOTICE] + Mapped(selected, LineOf(h)), "\n")
  }

  lemma BlockIs(h: Host, selected: seq<Memory>)
    requires selected != []
    ensures Block(h, selected) == BEGIN + "\n" + Middle(h, selected) + "\n" + END
  {
    hide Join, LineOf;
    var inner := [NOTICE] + Mapped(selected, LineOf(h));
    assert [BEGIN, NOTICE] + Mapped(selected, LineOf(h)) + [END] == [BEGIN] + (inner + [END]);
    JoinConcat([BEGIN], inner + [END], "\n");
    JoinConcat(inner, [END], "\n");
    JoinOne(BEGIN);
    JoinOne(END);
    assert BEGIN + "\n" + (Middle(h, selected) + "\n" + END) == BEGIN + "\n" + Middle(h, selected) + "\n" + END;
  }

  lemma JoinOne(t: string)
    ensures Join([t], "\n") == t
  {
  }

  /** An occurrence of a word on one line of `a\nb` lies wholly on one side. */
  lemma OccursOnOneSide(a: string, b: string, w: string, i: nat)
    requires w != [] && All(w, NoLineFeed())
    ensures OccursAt(a + "\n" + b, w, i) <==>
      OccursAt(a, w, i) || (i > |a| && OccursAt(b, w, i - |a| - 1))
  {
    var t := a + "\n" + b;
    if OccursAt(t, w, i) {
      if i + |w| <= |a| {
        assert a[i..i + |w|] == t[i..i + |w|];
      } else if i > |a| {
        OccursShift(a + "\n", b, w, i - |a| - 1);
      } else {
        OccursAtChar(t, w, i, |a| - i);
      }
    }
    if OccursAt(a, w, i) {
      assert a[i..i + |w|] == t[i..i + |w|];
    }
    if i > |a| {
      OccursShift(a + "\n", b, w, i - |a| - 1);
    }
  }

  /** Where a marker occurs in a block. */
  lemma OccursInBlock(middle: string, w: string, i: nat)
    requires w != [] && All(w, NoLineFeed())
    ensures
      var m := |BEGIN| + 1 + |middle|;
      OccursAt(BEGIN + "\n" + middle + "\n" + END, w, i) <==>
        OccursAt(BEGIN, w, i) || (i > |BEGIN| && OccursAt(middle, w, i - |BEGIN| - 1)) ||
            (i > m && OccursAt(END, w, i - m - 1))
  {
    hide OccursAt, BEGIN, END;
    var front := BEGIN + "\n" + middle;
    OccursOnOneSide(front, END, w, i);
    OccursOnOneSide(BEGIN, middle, w, i);
  }

  /** The opening marker is at the start of the block and nowhere else, the closing one
      at its end and nowhere else. */
  ghost predicate WellDelimited(block: string) {
    && (forall i: nat :: OccursAt(block, BEGIN, i) <==> i == 0)
    && (forall i: nat :: OccursAt(block, END, i) <==> i == |block| - |END|)
  }

  lemma BeginInMarkers(i: nat)
    ensures OccursAt(BEGIN, BEGIN, i) <==> i == 0
    ensures !OccursAt(END, BEGIN, i)
  {
  }

  lemma EndInMarkers(i: nat)
    ensures OccursAt(END, END, i) <==> i == 0
    ensures !OccursAt(BEGIN, END, i)
  {
    if i <= 2 {
      OccursAtChar(BEGIN, END, i, if i == 0 then 24 else 3 - i);
    }
  }

  /** A word with one home in the markers occurs only there when the middle is clear. */
  lemma OnlyAtHome(middle: string, w: string, home: nat)
    requires w != [] && All(w, NoLineFeed())
    requires home == 0 || home == |BEGIN| + |middle| + 2
    requires forall i: nat :: (OccursAt(BEGIN, w, i) ||
        (i > |BEGIN| + 1 + |middle| && OccursAt(END, w, i - |BEGIN| - |middle| - 2))) <==> i == home
    ensures (forall i: nat :: OccursAt(BEGIN + "\n" + middle + "\n" + END, w, i) <==> i == home) <==>
        !Contains(middle, w)
  {
    var block := BEGIN + "\n" + middle + "\n" + END;
    var n := |BEGIN| + 1;
    if Contains(middle, w) {
      var j :| 0 <= j <= |middle| && OccursAt(middle, w, j);
      OccursInBlock(middle, w, j + n);
      assert OccursAt(block, w, j + n) && j + n != home;
    } else {
      forall i: nat ensures OccursAt(block, w, i) <==> i == home {
        OccursInBlock(middle, w, i);
        assert i >= n && OccursAt(middle, w, i - n) ==> Contains(middle, w);
      }
    }
  }

  lemma DelimitedIffMiddleClear(middle: string)
    ensures WellDelimited(BEGIN + "\n" + middle + "\n" + END) <==> !Contains(middle, BEGIN) && !Contains(middle, END)
  {
    MarkersAreLiteral();
    var block := BEGIN + "\n" + middle + "\n" + END;
    var m := |BEGIN| + 1 + |middle|;
    assert |block| - |END| == m + 1;
    forall i: nat
      ensures (OccursAt(BEGIN, BEGIN, i) || (i > m && OccursAt(END, BEGIN, i - m - 1))) <==> i == 0
      ensures (OccursAt(BEGIN, END, i) || (i > m && OccursAt(END, END, i - m - 1))) <==> i == m + 1
    {
      BeginInMarkers(i);
      EndInMarkers(i);
      if i > m {
        BeginInMarkers(i - m - 1);
        EndInMarkers(i - m - 1);
      }
    }
    OnlyAtHome(middle, BEGIN, 0);
    OnlyAtHome(middle, END, m + 1);
  }

  /** The block is well delimited, whatever the contents, exactly when no selected id
      holds a marker. */
  lemma BlockIsWellDelimitedIff(h: Host, selected: seq<Memory>)
    requires PlainNumbers(h) && selected != []
    ensures WellDelimited(Block(h, selected)) <==>
      forall i :: 0 <= i < |selected| ==> !Contains(selected[i].id, BEGIN) && !Contains(selected[i].id, END)
  {
    hide Contains, WellDelimited, Block, Line;
    BlockIs(h, selected);
    DelimitedIffMiddleClear(Middle(h, selected));
    MiddleHoldsMarkerIff(h, selected, BEGIN);
    MiddleHoldsMarkerIff(h, selected, END);
  }

  lemma MiddleHoldsMarkerIff(h: Host, selected: seq<Memory>, w: string)
    requires PlainNumbers(h) && (w == BEGIN || w == END)
    ensures Contains(Middle(h, selected), w) <==> exists i :: 0 <= i < |selected| && Contains(selected[i].id, w)
  {
    hide Contains, Line, Literal;
    MarkersAreLiteral();
    var lines := Mapped(selected, LineOf(h));
    ContainsJoin([NOTICE] + lines, "\n", w, NoLineFeed());
    NoticeHasNoMarker(w);
    forall i | 0 <= i < |selected| ensures Contains(lines[i], w) <==> Contains(selected[i].id, w) {
      SafeHasNoMarker(Body(selected[i]));
      LineHoldsMarkerIff(h, selected[i], w);
    }
    var parts := [NOTICE] + lines;
    assert parts[0] == NOTICE && forall i :: 0 <= i < |selected| ==> parts[i + 1] == lines[i];
  }

  lemma NoticeHasNoMarker(w: string)
    requires Literal(w)
    ensures !Contains(NOTICE, w)
  {
    hide Literal;
    NoticeHasNoAngle();
    NoAngleNoMarker(NOTICE, w);
  }

  lemma NoticeHasNoAngle()
    ensures '<' !in NOTICE
  {
    NoticeStart();
    NoticeMiddle();
    assert '<' !in NOTICE_5;
  }

  lemma NoticeStart()
    ensures '<' !in NOTICE_1 && '<' !in NOTICE_2
  {
  }

  lemma NoticeMiddle()
    ensures '<' !in NOTICE_3 && '<' !in NOTICE_4
  {
  }
}
