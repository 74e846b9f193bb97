/** When the inverted index sees what the scorer sees. The scorer searches the text of
    whole dictionaries, labels included; the postings hold only the values. */
module Lossless {
  import opened Text
  import opened Seqs
  import opened Memory
  import opened PyRepr
  import opened MemoryTree
  import opened RecallRules

  /** The scorer finds the term in one of the three texts it searches. */
  predicate TextHit(env: Env, p: Payload, s: string) {
    || Contains(Lower(Compact(p.summary)), s)
    || Contains(Lower(Compact(TriggerDict(env, p))), s)
    || Contains(Lower(Compact(EntityText(env, p))), s)
  }

  /** The term lies inside a posting token of the record. */
  predicate PostingHit(env: Env, p: Payload, s: string) {
    exists t :: t in EntryTokens(env, p) && Contains(t, s)
  }

  /** The term lies inside a label the scorer prints around the four lists. */
  predicate FixedLabelHit(s: string) {
    Found("entities", s) || Found("paths", s) || Found("tags", s) || Found("links", s)
  }

  predicate KeyHit(trigger: seq<Pair>, s: string) {
    exists i :: 0 <= i < |trigger| && Found(trigger[i].key, s)
  }

  predicate CleanVal(env: Env, v: Val) {
    v.One? ==> Clean(env, v.text)
  }

  predicate CleanTrigger(env: Env, trigger: seq<Pair>) {
    forall i :: 0 <= i < |trigger| ==> Clean(env, trigger[i].key) && CleanVal(env, trigger[i].val)
  }

  /** All searched keys are present and hold text that Python prints as it is. */
  predicate Plain(env: Env, p: Payload) {
    && p.trigger.Some? && p.topicTags.Some? && p.entities.Some? && p.sourcePaths.Some? && p.links.Some?
    && CleanTrigger(env, p.trigger.value)
    && AllClean(env, p.topicTags.value) && AllClean(env, p.entities.value) && AllClean(env, p.sourcePaths.value)
  }

  // ---------------------------------------------------------------- the parts

  lemma FoundLabelled(name: string, text: string, s: string)
    requires IsTerm(s)
    ensures Found(Labelled(name, text), s) <==> Found(name, s) || Found(text, s)
  {
    FoundSplit([], "'", name + "': " + text, s);
    FoundSplit(name, "': ", text, s);
    FoundNowhere(s);
    assert [] + "'" + (name + "': " + text) == Labelled(name, text);
  }

  lemma AnyFoundFour(a: string, b: string, c: string, d: string, s: string)
    ensures AnyFound([a, b, c, d], s) <==> Found(a, s) || Found(b, s) || Found(c, s) || Found(d, s)
  {
    var l := [a, b, c, d];
    assert l[0] == a && l[1] == b && l[2] == c && l[3] == d;
  }

  lemma FoundReprLinks(env: Env, ls: seq<Link>, s: string)
    requires IsTerm(s)
    ensures Found(ReprLinks(env, ls), s) <==> AnyFound(Mapped(ls, l => ReprLink(env, l)), s)
  {
    var parts := Mapped(ls, l => ReprLink(env, l));
    FoundWrapped("[", Join(parts, ", "), "]", s);
    FoundJoin(parts, ", ", s);
  }

  lemma FoundEntityText(env: Env, p: Payload, s: string)
    requires IsTerm(s) && Plain(env, p)
    ensures Found(EntityText(env, p), s) <==>
      || FixedLabelHit(s) || AnyFound(p.entities.value, s) || AnyFound(p.sourcePaths.value, s)
      || AnyFound(p.topicTags.value, s) || AnyFound(Mapped(p.links.value, l => ReprLink(env, l)), s)
  {
    var a := Labelled("entities", ReprList(env, p.entities.value));
    var b := Labelled("paths", ReprList(env, p.sourcePaths.value));
    var c := Labelled("tags", ReprList(env, p.topicTags.value));
    var d := Labelled("links", ReprLinks(env, p.links.value));
    FoundWrapped("{", Join([a, b, c, d], ", "), "}", s);
    FoundJoin([a, b, c, d], ", ", s);
    AnyFoundFour(a, b, c, d, s);
    FoundLabelled("entities", ReprList(env, p.entities.value), s);
    FoundLabelled("paths", ReprList(env, p.sourcePaths.value), s);
    FoundLabelled("tags", ReprList(env, p.topicTags.value), s);
    FoundLabelled("links", ReprLinks(env, p.links.value), s);
    FoundReprList(env, p.entities.value, s);
    FoundReprList(env, p.sourcePaths.value, s);
    FoundReprList(env, p.topicTags.value, s);
    FoundReprLinks(env, p.links.value, s);
  }

  lemma FoundPair(env: Env, p: Pair, s: string)
    requires IsTerm(s) && Clean(env, p.key) && CleanVal(env, p.val)
    ensures Found(ReprPair(env, p), s) <==> Found(p.key, s) || Found(StrVal(env, p.val), s)
  {
    FoundSplit(Repr(env, p.key), ": ", ReprVal(env, p.val), s);
    FoundRepr(env, p.key, s);
    if p.val.One? {
      FoundRepr(env, p.val.text, s);
    }
  }

  lemma FoundTrigger(env: Env, trigger: seq<Pair>, s: string)
    requires IsTerm(s) && CleanTrigger(env, trigger)
    ensures Found(ReprDict(env, trigger), s) <==> KeyHit(trigger, s) || Found(TriggerText(env, trigger), s)
  {
    var parts := Mapped(trigger, p => ReprPair(env, p));
    var vals := Mapped(trigger, (p: Pair) => StrVal(env, p.val));
    FoundWrapped("{", Join(parts, ", "), "}", s);
    FoundJoin(parts, ", ", s);
    FoundJoin(vals, " ", s);
    forall i | 0 <= i < |trigger| ensures Found(parts[i], s) <==> Found(trigger[i].key, s) || Found(vals[i], s) {
      FoundPair(env, trigger[i], s);
    }
    if AnyFound(parts, s) {
      var i :| 0 <= i < |parts| && Found(parts[i], s);
      assert Found(trigger[i].key, s) || Found(vals[i], s);
    }
    if AnyFound(vals, s) {
      var i :| 0 <= i < |vals| && Found(vals[i], s);
      assert Found(parts[i], s);
    }
    if KeyHit(trigger, s) {
      var i :| 0 <= i < |trigger| && Found(trigger[i].key, s);
      assert Found(parts[i], s);
    }
  }

  // -------------------------------------------------------------- the postings

  /** A search term of three or more characters lies in a posting token exactly when it
      lies in the record's search text: no maximal run around it is lost. */
  lemma PostingHitIsFound(env: Env, p: Payload, s: string)
    requires IsTerm(s) && |s| >= 3
    ensures PostingHit(env, p, s) <==> Found(Join(SearchParts(env, p), " "), s)
  {
    var blob := SearchBlob(env, p);
    var runs := Runs(blob, IsTokenChar);
    ContainsIffInRun(blob, s, IsTokenChar);
    if AnyContains(runs, s) {
      var i :| 0 <= i < |runs| && Contains(runs[i], s);
      ContainedIsShorter(runs[i], s);
      assert runs[i] in EntryTokens(env, p);
    }
    if t :| t in EntryTokens(env, p) && Contains(t, s) {
      var i :| 0 <= i < |runs| && |runs[i]| >= 3 && runs[i] == t;
      assert AnyContains(runs, s);
    }
  }

  lemma ContainedIsShorter(t: string, s: string)
    requires Contains(t, s)
    ensures |s| <= |t|
  {
  }

  lemma FoundParts(env: Env, p: Payload, s: string)
    requires IsTerm(s) && Plain(env, p)
    ensures Found(Join(SearchParts(env, p), " "), s) <==>
      || Found(p.summary, s) || Found(TriggerText(env, p.trigger.value), s)
      || AnyFound(p.entities.value, s) || AnyFound(p.sourcePaths.value, s) || AnyFound(p.topicTags.value, s)
      || AnyFound(Mapped(p.links.value, l => ReprLink(env, l)), s)
  {
    var parts := SearchParts(env, p);
    FoundJoin(parts, " ", s);
    FoundJoin(p.entities.value, " ", s);
    FoundJoin(p.sourcePaths.value, " ", s);
    FoundJoin(p.topicTags.value, " ", s);
    FoundJoin(Mapped(p.links.value, l => ReprLink(env, l)), " ", s);
    SixParts(parts, s);
  }

  lemma SixParts(parts: seq<string>, s: string)
    requires |parts| == 6
    ensures AnyFound(parts, s) <==>
      || Found(parts[0], s) || Found(parts[1], s) || Found(parts[2], s)
      || Found(parts[3], s) || Found(parts[4], s) || Found(parts[5], s)
  {
  }

  /** The exact relation between scorer and index: a term scores on a plain record
      exactly when a posting token holds it or a label does. */
  lemma ScorerSeesPostingsAndLabels(env: Env, p: Payload, s: string)
    requires IsTerm(s) && |s| >= 3 && Plain(env, p)
    ensures TextHit(env, p, s) <==> PostingHit(env, p, s) || FixedLabelHit(s) || KeyHit(p.trigger.value, s)
  {
    FoundCompact(p.summary, s);
    FoundCompact(TriggerDict(env, p), s);
    FoundCompact(EntityText(env, p), s);
    FoundTrigger(env, p.trigger.value, s);
    FoundEntityText(env, p, s);
    PostingHitIsFound(env, p, s);
    FoundParts(env, p, s);
  }

  // ----------------------------------------------------------------- the score

  lemma MatchCountPositive(terms: seq<string>, text: string)
    ensures MatchCount(terms, text) > 0 <==>
      exists i :: 0 <= i < |terms| && terms[i] != "" && Contains(Lower(Compact(text)), terms[i])
  {
    var p := (t: string) => t != "" && Contains(Lower(Compact(text)), t);
    var kept := Filter(terms, p);
    if kept != [] {
      FilterMember(terms, p, kept[0]);
      var i :| 0 <= i < |terms| && terms[i] == kept[0];
      assert terms[i] != "" && Contains(Lower(Compact(text)), terms[i]);
    }
    if i :| 0 <= i < |terms| && terms[i] != "" && Contains(Lower(Compact(text)), terms[i]) {
      FilterMember(terms, p, terms[i]);
      assert terms[i] in kept;
    }
  }

  /** A record has a text score exactly when some scoring term hits it. */
  lemma TextScorePositive(env: Env, p: Payload, terms: seq<string>)
    ensures TextScore(env, p, terms) > 0 <==>
        exists i :: 0 <= i < |terms| && terms[i] != "" && TextHit(env, p, terms[i])
  {
    MatchCountPositive(terms, p.summary);
    MatchCountPositive(terms, TriggerDict(env, p));
    MatchCountPositive(terms, EntityText(env, p));
    if i :| 0 <= i < |terms| && terms[i] != "" && TextHit(env, p, terms[i]) {
      assert TextScore(env, p, terms) > 0;
    }
  }

  /** Query terms are made of at least three token characters. */
  lemma QueryTermsAreTerms(env: Env, query: string, s: string)
    requires s in Analyzed(env, query).search
    ensures IsTerm(s) && |s| >= 3 && Lower(s) == s
  {
    var semantic := TermsOf(query);
    FilterMember(semantic, (t: string) => t !in HIGH_RISK && t !in MEDIUM_RISK, s);
    assert s in Runs(Lower(query), IsTokenChar);
    RunOfLowerIsLower(query, s);
  }

  lemma RunOfLowerIsLower(query: string, s: string)
    requires s in Runs(Lower(query), IsTokenChar)
    ensures Lower(s) == s
  {
    hide Runs, IsTokenChar;
    forall c ensures IsTokenChar(LowerChar(c)) == IsTokenChar(c) {
      LowerKeepsTokenChars(c);
    }
    RunsLower(query, IsTokenChar);
    var runs := Runs(query, IsTokenChar);
    var k :| 0 <= k < |Mapped(runs, Lower)| && s == Mapped(runs, Lower)[k];
    assert s == Lower(runs[k]);
  }

  lemma ScoringTermsAreSearched(a: Analysis, s: string)
    requires s in ScoringTerms(a)
    ensures s in a.search
  {
    if !a.risk.High? {
      FilterMember(a.search, (t: string) => t !in LOW_SIGNAL_TERMS, s);
    }
  }
}
