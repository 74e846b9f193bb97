/** The index is claimed to be lossless for every query. It is not: a term inside a label
    the scorer prints ("entities", "paths", "tags", "links") scores on every node, and no
    posting holds it. These lemmas say for exactly which queries the claim is true. */
module RecallLimits {
  import opened Text
  import opened Sorting
  import opened Seqs
  import opened Memory
  import opened Postings
  import opened PyRepr
  import opened MemoryTree
  import opened RecallRules
  import opened Lossless
  import opened Recall

  /** On every tree in order whose trigger keys and text are plain, every walk of the
      candidates chooses what the scan chooses. */
  ghost predicate LosslessFor(a: Analysis) {
    forall env: Env, context: Context, deprecated: bool, t: Tree, indexed: set<string>, order: seq<string>,
        limit: int, budget: int ::
      InOrder(env, t, indexed) && KeysClear(env, a, t, indexed) && IsWalk(t.index, a, order) ==>
        SameChoice(env, Request(a, context, deprecated), t, order, limit, budget)
  }

  ghost predicate SameChoice(env: Env, rq: Request, t: Tree, order: seq<string>, limit: int, budget: int)
    requires t.index.Index?
  {
    IndexedRecall(env, rq, t, order, limit, budget) == ScanRecall(env, rq, t.files, limit, budget)
  }

  /** The index is lossless for a query exactly when no scoring term of it lies inside
      one of the four labels. */
  lemma LosslessIffLabelFree(a: Analysis)
    requires ProperTerms(a)
    ensures LosslessFor(a) <==> LabelFree(a)
  {
    if LabelFree(a) {
      forall env: Env, context: Context, deprecated: bool, t: Tree, indexed: set<string>, order: seq<string>,
          limit: int, budget: int
        | InOrder(env, t, indexed) && KeysClear(env, a, t, indexed) && IsWalk(t.index, a, order)
        ensures SameChoice(env, Request(a, context, deprecated), t, order, limit, budget)
      {
        IndexedRecallIsScan(env, Request(a, context, deprecated), t, indexed, order, limit, budget);
      }
    } else {
      LabelTermIsMissed(a);
    }
  }

  // --------------------------------------------------------------- the witness

  /** A valid node none of whose values has three characters. */
  function ShortNode(trigger: seq<Pair>): Node {
    Node("n", "", "", "n", "", "n", "", "GREEN", NON_AUTHORITATIVE, "n", SCHEMA_VERSION, "n", "n", MAIN_PROMOTED, "",
         NO_EVIDENCE, "", trigger, [], [], [], "n", Absent, [], [],
         NO_QUALITY.(confidence := Some(0.5), provenanceComplete := true), "", "", "")
  }

  /** At most one trigger key, with nothing behind it. */
  predicate Mute(trigger: seq<Pair>) {
    |trigger| <= 1 && CleanTrigger(QUIET, trigger) && forall i :: 0 <= i < |trigger| ==> trigger[i].val == One("")
  }

  /** Some scoring term lies inside a label or a trigger key. */
  predicate AnswersTo(trigger: seq<Pair>, a: Analysis) {
    exists s :: s in ScoringTerms(a) && (FixedLabelHit(s) || KeyHit(trigger, s))
  }

  function ShortFiles(trigger: seq<Pair>): map<string, File> {
    map["n" := Json(ToDict(ShortNode(trigger)))]
  }

  ghost function ShortTree(trigger: seq<Pair>): Tree {
    Tree("n", ShortFiles(trigger), map[], IndexOf(QUIET, ShortFiles(trigger)), [], [], map[])
  }

  lemma ShortNodeValid(trigger: seq<Pair>)
    ensures Valid(QUIET, ShortNode(trigger))
  {
    StripTrimmed("n");
    assert Trimmed("n");
    assert !Contains("n", "\\") && !Contains("n", "/") && !Contains("n", "..");
    assert SafeIdentifier("n") && !Blank("n");
  }

  lemma ShortTreeInOrder(trigger: seq<Pair>)
    ensures ShortTree(trigger).index.Index? && ShortTree(trigger).files == ShortFiles(trigger)
    ensures InOrder(QUIET, ShortTree(trigger), {"n"})
    ensures Loader(QUIET, ShortFiles(trigger))("n") == Some(ShortNode(trigger))
  {
    ShortNodeValid(trigger);
    ReloadIsIdentity(QUIET, ShortNode(trigger));
    assert Restrict(ShortFiles(trigger), {"n"}) == ShortFiles(trigger);
  }

  lemma ShortTreeKeysClear(a: Analysis)
    ensures KeysClear(QUIET, a, ShortTree([]), {"n"})
  {
    hide Valid, Filled, IndexOf;
    ShortTreeInOrder([]);
    ShortNodePlain([]);
  }

  lemma ShortNodePlain(trigger: seq<Pair>)
    requires Mute(trigger)
    ensures Plain(QUIET, ToDict(ShortNode(trigger))) && ToDict(ShortNode(trigger)).trigger == Some(trigger)
  {
  }

  lemma ShortNodeHasNoTokens(trigger: seq<Pair>)
    requires Mute(trigger)
    ensures EntryTokens(QUIET, ToDict(ShortNode(trigger))) == {}
  {
    var p := ToDict(ShortNode(trigger));
    forall tok | tok in EntryTokens(QUIET, p) ensures false {
      OccursInItself(tok);
      PostingHitIsFound(QUIET, p, tok);
      FoundParts(QUIET, p, tok);
      FoundNowhere(tok);
    }
  }

  lemma OccursInItself(t: string)
    ensures Contains(t, t)
  {
    assert OccursAt(t, t, 0);
  }

  lemma ShortPostingsEmpty(trigger: seq<Pair>)
    requires Mute(trigger)
    ensures PostingsOf(Mapped(ShortTree(trigger).index.entries, Tag(QUIET))) == map[]
    ensures ShortTree(trigger).index.entries == [IndexEntry(ShortNode(trigger))]
  {
    hide EntryTokens, Valid;
    ShortTreeInOrder(trigger);
    ShortListed(trigger);
    ShortNodeHasNoTokens(trigger);
    EntryKeepsTokens(QUIET, ShortNode(trigger));
    var tags := Mapped(ShortTree(trigger).index.entries, Tag(QUIET));
    forall t ensures t !in AllTokens(tags) {
    }
  }

  lemma ShortListed(trigger: seq<Pair>)
    ensures Stems(ShortFiles(trigger)) == ["n"] && Listed(QUIET, ShortFiles(trigger)) == [ShortNode(trigger)]
  {
    hide Valid, ShortNode, InOrder, ShortTree, Collect, Stems, Loader, ToDict;
    ShortTreeInOrder(trigger);
    StemsProperties(ShortFiles(trigger));
    assert ShortFiles(trigger).Keys == {"n"};
    SingletonSeq(Stems(ShortFiles(trigger)), "n");
    CollectOne("n", Loader(QUIET, ShortFiles(trigger)), ShortNode(trigger));
  }

  lemma SingletonSeq(xs: seq<string>, x: string)
    requires NoDup(xs) && Elements(xs) == {x}
    ensures xs == [x]
  {
    assert |xs| > 1 ==> xs[0] != xs[1];
    assert x in Elements(xs);
    assert forall i :: 0 <= i < |xs| ==> xs[i] in Elements(xs);
  }

  /** The scan finds the node by a label or a key alone; the index has nothing to offer. */
  lemma ShortNodeIsMissed(trigger: seq<Pair>, a: Analysis)
    requires ProperTerms(a) && Mute(trigger) && AnswersTo(trigger, a)
    ensures InOrder(QUIET, ShortTree(trigger), {"n"}) && IsWalk(ShortTree(trigger).index, a, [])
    ensures !SameChoice(QUIET, Request(a, Context("n", "", "n"), false), ShortTree(trigger), [], 1, 1)
  {
    hide InOrder, IsWalk, IndexedRecall, ScanRecall, ShortTree, ShortFiles, ProperTerms, IndexOf, AnswersTo,
        Mute;
    var rq := Request(a, Context("n", "", "n"), false);
    ShortTreeInOrder(trigger);
    ShortIndexChoosesNothing(trigger, rq);
    ShortScanChoosesOne(trigger, rq);
  }

  /** A query with a term inside a label fails on a tree whose keys and text are plain. */
  lemma LabelTermIsMissed(a: Analysis)
    requires ProperTerms(a) && !LabelFree(a)
    ensures !LosslessFor(a)
  {
    hide InOrder, KeysClear, IsWalk, SameChoice, ShortTree, ScoringTerms, FixedLabelHit;
    ShortTreeKeysClear(a);
    ShortNodeIsMissed([], a);
  }

  /** A trigger key answers like a label: for every query with a scoring term (all of them
      are lower-case, `Lossless.QueryTermsAreTerms`), free of labels or not, there is a tree in order,
          all of its text plain, on which the scan finds
      the one node by its trigger key and the index does not. */
  lemma KeyTermIsMissed(a: Analysis, s: string)
    requires ProperTerms(a) && s in ScoringTerms(a) && Lower(s) == s
    ensures
      var t := ShortTree([Pair(s, One(""))]);
      && InOrder(QUIET, t, {"n"}) && Plain(QUIET, ToDict(ShortNode([Pair(s, One(""))]))) && IsWalk(t.index, a, [])
      && !SameChoice(QUIET, Request(a, Context("n", "", "n"), false), t, [], 1, 1)
  {
    hide InOrder, IsWalk, SameChoice, ShortTree, ScoringTerms, ShortNode, Plain, Clean;
    var trigger := [Pair(s, One(""))];
    ScoringTermsAreSearched(a, s);
    TermIsClean(s);
    KeyFindsItself(s);
    assert AnswersTo(trigger, a);
    ShortNodePlain(trigger);
    ShortNodeIsMissed(trigger, a);
  }

  lemma TermIsClean(s: string)
    requires IsTerm(s)
    ensures Clean(QUIET, s) && Clean(QUIET, "")
  {
  }

  lemma KeyFindsItself(s: string)
    requires Lower(s) == s
    ensures KeyHit([Pair(s, One(""))], s)
  {
    OccursInItself(s);
    assert Found([Pair(s, One(""))][0].key, s);
  }

  lemma ShortEntryCarried(trigger: seq<Pair>)
    ensures Carried(IndexEntry(ShortNode(trigger))) && IndexEntry(ShortNode(trigger)).nodeId == Some("n")
  {
  }

  lemma ShortIndexChoosesNothing(trigger: seq<Pair>, rq: Request)
    requires Mute(trigger)
    ensures IsWalk(ShortTree(trigger).index, rq.analysis, [])
    ensures IndexedRecall(QUIET, rq, ShortTree(trigger), [], 1, 1) == ([], 0)
  {
    hide Valid, HitOf, ShortNode, ToDict, Listed, Stems;
    ShortPostingsEmpty(trigger);
    var t := ShortTree(trigger);
    assert CandidateIds(t.index.postings, rq.analysis.search) == {};
    ShortEntryCarried(trigger);
    assert Carried(t.index.entries[0]) && "n" in IndexedIds(t.index);
    ShortListed(trigger);
    FilterMember(Stems(t.files), Outside(IndexedIds(t.index)), "n");
    assert UnindexedStems(t.files, t.index) == [];
  }

  lemma ShortScanChoosesOne(trigger: seq<Pair>, rq: Request)
    requires rq.context == Context("n", "", "n") && ProperTerms(rq.analysis) && Mute(trigger) &&
        AnswersTo(trigger, rq.analysis)
    ensures |ScanRecall(QUIET, rq, ShortFiles(trigger), 1, 1).0| == 1
  {
    hide Judge, ShortNode, Collect, Sort, Greedy, Ahead, ToDict;
    ShortNodeScores(trigger, rq);
    ShortListed(trigger);
    UnfoldFileHit(QUIET, rq, ShortFiles(trigger), "n");
    var p := RawPayload(ShortFiles(trigger))("n");
    assert Judging(QUIET, rq)(p) == Judged(QUIET, rq, p);
    var h := Judge(QUIET, ToDict(ShortNode(trigger)), rq).hit;
    assert FileHit(QUIET, rq, ShortFiles(trigger))("n") == Some(h);
    CollectOne("n", FileHit(QUIET, rq, ShortFiles(trigger)), h);
    SortOne(h, Ahead);
    GreedyOne(rq.analysis.risk, h);
  }

  lemma CollectOne<A, B>(x: A, load: A -> Option<B>, y: B)
    requires load(x) == Some(y)
    ensures Collect([x], load) == [y]
  {
    assert [x][1..] == [];
    assert FlatMap([x], OneOf(load)) == OneOf(load)(x) + FlatMap([], OneOf(load));
  }

  lemma SortOne<T>(x: T, before: (T, T) -> bool)
    ensures Sort([x], before) == [x]
  {
    assert [x][1..] == [];
  }

  lemma GreedyOne(risk: Risk, h: Hit)
    ensures |Greedy(QUIET, risk, [h], 1, 1, [], 0).0| == 1
  {
    assert [h][1..] == [];
    assert Greedy(QUIET, risk, [], 1, 1, [Finished(risk, h.item)], 1).0 == [Finished(risk, h.item)];
  }

  lemma ShortNodeScores(trigger: seq<Pair>, rq: Request)
    requires rq.context == Context("n", "", "n") && ProperTerms(rq.analysis) && Mute(trigger) &&
        AnswersTo(trigger, rq.analysis)
    ensures Judge(QUIET, ToDict(ShortNode(trigger)), rq).Chosen?
  {
    hide Valid, Filled, ShortNode, EarlyReject, ScoreNode;
    ShortNodeValid(trigger);
    ReloadIsIdentity(QUIET, ShortNode(trigger));
    ShortNodeNotRejected(trigger, rq);
    ShortNodeHasScore(trigger, rq.analysis);
  }

  lemma ShortNodeNotRejected(trigger: seq<Pair>, rq: Request)
    requires rq.context == Context("n", "", "n")
    ensures EarlyReject(QUIET, ToDict(ShortNode(trigger)), rq).Absent?
  {
    assert Lower("") != "deprecated";
  }

  lemma ShortNodeHasScore(trigger: seq<Pair>, a: Analysis)
    requires ProperTerms(a) && Mute(trigger) && AnswersTo(trigger, a)
    ensures ScoreNode(QUIET, ToDict(ShortNode(trigger)), a) > 0.0
  {
    hide TextScore, ScoringTerms, Cautious, ShortNode, ToDict, Recency, Sum, IsDeprecated, QualityOf;
    ShortNodeTextScore(trigger, a);
    ShortNodeExtras(trigger, ToDict(ShortNode(trigger)));
  }

  lemma ShortNodeExtras(trigger: seq<Pair>, p: Payload)
    requires p == ToDict(ShortNode(trigger))
    ensures !IsDeprecated(p) && Recency(QUIET, p) == 0.0 && Sum(p.salience.GetOr([])) == 0.0
    ensures p.memoryType != "negative_rule" && !QualityOf(p).stale && p.visibility != Some(MERGE_CANDIDATE)
  {
    assert Lower("") != "deprecated";
  }

  lemma ShortNodeTextScore(trigger: seq<Pair>, a: Analysis)
    requires ProperTerms(a) && Mute(trigger) && AnswersTo(trigger, a)
    ensures TextScore(QUIET, ToDict(ShortNode(trigger)), ScoringTerms(a)) > 0
  {
    hide TextScore, TextHit, PostingHit, KeyHit, ToDict, ShortNode, Plain, ScoringTerms;
    var p := ToDict(ShortNode(trigger));
    ShortNodePlain(trigger);
    var terms := ScoringTerms(a);
    var s :| s in terms && (FixedLabelHit(s) || KeyHit(trigger, s));
    ScoringTermsAreSearched(a, s);
    ScorerSeesPostingsAndLabels(QUIET, p, s);
    var i :| 0 <= i < |terms| && terms[i] == s;
    TextScorePositive(QUIET, p, terms);
  }
}
