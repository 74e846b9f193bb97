/** Ids with white space at their ends. Their nodes are in the index under the padded id
    and count as unindexed files under the stripped one, so recall meets them twice. */
module PaddedIds {
  import opened Text
  import opened Sorting
  import opened Seqs
  import opened Memory
  import opened Postings
  import opened MemoryTree
  import opened RecallRules
  import opened Lossless
  import opened Recall
  import opened StoreRuns

  /** The file holds a node whose id is not the file's name. */
  predicate Padded(env: Env, files: map<string, File>, s: string) {
    Loader(env, files)(s).Some? && !Trimmed(Loader(env, files)(s).value.nodeId)
  }

  /** A tree as the store leaves it, and a query no label and no trigger key answers to. */
  ghost predicate Asked(env: Env, rq: Request, t: Tree) {
    Kept(env, t) && t.index.Index? && ProperTerms(rq.analysis) && Answerable(env, rq, t, t.files.Keys)
  }

  /** Recall through the index is the scan, whatever the walk, the limit and the budget. */
  ghost predicate Agrees(env: Env, rq: Request, t: Tree)
    requires t.index.Index?
  {
    forall order: seq<string>, limit: int, budget: int :: IsWalk(t.index, rq.analysis, order) ==>
      IndexedRecall(env, rq, t, order, limit, budget) == ScanRecall(env, rq, t.files, limit, budget)
  }

  // ------------------------------------------------------------ files and entries

  lemma StoredNode(env: Env, t: Tree, s: string)
    requires Kept(env, t) && s in t.files
    ensures Loader(env, t.files)(s).Some?
    ensures
      var n := Loader(env, t.files)(s).value;
      t.files[s] == Json(ToDict(n)) && Strip(n.nodeId) == s && Valid(env, n) && n.nodeId != "" &&
          n in Listed(env, t.files)
  {
    hide ToDict, Loader, Strip, Listed, IndexOf, FromDict, Valid;
    assert OwnFile(env, t.project, t.files, s);
    LoaderIsValid(env, t.files, s);
    ListedMember(env, t.files, Loader(env, t.files)(s).value);
    EmptyStrip();
  }

  lemma LoaderIsValid(env: Env, files: map<string, File>, s: string)
    requires Loader(env, files)(s).Some?
    ensures Valid(env, Loader(env, files)(s).value)
  {
    hide Valid, Filled;
  }

  lemma EmptyStrip()
    ensures Strip("") == ""
  {
  }

  lemma ListedNode(env: Env, t: Tree, n: Node)
    requires Kept(env, t) && n in Listed(env, t.files)
    ensures Loader(env, t.files)(Strip(n.nodeId)) == Some(n) && Strip(n.nodeId) in t.files
  {
    hide ToDict, Loader, Strip, Listed, IndexOf, Kept;
    ListedMember(env, t.files, n);
    var s :| s in t.files && Loader(env, t.files)(s) == Some(n);
    StoredNode(env, t, s);
  }

  /** The hit of a file, by the id of its node. */
  function IdHit(env: Env, rq: Request, files: map<string, File>): string -> Option<Hit> {
    (id: string) => FileHit(env, rq, files)(Strip(id))
  }

  lemma FileHitIs(env: Env, rq: Request, t: Tree, s: string)
    requires Kept(env, t) && s in t.files
    ensures FileHit(env, rq, t.files)(s) == HitOf(env, rq)(Some(ToDict(Loader(env, t.files)(s).value)))
    ensures FileHit(env, rq, t.files)(s).Some? ==>
      && FileHit(env, rq, t.files)(s).value.id == Loader(env, t.files)(s).value.nodeId
      && TextScore(env, ToDict(Loader(env, t.files)(s).value), ScoringTerms(rq.analysis)) > 0
  {
    hide Loader, HitOf, TextScore, Kept, Valid, FromDict, ScoringTerms;
    StoredNode(env, t, s);
    UnfoldFileHit(env, rq, t.files, s);
    DictKeepsId(Loader(env, t.files)(s).value);
    if FileHit(env, rq, t.files)(s).Some? {
      HitIsLoaded(env, rq, t.files, s);
    }
  }

  lemma DictKeepsId(n: Node)
    ensures ToDict(n).nodeId == Some(n.nodeId)
  {
  }

  /** A candidate's record judges like the file its id strips to. */
  lemma CandidateHit(env: Env, rq: Request, t: Tree, id: string)
    requires Kept(env, t) && t.index.Index? && id in CandidateIds(t.index.postings, rq.analysis.search)
    ensures HitOf(env, rq)(CandidateRecord(env, t.files, t.index.entries)(id)) == IdHit(env, rq, t.files)(id)
    ensures Strip(id) in t.files && Loader(env, t.files)(Strip(id)).value.nodeId == id
  {
    hide Judge, Valid, FromDict, CandidateIds, IndexEntry, Listed, PostingsOf, Kept, Loader, Strip, ToDict,
        FileHit, HitOf;
    var nodes := Listed(env, t.files);
    KeptIndex(env, t);
    var m := CandidateNode(env, t, rq.analysis.search, id);
    var i :| 0 <= i < |nodes| && nodes[i] == m;
    EntryKeepsId(m);
    assert t.index.entries[i].nodeId == Some(id);
    var e := EntryFor(t.index.entries, id).value;
    var j :| 0 <= j < |t.index.entries| && t.index.entries[j] == e;
    EntryKeepsId(nodes[j]);
    ListedNode(env, t, nodes[j]);
    StoredNode(env, t, Strip(id));
    EntryRefinesNode(env, nodes[j], rq);
    SameVerdictSameHit(env, rq, e, ToDict(nodes[j]));
    FileHitIs(env, rq, t, Strip(id));
  }

  lemma KeptIndex(env: Env, t: Tree)
    requires Kept(env, t) && t.index.Index?
    ensures t.index == IndexOver(env, Listed(env, t.files)) &&
        t.index.entries == Mapped(Listed(env, t.files), ToEntry())
  {
    hide Listed, PostingsOf, OwnFiles, OwnSnapshots;
  }

  lemma CandidateNode(env: Env, t: Tree, search: seq<string>, id: string) returns (n: Node)
    requires Kept(env, t) && t.index.Index? && id in CandidateIds(t.index.postings, search)
    ensures n in Listed(env, t.files) && n.nodeId == id
  {
    hide Listed, Kept, IndexOver, EntryTokens;
    KeptIndex(env, t);
    var k :| k in t.index.postings && id in t.index.postings[k];
    PostingsOfNodes(env, Listed(env, t.files), k, id);
    n :| n in Listed(env, t.files) && n.nodeId == id && TokenOf(env, n, k);
  }

  /** Every hit's node id is a candidate. */
  lemma HitIsCandidate(env: Env, rq: Request, t: Tree, s: string)
    requires Asked(env, rq, t) && s in t.files && FileHit(env, rq, t.files)(s).Some?
    ensures rq.analysis.search != [] && Loader(env, t.files)(s).Some?
    ensures Loader(env, t.files)(s).value.nodeId in CandidateIds(t.index.postings, rq.analysis.search)
  {
    hide Loader, FileHit, Kept, Valid, FromDict, TextScore, EntryTokens, Plain, KeyHit, ScoringTerms, LabelFree,
        Listed, IndexOver, ToDict, IndexEntry, Strip;
    StoredNode(env, t, s);
    var n := Loader(env, t.files)(s).value;
    FileHitIs(env, rq, t, s);
    var term, tok := ScoringTermIsPosted(env, rq, n);
    KeptIndex(env, t);
    EntryKeepsTokens(env, n);
    PostingsOfNodes(env, Listed(env, t.files), tok, n.nodeId);
    assert TokenOf(env, n, tok);
    var m :| 0 <= m < |rq.analysis.search| && rq.analysis.search[m] == term;
    assert TokenWanted(tok, rq.analysis.search);
  }

  /** The files outside the index are the padded ones. */
  lemma UnindexedIsPadded(env: Env, t: Tree, s: string)
    requires Kept(env, t) && t.index.Index?
    ensures s in UnindexedStems(t.files, t.index) <==> s in t.files && Padded(env, t.files, s)
  {
    hide Loader, Kept, Trimmed;
    UnindexedProperties(t.files, t.index);
    if s in t.files {
      StemIndexedIffTrimmed(env, t, s);
    }
  }

  // ------------------------------------------------------------- hits of a walk

  lemma {:induction false} CollectSame<A(!new), B>(xs: seq<A>, f: A -> Option<B>, g: A -> Option<B>)
    requires forall x :: x in xs ==> f(x) == g(x)
    ensures Collect(xs, f) == Collect(xs, g)
  {
    if xs != [] {
      CollectSame(xs[1..], f, g);
    }
  }

  lemma {:induction false} CollectNothing<A(!new), B>(xs: seq<A>, f: A -> Option<B>)
    requires forall x :: x in xs ==> f(x).Absent?
    ensures Collect(xs, f) == []
  {
    if xs != [] {
      CollectNothing(xs[1..], f);
    }
  }

  lemma WalkHits(env: Env, rq: Request, t: Tree, order: seq<string>)
    requires Kept(env, t) && t.index.Index? && IsWalk(t.index, rq.analysis, order)
    ensures Collect(IndexedRecords(env, t, order), HitOf(env, rq))
         == Collect(order, IdHit(env, rq, t.files)) + Collect(UnindexedStems(t.files, t.index),
             FileHit(env, rq, t.files))
  {
    hide Kept, HitOf, CandidateRecord, RawPayload, UnindexedStems, CandidateIds, Collect, IdHit;
    var record, newer := CandidateRecord(env, t.files, t.index.entries), UnindexedStems(t.files, t.index);
    forall id | id in order ensures HitOf(env, rq)(record(id)) == IdHit(env, rq, t.files)(id) {
      assert id in Elements(order);
      CandidateHit(env, rq, t, id);
    }
    CollectThrough(order, record, HitOf(env, rq), IdHit(env, rq, t.files));
    forall s | s in newer ensures HitOf(env, rq)(RawPayload(t.files)(s)) == FileHit(env, rq, t.files)(s) {
      UnfoldFileHit(env, rq, t.files, s);
    }
    CollectThrough(newer, RawPayload(t.files), HitOf(env, rq), FileHit(env, rq, t.files));
    CollectConcat(Mapped(order, record), Mapped(newer, RawPayload(t.files)), HitOf(env, rq));
  }

  // ------------------------------------------------------ no padded node is a hit

  ghost predicate NoPaddedHit(env: Env, rq: Request, files: map<string, File>) {
    forall s :: s in files && Padded(env, files, s) ==> FileHit(env, rq, files)(s).Absent?
  }

  /** The hit of a trimmed id. */
  function PlainHit(env: Env, rq: Request, files: map<string, File>): string -> Option<Hit> {
    (id: string) => if Trimmed(id) then FileHit(env, rq, files)(id) else Absent
  }

  lemma PlainHitsAreFaithful(env: Env, rq: Request, t: Tree)
    requires Kept(env, t) && NoPaddedHit(env, rq, t.files)
    ensures IdFaithful(PlainHit(env, rq, t.files))
    ensures forall s :: s in t.files ==> PlainHit(env, rq, t.files)(s) == FileHit(env, rq, t.files)(s)
  {
    hide Kept, FileHit, Trimmed, Loader, Strip;
    var load := PlainHit(env, rq, t.files);
    forall x | load(x).Some? ensures load(x).value.id == x {
      HitIsLoaded(env, rq, t.files, x);
      StoredNode(env, t, x);
      FileHitIs(env, rq, t, x);
      assert !Padded(env, t.files, x);
      StripTrimmed(Loader(env, t.files)(x).value.nodeId);
    }
    forall s | s in t.files ensures load(s) == FileHit(env, rq, t.files)(s) {
      StoredNode(env, t, s);
      StripTrimmed(Loader(env, t.files)(s).value.nodeId);
    }
  }

  lemma WithoutPaddedHitsTheyAgree(env: Env, rq: Request, t: Tree, order: seq<string>, limit: int, budget: int)
    requires Asked(env, rq, t) && NoPaddedHit(env, rq, t.files) && IsWalk(t.index, rq.analysis, order)
    ensures IndexedRecall(env, rq, t, order, limit, budget) == ScanRecall(env, rq, t.files, limit, budget)
  {
    hide Kept, FileHit, Trimmed, Loader, Strip, Greedy, Sort, Collect, Stems, UnindexedStems, IndexedRecords,
        HitOf, CandidateIds, Answerable, ProperTerms, Padded;
    var load, newer, stems := PlainHit(env, rq, t.files), UnindexedStems(t.files, t.index), Stems(t.files);
    WalkHits(env, rq, t, order);
    PlainHitsAreFaithful(env, rq, t);
    StemsProperties(t.files);
    forall s | s in newer ensures FileHit(env, rq, t.files)(s).Absent? {
      UnindexedIsPadded(env, t, s);
    }
    CollectNothing(newer, FileHit(env, rq, t.files));
    forall id | id in order ensures IdHit(env, rq, t.files)(id) == load(id) {
      OrderedIdHit(env, rq, t, order, id);
    }
    CollectSame(order, IdHit(env, rq, t.files), load);
    CollectSame(stems, FileHit(env, rq, t.files), load);
    forall x | load(x).Some? ensures x in order && x in stems {
      HitIsLoaded(env, rq, t.files, x);
      HitIsCandidate(env, rq, t, x);
      FileHitIs(env, rq, t, x);
      assert x in Elements(order);
    }
    SortForgetsOrder(order, stems, load);
    assert Collect(order, load) + [] == Collect(order, load);
  }

  lemma OrderedIdHit(env: Env, rq: Request, t: Tree, order: seq<string>, id: string)
    requires Kept(env, t) && t.index.Index? && NoPaddedHit(env, rq, t.files) &&
        IsWalk(t.index, rq.analysis, order) && id in order
    ensures IdHit(env, rq, t.files)(id) == PlainHit(env, rq, t.files)(id)
  {
    hide Kept, FileHit, Trimmed, Loader, Strip, CandidateIds;
    assert id in Elements(order);
    CandidateHit(env, rq, t, id);
    StripTrimmed(id);
    StoredNode(env, t, Strip(id));
    if !Trimmed(id) {
      assert Padded(env, t.files, Strip(id));
    }
  }

  // -------------------------------------------------------- a padded node is a hit

  lemma {:induction false} CollectDistinct<A(!new), B(!new)>(xs: seq<A>, load: A -> Option<B>)
    requires NoDup(xs) && forall x, y :: x in xs && y in xs && load(x).Some? && load(x) == load(y) ==> x == y
    ensures NoDup(Collect(xs, load))
  {
    if xs != [] {
      CollectDistinct(xs[1..], load);
      if load(xs[0]).Some? {
        var b := load(xs[0]).value;
        CollectMember(xs[1..], load, b);
        assert b !in Collect(xs[1..], load);
      }
    }
  }

  lemma {:induction false} NoDupIsShort<T(!new)>(a: seq<T>, b: seq<T>)
    requires NoDup(a) && forall x :: x in a ==> x in b
    ensures |a| <= |b|
    decreases |a|
  {
    if a != [] {
      assert a[0] in a && forall x :: x in a[1..] ==> x in a;
      var i :| 0 <= i < |b| && b[i] == a[0];
      var rest := b[..i] + b[i + 1..];
      forall x | x in a[1..] ensures x in rest {
        var j :| 0 <= j < |b| && b[j] == x;
        assert if j < i then rest[j] == x else rest[j - 1] == x;
      }
      NoDupIsShort(a[1..], rest);
    }
  }

  function TotalUnits(env: Env, hits: seq<Hit>): nat {
    if hits == [] then 0 else env.units(hits[0].item) + TotalUnits(env, hits[1..])
  }

  /** With room for everything the greedy pass takes everything. */
  lemma {:induction false} GreedyTakesAll(env: Env, risk: Risk, hits: seq<Hit>, limit: int, budget: int,
      chosen: seq<Item>, used: nat)
    requires |chosen| + |hits| <= limit && used + TotalUnits(env, hits) <= budget
    ensures |Greedy(env, risk, hits, limit, budget, chosen, used).0| == |chosen| + |hits|
    decreases |hits|
  {
    if hits != [] && |chosen| < limit {
      GreedyTakesAll(env, risk, hits[1..], limit, budget, chosen + [Finished(risk, hits[0].item)],
          used + env.units(hits[0].item));
    }
  }

  lemma SelectedAll(env: Env, rq: Request, hits: seq<Hit>, limit: int, budget: int)
    requires |hits| <= limit && TotalUnits(env, Sort(hits, Ahead)) <= budget
    ensures |Selected(env, rq, hits, limit, budget).0| == |hits|
  {
    hide Sort, Greedy, TotalUnits, Ahead;
    SortMembers(hits, Ahead);
    GreedyTakesAll(env, rq.analysis.risk, Sort(hits, Ahead), limit, budget, [], 0);
  }

  /** The hits of the files are distinct, and each is met through its id. */
  lemma FileHitsAreMet(env: Env, rq: Request, t: Tree, order: seq<string>)
    requires Asked(env, rq, t) && IsWalk(t.index, rq.analysis, order)
    ensures |Collect(Stems(t.files), FileHit(env, rq, t.files))| <= |Collect(order, IdHit(env, rq, t.files))|
  {
    hide Kept, FileHit, Loader, Strip, Collect, Stems, CandidateIds, Answerable, ProperTerms;
    var stems, load := Stems(t.files), FileHit(env, rq, t.files);
    StemsProperties(t.files);
    forall x, y | x in stems && y in stems && load(x).Some? && load(x) == load(y) ensures x == y {
      FileHitIs(env, rq, t, x);
      FileHitIs(env, rq, t, y);
      StoredNode(env, t, x);
      StoredNode(env, t, y);
    }
    CollectDistinct(stems, load);
    forall h | h in Collect(stems, load) ensures h in Collect(order, IdHit(env, rq, t.files)) {
      CollectMember(stems, load, h);
      var s :| s in stems && load(s) == Some(h);
      HitIsCandidate(env, rq, t, s);
      StoredNode(env, t, s);
      var id := Loader(env, t.files)(s).value.nodeId;
      assert id in Elements(order) && IdHit(env, rq, t.files)(id) == Some(h);
      CollectMember(order, IdHit(env, rq, t.files), h);
    }
    NoDupIsShort(Collect(stems, load), Collect(order, IdHit(env, rq, t.files)));
  }

  /** A padded hit is selected twice when there is room. */
  lemma PaddedHitIsMetTwice(env: Env, rq: Request, t: Tree, s: string)
    requires Asked(env, rq, t) && s in t.files && Padded(env, t.files, s) && FileHit(env, rq, t.files)(s).Some?
    ensures !Agrees(env, rq, t)
  {
    hide Kept, FileHit, Trimmed, Loader, Strip, Collect, Stems, UnindexedStems, IndexedRecords, HitOf,
        CandidateIds, Selected, Answerable, ProperTerms, Padded, IdHit;
    var order := SeqOf(if rq.analysis.search == [] then {} else CandidateIds(t.index.postings, rq.analysis.search));
    assert IsWalk(t.index, rq.analysis, order);
    var newer := UnindexedStems(t.files, t.index);
    var scan := Collect(Stems(t.files), FileHit(env, rq, t.files));
    var walk := Collect(IndexedRecords(env, t, order), HitOf(env, rq));
    WalkHits(env, rq, t, order);
    FileHitsAreMet(env, rq, t, order);
    UnindexedIsPadded(env, t, s);
    CollectMember(newer, FileHit(env, rq, t.files), FileHit(env, rq, t.files)(s).value);
    assert |walk| > |scan|;
    var budget := TotalUnits(env, Sort(walk, Ahead)) + TotalUnits(env, Sort(scan, Ahead));
    SelectedAll(env, rq, walk, |walk|, budget);
    SelectedAll(env, rq, scan, |walk|, budget);
    assert IndexedRecall(env, rq, t, order, |walk|, budget) != ScanRecall(env, rq, t.files, |walk|, budget);
  }

  /** In a tree the store kept, with a query no label or trigger key answers to, recall
      through the index is the scan for every walk, limit and budget if and only if no node
      with a padded id is a hit: such a node is met once through its entry and once more
      through its file. */
  lemma AgreesIffNoPaddedHit(env: Env, rq: Request, t: Tree)
    requires Asked(env, rq, t)
    ensures Agrees(env, rq, t) <==> NoPaddedHit(env, rq, t.files)
  {
    hide Kept, Answerable, ProperTerms, FileHit, IndexedRecall, ScanRecall, Padded, IsWalk;
    if NoPaddedHit(env, rq, t.files) {
      forall order: seq<string>, limit: int, budget: int | IsWalk(t.index, rq.analysis, order)
        ensures IndexedRecall(env, rq, t, order, limit, budget) == ScanRecall(env, rq, t.files, limit, budget)
      {
        WithoutPaddedHitsTheyAgree(env, rq, t, order, limit, budget);
      }
    } else {
      var s :| s in t.files && Padded(env, t.files, s) && FileHit(env, rq, t.files)(s).Some?;
      PaddedHitIsMetTwice(env, rq, t, s);
    }
  }
}
