/** Recall over the index and recall over every node file, and the proof that they
    choose the same items. */
module Recall {
  import opened Text
  import opened Sorting
  import opened Seqs
  import opened Memory
  import opened Postings
  import opened PyRepr
  import opened MemoryTree
  import opened TreeStores
  import opened RecallRules
  import opened Lossless

  // ------------------------------------------------------------- specification

  /** A record as recall receives it: absent when the file does not parse. */
  function RawPayload(files: map<string, File>): string -> Option<Payload> {
    (stem: string) => if stem in files && files[stem].Json? then Some(files[stem].payload) else Absent
  }

  function Judged(env: Env, rq: Request, p: Option<Payload>): Verdict {
    match p case Absent => PassedOver(InvalidNode) case Some(r) => Judge(env, r, rq)
  }

  function Judging(env: Env, rq: Request): Option<Payload> -> Verdict {
    (p: Option<Payload>) => Judged(env, rq, p)
  }

  /** The hits among the records a judge is shown. */
  function Keeping(judge: Option<Payload> -> Verdict): Option<Payload> -> Option<Hit> {
    (p: Option<Payload>) => match judge(p) case Chosen(h) => Some(h) case PassedOver(_) => Absent
  }

  function HitOf(env: Env, rq: Request): Option<Payload> -> Option<Hit> {
    Keeping(Judging(env, rq))
  }

  /** The file of a stem, judged. */
  function FileHit(env: Env, rq: Request, files: map<string, File>): string -> Option<Hit> {
    (stem: string) => HitOf(env, rq)(RawPayload(files)(stem))
  }

  function Selected(env: Env, rq: Request, hits: seq<Hit>, limit: int, budget: int): (seq<Item>, nat) {
    Greedy(env, rq.analysis.risk, Sort(hits, Ahead), limit, budget, [], 0)
  }

  /** Recall by scanning every node file in directory order. */
  ghost function ScanRecall(env: Env, rq: Request, files: map<string, File>, limit: int, budget: int): (seq<Item>,
      nat) {
    Selected(env, rq, Collect(Stems(files), FileHit(env, rq, files)), limit, budget)
  }

  function IndexedIds(index: Index): set<string> {
    if index.NoIndex? then {} else
      set i | 0 <= i < |index.entries| && Carried(index.entries[i]) :: index.entries[i].nodeId.value
  }

  predicate Carried(e: Payload) {
    e.nodeId.Some? && e.nodeId.value != ""
  }

  /** Ids under a posting token that contains a search term. */
  ghost function CandidateIds(postings: map<string, seq<string>>, search: seq<string>): set<string> {
    set t, id | t in postings && TokenWanted(t, search) && id in postings[t] :: id
  }

  predicate TokenWanted(t: string, search: seq<string>) {
    exists i :: 0 <= i < |search| && search[i] != "" && Contains(t, search[i])
  }

  /** `{e["node_id"]: e for e in entries}.get(id)`: the last entry wins. */
  function EntryFor(entries: seq<Payload>, id: string): (r: Option<Payload>)
    ensures r.Some? ==> r.value in entries && r.value.nodeId == Some(id)
    ensures r.Absent? ==> forall e :: e in entries ==> e.nodeId != Some(id)
  {
    if entries == [] then Absent
    else if entries[|entries| - 1].nodeId == Some(id) then Some(entries[|entries| - 1])
    else EntryFor(entries[..|entries| - 1], id)
  }

  /** The record scored for a candidate: its index entry, else the loaded node. */
  function CandidateRecord(env: Env, files: map<string, File>, entries: seq<Payload>): string -> Option<Payload> {
    (id: string) =>
      match EntryFor(entries, id)
      case Some(e) => Some(e)
      case Absent => match Load(env, files, Strip(id)) case Some(n) => Some(ToDict(n)) case Absent => Absent
  }

  /** The stems whose files the index does not represent, in directory order. */
  ghost function UnindexedStems(files: map<string, File>, index: Index): seq<string> {
    Filter(Stems(files), Outside(IndexedIds(index)))
  }

  function Outside(ids: set<string>): string -> bool {
    (s: string) => s !in ids
  }

  /** One way to walk the candidate set. */
  ghost predicate IsWalk(index: Index, a: Analysis, order: seq<string>)
    requires index.Index?
  {
    NoDup(order) && Elements(order) == if a.search == [] then {} else CandidateIds(index.postings, a.search)
  }

  ghost function IndexedRecords(env: Env, t: Tree, order: seq<string>): seq<Option<Payload>>
    requires t.index.Index?
  {
    Mapped(order, CandidateRecord(env, t.files, t.index.entries)) + Mapped(UnindexedStems(t.files, t.index),
        RawPayload(t.files))
  }

  /** Recall through the index, the candidates walked in the given order. */
  ghost function IndexedRecall(env: Env, rq: Request, t: Tree, order: seq<string>, limit: int,
      budget: int): (seq<Item>, nat)
    requires t.index.Index?
  {
    Selected(env, rq, Collect(IndexedRecords(env, t, order), HitOf(env, rq)), limit, budget)
  }

  // ------------------------------------------------------------------- methods

  method SortedStems(files: map<string, File>) returns (stems: seq<string>)
    ensures stems == Stems(files)
  {
    FileLessIsStrict(files.Keys);
    stems := Enumerate(files.Keys, FileLess);
  }

  /** `unindexed_payloads`, each record with the name of its file. */
  method UnindexedPayloads(store: TreeStore) returns (names: seq<string>, out: seq<Option<Payload>>)
    ensures names == UnindexedStems(store.files, store.index) && out == Mapped(names, RawPayload(store.files))
  {
    var stems := SortedStems(store.files);
    names, out := RecordsOutside(stems, IndexedIds(store.index), RawPayload(store.files));
  }

  method RecordsOutside(stems: seq<string>, ids: set<string>, record: string -> Option<Payload>)
    returns (names: seq<string>, out: seq<Option<Payload>>)
    ensures names == Filter(stems, Outside(ids)) && out == Mapped(names, record)
  {
    names, out := [], [];
    for i := 0 to |stems|
      invariant names == Filter(stems[..i], Outside(ids)) && out == Mapped(names, record)
    {
      FilterStep(stems, Outside(ids), i);
      if stems[i] !in ids {
        names := names + [stems[i]];
        out := out + [record(stems[i])];
      }
    }
    assert stems[..|stems|] == stems;
  }

  /** The ids under every posting token that holds a search term. */
  method CollectCandidates(postings: map<string, seq<string>>, search: seq<string>) returns (ids: set<string>)
    ensures ids == CandidateIds(postings, search)
  {
    ids := {};
    var rest := postings.Keys;
    while rest != {}
      invariant rest <= postings.Keys
      invariant forall x :: x in ids <==>
          exists t :: t in postings && t !in rest && TokenWanted(t, search) && x in postings[t]
    {
      var t :| t in rest;
      if TokenWanted(t, search) {
        ids := ids + set x | x in postings[t];
      }
      rest := rest - {t};
    }
  }

  /** `candidate_payloads`, each record with the name of its file. The candidate set is
      walked in whatever order it comes; `order` records the one taken. */
  method CandidatePayloads(store: TreeStore, search: seq<string>)
    returns (names: seq<string>, out: seq<Option<Payload>>, ghost order: seq<string>)
    ensures store.index.Index? ==>
      NoDup(order) && Elements(order) == (if search == [] then {} else CandidateIds(store.index.postings, search))
    ensures store.index.Index? ==> out == IndexedRecords(store.env, store.State(), order)
    ensures store.index.NoIndex? ==> out == Mapped(Stems(store.files), RawPayload(store.files))
    ensures names == RecordNames(store.State(), order) && |names| == |out|
  {
    order := [];
    if store.index.NoIndex? {
      names := SortedStems(store.files);
      out := Mapped(names, RawPayload(store.files));
      return;
    }
    var ids := {};
    if search != [] {
      ids := CollectCandidates(store.index.postings, search);
    }
    var indexed, rest, unindexed;
    names, indexed := WalkCandidates(ids, CandidateRecord(store.env, store.files, store.index.entries));
    order := names;
    rest, unindexed := UnindexedPayloads(store);
    names := names + rest;
    out := indexed + unindexed;
  }

  /** The file names of the records recall looks at. */
  ghost function RecordNames(t: Tree, order: seq<string>): seq<string> {
    if t.index.NoIndex? then Stems(t.files) else order + UnindexedStems(t.files, t.index)
  }

  /** The loop over the candidate set. */
  method WalkCandidates(ids: set<string>, record: string -> Option<Payload>)
    returns (order: seq<string>, out: seq<Option<Payload>>)
    ensures NoDup(order) && Elements(order) == ids && out == Mapped(order, record)
  {
    out, order := [], [];
    var rest := ids;
    while rest != {}
      invariant rest <= ids && NoDup(order) && Elements(order) == ids - rest
      invariant out == Mapped(order, record)
    {
      var id :| id in rest;
      assert id !in Elements(order);
      out := out + [record(id)];
      order := order + [id];
      rest := rest - {id};
    }
  }

  /** `node_id_for`: the record's id, or the name of its file. */
  function IdFor(name: string, p: Option<Payload>): string {
    if p.Some? then p.value.nodeId.GetOr(name) else name
  }

  /** The id and the reason of a record that is no hit. */
  function Passing(judge: Option<Payload> -> Verdict): ((string, Option<Payload>)) -> Option<(string, Reason)> {
    (r: (string, Option<Payload>)) =>
      match judge(r.1)
      case Chosen(_) => Absent
      case PassedOver(reason) => Some((IdFor(r.0, r.1), reason))
  }

  /** The hits the greedy pass leaves for the budget, before it stops at the limit. */
  function Overruns(env: Env, hits: seq<Hit>, limit: int, budget: int, chosen: nat, used: nat): seq<(string, Reason)> {
    if hits == [] || chosen >= limit then []
    else
      var needed := env.units(hits[0].item);
      if used + needed > budget then [(hits[0].id, BudgetExceeded)] + Overruns(env, hits[1..], limit, budget,
          chosen, used)
      else Overruns(env, hits[1..], limit, budget, chosen + 1, used + needed)
  }

  /** The scoring loop of `recall`: hits in candidate order, and every other record
      with the reason it was passed over. */
  method ScoreCandidates(judge: Option<Payload> -> Verdict, names: seq<string>, records: seq<Option<Payload>>)
    returns (scored: seq<Hit>, rejected: seq<(string, Reason)>)
    requires |names| == |records|
    ensures scored == Collect(records, Keeping(judge))
    ensures rejected == Collect(Zip(names, records), Passing(judge))
  {
    scored, rejected := [], [];
    for i := 0 to |records|
      invariant scored == Collect(records[..i], Keeping(judge))
      invariant rejected == Collect(Zip(names, records)[..i], Passing(judge))
    {
      CollectStep(records, Keeping(judge), i);
      CollectStep(Zip(names, records), Passing(judge), i);
      match judge(records[i]) {
        case Chosen(h) => scored := scored + [h];
        case PassedOver(reason) =>
          rejected := rejected + [(IdFor(names[i], records[i]), reason)];
      }
    }
    assert records[..|records|] == records && Zip(names, records)[..|records|] == Zip(names, records);
  }

  lemma GreedyStep(env: Env, risk: Risk, hits: seq<Hit>, i: nat, limit: int, budget: int, chosen: seq<Item>, used: nat)
    requires i < |hits| && |chosen| < limit
    ensures Greedy(env, risk, hits[i..], limit, budget, chosen, used) ==
      if used + env.units(hits[i].item) > budget then Greedy(env, risk, hits[i + 1..], limit, budget, chosen, used)
      else Greedy(env, risk, hits[i + 1..], limit, budget, chosen + [Finished(risk, hits[i].item)],
          used + env.units(hits[i].item))
  {
    assert hits[i..][0] == hits[i] && hits[i..][1..] == hits[i + 1..];
  }

  lemma OverrunsStep(env: Env, hits: seq<Hit>, i: nat, limit: int, budget: int, chosen: nat, used: nat)
    requires i < |hits| && chosen < limit
    ensures Overruns(env, hits[i..], limit, budget, chosen, used) ==
      if used + env.units(hits[i].item) > budget then
        [(hits[i].id, BudgetExceeded)] + Overruns(env, hits[i + 1..], limit, budget, chosen, used)
      else Overruns(env, hits[i + 1..], limit, budget, chosen + 1, used + env.units(hits[i].item))
  {
    assert hits[i..][0] == hits[i] && hits[i..][1..] == hits[i + 1..];
  }

  /** Nothing is chosen or refused once the hits or the limit are used up. */
  lemma PassIsOver(env: Env, risk: Risk, hits: seq<Hit>, limit: int, budget: int, chosen: seq<Item>, used: nat)
    requires hits == [] || |chosen| >= limit
    ensures Greedy(env, risk, hits, limit, budget, chosen, used) == (chosen, used)
    ensures Overruns(env, hits, limit, budget, |chosen|, used) == []
  {
  }

  /** The selection loop of `recall` with its running budget. */
  method SelectGreedily(env: Env, risk: Risk, hits: seq<Hit>, limit: int, budget: int)
    returns (selected: seq<Item>, used: nat, refused: seq<(string, Reason)>)
    ensures (selected, used) == Greedy(env, risk, hits, limit, budget, [], 0)
    ensures refused == Overruns(env, hits, limit, budget, 0, 0)
    ensures (used <= budget || used == 0) && (|selected| <= limit || selected == [])
  {
    hide Greedy, Overruns, Finished;
    selected, used, refused := [], 0, [];
    assert hits[0..] == hits;
    for i := 0 to |hits|
      invariant Greedy(env, risk, hits, limit, budget, [], 0) ==
                Greedy(env, risk, hits[i..], limit, budget, selected, used)
      invariant refused + Overruns(env, hits[i..], limit, budget, |selected|, used) == Overruns(env, hits, limit,
          budget, 0, 0)
      invariant (used <= budget || used == 0) && (|selected| <= limit || selected == [])
    {
      if |selected| >= limit {
        PassIsOver(env, risk, hits[i..], limit, budget, selected, used);
        return;
      }
      GreedyStep(env, risk, hits, i, limit, budget, selected, used);
      OverrunsStep(env, hits, i, limit, budget, |selected|, used);
      var needed := env.units(hits[i].item);
      if used + needed > budget {
        assert refused + [(hits[i].id, BudgetExceeded)] + Overruns(env, hits[i + 1..], limit, budget, |selected|, used)
            == refused + Overruns(env, hits[i..], limit, budget, |selected|, used);
        refused := refused + [(hits[i].id, BudgetExceeded)];
      } else {
        used := used + needed;
        selected := selected + [Finished(risk, hits[i].item)];
      }
    }
    PassIsOver(env, risk, hits[|hits|..], limit, budget, selected, used);
  }

  /** `recall`. On a tree the store keeps in order, with a query no label answers to,
      the index changes nothing: the items, their order and the budget used are those
      of a scan over every file. */
  method RecallQuery(store: TreeStore, query: string, context: Context, limit: int, budget: int,
      includeDeprecated: bool)
    returns (selected: seq<Item>, used: nat, rejected: seq<(string, Reason)>, ghost order: seq<string>)
    ensures
      var rq := Request(Analyzed(store.env, query), context, includeDeprecated);
      if store.index.NoIndex? then (selected, used) == ScanRecall(store.env, rq, store.files, limit, budget)
      else
        && IsWalk(store.index, rq.analysis, order)
        && (selected, used) == IndexedRecall(store.env, rq, store.State(), order, limit, budget)
    ensures
      var rq := Request(Analyzed(store.env, query), context, includeDeprecated);
      forall indexed ::
        InOrder(store.env, store.State(), indexed) && Answerable(store.env, rq, store.State(), indexed) ==>
        (selected, used) == ScanRecall(store.env, rq, store.files, limit, budget)
    ensures
      var rq := Request(Analyzed(store.env, query), context, includeDeprecated);
      var records := if store.index.NoIndex? then Mapped(Stems(store.files), RawPayload(store.files))
        else IndexedRecords(store.env, store.State(), order);
      var names := RecordNames(store.State(), order);
      |names| == |records| && rejected == Collect(Zip(names, records), Passing(Judging(store.env, rq)))
        + Overruns(store.env, Sort(Collect(records, HitOf(store.env, rq)), Ahead), limit, budget, 0, 0)
  {
    hide RecordNames, Passing, Overruns, Judging, Keeping, IndexedRecords, Greedy, Sort, InOrder, Answerable,
        Stems, CandidateIds, AnalysisOf, TermsOf;
    var env := store.env;
    var terms := Terms(query);
    var rq := Request(AnalysisOf(env, query, terms), context, includeDeprecated);
    var names, records;
    names, records, order := CandidatePayloads(store, rq.analysis.search);
    var scored, passed := ScoreCandidates(Judging(env, rq), names, records);
    var refused;
    selected, used, refused := SelectGreedily(env, rq.analysis.risk, Sort(scored, Ahead), limit, budget);
    rejected := passed + refused;
    AnalysisIsProper(env, query);
    forall indexed | InOrder(env, store.State(), indexed) && Answerable(env, rq, store.State(), indexed)
      ensures (selected, used) == ScanRecall(env, rq, store.files, limit, budget)
    {
      InOrderHasIndex(env, store.State(), indexed);
      IndexedRecallIsScan(env, rq, store.State(), indexed, order, limit, budget);
    }
    FilesInOrderAreScan(env, rq, store.files, limit, budget);
  }

  lemma InOrderHasIndex(env: Env, t: Tree, indexed: set<string>)
    requires InOrder(env, t, indexed)
    ensures t.index.Index?
  {
  }

  lemma FilesInOrderAreScan(env: Env, rq: Request, files: map<string, File>, limit: int, budget: int)
    ensures Selected(env, rq, Collect(Mapped(Stems(files), RawPayload(files)), HitOf(env, rq)), limit, budget) ==
            ScanRecall(env, rq, files, limit, budget)
  {
    CollectThrough(Stems(files), RawPayload(files), HitOf(env, rq), FileHit(env, rq, files));
  }

  // ---------------------------------------------------------------- conditions

  /** The tree as the store leaves it: the index was built when the directory held the
      files `indexed`, each of them in the store's own format under its own id. Files
      other programs added since may hold anything, except that a valid record there
      carries the id of its file. */
  ghost predicate InOrder(env: Env, t: Tree, indexed: set<string>) {
    && indexed <= t.files.Keys
    && t.index == IndexOf(env, Restrict(t.files, indexed))
    && (forall s :: s in indexed ==> StoredAs(env, t.files, s))
    && (forall s :: s in t.files && s !in indexed ==> SelfNamed(env, t.files, s))
  }

  function Restrict(files: map<string, File>, stems: set<string>): map<string, File> {
    map s | s in files && s in stems :: files[s]
  }

  /** A file that loads holds the complete record of a node with the file's id. */
  predicate StoredAs(env: Env, files: map<string, File>, s: string) {
    s != "" && (Loader(env, files)(s).Some? ==>
      var n := Loader(env, files)(s).value;
      n.nodeId == s && files[s] == Json(ToDict(n)))
  }

  predicate SelfNamed(env: Env, files: map<string, File>, s: string) {
    Loader(env, files)(s).Some? ==> files[s].payload.nodeId == Some(s)
  }

  /** No scoring term lies inside a label: neither a fixed one nor a trigger key of an
      indexed node; and the indexed nodes hold text that Python prints as it is. */
  ghost predicate Answerable(env: Env, rq: Request, t: Tree, indexed: set<string>) {
    LabelFree(rq.analysis) && KeysClear(env, rq.analysis, t, indexed)
  }

  /** Search terms are runs of at least three token characters, as every query's are. */
  predicate ProperTerms(a: Analysis) {
    forall s :: s in a.search ==> IsTerm(s) && |s| >= 3
  }

  lemma AnalysisIsProper(env: Env, query: string)
    ensures ProperTerms(Analyzed(env, query))
  {
    forall s | s in Analyzed(env, query).search ensures IsTerm(s) && |s| >= 3 {
      QueryTermsAreTerms(env, query, s);
    }
  }

  predicate LabelFree(a: Analysis) {
    forall s :: s in ScoringTerms(a) ==> !FixedLabelHit(s)
  }

  ghost predicate KeysClear(env: Env, a: Analysis, t: Tree, indexed: set<string>) {
    forall x :: x in indexed && Loader(env, t.files)(x).Some? ==>
      var n := Loader(env, t.files)(x).value;
      Plain(env, ToDict(n)) && forall s :: s in ScoringTerms(a) ==> !KeyHit(n.trigger, s)
  }

  // -------------------------------------------------------- the fat index entry

  /** An index entry validates whenever its node does, although three keys are gone. */
  lemma EntryValidates(env: Env, n: Node)
    requires Valid(env, n)
    ensures FromDict(env, IndexEntry(n)).Some?
  {
    var e := Filled(env, IndexEntry(n));
    assert e == n.(schemaVersion := SCHEMA_VERSION, evidence := NO_EVIDENCE, compactionReason := "",
                   rawRef := IndexEntry(n).rawRef);
    assert Valid(env, e);
  }

  /** The detector says the same of a valid node and of its entry. */
  lemma EntryRedAlike(env: Env, n: Node)
    requires Valid(env, n)
    ensures RedFields(env, IndexEntry(n)) == RedFields(env, ToDict(n))
  {
  }

  lemma EntryRejectsAlike(env: Env, n: Node, rq: Request)
    requires Valid(env, n)
    ensures HardReject(env, IndexEntry(n), rq) == HardReject(env, ToDict(n), rq)
  {
    hide EarlyReject, Valid, Filled, RedFields;
    EntryValidates(env, n);
    ReloadIsIdentity(env, n);
    EntryRedAlike(env, n);
    EarlyAlike(env, IndexEntry(n), ToDict(n), rq);
  }

  /** Records that agree on the searched keys are treated alike up to validation. */
  lemma EarlyAlike(env: Env, e: Payload, f: Payload, rq: Request)
    requires e == f.(schemaVersion := e.schemaVersion, evidence := e.evidence,
        compactionReason := e.compactionReason, rawRef := e.rawRef)
    requires RedFields(env, e) == RedFields(env, f)
    ensures EarlyReject(env, e, rq) == EarlyReject(env, f, rq)
  {
    assert VisibilityReject(e, rq) == VisibilityReject(f, rq);
    assert IsDeprecated(e) == IsDeprecated(f) && ProvenanceComplete(e) == ProvenanceComplete(f);
  }

  lemma ScoresAlike(env: Env, e: Payload, f: Payload, a: Analysis)
    requires e == f.(schemaVersion := e.schemaVersion, evidence := e.evidence,
        compactionReason := e.compactionReason, rawRef := e.rawRef)
    ensures ScoreNode(env, e, a) == ScoreNode(env, f, a)
  {
    hide MatchCount, ReprOrNone, ReprLinks, ReprDict, Join, Filter, Sum;
    assert EntityText(env, e) == EntityText(env, f) && TriggerDict(env, e) == TriggerDict(env, f);
    assert TextScore(env, e, ScoringTerms(a)) == TextScore(env, f, ScoringTerms(a));
    assert Recency(env, e) == Recency(env, f) && IsDeprecated(e) == IsDeprecated(f);
  }

  /** Rejecting, scoring and rendering an index entry gives what the full node gives. */
  lemma EntryRefinesNode(env: Env, n: Node, rq: Request)
    requires Valid(env, n)
    ensures Judge(env, IndexEntry(n), rq) == Judge(env, ToDict(n), rq)
  {
    hide HardReject, ScoreNode, Valid;
    EntryRejectsAlike(env, n, rq);
    ScoresAlike(env, IndexEntry(n), ToDict(n), rq.analysis);
  }

  // ------------------------------------------------------------ order of hits

  lemma AheadIsStrict(hits: set<Hit>)
    requires forall a, b :: a in hits && b in hits && a.id == b.id ==> a == b
    ensures StrictOrderOn(Ahead, hits)
  {
    forall a | a in hits ensures !Ahead(a, a) {
      LessIrreflexive(a.id);
    }
    forall a, b | a in hits && b in hits && a != b ensures Ahead(a, b) || Ahead(b, a) {
      LessTotal(a.id, b.id);
    }
    forall a, b, c | a in hits && b in hits && c in hits && Ahead(a, b) && Ahead(b, c) ensures Ahead(a, c) {
      if a.score == b.score == c.score {
        LessTransitive(a.id, b.id, c.id);
      }
    }
  }

  ghost predicate IdFaithful(load: string -> Option<Hit>) {
    forall x :: load(x).Some? ==> load(x).value.id == x
  }

  lemma {:induction false} CollectNoDup(xs: seq<string>, load: string -> Option<Hit>)
    requires NoDup(xs) && IdFaithful(load)
    ensures NoDup(Collect(xs, load))
  {
    if xs != [] {
      CollectNoDup(xs[1..], load);
      if load(xs[0]).Some? {
        var h := load(xs[0]).value;
        CollectMember(xs[1..], load, h);
        assert h !in Collect(xs[1..], load);
      }
    }
  }

  /** Two duplicate-free walks that meet the same hits sort to the same sequence. */
  lemma SortForgetsOrder(xs: seq<string>, ys: seq<string>, load: string -> Option<Hit>)
    requires NoDup(xs) && NoDup(ys) && IdFaithful(load)
    requires forall x :: load(x).Some? ==> (x in xs <==> x in ys)
    ensures Sort(Collect(xs, load), Ahead) == Sort(Collect(ys, load), Ahead)
  {
    var a, b := Collect(xs, load), Collect(ys, load);
    forall h ensures h in a <==> h in b {
      CollectMember(xs, load, h);
      CollectMember(ys, load, h);
    }
    assert Elements(a) == Elements(b);
    forall h, k | h in Elements(a) && k in Elements(a) && h.id == k.id ensures h == k {
      CollectMember(xs, load, h);
      CollectMember(xs, load, k);
    }
    AheadIsStrict(Elements(a));
    CollectNoDup(xs, load);
    CollectNoDup(ys, load);
    SortStrict(a, Ahead, Elements(a));
    SortStrict(b, Ahead, Elements(a));
    SortMembers(a, Ahead);
    SortMembers(b, Ahead);
    SortedUnique(Sort(a, Ahead), Sort(b, Ahead), Ahead, Elements(a));
  }

  // ------------------------------------------------- from the index to the scan

  lemma {:induction false} CollectConcat<A, B>(a: seq<A>, b: seq<A>, load: A -> Option<B>)
    ensures Collect(a + b, load) == Collect(a, load) + Collect(b, load)
  {
    FlatMapConcat(a, b, OneOf(load));
  }

  lemma {:induction false} CollectThrough<A(!new), B, C>(xs: seq<A>, f: A -> B, g: B -> Option<C>, load: A -> Option<C>)
    requires forall x :: x in xs ==> g(f(x)) == load(x)
    ensures Collect(Mapped(xs, f), g) == Collect(xs, load)
  {
    if xs != [] {
      assert Mapped(xs, f)[1..] == Mapped(xs[1..], f);
      CollectThrough(xs[1..], f, g, load);
    }
  }

  lemma {:induction false} FilterNoDup<A(!new)>(xs: seq<A>, p: A -> bool)
    requires NoDup(xs)
    ensures NoDup(Filter(xs, p))
  {
    if xs != [] {
      FilterNoDup(xs[1..], p);
      FilterMember(xs[1..], p, xs[0]);
    }
  }

  /** Every index entry is the projection of the node stored under its id. */
  lemma EntryOrigin(env: Env, t: Tree, indexed: set<string>, e: Payload)
    returns (n: Node)
    requires InOrder(env, t, indexed) && e in t.index.entries
    ensures e.nodeId == Some(n.nodeId)
    ensures e == IndexEntry(n) && Valid(env, n) && n.nodeId != "" && n.nodeId in indexed
    ensures Loader(env, t.files)(n.nodeId) == Some(n) && t.files[n.nodeId] == Json(ToDict(n))
  {
    hide Valid, ToDict, IndexEntry, PostingsOf, Tag, FromDict, Listed;
    var files := Restrict(t.files, indexed);
    var nodes := Listed(env, files);
    var i :| 0 <= i < |t.index.entries| && t.index.entries[i] == e;
    n := nodes[i];
    var s := ListedOrigin(env, t.files, indexed, n);
    assert StoredAs(env, t.files, s);
    EntryKeepsId(n);
  }

  lemma EntryKeepsId(n: Node)
    ensures IndexEntry(n).nodeId == Some(n.nodeId)
  {
  }

  lemma ListedOrigin(env: Env, files: map<string, File>, indexed: set<string>, n: Node) returns (s: string)
    requires n in Listed(env, Restrict(files, indexed))
    ensures s in indexed && s in files && Loader(env, files)(s) == Some(n) && Valid(env, n)
  {
    hide Valid, ToDict, Filled, Listed;
    ListedMember(env, Restrict(files, indexed), n);
    s :| s in Restrict(files, indexed) && Loader(env, Restrict(files, indexed))(s) == Some(n);
  }

  lemma ListedPresent(env: Env, files: map<string, File>, indexed: set<string>, s: string, n: Node)
    requires s in indexed && Loader(env, files)(s) == Some(n)
    ensures n in Listed(env, Restrict(files, indexed))
  {
    hide Valid, ToDict, Filled, Listed;
    assert s in Restrict(files, indexed) && Loader(env, Restrict(files, indexed))(s) == Some(n);
    ListedMember(env, Restrict(files, indexed), n);
  }

  /** Every indexed node that loads has its entry. */
  lemma EntryPresent(env: Env, t: Tree, indexed: set<string>, n: Node) returns (i: nat)
    requires InOrder(env, t, indexed) && n.nodeId in indexed && Loader(env, t.files)(n.nodeId) == Some(n)
    ensures t.index.Index? && i < |t.index.entries| && t.index.entries[i] == IndexEntry(n)
  {
    hide Valid, ToDict, IndexEntry, PostingsOf, Tag, FromDict, Listed, StoredAs, SelfNamed;
    ListedPresent(env, t.files, indexed, n.nodeId, n);
    var nodes := Listed(env, Restrict(t.files, indexed));
    i :| 0 <= i < |nodes| && nodes[i] == n;
  }

  lemma TagOf(env: Env, t: Tree, indexed: set<string>, i: nat)
    requires InOrder(env, t, indexed) && i < |t.index.entries|
    ensures t.index.postings == PostingsOf(Mapped(t.index.entries, Tag(env)))
    ensures Mapped(t.index.entries, Tag(env))[i] ==
            Tagged(t.index.entries[i].nodeId.GetOr(""), EntryTokens(env, t.index.entries[i]))
  {
  }

  /** Only ids of entries stand in the postings. */
  lemma CandidateHasEntry(env: Env, t: Tree, indexed: set<string>, search: seq<string>, id: string) returns (e: Payload)
    requires InOrder(env, t, indexed) && id in CandidateIds(t.index.postings, search)
    ensures t.index.Index? && e in t.index.entries && e.nodeId == Some(id) && id != ""
  {
    hide PostingsOf, EntryTokens, StoredAs, SelfNamed, Listed, IndexEntry;
    var k :| k in t.index.postings && id in t.index.postings[k];
    var tags := Mapped(t.index.entries, Tag(env));
    PostingsExact(tags, k, id);
    var i :| 0 <= i < |tags| && Carries(tags[i], k) && tags[i].id == id;
    TagOf(env, t, indexed, i);
    e := t.index.entries[i];
  }

  /** The record scored for a candidate judges like the candidate's file. */
  lemma CandidateJudgesAsFile(env: Env, rq: Request, t: Tree, indexed: set<string>, id: string)
    requires InOrder(env, t, indexed) && id in CandidateIds(t.index.postings, rq.analysis.search)
    ensures HitOf(env, rq)(CandidateRecord(env, t.files, t.index.entries)(id)) == FileHit(env, rq, t.files)(id)
    ensures id in IndexedIds(t.index)
  {
    hide Judge, Valid, FromDict, PostingsOf, Tag, CandidateIds, IndexEntry, InOrder;
    var e0 := CandidateHasEntry(env, t, indexed, rq.analysis.search, id);
    var i :| 0 <= i < |t.index.entries| && t.index.entries[i] == e0;
    assert Carried(t.index.entries[i]);
    var e := EntryFor(t.index.entries, id).value;
    var n := EntryOrigin(env, t, indexed, e);
    EntryRefinesNode(env, n, rq);
    SameVerdictSameHit(env, rq, e, ToDict(n));
    assert RawPayload(t.files)(id) == Some(ToDict(n));
  }

  lemma SameVerdictSameHit(env: Env, rq: Request, e: Payload, f: Payload)
    requires Judge(env, e, rq) == Judge(env, f, rq)
    ensures HitOf(env, rq)(Some(e)) == HitOf(env, rq)(Some(f))
  {
    hide Judge;
    assert Judging(env, rq)(Some(e)) == Judge(env, e, rq);
    assert Judging(env, rq)(Some(f)) == Judge(env, f, rq);
  }

  lemma ChosenIsValid(env: Env, p: Payload, rq: Request)
    requires Judge(env, p, rq).Chosen?
    ensures FromDict(env, p).Some? && Judge(env, p, rq).hit.id == p.nodeId.GetOr("")
    ensures TextScore(env, p, ScoringTerms(rq.analysis)) > 0
  {
    hide TextScore, FromDict, EarlyReject;
  }

  /** A hit's file loads, carries its id, and has a positive text score. */
  lemma HitIsLoaded(env: Env, rq: Request, files: map<string, File>, x: string)
    requires FileHit(env, rq, files)(x).Some?
    ensures x in files && files[x].Json? && Loader(env, files)(x).Some?
    ensures FileHit(env, rq, files)(x).value.id == files[x].payload.nodeId.GetOr("")
    ensures TextScore(env, files[x].payload, ScoringTerms(rq.analysis)) > 0
  {
    hide Judge, TextScore, FromDict;
    UnfoldFileHit(env, rq, files, x);
    ChosenIsValid(env, files[x].payload, rq);
  }

  lemma UnfoldFileHit(env: Env, rq: Request, files: map<string, File>, x: string)
    ensures FileHit(env, rq, files)(x) == HitOf(env, rq)(RawPayload(files)(x))
    ensures FileHit(env, rq, files)(x).Some? ==>
      && x in files && files[x].Json? && Judge(env, files[x].payload, rq).Chosen?
      && FileHit(env, rq, files)(x).value == Judge(env, files[x].payload, rq).hit
  {
    hide Judge;
    var p := RawPayload(files)(x);
    assert Judging(env, rq)(p) == Judged(env, rq, p);
    assert HitOf(env, rq)(p) == match Judged(env, rq, p) case Chosen(h) => Some(h) case PassedOver(_) => Absent;
  }

  lemma FilesAreFaithful(env: Env, rq: Request, t: Tree, indexed: set<string>)
    requires InOrder(env, t, indexed)
    ensures IdFaithful(FileHit(env, rq, t.files))
  {
    forall x | FileHit(env, rq, t.files)(x).Some? ensures FileHit(env, rq, t.files)(x).value.id == x {
      HitIsLoaded(env, rq, t.files, x);
      assert x in indexed ==> StoredAs(env, t.files, x);
      assert x !in indexed ==> SelfNamed(env, t.files, x);
    }
  }

  /** Losslessness: an indexed node that scores is a candidate. */
  lemma ScoringNodeIsCandidate(env: Env, rq: Request, t: Tree, indexed: set<string>, x: string)
    requires ProperTerms(rq.analysis)
    requires InOrder(env, t, indexed) && Answerable(env, rq, t, indexed)
    requires x in IndexedIds(t.index) && FileHit(env, rq, t.files)(x).Some?
    ensures x in CandidateIds(t.index.postings, rq.analysis.search) && rq.analysis.search != []
  {
    hide Valid, ToDict, IndexEntry, TextScore, FromDict, FileHit, IndexOf, EntryTokens, TextHit, StoredAs,
        SelfNamed, Analyzed;
    var k :| 0 <= k < |t.index.entries| && Carried(t.index.entries[k]) && t.index.entries[k].nodeId.value == x;
    var n := EntryOrigin(env, t, indexed, t.index.entries[k]);
    HitIsLoaded(env, rq, t.files, x);
    var s, tok := ScoringTermIsPosted(env, rq, n);
    PostedUnderToken(env, t, indexed, n, tok);
    var m :| 0 <= m < |rq.analysis.search| && rq.analysis.search[m] == s;
    assert TokenWanted(tok, rq.analysis.search);
  }

  /** If a node scores on its values, a posting token of it holds a search term. */
  lemma ScoringTermIsPosted(env: Env, rq: Request, n: Node) returns (s: string, tok: string)
    requires ProperTerms(rq.analysis) && LabelFree(rq.analysis)
    requires Plain(env, ToDict(n)) && forall s :: s in ScoringTerms(rq.analysis) ==> !KeyHit(n.trigger, s)
    requires TextScore(env, ToDict(n), ScoringTerms(rq.analysis)) > 0
    ensures s in rq.analysis.search && s != "" && tok in EntryTokens(env, ToDict(n)) && Contains(tok, s)
  {
    hide Valid, TextScore, EntryTokens, TextHit, Analyzed, Plain;
    var terms := ScoringTerms(rq.analysis);
    TextScorePositive(env, ToDict(n), terms);
    var j :| 0 <= j < |terms| && terms[j] != "" && TextHit(env, ToDict(n), terms[j]);
    s := terms[j];
    ScoringTermsAreSearched(rq.analysis, s);
    ScorerSeesPostingsAndLabels(env, ToDict(n), s);
    tok :| tok in EntryTokens(env, ToDict(n)) && Contains(tok, s);
  }

  lemma EntryKeepsTokens(env: Env, n: Node)
    ensures EntryTokens(env, IndexEntry(n)) == EntryTokens(env, ToDict(n))
    ensures IndexEntry(n).nodeId == Some(n.nodeId)
  {
    hide SearchBlob;
    assert SearchBlob(env, IndexEntry(n)) == SearchBlob(env, ToDict(n)) by {
      SameBlob(env, n);
    }
  }

  lemma SameBlob(env: Env, n: Node)
    ensures SearchBlob(env, IndexEntry(n)) == SearchBlob(env, ToDict(n))
  {
    hide Join, TriggerText, LinksText, Lower;
    assert SearchParts(env, IndexEntry(n)) == SearchParts(env, ToDict(n));
  }

  lemma PostedUnderToken(env: Env, t: Tree, indexed: set<string>, n: Node, tok: string)
    requires InOrder(env, t, indexed) && n.nodeId in indexed && Loader(env, t.files)(n.nodeId) == Some(n)
    requires tok in EntryTokens(env, ToDict(n)) && n.nodeId != ""
    ensures tok in t.index.postings && n.nodeId in t.index.postings[tok]
  {
    hide Valid, EntryTokens, PostingsOf, StoredAs, SelfNamed, Listed, Loader, SearchBlob;
    var i := EntryPresent(env, t, indexed, n);
    TagOf(env, t, indexed, i);
    var tags := Mapped(t.index.entries, Tag(env));
    EntryKeepsTokens(env, n);
    assert Carries(tags[i], tok) && tags[i].id == n.nodeId;
    PostingsExact(tags, tok, n.nodeId);
  }

  /** Recall through the index selects the items of the scan, in its order, with its
      budget use, in whatever order the candidates were walked. */
  lemma IndexedRecallIsScan(
      env: Env, rq: Request, t: Tree, indexed: set<string>, order: seq<string>, limit: int, budget: int)
    requires ProperTerms(rq.analysis)
    requires InOrder(env, t, indexed) && Answerable(env, rq, t, indexed)
    requires IsWalk(t.index, rq.analysis, order)
    ensures IndexedRecall(env, rq, t, order, limit, budget) == ScanRecall(env, rq, t.files, limit, budget)
  {
    hide Judge, Valid, FromDict, IndexOf, StoredAs, SelfNamed, FileHit, RawPayload, CandidateRecord, HitOf,
        CandidateIds, Analyzed, Greedy, Sort, Collect, Stems, UnindexedStems, Mapped, InOrder, Answerable;
    var newer := UnindexedStems(t.files, t.index);
    assert forall id :: id in order ==> id in Elements(order);
    RecordsAreFiles(env, rq, t, indexed, order, newer);
    WalkMeetsEveryHit(env, rq, t, indexed, order);
  }

  lemma WalkMeetsEveryHit(env: Env, rq: Request, t: Tree, indexed: set<string>, order: seq<string>)
    requires ProperTerms(rq.analysis)
    requires InOrder(env, t, indexed) && Answerable(env, rq, t, indexed)
    requires NoDup(order)
    requires Elements(order) == if rq.analysis.search == [] then {}
        else CandidateIds(t.index.postings, rq.analysis.search)
    ensures Sort(Collect(order + UnindexedStems(t.files, t.index), FileHit(env, rq, t.files)), Ahead)
         == Sort(Collect(Stems(t.files), FileHit(env, rq, t.files)), Ahead)
  {
    hide Judge, Valid, FromDict, IndexOf, StoredAs, SelfNamed, FileHit, CandidateIds, LabelFree, KeysClear,
        Analyzed, Sort, Collect, Stems, UnindexedStems, InOrder, Answerable;
    var load := FileHit(env, rq, t.files);
    var newer := UnindexedStems(t.files, t.index);
    var stems := Stems(t.files);
    FilesAreFaithful(env, rq, t, indexed);
    StemsProperties(t.files);
    UnindexedProperties(t.files, t.index);
    forall x | load(x).Some? ensures x in order + newer && x in stems {
      HitIsLoaded(env, rq, t.files, x);
      if x in IndexedIds(t.index) {
        ScoringNodeIsCandidate(env, rq, t, indexed, x);
        assert x in Elements(order);
      }
    }
    forall id | id in order ensures id in IndexedIds(t.index) {
      assert id in Elements(order);
      CandidateJudgesAsFile(env, rq, t, indexed, id);
    }
    DisjointNoDup(order, newer);
    SortForgetsOrder(order + newer, stems, load);
  }

  lemma DisjointNoDup(a: seq<string>, b: seq<string>)
    requires NoDup(a) && NoDup(b) && forall x :: x in a ==> x !in b
    ensures NoDup(a + b)
  {
    var c := a + b;
    forall i, j | 0 <= i < j < |c| ensures c[i] != c[j] {
      if i < |a| <= j {
        assert c[i] in a && c[j] in b;
      }
    }
  }

  lemma UnindexedProperties(files: map<string, File>, index: Index)
    ensures NoDup(UnindexedStems(files, index))
    ensures forall x :: x in UnindexedStems(files, index) <==> x in files && x !in IndexedIds(index)
  {
    StemsProperties(files);
    FilterNoDup(Stems(files), Outside(IndexedIds(index)));
    forall x ensures x in UnindexedStems(files, index) <==> x in files && x !in IndexedIds(index) {
      FilterMember(Stems(files), Outside(IndexedIds(index)), x);
    }
  }

  lemma RecordsAreFiles(env: Env, rq: Request, t: Tree, indexed: set<string>, order: seq<string>, newer: seq<string>)
    requires InOrder(env, t, indexed)
    requires forall id :: id in order ==> id in CandidateIds(t.index.postings, rq.analysis.search)
    ensures Collect(Mapped(order, CandidateRecord(env, t.files, t.index.entries)) +
        Mapped(newer, RawPayload(t.files)), HitOf(env, rq))
            == Collect(order + newer, FileHit(env, rq, t.files))
  {
    hide Judge, Valid, FromDict, StoredAs, SelfNamed, CandidateRecord, HitOf, CandidateIds, RawPayload, Listed,
        PostingsOf;
    var load := FileHit(env, rq, t.files);
    var record := CandidateRecord(env, t.files, t.index.entries);
    forall id | id in order ensures HitOf(env, rq)(record(id)) == load(id) {
      CandidateJudgesAsFile(env, rq, t, indexed, id);
    }
    CollectThrough(order, record, HitOf(env, rq), load);
    CollectThrough(newer, RawPayload(t.files), HitOf(env, rq), load);
    CollectConcat(Mapped(order, record), Mapped(newer, RawPayload(t.files)), HitOf(env, rq));
    CollectConcat(order, newer, load);
  }
}
