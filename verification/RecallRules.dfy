/** Recall's decisions on one node: query analysis, hard rejection, scoring and
    rendering. Each reads a record as the code does, key by key. */
module RecallRules {
  import opened Text
  import opened Seqs
  import opened Memory
  import opened PyRepr

  // --------------------------------------------------------------------- query

  const STOPWORDS := {"the", "and", "for", "with", "from", "that", "this", "what", "when", "where", "into", "node",
      "memory", "does", "exist", "exists"}
  const LOW_SIGNAL_TERMS := {"fixture", "marker", "placeholder", "reject", "rejection"}
  const HIGH_RISK := {"exact", "raw", "quote", "quoted", "reproduce", "version", "date", "metric", "command",
      "path", "function", "class", "benchmark", "number"}
  const MEDIUM_RISK := {"why", "how", "risk", "validate", "compare", "should", "migration", "debug", "failure"}
  const BRANCH_NEUTRAL := {"*", "any", "global", "all"}
  const CAUTION_TERMS := ["avoid", "repeat", "mistake", "risk", "unsafe", "shortcut"]

  datatype Risk = Low | Medium | High

  datatype Analysis = Analysis(semantic: seq<string>, search: seq<string>, risk: Risk, mergeRequested: bool)

  datatype Context = Context(projectId: string, workspace: string, branch: string)

  /** One recall: the analysed query, who asks, and whether deprecated nodes count. */
  datatype Request = Request(analysis: Analysis, context: Context, includeDeprecated: bool)

  predicate KeptTerm(item: string) {
    |item| >= 3 && item !in STOPWORDS
  }

  /** First occurrences of the kept runs, in order. */
  function DistinctTerms(runs: seq<string>, seen: set<string>): (r: seq<string>)
    ensures forall t :: t in r <==> t in runs && KeptTerm(t) && t !in seen
  {
    if runs == [] then []
    else if !KeptTerm(runs[0]) || runs[0] in seen then DistinctTerms(runs[1..], seen)
    else [runs[0]] + DistinctTerms(runs[1..], seen + {runs[0]})
  }

  function TermsOf(query: string): seq<string> {
    DistinctTerms(Runs(Lower(query), IsTokenChar), {})
  }

  /** `terms`: the loop over the matches with its `seen` set. */
  method Terms(query: string) returns (found: seq<string>)
    ensures found == TermsOf(query)
  {
    var runs := Runs(Lower(query), IsTokenChar);
    found := [];
    var seen: set<string> := {};
    for i := 0 to |runs|
      invariant TermsOf(query) == found + DistinctTerms(runs[i..], seen)
    {
      assert runs[i..][1..] == runs[i + 1..];
      if KeptTerm(runs[i]) && runs[i] !in seen {
        seen := seen + {runs[i]};
        found := found + [runs[i]];
      }
    }
  }

  function AnalysisOf(env: Env, query: string, semantic: seq<string>): Analysis {
    var risky := exists t :: t in semantic && t in HIGH_RISK;
    var exact := env.exactFact(query) || ("exact" in semantic && risky);
    Analysis(
      semantic,
      Filter(semantic, (t: string) => t !in HIGH_RISK && t !in MEDIUM_RISK),
      if exact || risky then High
      else if exists t :: t in semantic && t in MEDIUM_RISK then Medium
      else Low,
      "merge_candidate" in semantic || "merge-candidate" in semantic || env.mergePhrase(query))
  }

  /** `analyze_query`, as far as recall reads it. */
  function Analyzed(env: Env, query: string): Analysis {
    AnalysisOf(env, query, TermsOf(query))
  }

  /** The search terms that earn score: weak words count only at high risk. */
  function ScoringTerms(a: Analysis): seq<string> {
    if a.risk.High? then a.search else Filter(a.search, (t: string) => t !in LOW_SIGNAL_TERMS)
  }

  // ----------------------------------------------------------------- rejection

  datatype Reason =
    | InvalidNode | WrongProject | Red | InConflict | DeprecatedOnMerge | MergeUnlabeled | WrongBranch
    | WrongWorktree | Deprecated | MissingProvenance | BadAuthority | NoMatch | BudgetExceeded

  function QualityOf(p: Payload): Quality {
    p.quality.GetOr(NO_QUALITY)
  }

  predicate BranchVisible(anchor: string, active: string) {
    Lower(Compact(anchor)) in BRANCH_NEUTRAL || Compact(anchor) == Compact(active)
  }

  predicate IsDeprecated(p: Payload) {
    QualityOf(p).deprecated || Lower(QualityOf(p).status) == "deprecated"
  }

  predicate ProvenanceComplete(p: Payload) {
    && (p.sourcePaths.GetOr([]) != [] || p.description.GetOr("") != "")
    && (p.sessionId != "" || p.commit != "")
    && QualityOf(p).provenanceComplete
  }

  predicate RedTexts(env: Env, texts: Option<seq<string>>) {
    texts.Some? && env.red(FTexts(texts.value))
  }

  /** The detector on the fields of `safe_fields`. */
  predicate RedFields(env: Env, p: Payload) {
    || env.red(FText(p.summary)) || env.red(FText(p.detailed.GetOr("")))
    || (p.trigger.Some? && env.red(FTrigger(p.trigger.value)))
    || RedTexts(env, p.topicTags) || RedTexts(env, p.entities) || RedTexts(env, p.sourcePaths)
    || (p.links.Some? && env.red(FLinks(p.links.value)))
    || (p.quality.Some? && env.red(FQuality(p.quality.value)))
    || (p.evidence.Some? && env.red(FEvidence(p.evidence.value)))
  }

  function NonEmptyOr(value: Option<string>, default: string): string {
    if value.Some? && value.value != "" then value.value else default
  }

  /** The branch a record is anchored to: where it was created, else its branch. */
  function Anchor(p: Payload): string {
    NonEmptyOr(p.createdOnBranch, p.branch)
  }

  function VisibilityReject(p: Payload, rq: Request): Option<Reason> {
    var v := NonEmptyOr(p.visibility, BRANCH_LOCAL);
    if v == CONFLICT then Some(InConflict)
    else if v == DEPRECATED_ON_MERGE then Some(DeprecatedOnMerge)
    else if v == MAIN_PROMOTED then Absent
    else if v == MERGE_CANDIDATE && !rq.analysis.mergeRequested then Some(MergeUnlabeled)
    else if BranchVisible(Anchor(p), rq.context.branch) then Absent
    else Some(WrongBranch)
  }

  /** The checks of `hard_reject_reason` before the record is validated. */
  function EarlyReject(env: Env, p: Payload, rq: Request): Option<Reason> {
    if p.projectId != rq.context.projectId then Some(WrongProject)
    else if p.sensitivity == "RED" || RedFields(env, p) then Some(Red)
    else if VisibilityReject(p, rq).Some? then VisibilityReject(p, rq)
    else if Compact(p.workspace) != "" && rq.context.workspace != "" && Compact(p.workspace) != rq.context.workspace
      then Some(WrongWorktree)
    else if IsDeprecated(p) && !rq.includeDeprecated then Some(Deprecated)
    else if !ProvenanceComplete(p) then Some(MissingProvenance)
    else if p.authority != NON_AUTHORITATIVE then Some(BadAuthority)
    else Absent
  }

  function HardReject(env: Env, p: Payload, rq: Request): Option<Reason> {
    var early := EarlyReject(env, p, rq);
    if early.Some? then early
    else if FromDict(env, p).Absent? then Some(InvalidNode)
    else Absent
  }

  // ------------------------------------------------------------------- scoring

  /** How many of the terms occur in the text, white space compacted and case folded. */
  function MatchCount(terms: seq<string>, text: string): nat {
    |Filter(terms, (t: string) => t != "" && Contains(Lower(Compact(text)), t))|
  }

  function ReprOrNone(env: Env, xs: Option<seq<string>>): string {
    match xs case Some(v) => ReprList(env, v) case Absent => "None"
  }

  function Labelled(name: string, text: string): string {
    "'" + name + "': " + text
  }

  /** `str` of the dictionary of entities, paths, tags and links that is searched as one. */
  function EntityText(env: Env, p: Payload): string {
    "{" + Join([Labelled("entities", ReprOrNone(env, p.entities)), Labelled("paths", ReprOrNone(env, p.sourcePaths)),
                Labelled("tags", ReprOrNone(env, p.topicTags)),
                Labelled("links", match p.links case Some(ls) => ReprLinks(env, ls) case Absent => "None")], ", ") + "}"
  }

  function TriggerDict(env: Env, p: Payload): string {
    ReprDict(env, p.trigger.GetOr([]))
  }

  /** Summary, trigger and entity scores with their weights. */
  function TextScore(env: Env, p: Payload, terms: seq<string>): nat {
    5 * MatchCount(terms, p.summary) + 8 * MatchCount(terms, TriggerDict(env, p))
    + 6 * MatchCount(terms, EntityText(env, p))
  }

  function AgeOf(env: Env, stamp: Option<string>): Option<int> {
    match stamp case Some(s) => env.ageDays(s) case Absent => Absent
  }

  function Recency(env: Env, p: Payload): real {
    var age := if AgeOf(env, p.updatedAt).Some? then AgeOf(env, p.updatedAt) else AgeOf(env, p.createdAt);
    match age case Some(days) => if days <= 30 then 2.0 else 0.5 case Absent => 0.0
  }

  function Sum(xs: seq<real>): real {
    if xs == [] then 0.0 else xs[0] + Sum(xs[1..])
  }

  function Cautious(a: Analysis): bool {
    exists t :: t in CAUTION_TERMS && t in a.semantic
  }

  function ScoreNode(env: Env, p: Payload, a: Analysis): real {
    var text := TextScore(env, p, ScoringTerms(a));
    if text == 0 then 0.0
    else
      var links := |p.links.GetOr([])|;
      text as real + Recency(env, p) + Sum(p.salience.GetOr([])) * 2.0
      + (if links < 3 then links else 3) as real
      + (if p.memoryType == "negative_rule" && Cautious(a) then 6.0 else 0.0)
      - (if QualityOf(p).stale then 12.0 else 0.0)
      - (if IsDeprecated(p) then 25.0 else 0.0)
      - (if p.visibility == Some(MERGE_CANDIDATE) then 8.0 else 0.0)
  }

  // ----------------------------------------------------------------- rendering

  function RenderContext(p: Payload, risk: Risk, score: real): Item {
    Item(
      p.nodeId.GetOr(""), score, QualityOf(p).confidence, p.summary,
      if risk.Medium? then Absent else Some(p.trigger.GetOr([])),
      if risk.Low? then Some(p.topicTags.GetOr([])) else Absent,
      if risk.Medium? then Some(p.detailed.GetOr("")) else Absent,
      if risk.Medium? then Some(p.sourcePaths.GetOr([])) else Absent,
      if risk.High? then Some(p.rawRef.Some?) else Absent,
      p.visibility == Some(MERGE_CANDIDATE),
      if p.memoryType == "negative_rule" then Some(QualityOf(p).reason) else Absent)
  }

  /** A node that is neither rejected nor unmatched. */
  datatype Hit = Hit(score: real, id: string, item: Item)

  /** What recall makes of one record: a hit, or the reason it is passed over. */
  datatype Verdict = Chosen(hit: Hit) | PassedOver(reason: Reason)

  function Judge(env: Env, p: Payload, rq: Request): Verdict {
    var reason := HardReject(env, p, rq);
    if reason.Some? then PassedOver(reason.value)
    else
      var score := ScoreNode(env, p, rq.analysis);
      if score <= 0.0 then PassedOver(NoMatch)
      else Chosen(Hit(score, p.nodeId.GetOr(""), RenderContext(p, rq.analysis.risk, score)))
  }

  /** Best score first, then by node id. */
  predicate Ahead(a: Hit, b: Hit) {
    a.score > b.score || (a.score == b.score && Less(a.id, b.id))
  }

  /** At high risk the item asks for the raw text. */
  function Finished(risk: Risk, item: Item): Item {
    if risk.High? then item.(rawRecommended := Some(true)) else item
  }

  /** The greedy pass under the limit and the budget, from a given state. */
  function Greedy(env: Env, risk: Risk, hits: seq<Hit>, limit: int, budget: int, chosen: seq<Item>, used: nat)
    : (seq<Item>, nat)
  {
    if hits == [] || |chosen| >= limit then (chosen, used)
    else
      var needed := env.units(hits[0].item);
      if used + needed > budget then Greedy(env, risk, hits[1..], limit, budget, chosen, used)
      else Greedy(env, risk, hits[1..], limit, budget, chosen + [Finished(risk, hits[0].item)], used + needed)
  }
}
