/** The memory node: the JSON record in a node file, its validated form, and the
    foreign calls the memory code depends on. */
module Memory {
  import opened Text
  import opened Seqs

  // ------------------------------------------------------------------- records

  /** A trigger value: one string or a list of strings. */
  datatype Val = One(text: string) | Many(items: seq<string>)

  /** One entry of a dictionary, in insertion order. */
  datatype Pair = Pair(key: string, val: Val)

  datatype Link = Link(relation: string, target: string, evidence: string)

  datatype RawRef = RawRef(digest: Option<string>, markedUnsafe: bool)

  datatype Quality = Quality(
    confidence: Option<real>, provenanceComplete: bool, stale: bool, deprecated: bool, status: string,
    duplicateOf: Option<string>, supersedes: seq<string>, hints: seq<Link>, reason: string,
    validationEvidence: string, synthetic: bool, sourceHash: string, validationStatus: string)

  datatype Evidence = Evidence(
    testsPassed: bool, tests: string, gatesPassed: bool, gates: string,
    promotedFrom: string, promotedTo: string, promotedAt: string, synthetic: bool, sources: seq<string>)

  const NO_QUALITY := Quality(Absent, false, false, false, "", Absent, [], [], "", "", false, "", "")
  const NO_EVIDENCE := Evidence(false, "", false, "", "", "", "", false, [])

  /** A node file's JSON object. Keys that loading fills in may be missing. */
  datatype Payload = Payload(
    projectId: string, workspace: string, remoteHash: string, branch: string, commit: string,
    sessionId: string, memoryType: string, sensitivity: string, authority: string, summary: string,
    schemaVersion: Option<string>, nodeId: Option<string>, createdOnBranch: Option<string>,
    visibility: Option<string>, promotionStatus: Option<string>, evidence: Option<Evidence>,
    detailed: Option<string>, trigger: Option<seq<Pair>>, topicTags: Option<seq<string>>,
    entities: Option<seq<string>>, sourcePaths: Option<seq<string>>, description: Option<string>,
    rawRef: Option<RawRef>, links: Option<seq<Link>>, salience: Option<seq<real>>,
    quality: Option<Quality>, createdAt: Option<string>, updatedAt: Option<string>,
    compactionReason: Option<string>)

  /** A complete node: every key present. */
  datatype Node = Node(
    projectId: string, workspace: string, remoteHash: string, branch: string, commit: string,
    sessionId: string, memoryType: string, sensitivity: string, authority: string, summary: string,
    schemaVersion: string, nodeId: string, createdOnBranch: string,
    visibility: string, promotionStatus: string, evidence: Evidence,
    detailed: string, trigger: seq<Pair>, topicTags: seq<string>,
    entities: seq<string>, sourcePaths: seq<string>, description: string,
    rawRef: Option<RawRef>, links: seq<Link>, salience: seq<real>,
    quality: Quality, createdAt: string, updatedAt: string,
    compactionReason: string)

  /** What recall puts into the prompt for one node. */
  datatype Item = Item(
    nodeId: string, score: real, confidence: Option<real>, summary: string,
    trigger: Option<seq<Pair>>, topicTags: Option<seq<string>>, detailed: Option<string>,
    sourcePaths: Option<seq<string>>, rawRecommended: Option<bool>, mergeCandidate: bool,
    warning: Option<string>)

  // ------------------------------------------------------------- foreign calls

  /** A value handed to the RED detector. */
  datatype Field =
    | FText(text: string) | FTexts(texts: seq<string>) | FTrigger(trigger: seq<Pair>)
    | FLink(link: Link) | FLinks(links: seq<Link>) | FQuality(quality: Quality) | FEvidence(evidence: Evidence)

  /** Calls whose bodies this model does not look into: the RED detector, SHA-256,
      the clock, date arithmetic, the JSON size of a rendered item, the character
      database beyond ASCII and the regular expressions on the raw query. */
  datatype Oracles = Oracles(
    red: Field -> bool,
    sha: string -> string,
    idDigest: (string, string, string, seq<string>, string) -> string,
    now: string,
    ageDays: string -> Option<int>,
    units: Item -> nat,
    printable: char -> bool,
    exactFact: string -> bool,
    mergePhrase: string -> bool)

  predicate IsHex(c: char) {
    '0' <= c <= '9' || 'a' <= c <= 'f'
  }

  predicate IsHexDigest(t: string) {
    |t| == 64 && All(t, IsHex)
  }

  /** The detector passes the empty text and the empty object, SHA-256 is written as 64
      hexadecimal digits, and node ids keep 32 of them. */
  ghost predicate Sane(o: Oracles) {
    && !o.red(FText("")) && !o.red(FEvidence(NO_EVIDENCE))
    && (forall t :: IsHexDigest(o.sha(t)))
    && (forall a, b, c, d, e :: |o.idDigest(a, b, c, d, e)| == 32 && All(o.idDigest(a, b, c, d, e), IsHex))
  }

  function Zeros(n: nat): (r: string)
    ensures |r| == n && All(r, IsHex)
  {
    seq(n, i => '0')
  }

  type Env = o: Oracles | Sane(o)
    witness Oracles(_ => false, s => Zeros(64), (_, _, _, _, _) => Zeros(32), "", _ => Absent, _ => 1, _ => true,
        _ => false, _ => false)

  /** A detector that flags nothing and items of size one, for concrete trees. */
  const QUIET: Env :=
    Oracles(_ => false, s => Zeros(64), (_, _, _, _, _) => Zeros(32), "", _ => Absent, _ => 1, _ => true,
        _ => false, _ => false)

  // ---------------------------------------------------------------- validation

  const SCHEMA_VERSION := "ralph_memory_node_v2"
  const NON_AUTHORITATIVE := "non_authoritative"
  const BRANCH_LOCAL := "branch_local"
  const MERGE_CANDIDATE := "merge_candidate"
  const MAIN_PROMOTED := "main_promoted"
  const DEPRECATED_ON_MERGE := "deprecated_on_merge"
  const CONFLICT := "conflict"

  predicate KnownVisibility(v: string) {
    v == BRANCH_LOCAL || v == MERGE_CANDIDATE || v == MAIN_PROMOTED || v == DEPRECATED_ON_MERGE || v == CONFLICT
  }

  predicate KnownRelation(r: string) {
    r == "supports" || r == "contradicts" || r == "updates" || r == "supersedes" || r == "same_topic" ||
        r == "depends_on"
  }

  /** The tests of `safe_segment`, after the strip. */
  predicate SafeSegment(t: string) {
    t != "" && t[0] != '/' && !Contains(t, "\\") && !Contains(t, "/") && !Contains(t, "..")
  }

  predicate IdChar(c: char) {
    IsAlnum(c) || c == '.' || c == '_' || c == '-'
  }

  /** The tests of `safe_identifier`, which strips before it looks. */
  predicate SafeIdentifier(value: string) {
    var t := Strip(value);
    SafeSegment(t) && |t| <= 128 && IsAlnum(t[0]) && All(t, IdChar)
  }

  predicate Blank(t: string) {
    Strip(t) == ""
  }

  predicate ValidRawRef(r: Option<RawRef>) {
    r.Some? ==> !r.value.markedUnsafe && (r.value.digest.Some? ==> IsHexDigest(r.value.digest.value))
  }

  predicate ValidLink(env: Env, l: Link) {
    && (Strip(l.relation) == "" || KnownRelation(Strip(l.relation)))
    && (l.target == "" || SafeIdentifier(l.target))
    && !env.red(FLink(l))
  }

  predicate ValidPath(env: Env, p: string) {
    Strip(p) == "" || !env.red(FText(Strip(p)))
  }

  predicate ValidConfidence(q: Quality) {
    q.confidence.Some? && 0.0 <= q.confidence.value <= 1.0
  }

  predicate Cleared(env: Env, n: Node) {
    && !env.red(FText(n.summary)) && !env.red(FText(n.detailed)) && !env.red(FText(n.createdOnBranch))
    && !env.red(FText(n.visibility)) && !env.red(FText(n.promotionStatus)) && !env.red(FEvidence(n.evidence))
    && !env.red(FText(n.description)) && !env.red(FTrigger(n.trigger)) && !env.red(FTexts(n.topicTags))
    && !env.red(FTexts(n.entities)) && !env.red(FText(n.compactionReason))
  }

  /** `validate_node` raises nothing. */
  predicate Valid(env: Env, n: Node) {
    && n.schemaVersion == SCHEMA_VERSION
    && SafeIdentifier(n.nodeId) && SafeIdentifier(n.projectId)
    && !Blank(n.branch) && !Blank(n.createdOnBranch)
    && KnownVisibility(n.visibility)
    && (!Blank(n.sessionId) || !Blank(n.commit))
    && (n.sourcePaths != [] || !Blank(n.description))
    && (n.sensitivity == "GREEN" || n.sensitivity == "YELLOW")
    && n.authority == NON_AUTHORITATIVE
    && !Blank(n.summary)
    && (n.memoryType == "negative_rule" ==> n.quality.reason != "" && n.quality.validationEvidence != "")
    && (n.memoryType == "hub" ==> n.rawRef.Absent? && n.quality.synthetic)
    && ValidConfidence(n.quality)
    && ValidRawRef(n.rawRef)
    && (forall l :: l in n.links ==> ValidLink(env, l))
    && (forall p :: p in n.sourcePaths ==> ValidPath(env, p))
    && Cleared(env, n)
  }

  // --------------------------------------------------------- loading and saving

  function DeterministicId(env: Env, p: Payload): string {
    "node_" + env.idDigest(p.projectId, p.memoryType, p.summary, p.sourcePaths.GetOr([]), p.description.GetOr(""))
  }

  /** The defaults of `MemoryNode.from_dict`. */
  function Filled(env: Env, p: Payload): Node {
    Node(
      p.projectId, p.workspace, p.remoteHash, p.branch, p.commit, p.sessionId, p.memoryType, p.sensitivity,
      p.authority, p.summary, p.schemaVersion.GetOr(SCHEMA_VERSION), p.nodeId.GetOr(DeterministicId(env, p)),
      p.createdOnBranch.GetOr(p.branch), p.visibility.GetOr(BRANCH_LOCAL), p.promotionStatus.GetOr("not_promoted"),
      p.evidence.GetOr(NO_EVIDENCE), p.detailed.GetOr(""), p.trigger.GetOr([]), p.topicTags.GetOr([]),
      p.entities.GetOr([]), p.sourcePaths.GetOr([]), p.description.GetOr(""), p.rawRef, p.links.GetOr([]),
      p.salience.GetOr([]), p.quality.GetOr(NO_QUALITY), p.createdAt.GetOr(env.now),
      p.updatedAt.GetOr(if p.createdAt.GetOr(env.now) == "" then env.now else p.createdAt.GetOr(env.now)),
      p.compactionReason.GetOr(""))
  }

  /** `MemoryNode.from_dict`: absent when validation raises. */
  function FromDict(env: Env, p: Payload): (r: Option<Node>)
    ensures r.Some? ==> Valid(env, r.value)
  {
    var n := Filled(env, p);
    if Valid(env, n) then Some(n) else Absent
  }

  /** `to_dict`: every key is written. */
  function ToDict(n: Node): Payload {
    Payload(
      n.projectId, n.workspace, n.remoteHash, n.branch, n.commit, n.sessionId, n.memoryType, n.sensitivity,
      n.authority, n.summary, Some(n.schemaVersion), Some(n.nodeId), Some(n.createdOnBranch), Some(n.visibility),
      Some(n.promotionStatus), Some(n.evidence), Some(n.detailed), Some(n.trigger), Some(n.topicTags),
      Some(n.entities), Some(n.sourcePaths), Some(n.description), n.rawRef, Some(n.links), Some(n.salience),
      Some(n.quality), Some(n.createdAt), Some(n.updatedAt), Some(n.compactionReason))
  }

  /** A node that validates reloads to itself, and only such a node reloads at all. */
  lemma ReloadIsIdentity(env: Env, n: Node)
    ensures FromDict(env, ToDict(n)) == if Valid(env, n) then Some(n) else Absent
  {
  }
}
