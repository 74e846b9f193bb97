/** Planning a consolidation: which nodes are considered, and the duplicate, link and
    hub operations proposed for them. */
module Consolidation {
  import opened Text
  import opened Sorting
  import opened Seqs
  import opened Memory
  import opened PyRepr
  import opened MemoryTree
  import opened RecallRules

  datatype DupOp = DupOp(canonical: string, duplicate: string)

  datatype LinkOp = LinkOp(source: string, target: string, relation: string, evidence: string)

  datatype Plan = Plan(duplicates: seq<DupOp>, links: seq<LinkOp>, hubs: seq<Payload>)

  // ---------------------------------------------------------------- safe nodes

  predicate RedText(env: Env, t: string) {
    env.red(FText(t))
  }

  /** The detector on a whole record. */
  predicate RedPayload(env: Env, p: Payload) {
    || RedFields(env, p)
    || RedText(env, p.projectId) || RedText(env, p.workspace) || RedText(env, p.remoteHash) || RedText(env, p.branch)
    || RedText(env, p.commit) || RedText(env, p.sessionId) || RedText(env, p.memoryType) || RedText(env, p.authority)
    || RedText(env, p.nodeId.GetOr("")) || RedText(env, p.createdOnBranch.GetOr("")) ||
        RedText(env, p.visibility.GetOr(""))
    || RedText(env, p.promotionStatus.GetOr("")) || RedText(env, p.description.GetOr(""))
    || RedText(env, p.createdAt.GetOr("")) || RedText(env, p.updatedAt.GetOr("")) ||
        RedText(env, p.compactionReason.GetOr(""))
  }

  predicate VisibleForConsolidation(n: Node, branch: string) {
    n.visibility == MAIN_PROMOTED
    || (n.visibility != CONFLICT && n.visibility != DEPRECATED_ON_MERGE
        && (if n.createdOnBranch != "" then n.createdOnBranch else n.branch) == branch)
  }

  /** The node of a file if consolidation may look at it. */
  function SafeAt(env: Env, files: map<string, File>, branch: string): string -> Option<Node> {
    (stem: string) =>
      if stem !in files || files[stem].Unreadable? then Absent
      else if files[stem].payload.sensitivity == "RED" || RedPayload(env, files[stem].payload) then Absent
      else
        match Load(env, files, stem)
        case Some(n) => if VisibleForConsolidation(n, branch) then Some(n) else Absent
        case Absent => Absent
  }

  ghost function SafeNodes(env: Env, files: map<string, File>, branch: string): seq<Node> {
    Collect(Stems(files), SafeAt(env, files, branch))
  }

  // ---------------------------------------------------------------- similarity

  function Norm(t: string): string {
    Compact(Lower(t))
  }

  predicate IsLowToken(c: char) {
    'a' <= c <= 'z' || '0' <= c <= '9' || c == '_' || c == '.' || c == '/' || c == '-'
  }

  function WordSet(t: string): set<string> {
    var runs := Runs(Norm(t), IsLowToken);
    set i | 0 <= i < |runs| && |runs[i]| >= 3 :: runs[i]
  }

  /** `str(trigger.get(key, []) or "")`. */
  function TriggerField(env: Env, trigger: seq<Pair>, key: string): string {
    if trigger == [] then ""
    else if trigger[0].key != key then TriggerField(env, trigger[1..], key)
    else if trigger[0].val == Many([]) then "" else StrVal(env, trigger[0].val)
  }

  function TriggerTerms(env: Env, n: Node): set<string> {
    WordSet(TriggerField(env, n.trigger, "terms")) + WordSet(TriggerField(env, n.trigger, "paths"))
  }

  predicate Share(a: seq<string>, b: seq<string>) {
    exists x :: x in a && x in b
  }

  predicate Similar(env: Env, l: Node, r: Node) {
    || Norm(l.summary) == Norm(r.summary)
    || (TriggerTerms(env, l) * TriggerTerms(env, r) != {}
        && (Share(l.sourcePaths, r.sourcePaths) || Share(l.entities, r.entities)))
  }

  // --------------------------------------------------------------- operations

  /** The smaller id is kept, the larger is the duplicate. */
  function DuplicateOf(env: Env): (Node, Node) -> seq<DupOp> {
    (l: Node, r: Node) =>
      if !Similar(env, l, r) then []
      else if Less(r.nodeId, l.nodeId) then [DupOp(r.nodeId, l.nodeId)]
      else [DupOp(l.nodeId, r.nodeId)]
  }

  predicate LinkExists(links: seq<Link>, relation: string, target: string) {
    exists i :: 0 <= i < |links| && links[i].relation == relation && links[i].target == target
  }

  function SameTopic(): (Node, Node) -> seq<LinkOp> {
    (l: Node, r: Node) =>
      if Share(l.topicTags, r.topicTags) && !LinkExists(l.links, "same_topic", r.nodeId)
      then [LinkOp(l.nodeId, r.nodeId, "same_topic", "topic_tags")] else []
  }

  /** All ordered pairs of a list, an earlier element with each later one. */
  function Pairs<A, B>(xs: seq<A>, f: (A, A) -> seq<B>): seq<B> {
    if xs == [] then [] else FlatMap(xs[1..], With(f, xs[0])) + Pairs(xs[1..], f)
  }

  function With<A, B>(f: (A, A) -> seq<B>, x: A): A -> seq<B> {
    (y: A) => f(x, y)
  }

  function HintedOf(ids: set<string>): Node -> seq<LinkOp> {
    (n: Node) =>
      FlatMap(n.quality.supersedes, (t: string) =>
        if t in ids then [LinkOp(n.nodeId, t, "supersedes", "quality.supersedes_node_ids")] else [])
      + FlatMap(n.links, (l: Link) =>
        if l.relation == "supersedes" && l.target in ids
        then [LinkOp(n.nodeId, l.target, "supersedes", "existing_supersedes_link")] else [])
      + FlatMap(n.quality.hints, (h: Link) =>
        if KnownRelation(h.relation) && h.target in ids
        then [LinkOp(n.nodeId, h.target, h.relation, "quality.link_hints")] else [])
  }

  function Ids(nodes: seq<Node>): set<string> {
    set i | 0 <= i < |nodes| :: nodes[i].nodeId
  }

  /** `dedupe_ops`: the first operation of each key stays. */
  function Dedupe<A, K(==)>(ops: seq<A>, key: A -> K, seen: set<K>): seq<A> {
    if ops == [] then []
    else if key(ops[0]) in seen then Dedupe(ops[1..], key, seen)
    else [ops[0]] + Dedupe(ops[1..], key, seen + {key(ops[0])})
  }

  function DupKey(): DupOp -> (string, string) {
    (d: DupOp) => (d.canonical, d.duplicate)
  }

  function LinkKey(): LinkOp -> (string, string, string) {
    (l: LinkOp) => (l.source, l.target, l.relation)
  }

  function Duplicates(env: Env, nodes: seq<Node>): seq<DupOp> {
    Dedupe(Pairs(nodes, DuplicateOf(env)), DupKey(), {})
  }

  function SameTopicLinks(nodes: seq<Node>): seq<LinkOp> {
    Pairs(nodes, SameTopic())
  }

  function HintedLinks(nodes: seq<Node>): seq<LinkOp> {
    Dedupe(FlatMap(nodes, HintedOf(Ids(nodes))), LinkKey(), {})
  }

  function PlannedLinks(nodes: seq<Node>): seq<LinkOp> {
    Dedupe(HintedLinks(nodes) + SameTopicLinks(nodes), LinkKey(), {})
  }

  // ---------------------------------------------------------------------- hubs

  const HUB_DESCRIPTION := "Synthetic consolidation hub " + "from safe MemoryNode summaries."

  function HubId(env: Env, project: string, topic: string): string {
    var digest := env.sha(project + ":" + topic);
    "hub_" + if |digest| <= 24 then digest else digest[..24]
  }

  /** A node once for every time it carries the topic. */
  function Carrying(topic: string): Node -> seq<Node> {
    (n: Node) => Mapped(Filter(n.topicTags, (t: string) => t == topic), (t: string) => n)
  }

  function Members(nodes: seq<Node>, topic: string): seq<Node> {
    FlatMap(nodes, Carrying(topic))
  }

  function Topics(nodes: seq<Node>): set<string> {
    set i, t | 0 <= i < |nodes| && t in nodes[i].topicTags :: t
  }

  function HubPayload(env: Env, project: string, branch: string, topic: string, members: seq<Node>): Payload
    requires members != []
  {
    var first := members[0];
    Payload(
      project, first.workspace, first.remoteHash, if branch != "" then branch else first.branch, first.commit,
      "consolidation", "hub", "YELLOW", NON_AUTHORITATIVE, "Synthetic hub for topic " + topic + ".",
      Some(SCHEMA_VERSION), Some(HubId(env, project, topic)),
      Some(if branch != "" then branch else first.createdOnBranch), Some(BRANCH_LOCAL), Some("not_promoted"),
      Some(NO_EVIDENCE.(synthetic := true, sources := Mapped(members, (n: Node) => n.nodeId))),
      Some("Synthetic hub linking " + Digits(|members|) + " safe summary nodes for topic " + topic + "."),
      Some([Pair("terms", Many([topic]))]), Some([topic]), Some([]), Some([]),
      Some(HUB_DESCRIPTION), Absent,
      Some(Mapped(members, (n: Node) => Link("same_topic", n.nodeId, "hub_member"))), Some([0.3]),
      Some(NO_QUALITY.(confidence := Some(0.7), provenanceComplete := true, synthetic := true,
          validationStatus := "pass")),
      Some(env.now), Some(env.now), Some("synthetic_consolidation_hub"))
  }

  /** The hub of one topic, unless it has too few members or exists among the nodes. */
  function HubFor(env: Env, nodes: seq<Node>, project: string, branch: string): string -> seq<Payload> {
    (topic: string) =>
      var members := Members(nodes, topic);
      if |members| < 2 || HubId(env, project, topic) in Ids(nodes) then []
      else [HubPayload(env, project, branch, topic, members)]
  }

  ghost function Hubs(env: Env, nodes: seq<Node>, project: string, branch: string): seq<Payload> {
    FlatMap(Listing(Topics(nodes), Less), HubFor(env, nodes, project, branch))
  }

  ghost function PlanFor(env: Env, nodes: seq<Node>, project: string, branch: string): Plan {
    Plan(Duplicates(env, nodes), PlannedLinks(nodes), Hubs(env, nodes, project, branch))
  }

  ghost function PlanOf(env: Env, t: Tree, branch: string): Plan {
    PlanFor(env, SafeNodes(env, t.files, branch), t.project, branch)
  }

  // ------------------------------------------------------------------- methods

  /** The nested loop `for index, left ...: for right in nodes[index + 1:]`. */
  method CollectPairs<A, B>(xs: seq<A>, f: (A, A) -> seq<B>) returns (ops: seq<B>)
    ensures ops == Pairs(xs, f)
  {
    ops := [];
    for i := 0 to |xs|
      invariant Pairs(xs, f) == ops + Pairs(xs[i..], f)
    {
      ghost var before := ops;
      var rest := xs[i + 1..];
      assert xs[i..][1..] == rest;
      for j := 0 to |rest|
        invariant ops == before + FlatMap(rest[..j], With(f, xs[i]))
      {
        FlatMapStep(rest, With(f, xs[i]), j);
        ops := ops + f(xs[i], rest[j]);
      }
      assert rest[..|rest|] == rest;
    }
    assert xs[|xs|..] == [];
  }

  method DedupeOps<A, K(==)>(ops: seq<A>, key: A -> K) returns (output: seq<A>)
    ensures output == Dedupe(ops, key, {})
  {
    var seen: set<K> := {};
    output := [];
    for i := 0 to |ops|
      invariant Dedupe(ops, key, {}) == output + Dedupe(ops[i..], key, seen)
    {
      assert ops[i..][1..] == ops[i + 1..];
      if key(ops[i]) !in seen {
        seen := seen + {key(ops[i])};
        output := output + [ops[i]];
      }
    }
  }

  method CollectEach<A, B>(xs: seq<A>, f: A -> seq<B>) returns (ops: seq<B>)
    ensures ops == FlatMap(xs, f)
  {
    ops := [];
    for i := 0 to |xs|
      invariant ops == FlatMap(xs[..i], f)
    {
      FlatMapStep(xs, f, i);
      ops := ops + f(xs[i]);
    }
    assert xs[..|xs|] == xs;
  }

  /** `build_plan` from the node files of a project. */
  method BuildPlan(env: Env, files: map<string, File>, project: string, branch: string) returns (plan: Plan)
    ensures plan == PlanFor(env, SafeNodes(env, files, branch), project, branch)
  {
    hide Load, SafeAt, HubFor, HintedOf, DuplicateOf, SameTopic, Topics, Ids, Dedupe, Pairs;
    FileLessIsStrict(files.Keys);
    var stems := Enumerate(files.Keys, FileLess);
    var nodes := CollectEach(stems, OneOf(SafeAt(env, files, branch)));
    var hinted := CollectEach(nodes, HintedOf(Ids(nodes)));
    hinted := DedupeOps(hinted, LinkKey());
    var topical := CollectPairs(nodes, SameTopic());
    var links := DedupeOps(hinted + topical, LinkKey());
    var duplicates := CollectPairs(nodes, DuplicateOf(env));
    duplicates := DedupeOps(duplicates, DupKey());
    LessIsStrict(Topics(nodes));
    var topics := Enumerate(Topics(nodes), Less);
    var hubs := CollectEach(topics, HubFor(env, nodes, project, branch));
    plan := Plan(duplicates, links, hubs);
  }
}
