/** Exactly when a consolidation commits: what it has to meet before it starts. */
module CommitCondition {
  import opened Text
  import opened Sorting
  import opened Seqs
  import opened Memory
  import opened MemoryTree
  import opened Consolidation
  import opened Transactions
  import opened OpEffects
  import opened CommittedRuns
  import opened Convergence
  import opened HubConvergence

  // ------------------------------------------------------------------- obstacles

  /** The hub a topic needs is stored, but not among the considered nodes. */
  ghost predicate TakenHub(env: Env, t: Tree, branch: string, topic: string) {
    HubProposed(env, SafeNodes(env, t.files, branch), t.project, topic) &&
        Loader(env, t.files)(HubId(env, t.project, topic)).Some?
  }

  /** Two topics in need of a hub have the same hub id. */
  ghost predicate HubsCollide(env: Env, t: Tree, branch: string, a: string, b: string) {
    var nodes := SafeNodes(env, t.files, branch);
    a != b && HubProposed(env, nodes, t.project, a) && HubProposed(env, nodes, t.project, b)
    && HubId(env, t.project, a) == HubId(env, t.project, b)
  }

  function NewLink(l: LinkOp): Link {
    Link(l.relation, l.target, l.evidence)
  }

  predicate LacksLink(env: Env, files: map<string, File>, l: LinkOp) {
    Loader(env, files)(Strip(l.source)).Some? &&
        !LinkExists(Loader(env, files)(Strip(l.source)).value.links, l.relation, l.target)
  }

  /** A link that would be added and that the detector flags. */
  predicate FlaggedLink(env: Env, files: map<string, File>, l: LinkOp) {
    LacksLink(env, files, l) && env.red(FLink(NewLink(l)))
  }

  /** Nothing in the tree stands in the way of the plan. */
  ghost predicate Unobstructed(env: Env, t: Tree, branch: string) {
    var plan := PlanOf(env, t, branch);
    && (forall l :: l in plan.links ==> !FlaggedLink(env, t.files, l))
    && (forall p :: p in plan.hubs ==> FromDict(env, p).Some?)
    && (forall a, b :: !HubsCollide(env, t, branch, a, b))
    && (forall topic :: !TakenHub(env, t, branch, topic))
  }

  /** The disk fails at one of the first `n` operations. */
  predicate Strikes(fault: Fault, n: nat) {
    fault.FaultAt? && fault.op < n && fault.stop != Never
  }

  // ------------------------------------------------------------ shape of a plan

  lemma OpsLayout(plan: Plan) returns (a: nat, b: nat)
    ensures |OpsOf(plan)| == b + |plan.hubs| && b == a + |plan.links|
    ensures forall k :: 0 <= k < |OpsOf(plan)| ==>
        (OpsOf(plan)[k].AddLink? <==> a <= k < b) && (OpsOf(plan)[k].MakeHub? <==> b <= k)
    ensures forall p :: 0 <= p < |plan.links| ==> OpsOf(plan)[a + p] == AddLink(plan.links[p])
    ensures forall q :: 0 <= q < |plan.hubs| ==> OpsOf(plan)[b + q] == MakeHub(plan.hubs[q])
    ensures forall k :: a <= k < b ==> OpsOf(plan)[k] == AddLink(plan.links[k - a])
    ensures forall k :: b <= k < |OpsOf(plan)| ==> OpsOf(plan)[k] == MakeHub(plan.hubs[k - b])
  {
    hide Filter;
    a := |plan.duplicates| + |Filter(plan.links, (l: LinkOp) => l.relation == "supersedes")|;
    b := a + |plan.links|;
  }

  /** A key is kept once. */
  lemma {:induction false} DedupeDistinct<A, K(!new)>(ops: seq<A>, key: A -> K, seen: set<K>)
    ensures forall p :: 0 <= p < |Dedupe(ops, key, seen)| ==> key(Dedupe(ops, key, seen)[p]) !in seen
    ensures forall p, q :: 0 <= p < q < |Dedupe(ops, key, seen)| ==>
      key(Dedupe(ops, key, seen)[p]) != key(Dedupe(ops, key, seen)[q])
  {
    if ops != [] {
      if key(ops[0]) in seen {
        DedupeDistinct(ops[1..], key, seen);
      } else {
        DedupeDistinct(ops[1..], key, seen + {key(ops[0])});
      }
    }
  }

  /** A planned link goes from a considered node to another under a known relation. */
  lemma PlannedLinkShape(nodes: seq<Node>, l: LinkOp)
    requires l in PlannedLinks(nodes)
    ensures l.source in Ids(nodes) && l.target in Ids(nodes) && KnownRelation(l.relation)
  {
    hide HintedLinks, SameTopicLinks, Dedupe, Ids, KnownRelation;
    DedupeCovers(HintedLinks(nodes) + SameTopicLinks(nodes), LinkKey(), {});
    if l in HintedLinks(nodes) {
      HintedOrigin(nodes, l);
    } else {
      TopicOrigin(nodes, l);
      assert KnownRelation("same_topic") by {
        TopicIsKnown();
      }
    }
  }

  lemma TopicIsKnown()
    ensures KnownRelation("same_topic")
  {
  }

  lemma ConsideredIdIsSafe(env: Env, t: Tree, branch: string, id: string)
    requires Tidy(env, t) && id in Ids(SafeNodes(env, t.files, branch))
    ensures Loader(env, t.files)(Strip(id)).Some? && Loader(env, t.files)(Strip(id)).value.nodeId == id &&
        SafeIdentifier(id)
  {
    hide Loader, SafeAt, Ids, SafeNodes, Strip, Tidy, Valid;
    SafeId(env, t, branch, id);
    TidyNode(env, t, Strip(id));
    IdIsSafe(env, Loader(env, t.files)(Strip(id)).value);
  }

  lemma IdIsSafe(env: Env, n: Node)
    requires Valid(env, n)
    ensures SafeIdentifier(n.nodeId)
  {
    hide SafeIdentifier;
  }

  // ------------------------------------------------------- operations that succeed

  /** The operation goes through on these files when the disk holds. */
  predicate Feasible(env: Env, project: string, files: map<string, File>, op: PlanOp) {
    match op
    case Mark(d) => Loader(env, files)(Strip(d.duplicate)).Some?
    case Supersede(target) => Loader(env, files)(Strip(target)).Some?
    case AddLink(l) =>
      && Loader(env, files)(Strip(l.source)).Some? && !FlaggedLink(env, files, l)
      && KnownRelation(l.relation) && SafeIdentifier(l.target)
    case MakeHub(p) =>
      && FromDict(env, p).Some? && Strip(FromDict(env, p).value.projectId) == project
      && Loader(env, files)(OpStem(env, op)).Absent?
    case Promote(_, _, _) => false
  }

  lemma QualityEditStaysValid(env: Env, n: Node, q: Quality, now: string)
    requires Valid(env, n) && q.confidence == n.quality.confidence && q.synthetic == n.quality.synthetic
    requires q.reason == n.quality.reason && q.validationEvidence == n.quality.validationEvidence
    ensures Valid(env, n.(quality := q, updatedAt := now))
  {
    hide SafeIdentifier, Strip, ValidLink, ValidPath, ValidRawRef, KnownVisibility;
  }

  lemma LinksEditStaysValid(env: Env, n: Node, links: seq<Link>, now: string)
    requires Valid(env, n) && forall l :: l in links ==> l in n.links || ValidLink(env, l)
    ensures Valid(env, n.(links := links, updatedAt := now))
  {
    hide SafeIdentifier, Strip, ValidLink, ValidPath, ValidRawRef, KnownVisibility;
  }

  lemma NewLinkIsValid(env: Env, l: LinkOp)
    requires KnownRelation(l.relation) && SafeIdentifier(l.target) && !env.red(FLink(NewLink(l)))
    ensures ValidLink(env, NewLink(l))
  {
    hide SafeIdentifier, Strip, KnownRelation, Trimmed;
    KnownIsTrimmed(l.relation);
    StripTrimmed(l.relation);
  }

  lemma KnownIsTrimmed(r: string)
    requires KnownRelation(r)
    ensures Trimmed(r)
  {
    assert !IsSpace(r[0]) && !IsSpace(r[|r| - 1]);
  }

  lemma FeasibleIsValid(env: Env, project: string, files: map<string, File>, op: PlanOp)
    requires Named(env, project, files) && Feasible(env, project, files, op) && !op.MakeHub?
    ensures Loader(env, files)(Strip(TargetId(op))).Some?
    ensures Valid(env, OpNode(env, op, Loader(env, files)(Strip(TargetId(op))).value))
  {
    hide Valid, Loader, Strip, Named, SafeIdentifier, KnownRelation, LinkExists, ValidLink;
    var n := Loader(env, files)(Strip(TargetId(op))).value;
    NamedNode(env, project, files, Strip(TargetId(op)));
    match op {
      case Mark(d) => QualityEditStaysValid(env, n, MarkedQuality(n.quality, d.canonical), env.now);
      case Supersede(_) => QualityEditStaysValid(env, n, SupersededQuality(n.quality), env.now);
      case AddLink(l) =>
        if LacksLink(env, files, l) {
          NewLinkIsValid(env, l);
        }
        LinksEditStaysValid(env, n, WithLink(n.links, l.relation, l.target, l.evidence), env.now);
    }
  }

  /** An update whose result validates goes through when the disk holds. */
  lemma ValidUpdateIsDone(env: Env, t: Tree, op: PlanOp)
    requires Named(env, t.project, t.files) && !op.MakeHub? && Loader(env, t.files)(Strip(TargetId(op))).Some?
    requires Valid(env, OpNode(env, op, Loader(env, t.files)(Strip(TargetId(op))).value))
    ensures ApplyOp(env, t, op, Never).Done?
  {
    hide Valid, Filled, Merged, EditOf, OpNode, Named, SafeSegment, IndexOf, Strip, Written;
    var s := Strip(TargetId(op));
    NamedNode(env, t.project, t.files, s);
    MergedIsOpNode(env, Load(env, t.files, s).value, op);
  }

  lemma NewHubIsDone(env: Env, t: Tree, p: Payload)
    requires Feasible(env, t.project, t.files, MakeHub(p))
    ensures ApplyOp(env, t, MakeHub(p), Never).Done?
  {
    hide FromDict, IndexOf, Strip, Written;
  }

  lemma FeasibleIsDone(env: Env, t: Tree, op: PlanOp)
    requires Named(env, t.project, t.files) && Feasible(env, t.project, t.files, op)
    ensures ApplyOp(env, t, op, Never).Done?
  {
    hide ApplyOp, Named, Feasible, OpNode, Loader, Strip;
    if op.MakeHub? {
      NewHubIsDone(env, t, op.payload);
    } else {
      FeasibleIsValid(env, t.project, t.files, op);
      ValidUpdateIsDone(env, t, op);
    }
  }

  lemma FeasiblePersists(env: Env, project: string, files: map<string, File>, after: map<string, File>, op: PlanOp)
    requires Feasible(env, project, files, op)
    requires forall s :: Lives(env, files, after, s)
    requires op.MakeHub? ==> Untouched(env, files, after, OpStem(env, op))
    ensures Feasible(env, project, after, op)
  {
    hide Loader, Strip, KnownRelation, SafeIdentifier, FromDict, LinkExists, Untouched, OpStem;
    match op {
      case Mark(d) => assert Lives(env, files, after, Strip(d.duplicate));
      case Supersede(target) => assert Lives(env, files, after, Strip(target));
      case AddLink(l) =>
        var s := Strip(l.source);
        assert Lives(env, files, after, s);
        if LinkExists(Loader(env, files)(s).value.links, l.relation, l.target) {
          LinkExistsGrows(Loader(env, files)(s).value.links, Loader(env, after)(s).value.links, l.relation, l.target);
        }
      case MakeHub(p) => UntouchedLoads(env, files, after, OpStem(env, op));
      case Promote(_, _, _) =>
    }
  }

  lemma UntouchedLoads(env: Env, a: map<string, File>, b: map<string, File>, s: string)
    requires Untouched(env, a, b, s)
    ensures Loader(env, a)(s) == Loader(env, b)(s)
  {
    hide FromDict;
  }

  /** No two hubs from `i` on share a name. */
  predicate HubStemsDiffer(env: Env, ops: seq<PlanOp>, i: nat) {
    forall j, k :: i <= j < k < |ops| && ops[j].MakeHub? && ops[k].MakeHub? ==>
        OpStem(env, ops[j]) != OpStem(env, ops[k])
  }

  /** Feasible operations all go through when the disk holds. */
  lemma {:induction false} RunSucceeds(env: Env, t: Tree, ops: seq<PlanOp>, fault: Fault, i: nat)
    requires i <= |ops| && Named(env, t.project, t.files) && !Strikes(fault, |ops|) && HubStemsDiffer(env, ops, i)
    requires forall k :: i <= k < |ops| ==> Feasible(env, t.project, t.files, ops[k])
    ensures RunOps(env, t, ops, fault, i).Done?
    decreases |ops| - i
  {
    hide ApplyOp, Named, Feasible, OpStem, Loader;
    if i < |ops| {
      FeasibleIsDone(env, t, ops[i]);
      FeasibleIsPlain(env, t.project, t.files, ops[i]);
      ApplyEffects(env, t, ops[i], Never);
      var next := ApplyOp(env, t, ops[i], Never).tree;
      forall k | i < k < |ops| ensures Feasible(env, next.project, next.files, ops[k]) {
        if ops[k].MakeHub? {
          FeasibleStems(env, t.project, t.files, ops[i], ops[k]);
        }
        FeasiblePersists(env, t.project, t.files, next.files, ops[k]);
      }
      RunSucceeds(env, next, ops, fault, i + 1);
    }
  }

  lemma FeasibleIsPlain(env: Env, project: string, files: map<string, File>, op: PlanOp)
    requires Feasible(env, project, files, op)
    ensures !op.Promote?
  {
  }

  /** An update touches a stored node, a hub a free name. */
  lemma FeasibleStems(env: Env, project: string, files: map<string, File>, op: PlanOp, hub: PlanOp)
    requires Feasible(env, project, files, op) && Feasible(env, project, files, hub) && hub.MakeHub?
    ensures !op.MakeHub? ==> OpStem(env, op) != OpStem(env, hub)
  {
    hide Loader, Strip, FromDict, KnownRelation, SafeIdentifier;
  }

  // ---------------------------------------------------------- operations that fail

  lemma {:induction false} StruckRunFails(env: Env, t: Tree, ops: seq<PlanOp>, fault: Fault, i: nat)
    requires i <= |ops| && Strikes(fault, |ops|) && i <= fault.op
    ensures RunOps(env, t, ops, fault, i).Failed?
    decreases |ops| - i
  {
    hide ApplyOp;
    StoppedApplyFails(env, t, ops[i], StopFor(fault, i));
    if i < fault.op && ApplyOp(env, t, ops[i], StopFor(fault, i)).Done? {
      StruckRunFails(env, ApplyOp(env, t, ops[i], StopFor(fault, i)).tree, ops, fault, i + 1);
    }
  }

  lemma StoppedApplyFails(env: Env, t: Tree, op: PlanOp, stop: Stop)
    ensures stop != Never ==> ApplyOp(env, t, op, stop).Failed?
  {
    hide FromDict, Merged, Written, SafeSegment, Load, EditOf, Strip;
  }

  lemma LacksLinkStays(env: Env, t: Tree, op: PlanOp, stop: Stop, l: LinkOp)
    requires Named(env, t.project, t.files) && ApplyOp(env, t, op, stop).Done? && LacksLink(env, t.files, l) &&
        !op.Promote?
    requires op.AddLink? && Strip(op.link.source) == Strip(l.source) ==>
        op.link.relation != l.relation || op.link.target != l.target
    ensures LacksLink(env, ApplyOp(env, t, op, stop).tree.files, l)
  {
    hide ApplyOp, Named, Loader, Strip, Valid, Put, FromDict;
    var s := Strip(l.source);
    if op.MakeHub? {
      HubEffect(env, t, op.payload, stop);
      if ApplyOp(env, t, op, stop).tree.files != t.files {
        LoadsValid(env, op.payload);
        LoaderPut(env, t.files, FromDict(env, op.payload).value);
      }
    } else {
      UpdateEffect(env, t, op, stop);
      LoaderPut(env, t.files, OpNode(env, op, Loader(env, t.files)(Strip(TargetId(op))).value));
    }
  }

  /** A flagged new link stops the run. */
  lemma {:induction false} FlaggedLinkFails(env: Env, t: Tree, ops: seq<PlanOp>, fault: Fault, i: nat, k: nat)
    requires i <= k < |ops| && Named(env, t.project, t.files) && ops[k].AddLink? &&
        FlaggedLink(env, t.files, ops[k].link)
    requires forall j :: 0 <= j < |ops| ==> !ops[j].Promote?
    requires forall j :: i <= j < k && ops[j].AddLink? && Strip(ops[j].link.source) == Strip(ops[k].link.source) ==>
      ops[j].link.relation != ops[k].link.relation || ops[j].link.target != ops[k].link.target
    ensures RunOps(env, t, ops, fault, i).Failed?
    decreases |ops| - i
  {
    hide ApplyOp, Named, LacksLink;
    var r := ApplyOp(env, t, ops[i], StopFor(fault, i));
    if r.Done? {
      if i < k {
        ApplyEffects(env, t, ops[i], StopFor(fault, i));
        LacksLinkStays(env, t, ops[i], StopFor(fault, i), ops[k].link);
        FlaggedLinkFails(env, r.tree, ops, fault, i + 1, k);
      } else {
        FlaggedLinkIsRefused(env, t, ops[k].link, StopFor(fault, i));
      }
    }
  }

  lemma FlaggedLinkIsRefused(env: Env, t: Tree, l: LinkOp, stop: Stop)
    requires Named(env, t.project, t.files) && FlaggedLink(env, t.files, l)
    ensures ApplyOp(env, t, AddLink(l), stop).Failed?
  {
    hide ApplyOp, Named, Loader, Strip, Valid, Put;
    UpdateEffect(env, t, AddLink(l), stop);
    var n := OpNode(env, AddLink(l), Loader(env, t.files)(Strip(l.source)).value);
    assert n.links[|n.links| - 1] == NewLink(l);
    ValidLinksPass(env, n, NewLink(l));
  }

  lemma ValidLinksPass(env: Env, n: Node, l: Link)
    requires l in n.links
    ensures Valid(env, n) ==> !env.red(FLink(l))
  {
    hide SafeIdentifier, Strip, ValidPath, ValidRawRef, KnownVisibility;
  }

  /** Two hubs under one name stop the run. */
  lemma {:induction false} TwinHubsFail(env: Env, t: Tree, ops: seq<PlanOp>, fault: Fault, i: nat, j: nat, k: nat)
    requires i <= j < k < |ops| && Named(env, t.project, t.files)
    requires forall x :: 0 <= x < |ops| ==> !ops[x].Promote?
    requires ops[j].MakeHub? && ops[k].MakeHub? && OpStem(env, ops[j]) == OpStem(env, ops[k])
    requires FromDict(env, ops[j].payload).Some? && Strip(FromDict(env, ops[j].payload).value.projectId) == t.project
    requires FromDict(env, ops[k].payload).Some? && Strip(FromDict(env, ops[k].payload).value.projectId) == t.project
    ensures RunOps(env, t, ops, fault, i).Failed?
    decreases |ops| - i
  {
    hide ApplyOp, Named, FromDict, Loader, Strip, Evolves;
    var r := ApplyOp(env, t, ops[i], StopFor(fault, i));
    if r.Done? {
      ApplyEffects(env, t, ops[i], StopFor(fault, i));
      if i < j {
        TwinHubsFail(env, r.tree, ops, fault, i + 1, j, k);
      } else {
        TakenHubNeverCommits(env, r.tree, ops, fault, i + 1, k);
      }
    }
  }

  // ------------------------------------------------------------- plans and topics

  lemma {:induction false} FlatMapPlaces<A, B>(xs: seq<A>, f: A -> seq<B>, i: nat, j: nat) returns (p: nat, q: nat)
    requires i < j < |FlatMap(xs, f)| && forall k :: 0 <= k < |xs| ==> |f(xs[k])| <= 1
    ensures p < q < |xs| && f(xs[p]) == [FlatMap(xs, f)[i]] && f(xs[q]) == [FlatMap(xs, f)[j]]
  {
    var n := |f(xs[0])|;
    var rest := FlatMap(xs[1..], f);
    if n == 0 {
      p, q := FlatMapPlaces(xs[1..], f, i, j);
      p, q := p + 1, q + 1;
    } else if i == 0 {
      p := 0;
      q := FlatMapPlace(xs[1..], f, j - 1);
      q := q + 1;
    } else {
      p, q := FlatMapPlaces(xs[1..], f, i - 1, j - 1);
      p, q := p + 1, q + 1;
    }
  }

  lemma {:induction false} FlatMapPlace<A, B>(xs: seq<A>, f: A -> seq<B>, i: nat) returns (p: nat)
    requires i < |FlatMap(xs, f)| && forall k :: 0 <= k < |xs| ==> |f(xs[k])| <= 1
    ensures p < |xs| && f(xs[p]) == [FlatMap(xs, f)[i]]
  {
    var n := |f(xs[0])|;
    if n == 1 && i == 0 {
      p := 0;
    } else {
      p := FlatMapPlace(xs[1..], f, i - n);
      p := p + 1;
    }
  }

  /** Two hubs of a plan are hubs of two topics. */
  lemma HubTopics(env: Env, nodes: seq<Node>, project: string, branch: string, i: nat, j: nat) returns (a: string,
      b: string)
    requires i < j < |Hubs(env, nodes, project, branch)|
    ensures a != b && HubProposed(env, nodes, project, a) && HubProposed(env, nodes, project, b)
    ensures Hubs(env, nodes, project, branch)[i].nodeId == Some(HubId(env, project, a))
    ensures Hubs(env, nodes, project, branch)[j].nodeId == Some(HubId(env, project, b))
  {
    hide Members, TwoCarriers, HubPayload, Ids, HubId, Topics;
    var topics := Listing(Topics(nodes), Less);
    LessIsStrict(Topics(nodes));
    ListingSorted(Topics(nodes), Less);
    StrictlySortedNoDup(topics, Less);
    var p, q := FlatMapPlaces(topics, HubFor(env, nodes, project, branch), i, j);
    a, b := topics[p], topics[q];
    MembersIffCarriers(nodes, a);
    MembersIffCarriers(nodes, b);
    PayloadId(env, project, branch, a, Members(nodes, a));
    PayloadId(env, project, branch, b, Members(nodes, b));
  }

  lemma PayloadId(env: Env, project: string, branch: string, topic: string, members: seq<Node>)
    requires members != []
    ensures HubPayload(env, project, branch, topic, members).nodeId == Some(HubId(env, project, topic))
    ensures HubPayload(env, project, branch, topic, members).topicTags == Some([topic])
    ensures HubPayload(env, project, branch, topic, members).projectId == project
  {
    hide HubId, Digits;
  }

  /** The name a planned hub would be stored under. */
  lemma PlannedHubStem(env: Env, t: Tree, branch: string, p: Payload, topic: string)
    requires Trimmed(t.project) && p.nodeId == Some(HubId(env, t.project, topic)) && p.projectId == t.project &&
        FromDict(env, p).Some?
    ensures OpStem(env, MakeHub(p)) == HubId(env, t.project, topic) &&
        Strip(FromDict(env, p).value.projectId) == t.project
  {
    hide HubId, Strip, Valid, Trimmed;
    HubIdIsTrimmed(env, t.project, topic);
    StripTrimmed(t.project);
  }

  // -------------------------------------------------------------- what must hold

  /** (a) A hub another branch made blocks consolidation here, under every fault. */
  lemma TakenHubBlocks(env: Env, t: Tree, branch: string, name: string, fault: Fault, topic: string)
    requires Tidy(env, t) && TakenHub(env, t, branch, topic)
    ensures !Consolidated(env, t, branch, name, fault).status.Committed?
  {
    hide SafeNodes, Loader, Hubs, OpsOf, PlanOf, Consolidated, HubPayload, Members, HubId, Tidy, FromDict,
        TwoCarriers, Ids;
    if Consolidated(env, t, branch, name, fault).status.Committed? {
      var k := TopicOp(env, t, branch, topic);
      var p := OpsOf(PlanOf(env, t, branch))[k].payload;
      CommittedHubLoads(env, t, branch, name, fault, k);
      PlannedHubWasNew(env, t, branch, name, fault, k);
      TidyIsTrimmed(env, t);
      PlannedHubStem(env, t, branch, p, topic);
    }
  }

  lemma TidyIsTrimmed(env: Env, t: Tree)
    requires Tidy(env, t)
    ensures Trimmed(t.project) && Named(env, t.project, t.files)
  {
  }

  /** The operation that would make a topic's hub. */
  lemma TopicOp(env: Env, t: Tree, branch: string, topic: string) returns (k: nat)
    requires HubProposed(env, SafeNodes(env, t.files, branch), t.project, topic)
    ensures k < |OpsOf(PlanOf(env, t, branch))| && OpsOf(PlanOf(env, t, branch))[k].MakeHub?
    ensures
      var p := OpsOf(PlanOf(env, t, branch))[k].payload;
      p.nodeId == Some(HubId(env, t.project, topic)) && p.topicTags == Some([topic]) && p.projectId == t.project
  {
    hide SafeNodes, Hubs, OpsOf, HubPayload, Members, HubId, TwoCarriers, Ids, Duplicates, PlannedLinks;
    var nodes := SafeNodes(env, t.files, branch);
    HubPlanned(env, nodes, t.project, branch, topic);
    var p := HubPayload(env, t.project, branch, topic, Members(nodes, topic));
    HubOpPlaced(PlanOf(env, t, branch), p);
    k :| 0 <= k < |OpsOf(PlanOf(env, t, branch))| && OpsOf(PlanOf(env, t, branch))[k] == MakeHub(p);
    PayloadId(env, t.project, branch, topic, Members(nodes, topic));
  }

  lemma CollidingHubsBlock(env: Env, t: Tree, branch: string, name: string, fault: Fault, a: string, b: string)
    requires Tidy(env, t) && HubsCollide(env, t, branch, a, b)
    ensures !Consolidated(env, t, branch, name, fault).status.Committed?
  {
    hide SafeNodes, Loader, Hubs, OpsOf, PlanOf, Consolidated, HubId, Tidy, FromDict, HubProposed, RunOps,
        OpStem, Named, Trimmed, Strip;
    if Consolidated(env, t, branch, name, fault).status.Committed? {
      var ops := OpsOf(PlanOf(env, t, branch));
      var j := TopicOp(env, t, branch, a);
      var k := TopicOp(env, t, branch, b);
      CommittedHubLoads(env, t, branch, name, fault, j);
      CommittedHubLoads(env, t, branch, name, fault, k);
      TidyIsTrimmed(env, t);
      PlannedHubStem(env, t, branch, ops[j].payload, a);
      PlannedHubStem(env, t, branch, ops[k].payload, b);
      PlanPromotesNothing(env, t, branch);
      CommittedRan(env, t, branch, name, fault);
      var start := Snapped(t, name).tree;
      assert j != k;
      if j < k {
        TwinHubsFail(env, start, ops, fault, 0, j, k);
      } else {
        TwinHubsFail(env, start, ops, fault, 0, k, j);
      }
    }
  }

  /** Links with one source name have one source. */
  lemma FlaggedLinkBlocks(env: Env, t: Tree, branch: string, name: string, fault: Fault, l: LinkOp)
    requires Tidy(env, t) && l in PlanOf(env, t, branch).links && FlaggedLink(env, t.files, l)
    ensures !Consolidated(env, t, branch, name, fault).status.Committed?
  {
    hide SafeNodes, Loader, Hubs, OpsOf, Consolidated, Tidy, RunOps, Named, Trimmed, Strip, FlaggedLink,
        Duplicates, PlannedLinks, Ids;
    if Consolidated(env, t, branch, name, fault).status.Committed? {
      var plan := PlanOf(env, t, branch);
      var ops := OpsOf(plan);
      var a, b := OpsLayout(plan);
      var p :| 0 <= p < |plan.links| && plan.links[p] == l;
      forall j | 0 <= j < a + p && ops[j].AddLink? && Strip(ops[j].link.source) == Strip(l.source)
        ensures ops[j].link.relation != l.relation || ops[j].link.target != l.target
      {
        PlannedLinksDiffer(env, t, branch, j - a, p);
      }
      PlanPromotesNothing(env, t, branch);
      CommittedRan(env, t, branch, name, fault);
      TidyIsTrimmed(env, t);
      FlaggedLinkFails(env, Snapped(t, name).tree, ops, fault, 0, a + p);
    }
  }

  lemma PlannedLinksDiffer(env: Env, t: Tree, branch: string, i: nat, j: nat)
    requires Tidy(env, t) && i < j < |PlanOf(env, t, branch).links|
    ensures
      var a, b := PlanOf(env, t, branch).links[i], PlanOf(env, t, branch).links[j];
      Strip(a.source) == Strip(b.source) ==> a.relation != b.relation || a.target != b.target
  {
    hide SafeNodes, Loader, Tidy, Strip, Dedupe, HintedLinks, SameTopicLinks, Ids, Hubs, Duplicates,
        KnownRelation;
    var nodes := SafeNodes(env, t.files, branch);
    var a, b := PlannedLinks(nodes)[i], PlannedLinks(nodes)[j];
    DedupeDistinct(HintedLinks(nodes) + SameTopicLinks(nodes), LinkKey(), {});
    PlannedLinkShape(nodes, a);
    PlannedLinkShape(nodes, b);
    ConsideredIdIsSafe(env, t, branch, a.source);
    ConsideredIdIsSafe(env, t, branch, b.source);
  }

  // --------------------------------------------------------------- what suffices

  lemma PlanIsFeasible(env: Env, t: Tree, branch: string, k: nat)
    requires Tidy(env, t) && Unobstructed(env, t, branch) && k < |OpsOf(PlanOf(env, t, branch))|
    ensures Feasible(env, t.project, t.files, OpsOf(PlanOf(env, t, branch))[k])
  {
    hide SafeNodes, Loader, Tidy, OpsOf, Hubs, Duplicates, PlannedLinks, Ids, Strip, FlaggedLink, KnownRelation,
        SafeIdentifier, HubsCollide, FromDict, TakenHub, HubProposed, HubId;
    var plan, nodes := PlanOf(env, t, branch), SafeNodes(env, t.files, branch);
    var op := OpsOf(plan)[k];
    OpOrigin(plan, k);
    match op {
      case AddLink(l) =>
        PlannedLinkShape(nodes, l);
        ConsideredIdIsSafe(env, t, branch, l.source);
        ConsideredIdIsSafe(env, t, branch, l.target);
      case MakeHub(p) => PlannedHubIsFeasible(env, t, branch, p);
      case _ =>
        OpTargetsConsidered(env, t, branch, k);
        ConsideredIdIsSafe(env, t, branch, TargetId(op));
    }
  }

  lemma PlannedHubIsFeasible(env: Env, t: Tree, branch: string, p: Payload)
    requires Tidy(env, t) && Unobstructed(env, t, branch) && p in PlanOf(env, t, branch).hubs
    ensures Feasible(env, t.project, t.files, MakeHub(p))
  {
    hide SafeNodes, Loader, Tidy, Hubs, Duplicates, PlannedLinks, Ids, Strip, FlaggedLink, HubsCollide,
        FromDict, HubId, TwoCarriers, HubPayload, Members, Trimmed, OpStem;
    var nodes := SafeNodes(env, t.files, branch);
    var topic := HubOrigin(env, nodes, t.project, branch, p);
    PayloadId(env, t.project, branch, topic, Members(nodes, topic));
    TidyIsTrimmed(env, t);
    PlannedHubStem(env, t, branch, p, topic);
    assert !TakenHub(env, t, branch, topic);
  }

  lemma PlannedHubStemsDiffer(env: Env, t: Tree, branch: string)
    requires Tidy(env, t) && Unobstructed(env, t, branch)
    ensures HubStemsDiffer(env, OpsOf(PlanOf(env, t, branch)), 0)
  {
    hide SafeNodes, Loader, Tidy, Hubs, Duplicates, PlannedLinks, Ids, Strip, FlaggedLink, FromDict, HubId,
        HubProposed, TakenHub, Trimmed, OpStem, OpsOf;
    var plan, nodes := PlanOf(env, t, branch), SafeNodes(env, t.files, branch);
    var ops := OpsOf(plan);
    var a, b := OpsLayout(plan);
    TidyIsTrimmed(env, t);
    forall j, k | 0 <= j < k < |ops| && ops[j].MakeHub? &&
        ops[k].MakeHub? ensures OpStem(env, ops[j]) != OpStem(env, ops[k]) {
      var x, y := HubTopics(env, nodes, t.project, branch, j - b, k - b);
      assert !HubsCollide(env, t, branch, x, y);
      HubProject(env, nodes, t.project, branch, plan.hubs[j - b]);
      HubProject(env, nodes, t.project, branch, plan.hubs[k - b]);
      PlannedHubStem(env, t, branch, plan.hubs[j - b], x);
      PlannedHubStem(env, t, branch, plan.hubs[k - b], y);
    }
  }

  lemma HubProject(env: Env, nodes: seq<Node>, project: string, branch: string, p: Payload)
    requires p in Hubs(env, nodes, project, branch)
    ensures p.projectId == project
  {
    hide Hubs, HubPayload, Members, TwoCarriers, Ids, HubId;
    var topic := HubOrigin(env, nodes, project, branch, p);
    PayloadId(env, project, branch, topic, Members(nodes, topic));
  }

  /** Exactly when a consolidation commits: it has something to do, the snapshot name is
      free, the disk holds, every new link passes the detector, every new hub validates, no
      two share an id, and no topic in need of a hub has it stored out of sight. */
  lemma CommitsIff(env: Env, t: Tree, branch: string, name: string, fault: Fault)
    requires Tidy(env, t)
    ensures
      var ops := OpsOf(PlanOf(env, t, branch));
      Consolidated(env, t, branch, name, fault).status.Committed? <==>
        ops != [] && Snapped(t, name).Done? && !Strikes(fault, |ops|) && Unobstructed(env, t, branch)
  {
    hide SafeNodes, Loader, Tidy, OpsOf, RunOps, PlanFor, Restored, FlaggedLink, HubsCollide, TakenHub,
        FromDict, SafeSegment, Strip, Named, Feasible, Trimmed;
    var ops := OpsOf(PlanOf(env, t, branch));
    TidyIsTrimmed(env, t);
    if ops != [] && Snapped(t, name).Done? {
      var start := Snapped(t, name).tree;
      if Strikes(fault, |ops|) {
        StruckRunFails(env, start, ops, fault, 0);
      } else if Unobstructed(env, t, branch) {
        forall k | 0 <= k < |ops| ensures Feasible(env, t.project, t.files, ops[k]) {
          PlanIsFeasible(env, t, branch, k);
        }
        PlannedHubStemsDiffer(env, t, branch);
        RunSucceeds(env, start, ops, fault, 0);
      }
    }
    if Consolidated(env, t, branch, name, fault).status.Committed? {
      CommittedIsUnobstructed(env, t, branch, name, fault);
    }
  }

  lemma CommittedIsUnobstructed(env: Env, t: Tree, branch: string, name: string, fault: Fault)
    requires Tidy(env, t) && Consolidated(env, t, branch, name, fault).status.Committed?
    ensures Unobstructed(env, t, branch)
  {
    hide SafeNodes, Loader, Tidy, OpsOf, PlanFor, FlaggedLink, HubsCollide, TakenHub, FromDict, Consolidated;
    var plan := PlanOf(env, t, branch);
    forall l | l in plan.links ensures !FlaggedLink(env, t.files, l) {
      if FlaggedLink(env, t.files, l) {
        FlaggedLinkBlocks(env, t, branch, name, fault, l);
      }
    }
    forall p | p in plan.hubs ensures FromDict(env, p).Some? {
      HubOpPlaced(plan, p);
      var k :| 0 <= k < |OpsOf(plan)| && OpsOf(plan)[k] == MakeHub(p);
      CommittedHubLoads(env, t, branch, name, fault, k);
    }
    forall a, b ensures !HubsCollide(env, t, branch, a, b) {
      if HubsCollide(env, t, branch, a, b) {
        CollidingHubsBlock(env, t, branch, name, fault, a, b);
      }
    }
    forall topic ensures !TakenHub(env, t, branch, topic) {
      if TakenHub(env, t, branch, topic) {
        TakenHubBlocks(env, t, branch, name, fault, topic);
      }
    }
  }
}
