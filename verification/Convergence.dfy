/** Consolidation converges: after a committed run, planning again on the same branch
    finds nothing to link among the nodes it had considered, and no hub to make. */
module Convergence {
  import opened Text
  import opened Seqs
  import opened Memory
  import opened MemoryTree
  import opened Consolidation
  import opened Transactions
  import opened OpEffects
  import opened CommittedRuns

  // --------------------------------------------------------- sequences of pairs

  lemma {:induction false} PairsMember<A, B>(xs: seq<A>, f: (A, A) -> seq<B>, y: B)
    ensures y in Pairs(xs, f) <==> exists i, j :: 0 <= i < j < |xs| && y in f(xs[i], xs[j])
  {
    if xs != [] {
      var rest := xs[1..];
      PairsMember(rest, f, y);
      FlatMapMember(rest, With(f, xs[0]), y);
      if y in FlatMap(rest, With(f, xs[0])) {
        var j :| 0 <= j < |rest| && y in With(f, xs[0])(rest[j]);
        assert y in f(xs[0], xs[j + 1]);
      }
      if y in Pairs(rest, f) {
        var i, j :| 0 <= i < j < |rest| && y in f(rest[i], rest[j]);
        assert y in f(xs[i + 1], xs[j + 1]);
      }
      if i, j :| 0 <= i < j < |xs| && y in f(xs[i], xs[j]) {
        if i == 0 {
          assert y in With(f, xs[0])(rest[j - 1]);
        } else {
          assert y in f(rest[i - 1], rest[j - 1]);
        }
      }
    }
  }

  /** Dropping repeats keeps an operation of every key, and invents none. */
  lemma {:induction false} DedupeCovers<A(!new), K(!new)>(ops: seq<A>, key: A -> K, seen: set<K>)
    ensures forall x :: x in Dedupe(ops, key, seen) ==> x in ops
    ensures forall x :: x in ops && key(x) !in seen ==> exists y :: y in Dedupe(ops, key, seen) && key(y) == key(x)
  {
    if ops != [] {
      var kept := key(ops[0]) !in seen;
      var rest := if kept then Dedupe(ops[1..], key, seen + {key(ops[0])}) else Dedupe(ops[1..], key, seen);
      DedupeCovers(ops[1..], key, if kept then seen + {key(ops[0])} else seen);
      forall x | x in ops && key(x) !in seen ensures exists y :: y in Dedupe(ops, key, seen) && key(y) == key(x) {
        if key(x) == key(ops[0]) {
          assert ops[0] in Dedupe(ops, key, seen);
        } else {
          assert x in ops[1..];
          var y :| y in rest && key(y) == key(x);
          assert y in Dedupe(ops, key, seen);
        }
      }
    }
  }

  lemma {:induction false} CollectAt<A, B>(xs: seq<A>, load: A -> Option<B>, i: nat, j: nat)
    returns (p: nat, q: nat)
    requires i < j < |Collect(xs, load)|
    ensures p < q < |xs| && load(xs[p]) == Some(Collect(xs, load)[i]) && load(xs[q]) == Some(Collect(xs, load)[j])
  {
    var rest := Collect(xs[1..], load);
    assert Collect(xs, load) == OneOf(load)(xs[0]) + rest;
    if load(xs[0]).Absent? {
      p, q := CollectAt(xs[1..], load, i, j);
      p, q := p + 1, q + 1;
    } else if i == 0 {
      p := 0;
      q := CollectOne(xs[1..], load, j - 1);
      q := q + 1;
    } else {
      p, q := CollectAt(xs[1..], load, i - 1, j - 1);
      p, q := p + 1, q + 1;
    }
  }

  lemma {:induction false} CollectOne<A, B>(xs: seq<A>, load: A -> Option<B>, i: nat) returns (p: nat)
    requires i < |Collect(xs, load)|
    ensures p < |xs| && load(xs[p]) == Some(Collect(xs, load)[i])
  {
    var rest := Collect(xs[1..], load);
    assert Collect(xs, load) == OneOf(load)(xs[0]) + rest;
    if load(xs[0]).Some? && i == 0 {
      p := 0;
    } else {
      p := CollectOne(xs[1..], load, if load(xs[0]).Some? then i - 1 else i);
      p := p + 1;
    }
  }

  lemma {:induction false} CollectIndexes<A, B>(xs: seq<A>, load: A -> Option<B>, p: nat, q: nat)
    returns (i: nat, j: nat)
    requires p < q < |xs| && load(xs[p]).Some? && load(xs[q]).Some?
    ensures i < j < |Collect(xs, load)|
    ensures Collect(xs, load)[i] == load(xs[p]).value && Collect(xs, load)[j] == load(xs[q]).value
  {
    var rest := Collect(xs[1..], load);
    assert Collect(xs, load) == OneOf(load)(xs[0]) + rest;
    var shift := if load(xs[0]).Some? then 1 else 0;
    if p == 0 {
      i := 0;
      j := CollectIndex(xs[1..], load, q - 1);
    } else {
      i, j := CollectIndexes(xs[1..], load, p - 1, q - 1);
      i := i + shift;
    }
    j := j + shift;
  }

  lemma {:induction false} CollectIndex<A, B>(xs: seq<A>, load: A -> Option<B>, p: nat) returns (i: nat)
    requires p < |xs| && load(xs[p]).Some?
    ensures i < |Collect(xs, load)| && Collect(xs, load)[i] == load(xs[p]).value
  {
    var rest := Collect(xs[1..], load);
    assert Collect(xs, load) == OneOf(load)(xs[0]) + rest;
    if p == 0 {
      i := 0;
    } else {
      i := CollectIndex(xs[1..], load, p - 1);
      i := if load(xs[0]).Some? then i + 1 else i;
    }
  }

  // ------------------------------------------------------------- nodes and ids

  /** Every file that loads holds a node of the project and is named after its stripped
      id; anything else may lie beside them. */
  predicate Tidy(env: Env, t: Tree) {
    Named(env, t.project, t.files) && Trimmed(t.project)
  }

  lemma TidyNode(env: Env, t: Tree, s: string)
    requires Tidy(env, t) && Loader(env, t.files)(s).Some?
    ensures s in t.files && Strip(Loader(env, t.files)(s).value.nodeId) == s && Strip(s) == s && SafeSegment(s)
    ensures Valid(env, Loader(env, t.files)(s).value) && Strip(Loader(env, t.files)(s).value.projectId) == t.project
  {
    hide Valid, Loader, Strip, Named, SafeSegment;
    NamedNode(env, t.project, t.files, s);
    StripTwice(Loader(env, t.files)(s).value.nodeId);
  }

  lemma StripTwice(t: string)
    ensures Strip(Strip(t)) == Strip(t)
  {
    hide Strip;
    StripTrimmed(t);
    StripTrimmed(Strip(t));
  }

  lemma SafeIsLoaded(env: Env, files: map<string, File>, branch: string, s: string)
    requires SafeAt(env, files, branch)(s).Some?
    ensures Loader(env, files)(s) == SafeAt(env, files, branch)(s)
    ensures VisibleForConsolidation(SafeAt(env, files, branch)(s).value, branch)
  {
    hide FromDict, RedPayload;
  }

  /** The considered nodes are those that load, are visible and unflagged. */
  lemma SafeMember(env: Env, t: Tree, branch: string, n: Node)
    requires Tidy(env, t)
    ensures n in SafeNodes(env, t.files, branch) <==> SafeAt(env, t.files, branch)(Strip(n.nodeId)) == Some(n)
  {
    hide SafeAt, Tidy, Stems, Loader, Strip;
    CollectMember(Stems(t.files), SafeAt(env, t.files, branch), n);
    StemsProperties(t.files);
    if n in SafeNodes(env, t.files, branch) {
      var s :| s in Stems(t.files) && SafeAt(env, t.files, branch)(s) == Some(n);
      SafeIsLoaded(env, t.files, branch, s);
      TidyNode(env, t, s);
    }
    if SafeAt(env, t.files, branch)(Strip(n.nodeId)) == Some(n) {
      SafeIsLoaded(env, t.files, branch, Strip(n.nodeId));
      TidyNode(env, t, Strip(n.nodeId));
    }
  }

  lemma SafeId(env: Env, t: Tree, branch: string, id: string)
    requires Tidy(env, t)
    ensures id in Ids(SafeNodes(env, t.files, branch)) <==>
      SafeAt(env, t.files, branch)(Strip(id)).Some? && SafeAt(env, t.files, branch)(Strip(id)).value.nodeId == id
    ensures SafeAt(env, t.files, branch)(Strip(id)).Some? ==>
      Loader(env, t.files)(Strip(id)) == SafeAt(env, t.files, branch)(Strip(id))
  {
    hide SafeAt, Tidy, Loader, SafeNodes, Strip;
    var nodes, s := SafeNodes(env, t.files, branch), Strip(id);
    if id in Ids(nodes) {
      var i :| 0 <= i < |nodes| && nodes[i].nodeId == id;
      SafeMember(env, t, branch, nodes[i]);
    }
    if SafeAt(env, t.files, branch)(s).Some? {
      SafeIsLoaded(env, t.files, branch, s);
      var n := SafeAt(env, t.files, branch)(s).value;
      if n.nodeId == id {
        SafeMember(env, t, branch, n);
        var i :| 0 <= i < |nodes| && nodes[i] == n;
      }
    }
  }

  // --------------------------------------------------- the plan and its operations

  lemma LinkOpPlaced(plan: Plan, l: LinkOp)
    requires l in plan.links
    ensures exists k :: 0 <= k < |OpsOf(plan)| && OpsOf(plan)[k] == AddLink(l)
  {
    hide Filter;
    var i :| 0 <= i < |plan.links| && plan.links[i] == l;
    var k := |plan.duplicates| + |Filter(plan.links, (l: LinkOp) => l.relation == "supersedes")| + i;
    assert OpsOf(plan)[k] == AddLink(l);
  }

  lemma HubOpPlaced(plan: Plan, p: Payload)
    requires p in plan.hubs
    ensures exists k :: 0 <= k < |OpsOf(plan)| && OpsOf(plan)[k] == MakeHub(p)
  {
    hide Filter;
    var i :| 0 <= i < |plan.hubs| && plan.hubs[i] == p;
    var k := |plan.duplicates| + |Filter(plan.links, (l: LinkOp) => l.relation == "supersedes")| + |plan.links| + i;
    assert OpsOf(plan)[k] == MakeHub(p);
  }

  /** Where an operation of a plan comes from. */
  lemma OpOrigin(plan: Plan, k: nat)
    requires k < |OpsOf(plan)|
    ensures
      match OpsOf(plan)[k]
      case Mark(d) => d in plan.duplicates
      case Supersede(target) => exists l :: l in plan.links && l.relation == "supersedes" && l.target == target
      case AddLink(l) => l in plan.links
      case MakeHub(p) => p in plan.hubs
      case Promote(_, _, _) => false
  {
    var supers := Filter(plan.links, (l: LinkOp) => l.relation == "supersedes");
    var a, b, c := |plan.duplicates|, |supers|, |plan.links|;
    if a <= k < a + b {
      var l := supers[k - a];
      FilterMember(plan.links, (l: LinkOp) => l.relation == "supersedes", l);
      assert OpsOf(plan)[k] == Supersede(l.target);
    } else if a + b <= k < a + b + c {
      assert OpsOf(plan)[k] == AddLink(plan.links[k - a - b]);
    } else if k >= a + b + c {
      assert OpsOf(plan)[k] == MakeHub(plan.hubs[k - a - b - c]);
    }
  }

  /** A planned link starts at a considered node, and so does the end of a superseding one. */
  lemma PlannedLinkOrigin(nodes: seq<Node>, l: LinkOp)
    requires l in PlannedLinks(nodes)
    ensures l.source in Ids(nodes) && (l.relation == "supersedes" ==> l.target in Ids(nodes))
  {
    hide HintedLinks, SameTopicLinks, Dedupe, Ids;
    DedupeCovers(HintedLinks(nodes) + SameTopicLinks(nodes), LinkKey(), {});
    if l in HintedLinks(nodes) {
      HintedOrigin(nodes, l);
    } else {
      TopicOrigin(nodes, l);
    }
  }

  lemma HintedOrigin(nodes: seq<Node>, l: LinkOp)
    requires l in HintedLinks(nodes)
    ensures l.source in Ids(nodes) && l.target in Ids(nodes) && KnownRelation(l.relation)
  {
    hide Dedupe, HintedOf;
    DedupeCovers(FlatMap(nodes, HintedOf(Ids(nodes))), LinkKey(), {});
    FlatMapMember(nodes, HintedOf(Ids(nodes)), l);
    var i :| 0 <= i < |nodes| && l in HintedOf(Ids(nodes))(nodes[i]);
    HintOrigin(Ids(nodes), nodes[i], l);
  }

  lemma TopicOrigin(nodes: seq<Node>, l: LinkOp)
    requires l in SameTopicLinks(nodes)
    ensures l.source in Ids(nodes) && l.target in Ids(nodes) && l.relation == "same_topic"
  {
    hide Share, LinkExists;
    PairsMember(nodes, SameTopic(), l);
    var i, j :| 0 <= i < j < |nodes| && l in SameTopic()(nodes[i], nodes[j]);
  }

  lemma HintOrigin(ids: set<string>, n: Node, l: LinkOp)
    requires l in HintedOf(ids)(n)
    ensures l.source == n.nodeId && l.target in ids && KnownRelation(l.relation)
  {
    var a := (t: string) => if t in ids then [LinkOp(n.nodeId, t, "supersedes", "quality.supersedes_node_ids")] else [];
    var b := (l: Link) => if l.relation == "supersedes" && l.target in ids
                          then [LinkOp(n.nodeId, l.target, "supersedes", "existing_supersedes_link")] else [];
    var c := (h: Link) => if KnownRelation(h.relation) && h.target in ids
                          then [LinkOp(n.nodeId, h.target, h.relation, "quality.link_hints")] else [];
    FlatMapMember(n.quality.supersedes, a, l);
    FlatMapMember(n.links, b, l);
    FlatMapMember(n.quality.hints, c, l);
    assert HintedOf(ids)(n) == FlatMap(n.quality.supersedes, a) + FlatMap(n.links, b) + FlatMap(n.quality.hints, c);
  }

  lemma DuplicateOrigin(env: Env, nodes: seq<Node>, d: DupOp) returns (i: nat, j: nat)
    requires d in Duplicates(env, nodes)
    ensures i < j < |nodes| && d in DuplicateOf(env)(nodes[i], nodes[j])
    ensures d.duplicate in Ids(nodes) && d.canonical in Ids(nodes)
  {
    hide Similar, Dedupe;
    DedupeCovers(Pairs(nodes, DuplicateOf(env)), DupKey(), {});
    PairsMember(nodes, DuplicateOf(env), d);
    i, j :| 0 <= i < j < |nodes| && d in DuplicateOf(env)(nodes[i], nodes[j]);
  }

  /** Every operation but a hub's targets a considered node. */
  lemma OpTargetsConsidered(env: Env, t: Tree, branch: string, k: nat)
    requires k < |OpsOf(PlanOf(env, t, branch))| && !OpsOf(PlanOf(env, t, branch))[k].MakeHub?
    ensures TargetId(OpsOf(PlanOf(env, t, branch))[k]) in Ids(SafeNodes(env, t.files, branch))
    ensures !OpsOf(PlanOf(env, t, branch))[k].Promote?
  {
    hide PlannedLinks, Duplicates, Hubs, SafeNodes, Ids, OpsOf;
    var plan := PlanOf(env, t, branch);
    OpOrigin(plan, k);
    match OpsOf(plan)[k] {
      case Mark(d) => var _, _ := DuplicateOrigin(env, SafeNodes(env, t.files, branch), d);
      case Supersede(target) =>
        var l :| l in plan.links && l.relation == "supersedes" && l.target == target;
        PlannedLinkOrigin(SafeNodes(env, t.files, branch), l);
      case AddLink(l) => PlannedLinkOrigin(SafeNodes(env, t.files, branch), l);
      case _ =>
    }
  }

  lemma PlanPromotesNothing(env: Env, t: Tree, branch: string)
    ensures forall k :: 0 <= k < |OpsOf(PlanOf(env, t, branch))| ==> !OpsOf(PlanOf(env, t, branch))[k].Promote?
  {
    hide PlanFor, SafeNodes, OpsOf;
    forall k | 0 <= k < |OpsOf(PlanOf(env, t, branch))| ensures !OpsOf(PlanOf(env, t, branch))[k].Promote? {
      OpOrigin(PlanOf(env, t, branch), k);
    }
  }

  /** The tree a committed consolidation leaves, and what is known of it. */
  lemma CommittedEffects(env: Env, t: Tree, branch: string, name: string, fault: Fault)
    requires Tidy(env, t) && Consolidated(env, t, branch, name, fault).status.Committed?
    ensures
      var after, ops := Consolidated(env, t, branch, name, fault).tree, OpsOf(PlanOf(env, t, branch));
      && after.project == t.project && Named(env, t.project, after.files)
      && (forall s :: Lives(env, t.files, after.files, s))
      && (forall k :: 0 <= k < |ops| ==> Applied(env, t.project, after.files, ops[k]))
      && (forall s :: !TouchedBy(env, ops, 0, s) ==> Untouched(env, t.files, after.files, s))
      && (forall k :: 0 <= k < |ops| ==> !ops[k].Promote?)
  {
    hide PlanFor, SafeNodes, OpsOf, RunOps, TouchedBy, Untouched, Applied, Lives, Named, Restored, SafeSegment,
        Strip;
    PlanPromotesNothing(env, t, branch);
    var ops := OpsOf(PlanOf(env, t, branch));
    RunEffects(env, Snapped(t, name).tree, ops, fault, 0);
  }

  // ------------------------------------------------------- no link is left over

  /** Re-planning proposes no same-topic link between nodes that were considered. */
  lemma NoTopicLinkLeft(env: Env, t: Tree, branch: string, name: string, fault: Fault, op: LinkOp)
    requires Tidy(env, t) && Consolidated(env, t, branch, name, fault).status.Committed?
    requires
      var after := Consolidated(env, t, branch, name, fault).tree;
      op in SameTopicLinks(SafeNodes(env, after.files, branch))
    ensures
      var considered := Ids(SafeNodes(env, t.files, branch));
      !(op.source in considered && op.target in considered)
  {
    hide PlanFor, SafeNodes, OpsOf, Transact, TouchedBy, Untouched, Tidy, Loader, SafeAt, Ids, LinkExists,
        Evolves, Applied, Lives, Named, Share, PlanOf;
    var after := Consolidated(env, t, branch, name, fault).tree;
    var nodes, later := SafeNodes(env, t.files, branch), SafeNodes(env, after.files, branch);
    if op.source in Ids(nodes) && op.target in Ids(nodes) {
      PairsMember(later, SameTopic(), op);
      var i, j :| 0 <= i < j < |later| && op in SameTopic()(later[i], later[j]);
      var l, r := later[i], later[j];
      CommittedEffects(env, t, branch, name, fault);
      var l0, r0 := EarlierPair(env, t, after, branch, i, j);
      PairIsLinked(env, t, after, branch, l0, r0, l);
    }
  }

  predicate Precedes(nodes: seq<Node>, a: Node, b: Node) {
    exists p, q :: 0 <= p < q < |nodes| && nodes[p] == a && nodes[q] == b
  }

  /** Two considered nodes in the later order were in that order before. */
  lemma EarlierPair(env: Env, t: Tree, after: Tree, branch: string, i: nat, j: nat) returns (l0: Node, r0: Node)
    requires Tidy(env, t) && after.project == t.project && Named(env, t.project, after.files)
    requires forall s :: Lives(env, t.files, after.files, s)
    requires i < j < |SafeNodes(env, after.files, branch)|
    requires SafeNodes(env, after.files, branch)[i].nodeId in Ids(SafeNodes(env, t.files, branch))
    requires SafeNodes(env, after.files, branch)[j].nodeId in Ids(SafeNodes(env, t.files, branch))
    ensures Evolves(l0, SafeNodes(env, after.files, branch)[i]) && Evolves(r0, SafeNodes(env, after.files, branch)[j])
    ensures l0.topicTags == SafeNodes(env, after.files, branch)[i].topicTags
    ensures r0.topicTags == SafeNodes(env, after.files, branch)[j].topicTags
    ensures r0.nodeId == SafeNodes(env, after.files, branch)[j].nodeId
    ensures Loader(env, after.files)(Strip(l0.nodeId)) == Some(SafeNodes(env, after.files, branch)[i])
    ensures Precedes(SafeNodes(env, t.files, branch), l0, r0)
  {
    hide Tidy, Loader, SafeAt, Ids, Evolves, Named, Collect, Stems, Strip;
    var later := SafeNodes(env, after.files, branch);
    var p, q := CollectAt(Stems(after.files), SafeAt(env, after.files, branch), i, j);
    var sl, sr := Stems(after.files)[p], Stems(after.files)[q];
    StemsProperties(after.files);
    SafeIsLoaded(env, after.files, branch, sl);
    SafeIsLoaded(env, after.files, branch, sr);
    StemOfConsidered(env, t, after, branch, sl);
    StemOfConsidered(env, t, after, branch, sr);
    l0, r0 := Loader(env, t.files)(sl).value, Loader(env, t.files)(sr).value;
    var p0, q0 := OrderedStems(t.files, sl, sr);
    var i0, j0 := CollectIndexes(Stems(t.files), SafeAt(env, t.files, branch), p0, q0);
  }

  lemma OrderedStems(files: map<string, File>, a: string, b: string) returns (p: nat, q: nat)
    requires a in files && b in files && FileLess(a, b)
    ensures p < q < |Stems(files)| && Stems(files)[p] == a && Stems(files)[q] == b
  {
    hide Stems, FileLess;
    StemsProperties(files);
    p :| 0 <= p < |Stems(files)| && Stems(files)[p] == a;
    q :| 0 <= q < |Stems(files)| && Stems(files)[q] == b;
    FileLessIsStrict(files.Keys);
    assert forall i, j :: 0 <= i < j < |Stems(files)| ==> FileLess(Stems(files)[i], Stems(files)[j]);
    assert FileLess(b, a) ==> FileLess(a, a);
  }

  lemma StemOfConsidered(env: Env, t: Tree, after: Tree, branch: string, s: string)
    requires Tidy(env, t) && after.project == t.project && Named(env, t.project, after.files)
    requires forall s :: Lives(env, t.files, after.files, s)
    requires Loader(env, after.files)(s).Some?
    requires Loader(env, after.files)(s).value.nodeId in Ids(SafeNodes(env, t.files, branch))
    ensures s in t.files && SafeAt(env, t.files, branch)(s).Some? && Strip(Loader(env, t.files)(s).value.nodeId) == s
    ensures Loader(env, t.files)(s) == SafeAt(env, t.files, branch)(s)
    ensures Evolves(Loader(env, t.files)(s).value, Loader(env, after.files)(s).value)
    ensures Loader(env, t.files)(s).value.topicTags == Loader(env, after.files)(s).value.topicTags
    ensures Loader(env, t.files)(s).value.nodeId == Loader(env, after.files)(s).value.nodeId
  {
    hide Tidy, Loader, SafeAt, Ids, LinksGrow, FlagsGrow, Named, SafeNodes, Strip, Valid;
    SafeId(env, t, branch, Loader(env, after.files)(s).value.nodeId);
    NamedNode(env, t.project, after.files, s);
    TidyNode(env, t, s);
    assert Lives(env, t.files, after.files, s);
  }

  /** A considered pair that shares a topic is linked in the later tree. */
  lemma PairIsLinked(env: Env, t: Tree, after: Tree, branch: string, l0: Node, r0: Node, l: Node)
    requires Tidy(env, t)
    requires forall k :: 0 <= k < |OpsOf(PlanOf(env, t, branch))| ==>
      Applied(env, t.project, after.files, OpsOf(PlanOf(env, t, branch))[k])
    requires Precedes(SafeNodes(env, t.files, branch), l0, r0)
    requires Evolves(l0, l) && Loader(env, after.files)(Strip(l0.nodeId)) == Some(l)
    requires Share(l0.topicTags, r0.topicTags)
    ensures LinkExists(l.links, "same_topic", r0.nodeId)
  {
    hide Tidy, Loader, SafeNodes, Share, OpsOf, PlanOf, LinkExists, Strip, FromDict;
    if LinkExists(l0.links, "same_topic", r0.nodeId) {
      LinkExistsGrows(l0.links, l.links, "same_topic", r0.nodeId);
    } else {
      var k := TopicPairPlanned(env, t, branch, l0, r0);
      assert Applied(env, t.project, after.files, OpsOf(PlanOf(env, t, branch))[k]);
    }
  }

  /** An unlinked considered pair that shares a topic is given a link by the plan. */
  lemma TopicPairPlanned(env: Env, t: Tree, branch: string, l0: Node, r0: Node) returns (k: nat)
    requires Precedes(SafeNodes(env, t.files, branch), l0, r0)
    requires Share(l0.topicTags, r0.topicTags) && !LinkExists(l0.links, "same_topic", r0.nodeId)
    ensures k < |OpsOf(PlanOf(env, t, branch))| && OpsOf(PlanOf(env, t, branch))[k].AddLink?
    ensures
      var l := OpsOf(PlanOf(env, t, branch))[k].link;
      l.source == l0.nodeId && l.target == r0.nodeId && l.relation == "same_topic"
  {
    hide SafeNodes, Share, OpsOf, Hubs, Duplicates, Dedupe, LinkExists, HintedLinks;
    var nodes := SafeNodes(env, t.files, branch);
    var p, q :| 0 <= p < q < |nodes| && nodes[p] == l0 && nodes[q] == r0;
    var op := LinkOp(l0.nodeId, r0.nodeId, "same_topic", "topic_tags");
    assert op in SameTopic()(nodes[p], nodes[q]);
    PairsMember(nodes, SameTopic(), op);
    var planned := PlannedWithKey(nodes, op);
    LinkOpPlaced(PlanOf(env, t, branch), planned);
    k :| 0 <= k < |OpsOf(PlanOf(env, t, branch))| && OpsOf(PlanOf(env, t, branch))[k] == AddLink(planned);
  }

  lemma PlannedWithKey(nodes: seq<Node>, op: LinkOp) returns (planned: LinkOp)
    requires op in SameTopicLinks(nodes)
    ensures planned in PlannedLinks(nodes)
    ensures planned.source == op.source && planned.target == op.target && planned.relation == op.relation
  {
    hide HintedLinks, SameTopicLinks, Dedupe;
    DedupeCovers(HintedLinks(nodes) + SameTopicLinks(nodes), LinkKey(), {});
    assert op in HintedLinks(nodes) + SameTopicLinks(nodes);
    planned :| planned in PlannedLinks(nodes) && LinkKey()(planned) == LinkKey()(op);
  }
}
