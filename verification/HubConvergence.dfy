/** Hubs settle: after a committed consolidation on a named branch, no hub is left to make. */
module HubConvergence {
  import opened Text
  import opened Sorting
  import opened Seqs
  import opened Memory
  import opened MemoryTree
  import opened Consolidation
  import opened Transactions
  import opened OpEffects
  import opened CommittedRuns
  import opened Convergence

  // -------------------------------------------------------------------- members

  /** Two different nodes carry the topic, or one carries it twice. */
  predicate TwoCarriers(nodes: seq<Node>, topic: string) {
    || (exists i :: 0 <= i < |nodes| && |Carrying(topic)(nodes[i])| >= 2)
    || (exists i, j :: 0 <= i < j < |nodes| && topic in nodes[i].topicTags && topic in nodes[j].topicTags)
  }

  lemma CarriesIffTagged(n: Node, topic: string)
    ensures |Carrying(topic)(n)| >= 1 <==> topic in n.topicTags
  {
    var p := (t: string) => t == topic;
    var kept := Filter(n.topicTags, p);
    assert |Carrying(topic)(n)| == |kept|;
    FilterMember(n.topicTags, p, topic);
    if kept != [] {
      FilterMember(n.topicTags, p, kept[0]);
    }
  }

  lemma {:induction false} FlatMapLengths<A, B>(xs: seq<A>, f: A -> seq<B>)
    ensures |FlatMap(xs, f)| >= 1 <==> exists i :: 0 <= i < |xs| && |f(xs[i])| >= 1
    ensures |FlatMap(xs, f)| >= 2 <==>
      || (exists i :: 0 <= i < |xs| && |f(xs[i])| >= 2)
      || (exists i, j :: 0 <= i < j < |xs| && |f(xs[i])| >= 1 && |f(xs[j])| >= 1)
  {
    if xs != [] {
      var rest := xs[1..];
      FlatMapLengths(rest, f);
      assert |FlatMap(xs, f)| == |f(xs[0])| + |FlatMap(rest, f)|;
      assert forall i :: 0 <= i < |rest| ==> rest[i] == xs[i + 1];
      if i :| 0 <= i < |rest| && |f(rest[i])| >= 1 {
        assert |f(xs[i + 1])| >= 1;
      }
      if i :| 0 <= i < |rest| && |f(rest[i])| >= 2 {
        assert |f(xs[i + 1])| >= 2;
      }
      if i, j :| 0 <= i < j < |rest| && |f(rest[i])| >= 1 && |f(rest[j])| >= 1 {
        assert |f(xs[i + 1])| >= 1 && |f(xs[j + 1])| >= 1;
      }
      if i :| 0 <= i < |xs| && |f(xs[i])| >= 1 && i > 0 {
        assert |f(rest[i - 1])| >= 1;
      }
      if i :| 0 <= i < |xs| && |f(xs[i])| >= 2 && i > 0 {
        assert |f(rest[i - 1])| >= 2;
      }
      if i, j :| 0 <= i < j < |xs| && |f(xs[i])| >= 1 && |f(xs[j])| >= 1 && i > 0 {
        assert |f(rest[i - 1])| >= 1 && |f(rest[j - 1])| >= 1;
      }
      if i, j :| 0 <= i < j < |xs| && |f(xs[i])| >= 1 && |f(xs[j])| >= 1 && i == 0 {
        assert |f(rest[j - 1])| >= 1;
      }
    }
  }

  /** A topic has two members exactly when it has two carriers. */
  lemma MembersIffCarriers(nodes: seq<Node>, topic: string)
    ensures |Members(nodes, topic)| >= 2 <==> TwoCarriers(nodes, topic)
  {
    hide Carrying, FlatMap;
    FlatMapLengths(nodes, Carrying(topic));
    forall i | 0 <= i < |nodes| ensures |Carrying(topic)(nodes[i])| >= 1 <==> topic in nodes[i].topicTags {
      CarriesIffTagged(nodes[i], topic);
    }
  }

  lemma CarrierHasTopic(nodes: seq<Node>, topic: string)
    requires TwoCarriers(nodes, topic)
    ensures topic in Topics(nodes)
  {
    hide Carrying;
    if i :| 0 <= i < |nodes| && |Carrying(topic)(nodes[i])| >= 2 {
      CarriesIffTagged(nodes[i], topic);
      assert topic in nodes[i].topicTags;
    }
  }

  // ----------------------------------------------------------------------- hubs

  /** A topic has two carriers and its hub is not among the nodes. */
  predicate HubProposed(env: Env, nodes: seq<Node>, project: string, topic: string) {
    TwoCarriers(nodes, topic) && HubId(env, project, topic) !in Ids(nodes)
  }

  /** A hub is planned for a topic with two carriers whose hub is not among the nodes. */
  lemma HubPlanned(env: Env, nodes: seq<Node>, project: string, branch: string, topic: string)
    requires TwoCarriers(nodes, topic) && HubId(env, project, topic) !in Ids(nodes)
    ensures |Members(nodes, topic)| >= 2
    ensures HubPayload(env, project, branch, topic, Members(nodes, topic)) in Hubs(env, nodes, project, branch)
  {
    hide Members, TwoCarriers, HubPayload, Ids, HubId, Topics;
    MembersIffCarriers(nodes, topic);
    CarrierHasTopic(nodes, topic);
    LessIsStrict(Topics(nodes));
    ListingSorted(Topics(nodes), Less);
    var topics := Listing(Topics(nodes), Less);
    var i :| 0 <= i < |topics| && topics[i] == topic;
    var p := HubPayload(env, project, branch, topic, Members(nodes, topic));
    FlatMapMember(topics, HubFor(env, nodes, project, branch), p);
    assert p in HubFor(env, nodes, project, branch)(topics[i]);
  }

  lemma HubOrigin(env: Env, nodes: seq<Node>, project: string, branch: string, p: Payload) returns (topic: string)
    requires p in Hubs(env, nodes, project, branch)
    ensures TwoCarriers(nodes, topic) && HubId(env, project, topic) !in Ids(nodes)
    ensures |Members(nodes, topic)| >= 2 && p == HubPayload(env, project, branch, topic, Members(nodes, topic))
  {
    hide Members, TwoCarriers, HubPayload, Ids, HubId, Topics;
    var topics := Listing(Topics(nodes), Less);
    FlatMapMember(topics, HubFor(env, nodes, project, branch), p);
    var i :| 0 <= i < |topics| && p in HubFor(env, nodes, project, branch)(topics[i]);
    topic := topics[i];
    MembersIffCarriers(nodes, topic);
  }

  lemma HubIdIsTrimmed(env: Env, project: string, topic: string)
    ensures Trimmed(HubId(env, project, topic)) && Strip(HubId(env, project, topic)) == HubId(env, project, topic)
  {
    var digest := env.sha(project + ":" + topic);
    assert IsHexDigest(digest);
    var id := HubId(env, project, topic);
    assert id == "hub_" + digest[..24] && |id| == 28 && id[27] == digest[23] && IsHex(digest[23]);
    StripTrimmed(id);
  }

  /** The node a hub payload loads as. */
  lemma HubNode(env: Env, project: string, branch: string, topic: string, members: seq<Node>)
    requires members != []
    ensures
      var n := Filled(env, HubPayload(env, project, branch, topic, members));
      n.nodeId == HubId(env, project, topic) && n.projectId == project && n.topicTags == [topic]
      && n.visibility == BRANCH_LOCAL && (branch != "" ==> n.createdOnBranch == branch)
  {
    hide HubId, Digits, Mapped;
  }

  // ----------------------------------------------------------------- reappearing

  /** The detector flags the stored record. */
  predicate Flagged(env: Env, files: map<string, File>, s: string) {
    s in files && files[s].Json? && RedPayload(env, files[s].payload)
  }

  /** A node that loads and is visible is considered exactly when it is not flagged. */
  lemma Considered(env: Env, files: map<string, File>, branch: string, s: string)
    requires Loader(env, files)(s).Some? && VisibleForConsolidation(Loader(env, files)(s).value, branch)
    ensures SafeAt(env, files, branch)(s) == if Flagged(env, files, s) then Absent else Loader(env, files)(s)
  {
    hide RedPayload, SafeIdentifier, Blank, Cleared, ValidLink, ValidPath, ValidRawRef;
  }

  lemma EvolvedIsVisible(a: Node, b: Node, branch: string)
    requires Evolves(a, b)
    ensures VisibleForConsolidation(a, branch) <==> VisibleForConsolidation(b, branch)
  {
  }

  /** A node considered again that was stored before was considered before. */
  lemma OldNodeWasConsidered(env: Env, t: Tree, branch: string, name: string, fault: Fault, s: string)
    requires Tidy(env, t) && Consolidated(env, t, branch, name, fault).status.Committed?
    requires SafeAt(env, Consolidated(env, t, branch, name, fault).tree.files, branch)(s).Some?
    requires Loader(env, t.files)(s).Some?
    ensures SafeAt(env, t.files, branch)(s) == Loader(env, t.files)(s)
    ensures
      var after := Consolidated(env, t, branch, name, fault).tree;
      Evolves(Loader(env, t.files)(s).value, Loader(env, after.files)(s).value)
  {
    hide PlanFor, SafeNodes, OpsOf, Transact, Tidy, Loader, SafeAt, Evolves, Applied, Named, PlanOf,
        Consolidated, OpStem, Ids;
    var after := Consolidated(env, t, branch, name, fault).tree;
    var ops := OpsOf(PlanOf(env, t, branch));
    CommittedEffects(env, t, branch, name, fault);
    SafeIsLoaded(env, after.files, branch, s);
    assert Lives(env, t.files, after.files, s);
    if TouchedBy(env, ops, 0, s) {
      var k :| 0 <= k < |ops| && s == OpStem(env, ops[k]);
      TouchedWasConsidered(env, t, branch, name, fault, k);
    } else {
      SameFileSameVerdict(env, t.files, after.files, branch, s);
      SafeIsLoaded(env, t.files, branch, s);
    }
  }

  lemma SameFileSameVerdict(env: Env, a: map<string, File>, b: map<string, File>, branch: string, s: string)
    requires Untouched(env, a, b, s)
    ensures SafeAt(env, a, branch)(s) == SafeAt(env, b, branch)(s)
  {
    hide FromDict, RedPayload;
  }

  lemma TouchedWasConsidered(env: Env, t: Tree, branch: string, name: string, fault: Fault, k: nat)
    requires Tidy(env, t) && Consolidated(env, t, branch, name, fault).status.Committed?
    requires k < |OpsOf(PlanOf(env, t, branch))|
    requires Loader(env, t.files)(OpStem(env, OpsOf(PlanOf(env, t, branch))[k])).Some?
    ensures
      var s := OpStem(env, OpsOf(PlanOf(env, t, branch))[k]);
      SafeAt(env, t.files, branch)(s) == Loader(env, t.files)(s)
  {
    hide SafeNodes, Loader, SafeAt, PlanFor, Tidy, Ids, Strip, FromDict, OpsOf;
    var ops := OpsOf(PlanOf(env, t, branch));
    if ops[k].MakeHub? {
      PlannedHubWasNew(env, t, branch, name, fault, k);
    } else {
      OpTargetsConsidered(env, t, branch, k);
      SafeId(env, t, branch, TargetId(ops[k]));
    }
  }

  lemma PlannedHubWasNew(env: Env, t: Tree, branch: string, name: string, fault: Fault, k: nat)
    requires Tidy(env, t) && Consolidated(env, t, branch, name, fault).status.Committed?
    requires k < |OpsOf(PlanOf(env, t, branch))| && OpsOf(PlanOf(env, t, branch))[k].MakeHub?
    ensures Loader(env, t.files)(OpStem(env, OpsOf(PlanOf(env, t, branch))[k])).Absent?
  {
    hide SafeNodes, Loader, PlanFor, Strip, FromDict, OpsOf, RunOps, Named, PlanOf, Consolidated, Snapped,
        Trimmed, OpStem, Hubs;
    var ops := OpsOf(PlanOf(env, t, branch));
    PlanPromotesNothing(env, t, branch);
    CommittedHubLoads(env, t, branch, name, fault, k);
    HubBelongsHere(env, t, branch, k);
    CommittedRan(env, t, branch, name, fault);
    if Loader(env, t.files)(OpStem(env, ops[k])).Some? {
      TakenHubNeverCommits(env, Snapped(t, name).tree, ops, fault, 0, k);
    }
  }

  lemma CommittedHubLoads(env: Env, t: Tree, branch: string, name: string, fault: Fault, k: nat)
    requires Tidy(env, t) && Consolidated(env, t, branch, name, fault).status.Committed?
    requires k < |OpsOf(PlanOf(env, t, branch))| && OpsOf(PlanOf(env, t, branch))[k].MakeHub?
    ensures FromDict(env, OpsOf(PlanOf(env, t, branch))[k].payload).Some?
  {
    hide Loader, Strip, FromDict, OpsOf, Named, Lives, Untouched, TouchedBy, PlanOf, Consolidated, Tidy,
        Evolves;
    CommittedEffects(env, t, branch, name, fault);
    assert Applied(env, t.project, Consolidated(env, t, branch, name, fault).tree.files,
        OpsOf(PlanOf(env, t, branch))[k]);
  }

  lemma CommittedRan(env: Env, t: Tree, branch: string, name: string, fault: Fault)
    requires Consolidated(env, t, branch, name, fault).status.Committed?
    ensures Snapped(t, name).tree.files == t.files && Snapped(t, name).tree.project == t.project
    ensures RunOps(env, Snapped(t, name).tree, OpsOf(PlanOf(env, t, branch)), fault, 0).Done?
  {
    hide PlanOf, OpsOf, RunOps, Restored, SafeSegment, Strip;
  }

  lemma HubBelongsHere(env: Env, t: Tree, branch: string, k: nat)
    requires Trimmed(t.project)
    requires k < |OpsOf(PlanOf(env, t, branch))| && OpsOf(PlanOf(env, t, branch))[k].MakeHub?
    ensures
      var p := OpsOf(PlanOf(env, t, branch))[k].payload;
      p in Hubs(env, SafeNodes(env, t.files, branch), t.project, branch)
      && (FromDict(env, p).Some? ==> Strip(FromDict(env, p).value.projectId) == t.project)
  {
    hide SafeNodes, Hubs, OpsOf, Strip, Valid, Duplicates, PlannedLinks;
    OpOrigin(PlanOf(env, t, branch), k);
    var p := OpsOf(PlanOf(env, t, branch))[k].payload;
    var topic := HubOrigin(env, SafeNodes(env, t.files, branch), t.project, branch, p);
    StripTrimmed(t.project);
  }

  // ------------------------------------------------------------------- theorem

  /** The hub planned for a topic is stored and visible afterwards, and local to the branch. */
  lemma MadeHubStands(env: Env, t: Tree, branch: string, name: string, fault: Fault, topic: string)
    requires Tidy(env, t) && branch != "" && Consolidated(env, t, branch, name, fault).status.Committed?
    requires HubProposed(env, SafeNodes(env, t.files, branch), t.project, topic)
    ensures HubStands(env, Consolidated(env, t, branch, name, fault).tree.files, branch, HubId(env, t.project, topic))
    ensures
      var hub := Loader(env, Consolidated(env, t, branch, name, fault).tree.files)(HubId(env, t.project, topic)).value;
      hub.visibility == BRANCH_LOCAL && hub.createdOnBranch == branch
  {
    hide SafeNodes, Loader, Strip, Valid, Filled, HubPayload, Members, TwoCarriers, HubId, OpsOf, Transact,
        Named, Hubs, Lives, Untouched, TouchedBy, Duplicates, PlannedLinks, Ids, Evolves, Consolidated;
    var nodes := SafeNodes(env, t.files, branch);
    var after := Consolidated(env, t, branch, name, fault).tree;
    var plan := PlanOf(env, t, branch);
    HubPlanned(env, nodes, t.project, branch, topic);
    var p := HubPayload(env, t.project, branch, topic, Members(nodes, topic));
    HubOpPlaced(plan, p);
    var k :| 0 <= k < |OpsOf(plan)| && OpsOf(plan)[k] == MakeHub(p);
    CommittedEffects(env, t, branch, name, fault);
    assert Applied(env, t.project, after.files, OpsOf(plan)[k]);
    HubNode(env, t.project, branch, topic, Members(nodes, topic));
    HubIdIsTrimmed(env, t.project, topic);
    StripTrimmed(t.project);
    var n := FromDict(env, p).value;
    HubIsVisible(n, Loader(env, after.files)(HubId(env, t.project, topic)).value, branch);
  }

  /** The hub is stored under its id and visible on the branch. */
  predicate HubStands(env: Env, files: map<string, File>, branch: string, id: string) {
    && Loader(env, files)(id).Some? && Loader(env, files)(id).value.nodeId == id
    && VisibleForConsolidation(Loader(env, files)(id).value, branch)
  }

  lemma HubIsVisible(n: Node, later: Node, branch: string)
    requires Evolves(n, later) && n.createdOnBranch == branch != "" && n.visibility == BRANCH_LOCAL
    ensures VisibleForConsolidation(later, branch) && later.nodeId == n.nodeId
    ensures later.visibility == BRANCH_LOCAL && later.createdOnBranch == branch
  {
  }

  /** A hub considered before is stored and visible afterwards. */
  lemma OldHubStands(env: Env, t: Tree, branch: string, name: string, fault: Fault, topic: string)
    requires Tidy(env, t) && Consolidated(env, t, branch, name, fault).status.Committed?
    requires HubId(env, t.project, topic) in Ids(SafeNodes(env, t.files, branch))
    ensures HubStands(env, Consolidated(env, t, branch, name, fault).tree.files, branch, HubId(env, t.project, topic))
  {
    hide SafeNodes, Loader, Transact, Tidy, Untouched, TouchedBy, Ids, SafeAt, Applied, Named, PlanOf, OpsOf,
        Consolidated, Strip, HubId;
    var after := Consolidated(env, t, branch, name, fault).tree;
    var id := HubId(env, t.project, topic);
    HubIdIsTrimmed(env, t.project, topic);
    SafeId(env, t, branch, id);
    SafeIsLoaded(env, t.files, branch, id);
    CommittedEffects(env, t, branch, name, fault);
    assert Lives(env, t.files, after.files, id);
    EvolvedIsVisible(Loader(env, t.files)(id).value, Loader(env, after.files)(id).value, branch);
  }

  /** A node considered afterwards that carries a topic was considered before, or is the
      topic's new hub. */
  lemma CarrierOrigin(env: Env, t: Tree, branch: string, name: string, fault: Fault, s: string, topic: string)
    requires Tidy(env, t) && branch != "" && Consolidated(env, t, branch, name, fault).status.Committed?
    requires SafeAt(env, Consolidated(env, t, branch, name, fault).tree.files, branch)(s).Some?
    requires topic in SafeAt(env, Consolidated(env, t, branch, name, fault).tree.files, branch)(s).value.topicTags
    ensures
      || (SafeAt(env, t.files, branch)(s).Some?
          && SafeAt(env, t.files, branch)(s).value.topicTags
             == SafeAt(env, Consolidated(env, t, branch, name, fault).tree.files, branch)(s).value.topicTags)
      || (TwoCarriers(SafeNodes(env, t.files, branch), topic)
          && HubId(env, t.project, topic) !in Ids(SafeNodes(env, t.files, branch)))
  {
    hide SafeNodes, Loader, Transact, Untouched, Ids, SafeAt, Named, PlanOf, OpsOf, Consolidated, LinksGrow,
        Applied, Lives, OpStem, TwoCarriers, HubId, Strip, Trimmed;
    var after := Consolidated(env, t, branch, name, fault).tree;
    var ops := OpsOf(PlanOf(env, t, branch));
    SafeIsLoaded(env, after.files, branch, s);
    if Loader(env, t.files)(s).Some? {
      OldNodeWasConsidered(env, t, branch, name, fault, s);
    } else {
      CommittedEffects(env, t, branch, name, fault);
      NewFileIsTouched(env, t, after, s);
      var k :| 0 <= k < |ops| && s == OpStem(env, ops[k]);
      NewNodeIsHub(env, t, branch, name, fault, k, topic);
    }
  }

  lemma NewFileIsTouched(env: Env, t: Tree, after: Tree, s: string)
    requires Loader(env, t.files)(s).Absent? && Loader(env, after.files)(s).Some?
    ensures !Untouched(env, t.files, after.files, s)
  {
    hide FromDict;
  }

  lemma NewNodeIsHub(env: Env, t: Tree, branch: string, name: string, fault: Fault, k: nat, topic: string)
    requires Tidy(env, t) && branch != "" && Consolidated(env, t, branch, name, fault).status.Committed?
    requires k < |OpsOf(PlanOf(env, t, branch))|
    requires
      var s := OpStem(env, OpsOf(PlanOf(env, t, branch))[k]);
      Loader(env, t.files)(s).Absent? && Loader(env, Consolidated(env, t, branch, name, fault).tree.files)(s).Some?
      && topic in Loader(env, Consolidated(env, t, branch, name, fault).tree.files)(s).value.topicTags
    ensures TwoCarriers(SafeNodes(env, t.files, branch), topic)
    ensures HubId(env, t.project, topic) !in Ids(SafeNodes(env, t.files, branch))
  {
    hide SafeNodes, Loader, Transact, Ids, SafeAt, Named, PlanFor, OpsOf, LinksGrow, Lives, TwoCarriers, HubId,
        Strip, Trimmed, Valid, Filled, HubPayload, Members, Untouched, TouchedBy, Consolidated, Hubs, PlanOf;
    var ops := OpsOf(PlanOf(env, t, branch));
    var after := Consolidated(env, t, branch, name, fault).tree;
    var nodes := SafeNodes(env, t.files, branch);
    if !ops[k].MakeHub? {
      OpTargetsConsidered(env, t, branch, k);
      SafeId(env, t, branch, TargetId(ops[k]));
    } else {
      CommittedEffects(env, t, branch, name, fault);
      assert Applied(env, t.project, after.files, ops[k]);
      HubBelongsHere(env, t, branch, k);
      var made := HubOrigin(env, nodes, t.project, branch, ops[k].payload);
      HubNode(env, t.project, branch, made, Members(nodes, made));
    }
  }

  /** Two carriers afterwards mean two carriers before, or a hub made for the topic. */
  lemma CarriersGoBack(env: Env, t: Tree, branch: string, name: string, fault: Fault, topic: string)
    requires Tidy(env, t) && branch != "" && Consolidated(env, t, branch, name, fault).status.Committed?
    requires TwoCarriers(SafeNodes(env, Consolidated(env, t, branch, name, fault).tree.files, branch), topic)
    ensures TwoCarriers(SafeNodes(env, t.files, branch), topic)
  {
    hide Loader, Transact, Ids, SafeAt, Tidy, PlanOf, OpsOf, Consolidated, HubId, Carrying, Stems;
    var after := Consolidated(env, t, branch, name, fault).tree;
    var before, later := SafeNodes(env, t.files, branch), SafeNodes(env, after.files, branch);
    if i :| 0 <= i < |later| && |Carrying(topic)(later[i])| >= 2 {
      CarriesIffTagged(later[i], topic);
      var p := CollectOne(Stems(after.files), SafeAt(env, after.files, branch), i);
      var s := Stems(after.files)[p];
      CarrierOrigin(env, t, branch, name, fault, s, topic);
      if SafeAt(env, t.files, branch)(s).Some? && SafeAt(env, t.files,
          branch)(s).value.topicTags == later[i].topicTags {
        SameTagsSameCarrying(SafeAt(env, t.files, branch)(s).value, later[i], topic);
        var q := PlaceOf(env, t, branch, s);
        assert |Carrying(topic)(before[q])| >= 2;
      }
    } else {
      var i, j :| 0 <= i < j < |later| && topic in later[i].topicTags && topic in later[j].topicTags;
      var p, q := CollectAt(Stems(after.files), SafeAt(env, after.files, branch), i, j);
      var a, b := Stems(after.files)[p], Stems(after.files)[q];
      StemsProperties(after.files);
      CarrierOrigin(env, t, branch, name, fault, a, topic);
      CarrierOrigin(env, t, branch, name, fault, b, topic);
      if !TwoCarriers(before, topic) {
        var x := PlaceOf(env, t, branch, a);
        var y := PlaceOf(env, t, branch, b);
        TwoPlaces(env, t, branch, a, b, x, y, topic);
      }
    }
  }

  lemma SameTagsSameCarrying(a: Node, b: Node, topic: string)
    requires a.topicTags == b.topicTags
    ensures |Carrying(topic)(a)| == |Carrying(topic)(b)|
  {
  }

  lemma PlaceOf(env: Env, t: Tree, branch: string, s: string) returns (i: nat)
    requires SafeAt(env, t.files, branch)(s).Some?
    ensures i < |SafeNodes(env, t.files, branch)| &&
        SafeNodes(env, t.files, branch)[i] == SafeAt(env, t.files, branch)(s).value
  {
    hide Stems, Collect, FromDict, RedPayload, VisibleForConsolidation;
    StemsProperties(t.files);
    var p :| 0 <= p < |Stems(t.files)| && Stems(t.files)[p] == s;
    i := CollectIndex(Stems(t.files), SafeAt(env, t.files, branch), p);
  }

  lemma TwoPlaces(env: Env, t: Tree, branch: string, a: string, b: string, x: nat, y: nat, topic: string)
    requires Tidy(env, t) && a != b
    requires SafeAt(env, t.files, branch)(a).Some? && SafeAt(env, t.files, branch)(b).Some?
    requires x < |SafeNodes(env, t.files, branch)| &&
        SafeNodes(env, t.files, branch)[x] == SafeAt(env, t.files, branch)(a).value
    requires y < |SafeNodes(env, t.files, branch)| &&
        SafeNodes(env, t.files, branch)[y] == SafeAt(env, t.files, branch)(b).value
    requires topic in SafeAt(env, t.files, branch)(a).value.topicTags &&
        topic in SafeAt(env, t.files, branch)(b).value.topicTags
    ensures TwoCarriers(SafeNodes(env, t.files, branch), topic)
  {
    hide SafeNodes, SafeAt, Loader, Tidy, Carrying;
    SafeIsLoaded(env, t.files, branch, a);
    SafeIsLoaded(env, t.files, branch, b);
    TidyNode(env, t, a);
    TidyNode(env, t, b);
    var nodes := SafeNodes(env, t.files, branch);
    if x < y {
      assert topic in nodes[x].topicTags && topic in nodes[y].topicTags;
    } else {
      assert y < x;
      assert topic in nodes[y].topicTags && topic in nodes[x].topicTags;
    }
  }

  /** After a committed consolidation on a named branch, the hub of a topic with two
      carriers is stored and visible. */
  lemma HubStandsAfter(env: Env, t: Tree, branch: string, name: string, fault: Fault, topic: string)
    requires Tidy(env, t) && branch != "" && Consolidated(env, t, branch, name, fault).status.Committed?
    requires TwoCarriers(SafeNodes(env, Consolidated(env, t, branch, name, fault).tree.files, branch), topic)
    ensures HubStands(env, Consolidated(env, t, branch, name, fault).tree.files, branch, HubId(env, t.project, topic))
  {
    hide SafeNodes, Ids, Tidy, Consolidated, HubId, TwoCarriers, HubStands;
    CarriersGoBack(env, t, branch, name, fault, topic);
    if HubId(env, t.project, topic) in Ids(SafeNodes(env, t.files, branch)) {
      OldHubStands(env, t, branch, name, fault, topic);
    } else {
      MadeHubStands(env, t, branch, name, fault, topic);
    }
  }

  /** After a committed consolidation on a named branch, re-planning proposes the hub of a
      topic with two carriers again exactly when the stored hub is flagged. */
  lemma HubLeftIffFlagged(env: Env, t: Tree, branch: string, name: string, fault: Fault, topic: string)
    requires Tidy(env, t) && branch != "" && Consolidated(env, t, branch, name, fault).status.Committed?
    requires TwoCarriers(SafeNodes(env, Consolidated(env, t, branch, name, fault).tree.files, branch), topic)
    ensures
      var after := Consolidated(env, t, branch, name, fault).tree;
      var id := HubId(env, after.project, topic);
      HubProposed(env, SafeNodes(env, after.files, branch), after.project, topic) <==> Flagged(env, after.files, id)
  {
    hide SafeNodes, Loader, Transact, Ids, Named, PlanOf, OpsOf, Consolidated, HubId, TwoCarriers, Untouched,
        TouchedBy, Applied, Lives, Flagged, SafeAt, VisibleForConsolidation, Strip;
    var after := Consolidated(env, t, branch, name, fault).tree;
    var id := HubId(env, t.project, topic);
    CommittedEffects(env, t, branch, name, fault);
    HubStandsAfter(env, t, branch, name, fault, topic);
    HubIdIsTrimmed(env, t.project, topic);
    SafeId(env, after, branch, id);
    Considered(env, after.files, branch, id);
  }

  /** Convergence: after a committed consolidation on a named branch, re-planning on the
      branch proposes no hub exactly when no hub of a topic with two carriers is flagged. */
  lemma NoHubLeftIff(env: Env, t: Tree, branch: string, name: string, fault: Fault)
    requires Tidy(env, t) && branch != "" && Consolidated(env, t, branch, name, fault).status.Committed?
    ensures
      var after := Consolidated(env, t, branch, name, fault).tree;
      var later := SafeNodes(env, after.files, branch);
      Hubs(env, later, after.project, branch) == [] <==>
        forall topic :: TwoCarriers(later, topic) ==> !Flagged(env, after.files, HubId(env, after.project, topic))
  {
    hide SafeNodes, Ids, Tidy, Consolidated, HubId, TwoCarriers, Hubs, Flagged, HubProposed;
    var after := Consolidated(env, t, branch, name, fault).tree;
    var later := SafeNodes(env, after.files, branch);
    HubsIffProposed(env, later, after.project, branch);
    forall topic | TwoCarriers(later, topic)
      ensures HubProposed(env, later, after.project, topic) <==>
          Flagged(env, after.files, HubId(env, after.project, topic))
    {
      HubLeftIffFlagged(env, t, branch, name, fault, topic);
    }
    forall topic ensures HubProposed(env, later, after.project, topic) ==> TwoCarriers(later, topic) {
      ProposedHasCarriers(env, later, after.project, topic);
    }
  }

  lemma ProposedHasCarriers(env: Env, nodes: seq<Node>, project: string, topic: string)
    ensures HubProposed(env, nodes, project, topic) ==> TwoCarriers(nodes, topic)
  {
  }

  lemma HubsIffProposed(env: Env, nodes: seq<Node>, project: string, branch: string)
    ensures Hubs(env, nodes, project, branch) == [] <==> forall topic :: !HubProposed(env, nodes, project, topic)
  {
    hide Ids, HubId, TwoCarriers, Hubs, HubPayload, Members;
    var hubs := Hubs(env, nodes, project, branch);
    if hubs != [] {
      var topic := HubOrigin(env, nodes, project, branch, hubs[0]);
      assert HubProposed(env, nodes, project, topic);
    } else {
      forall topic ensures !HubProposed(env, nodes, project, topic) {
        NoHubNotProposed(env, nodes, project, branch, topic);
      }
    }
  }

  lemma NoHubNotProposed(env: Env, nodes: seq<Node>, project: string, branch: string, topic: string)
    ensures HubProposed(env, nodes, project, topic) ==> Hubs(env, nodes, project, branch) != []
  {
    hide Ids, HubId, TwoCarriers, Hubs, HubPayload, Members;
    if HubProposed(env, nodes, project, topic) {
      HubPlanned(env, nodes, project, branch, topic);
    }
  }
}
