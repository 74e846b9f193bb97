/** Hub ids depend on project and topic, not on the branch: the hub one branch made keeps
    another from consolidating. The tree of this file is one where it happens. */
module HubClash {
  import opened Text
  import opened Seqs
  import opened Memory
  import opened MemoryTree
  import opened Consolidation
  import opened StoreRuns
  import opened Transactions
  import opened OpEffects
  import opened CommittedRuns
  import opened Convergence
  import opened HubConvergence
  import opened CommitCondition
  import opened TreeSteps

  // ----------------------------------------------------------------- in general

  /** Once a branch made the hub of a topic, no consolidation of another branch on which
      two nodes carry the topic commits, for as long as the hub keeps its branch. */
  lemma HubOfOneBranchBlocksAnother(
      env: Env, t: Tree, one: string, name: string, fault: Fault, later: Tree, other: string, topic: string,
          again: string, fault2: Fault)
    requires Tidy(env, t) && one != "" && Consolidated(env, t, one, name, fault).status.Committed?
    requires HubProposed(env, SafeNodes(env, t.files, one), t.project, topic)
    requires Tidy(env, later) && later.project == t.project && other != one
    requires forall s :: Lives(env, Consolidated(env, t, one, name, fault).tree.files, later.files, s)
    requires TwoCarriers(SafeNodes(env, later.files, other), topic)
    ensures TakenHub(env, later, other, topic)
    ensures !Consolidated(env, later, other, again, fault2).status.Committed?
  {
    hide SafeNodes, Loader, Tidy, Consolidated, TwoCarriers, HubId, Ids, Strip, SafeAt, LinksGrow, FlagsGrow;
    var id := HubId(env, t.project, topic);
    MadeHubStands(env, t, one, name, fault, topic);
    assert Lives(env, Consolidated(env, t, one, name, fault).tree.files, later.files, id);
    HubIdIsTrimmed(env, t.project, topic);
    SafeId(env, later, other, id);
    if SafeAt(env, later.files, other)(id).Some? {
      SafeIsLoaded(env, later.files, other, id);
    }
    TakenHubBlocks(env, later, other, again, fault2, topic);
  }

  // ----------------------------------------------------------------- the witness

  /** A node of the branch that carries the topic "x". */
  function Carrier(id: string, branch: string): Node {
    Node("p", "", "", branch, "", "s", "", "GREEN", NON_AUTHORITATIVE, id, SCHEMA_VERSION, id, branch, BRANCH_LOCAL, "",
         NO_EVIDENCE, "", [], ["x"], [], [], "d", Absent, [], [],
         NO_QUALITY.(confidence := Some(0.5), provenanceComplete := true), "", "", "")
  }

  /** Two nodes on each of two branches, and a consolidation on the first. */
  function Story(): seq<Step> {
    [Add(ToDict(Carrier("a1", "a")), Never), Add(ToDict(Carrier("a2", "a")), Never),
     Add(ToDict(Carrier("b1", "b")), Never), Add(ToDict(Carrier("b2", "b")), Never)]
  }

  predicate ShortId(id: string) {
    |id| == 2 && IsAlnum(id[0]) && IsAlnum(id[1])
  }

  lemma NotBlank(t: string)
    requires t != [] && !IsSpace(t[0])
    ensures !Blank(t)
  {
    assert DropLeft(t, IsSpace) == t;
    var r := DropRight(t, IsSpace);
    assert forall i :: |r| <= i < |t| ==> t[i] == t[|r|..][i - |r|];
  }

  lemma MissingChar(t: string, w: string)
    requires w != [] && w[0] !in t
    ensures !Contains(t, w)
  {
    forall i | 0 <= i <= |t| ensures !OccursAt(t, w, i) {
      OccursAtChar(t, w, i, 0);
    }
  }

  predicate IsPlainIdChar(c: char) {
    IsAlnum(c) || c == '_'
  }

  lemma PlainIdentifier(t: string)
    requires 0 < |t| <= 128 && All(t, IsPlainIdChar) && IsAlnum(t[0])
    ensures SafeIdentifier(t) && Strip(t) == t && Trimmed(t)
  {
    assert Trimmed(t);
    StripTrimmed(t);
    MissingChar(t, "\\");
    MissingChar(t, "/");
    MissingChar(t, "..");
  }

  lemma CarrierIsValid(id: string, branch: string)
    requires ShortId(id) && (branch == "a" || branch == "b")
    ensures Valid(QUIET, Carrier(id, branch)) && Strip(id) == id && Trimmed(id)
  {
    hide Strip;
    PlainIdentifier(id);
    PlainIdentifier("p");
    NotBlank(branch);
    NotBlank("s");
    NotBlank("d");
    NotBlank(id);
  }

  /** Creating a valid node under a free trimmed id adds its file. */
  lemma CreateFresh(env: Env, t: Tree, n: Node)
    requires Valid(env, n) && Strip(n.projectId) == t.project && Strip(n.nodeId) == n.nodeId && n.nodeId !in t.files
    ensures
      var after := After(env, t, Add(ToDict(n), Never));
      after.files == t.files[n.nodeId := Json(ToDict(n))] && after.project == t.project &&
          after.snapshots == t.snapshots
  {
    hide Valid, Filled, ToDict, Strip, IndexOf;
    ReloadIsIdentity(env, n);
  }

  function StoryFiles(): map<string, File> {
    map["a1" := Json(ToDict(Carrier("a1", "a"))), "a2" := Json(ToDict(Carrier("a2", "a"))),
        "b1" := Json(ToDict(Carrier("b1", "b"))), "b2" := Json(ToDict(Carrier("b2", "b")))]
  }

  ghost function Start(): Tree {
    AfterAll(QUIET, EmptyTree("p"), Story())
  }

  lemma AddStep(t: Tree, id: string, branch: string)
    requires ShortId(id) && (branch == "a" || branch == "b") && t.project == "p" && id !in t.files
    ensures
      var after := After(QUIET, t, Add(ToDict(Carrier(id, branch)), Never));
      after.files == t.files[id := Json(ToDict(Carrier(id, branch)))] && after.project == "p" &&
          after.snapshots == t.snapshots
  {
    hide Valid, ToDict, Strip;
    CarrierIsValid(id, branch);
    StripTrimmed("p");
    CreateFresh(QUIET, t, Carrier(id, branch));
  }

  lemma StartIs()
    ensures Start().files == StoryFiles() && Start().project == "p" && Start().snapshots == map[]
  {
    hide After, ToDict, Carrier;
    var steps := Story();
    var t0 := EmptyTree("p");
    AddStep(t0, "a1", "a");
    var t1 := After(QUIET, t0, steps[0]);
    AddStep(t1, "a2", "a");
    var t2 := After(QUIET, t1, steps[1]);
    AddStep(t2, "b1", "b");
    var t3 := After(QUIET, t2, steps[2]);
    AddStep(t3, "b2", "b");
    UnrollFour(QUIET, t0, steps);
  }

  lemma UnrollFour(env: Env, t: Tree, steps: seq<Step>)
    requires |steps| == 4
    ensures AfterAll(env, t, steps) == After(env,
        After(env, After(env, After(env, t, steps[0]), steps[1]), steps[2]), steps[3])
  {
    hide After;
    var t1 := After(env, t, steps[0]);
    var t2 := After(env, t1, steps[1]);
    var t3 := After(env, t2, steps[2]);
    assert AfterAll(env, t, steps) == AfterAll(env, t1, steps[1..]);
    assert AfterAll(env, t1, steps[1..]) == AfterAll(env, t2, steps[2..]) by { assert steps[1..][1..] == steps[2..]; }
    assert AfterAll(env, t2, steps[2..]) == AfterAll(env, t3, steps[3..]) by { assert steps[2..][1..] == steps[3..]; }
    assert AfterAll(env, t3, steps[3..]) == After(env, t3, steps[3]) by { assert steps[3..][1..] == []; }
  }

  function BranchOf(id: string): string {
    if id == "a1" || id == "a2" then "a" else "b"
  }

  lemma StoryFile(id: string)
    ensures id in StoryFiles() <==> id in {"a1", "a2", "b1", "b2"}
    ensures id in StoryFiles() ==> ShortId(id) && StoryFiles()[id] == Json(ToDict(Carrier(id, BranchOf(id))))
  {
    hide ToDict, Carrier;
  }

  lemma StartLoads(id: string)
    ensures Loader(QUIET, Start().files)(id) == if id in StoryFiles() then Some(Carrier(id, BranchOf(id))) else Absent
  {
    hide Valid, ToDict, Filled, Carrier, StoryFiles, Start, BranchOf;
    StartIs();
    StoryFile(id);
    if id in StoryFiles() {
      BranchIsNamed(id);
      CarrierIsValid(id, BranchOf(id));
      ReloadIsIdentity(QUIET, Carrier(id, BranchOf(id)));
    }
  }

  lemma BranchIsNamed(id: string)
    ensures BranchOf(id) == "a" || BranchOf(id) == "b"
  {
  }

  lemma CarrierFields(id: string, branch: string)
    ensures
      var n := Carrier(id, branch);
      && n.nodeId == id && n.projectId == "p" && n.topicTags == ["x"] && n.visibility == BRANCH_LOCAL &&
          n.createdOnBranch == branch
      && VisibleForConsolidation(n, branch)
  {
  }

  lemma StartIsTidy()
    ensures Tidy(QUIET, Start())
  {
    hide Loader, Strip, Valid, StoryFiles, Start, Carrier, BranchOf;
    StartIs();
    StripTrimmed("p");
    forall s | s in Start().files && Loader(QUIET, Start().files)(s).Some?
      ensures NamedAs(Loader(QUIET, Start().files)(s).value, "p", s)
    {
      StartLoads(s);
      StoryFile(s);
      BranchIsNamed(s);
      CarrierIsValid(s, BranchOf(s));
      CarrierFields(s, BranchOf(s));
    }
  }

  /** A node that loads and is visible is considered: nothing is flagged here. */
  lemma QuietConsidered(files: map<string, File>, branch: string, s: string)
    requires Loader(QUIET, files)(s).Some? && VisibleForConsolidation(Loader(QUIET, files)(s).value, branch)
    ensures SafeAt(QUIET, files, branch)(s) == Loader(QUIET, files)(s)
  {
    hide Loader, SafeAt, VisibleForConsolidation;
    Considered(QUIET, files, branch, s);
  }

  /** The two carriers of a branch stand among its considered nodes. */
  lemma TwoOnBranch(t: Tree, branch: string, a: string, b: string)
    requires Tidy(QUIET, t) && a != b
    requires Loader(QUIET, t.files)(a).Some? && Loader(QUIET, t.files)(b).Some?
    requires "x" in Loader(QUIET, t.files)(a).value.topicTags && "x" in Loader(QUIET, t.files)(b).value.topicTags
    requires VisibleForConsolidation(Loader(QUIET, t.files)(a).value, branch)
    requires VisibleForConsolidation(Loader(QUIET, t.files)(b).value, branch)
    ensures TwoCarriers(SafeNodes(QUIET, t.files, branch), "x")
  {
    hide Loader, SafeAt, VisibleForConsolidation, Tidy, SafeNodes, TwoCarriers;
    QuietConsidered(t.files, branch, a);
    QuietConsidered(t.files, branch, b);
    var x := PlaceOf(QUIET, t, branch, a);
    var y := PlaceOf(QUIET, t, branch, b);
    TwoPlaces(QUIET, t, branch, a, b, x, y, "x");
  }

  lemma HubIdLength(topic: string)
    ensures |HubId(QUIET, "p", topic)| == 28 && HubId(QUIET, "p", topic) !in StoryFiles()
  {
    hide ToDict;
    assert |QUIET.sha("p:" + topic)| == 64;
  }

  lemma HubIsProposed()
    ensures HubProposed(QUIET, SafeNodes(QUIET, Start().files, "a"), "p", "x")
  {
    hide Loader, SafeAt, Tidy, SafeNodes, TwoCarriers, HubId, Ids, Strip, Start, StoryFiles, Carrier,
        VisibleForConsolidation;
    StartIsTidy();
    StartIs();
    StoryFile("a1");
    StoryFile("a2");
    StartLoads("a1");
    StartLoads("a2");
    CarrierFields("a1", "a");
    CarrierFields("a2", "a");
    TwoOnBranch(Start(), "a", "a1", "a2");
    var id := HubId(QUIET, "p", "x");
    HubIdLength("x");
    StartLoads(id);
    HubIdIsTrimmed(QUIET, "p", "x");
    SafeId(QUIET, Start(), "a", id);
  }

  /** Every considered node carries the one topic. */
  lemma OnlyTopic(branch: string, topic: string)
    requires TwoCarriers(SafeNodes(QUIET, Start().files, branch), topic)
    ensures topic == "x"
  {
    hide Loader, SafeAt, Tidy, Collect, Stems, Carrying, Start, StoryFiles, Carrier, VisibleForConsolidation;
    var nodes := SafeNodes(QUIET, Start().files, branch);
    var i: nat;
    if k :| 0 <= k < |nodes| && |Carrying(topic)(nodes[k])| >= 2 {
      CarriesIffTagged(nodes[k], topic);
      i := k;
    } else {
      var k, l :| 0 <= k < l < |nodes| && topic in nodes[k].topicTags && topic in nodes[l].topicTags;
      i := k;
    }
    var p := CollectOne(Stems(Start().files), SafeAt(QUIET, Start().files, branch), i);
    var s := Stems(Start().files)[p];
    SafeIsLoaded(QUIET, Start().files, branch, s);
    StartLoads(s);
    CarrierFields(s, BranchOf(s));
  }

  lemma HubIdIsSafe(topic: string)
    ensures SafeIdentifier(HubId(QUIET, "p", topic))
  {
    var digest := QUIET.sha("p:" + topic);
    var id := "hub_" + digest[..24];
    assert IsHexDigest(digest) && HubId(QUIET, "p", topic) == id;
    assert |id| == 28 && id[0] == 'h' && id[1] == 'u' && id[2] == 'b' && id[3] == '_';
    forall i | 0 <= i < |id| ensures IsPlainIdChar(id[i]) {
      if i >= 4 {
        assert id[i] == digest[i - 4] && IsHex(digest[i - 4]);
      }
    }
    assert IsAlnum(id[0]);
    assert All(id, IsPlainIdChar);
    PlainIdentifier(id);
  }

  lemma HubSummary(topic: string)
    ensures !Blank("Synthetic hub for topic " + topic + ".")
    ensures !Blank("consolidation") && !Blank(HUB_DESCRIPTION)
  {
    hide Blank;
    var summary := "Synthetic hub for topic " + topic + ".";
    assert summary[0] == 'S';
    NotBlank(summary);
    NotBlank("consolidation");
    assert HUB_DESCRIPTION[0] == "Synthetic consolidation hub "[0] == 'S';
    NotBlank(HUB_DESCRIPTION);
  }

  lemma MemberLinkIsValid(id: string)
    requires SafeIdentifier(id)
    ensures ValidLink(QUIET, Link("same_topic", id, "hub_member"))
  {
    hide SafeIdentifier, Strip;
    StripTrimmed("same_topic");
  }

  /** The hub of valid members validates here. */
  lemma QuietHubLoads(topic: string, members: seq<Node>)
    requires members != [] && forall i :: 0 <= i < |members| ==> SafeIdentifier(members[i].nodeId)
    ensures FromDict(QUIET, HubPayload(QUIET, "p", "a", topic, members)).Some?
  {
    hide SafeIdentifier, Strip, Blank, HubId, Digits, ValidLink, Zeros;
    HubIdIsSafe(topic);
    PlainIdentifier("p");
    NotBlank("a");
    HubSummary(topic);
    var n := Filled(QUIET, HubPayload(QUIET, "p", "a", topic, members));
    forall l | l in n.links ensures ValidLink(QUIET, l) {
      var i :| 0 <= i < |n.links| && n.links[i] == l;
      MemberLinkIsValid(members[i].nodeId);
    }
    assert Valid(QUIET, n);
  }

  lemma NothingIsRefused(l: LinkOp, files: map<string, File>)
    ensures !FlaggedLink(QUIET, files, l)
  {
    hide Loader, LacksLink;
  }

  lemma ConsideredAreSafe(env: Env, t: Tree, branch: string, topic: string)
    requires Tidy(env, t)
    ensures forall i :: 0 <= i < |Members(SafeNodes(env, t.files, branch), topic)| ==>
      SafeIdentifier(Members(SafeNodes(env, t.files, branch), topic)[i].nodeId)
  {
    hide SafeNodes, Tidy, SafeIdentifier, Loader;
    var nodes := SafeNodes(env, t.files, branch);
    var members := Members(nodes, topic);
    forall i | 0 <= i < |members| ensures SafeIdentifier(members[i].nodeId) {
      FlatMapMember(nodes, Carrying(topic), members[i]);
      var k :| 0 <= k < |nodes| && members[i] in Carrying(topic)(nodes[k]);
      assert members[i] == nodes[k];
      ConsideredIdIsSafe(env, t, branch, nodes[k].nodeId);
    }
  }

  lemma StartIsUnobstructed()
    ensures Unobstructed(QUIET, Start(), "a")
  {
    hide Loader, SafeNodes, Tidy, Start, StoryFiles, Hubs, TwoCarriers, HubId, Ids, FromDict, HubPayload,
        Members, FlaggedLink, SafeIdentifier, PlannedLinks, Duplicates;
    var t := Start();
    var nodes, plan := SafeNodes(QUIET, t.files, "a"), PlanOf(QUIET, t, "a");
    StartIs();
    StartIsTidy();
    forall l | l in plan.links ensures !FlaggedLink(QUIET, t.files, l) {
      NothingIsRefused(l, t.files);
    }
    forall p | p in plan.hubs ensures FromDict(QUIET, p).Some? {
      var topic := HubOrigin(QUIET, nodes, "p", "a", p);
      ConsideredAreSafe(QUIET, t, "a", topic);
      QuietHubLoads(topic, Members(nodes, topic));
    }
    forall x, y ensures !HubsCollide(QUIET, t, "a", x, y) {
      if HubsCollide(QUIET, t, "a", x, y) {
        OnlyTopic("a", x);
        OnlyTopic("a", y);
      }
    }
    forall topic ensures !TakenHub(QUIET, t, "a", topic) {
      HubIdLength(topic);
      StartLoads(HubId(QUIET, "p", topic));
    }
  }

  lemma FreeName(t: Tree)
    requires t.snapshots == map[]
    ensures Snapped(t, "s").Done?
  {
    hide Strip;
    PlainIdentifier("s");
  }

  ghost function AfterStory(): Outcome {
    Consolidated(QUIET, Start(), "a", "s", NoFault)
  }

  lemma StoryCommits()
    ensures AfterStory().status.Committed?
  {
    hide Loader, SafeNodes, Tidy, Start, HubId, OpsOf, PlanFor, Unobstructed, HubProposed, Snapped,
        Consolidated;
    StartIs();
    StartIsTidy();
    StartIsUnobstructed();
    HubIsProposed();
    var k := TopicOp(QUIET, Start(), "a", "x");
    FreeName(Start());
    CommitsIff(QUIET, Start(), "a", "s", NoFault);
  }

  lemma LaterCarriers()
    requires AfterStory().status.Committed?
    ensures Tidy(QUIET, AfterStory().tree) && AfterStory().tree.project == "p"
    ensures TwoCarriers(SafeNodes(QUIET, AfterStory().tree.files, "b"), "x")
  {
    hide Loader, SafeNodes, Start, OpsOf, PlanOf, Consolidated, Named, StoryFiles, Carrier,
        VisibleForConsolidation, LinksGrow, TwoCarriers, Untouched, TouchedBy, Applied;
    var later := AfterStory().tree;
    StartIs();
    StartIsTidy();
    CommittedEffects(QUIET, Start(), "a", "s", NoFault);
    forall id | id in {"b1", "b2"}
      ensures Loader(QUIET, later.files)(id).Some? && "x" in Loader(QUIET, later.files)(id).value.topicTags
      ensures VisibleForConsolidation(Loader(QUIET, later.files)(id).value, "b")
    {
      LaterCarrier(id);
    }
    TwoOnBranch(later, "b", "b1", "b2");
  }

  lemma LaterCarrier(id: string)
    requires AfterStory().status.Committed? && (id == "b1" || id == "b2")
    ensures Loader(QUIET, AfterStory().tree.files)(id).Some?
    ensures "x" in Loader(QUIET, AfterStory().tree.files)(id).value.topicTags
    ensures VisibleForConsolidation(Loader(QUIET, AfterStory().tree.files)(id).value, "b")
  {
    hide Loader, SafeNodes, Start, OpsOf, PlanOf, Consolidated, Named, StoryFiles, Carrier,
        VisibleForConsolidation, LinksGrow, Untouched, TouchedBy, Applied;
    StartIsTidy();
    CommittedEffects(QUIET, Start(), "a", "s", NoFault);
    StoryFile(id);
    StartLoads(id);
    CarrierFields(id, "b");
    assert Lives(QUIET, Start().files, AfterStory().tree.files, id);
    EvolvedIsVisible(Carrier(id, "b"), Loader(QUIET, AfterStory().tree.files)(id).value, "b");
  }

  /** The witness: four nodes are created, two on each of two branches; the first branch
      consolidates; the second one's plan then needs a hub that is taken, and no
      consolidation of it commits, under any snapshot name and any fault. */
  lemma BlockedBranchIsReachable(name: string, fault: Fault)
    ensures
      var t := AfterAll(QUIET, EmptyTree("p"), Story() + [Consolidate("a", "s", NoFault)]);
      && TakenHub(QUIET, t, "b", "x") && OpsOf(PlanOf(QUIET, t, "b")) != []
      && !Consolidated(QUIET, t, "b", name, fault).status.Committed?
  {
    hide Loader, SafeNodes, Start, OpsOf, PlanOf, Named, StoryFiles, Story, Carrier, TwoCarriers, HubId, Ids,
        AfterStory, Tidy, Consolidated;
    StoryCommits();
    LaterCarriers();
    HubIsProposed();
    StartIs();
    StartIsTidy();
    StoryEnds();
    var later := AfterStory().tree;
    NothingHappened(QUIET, later.files);
    AfterStoryIs();
    HubOfOneBranchBlocksAnother(QUIET, Start(), "a", "s", NoFault, later, "b", "x", name, fault);
    var k := TopicOp(QUIET, later, "b", "x");
  }

  lemma AfterStoryIs()
    ensures AfterStory() == Consolidated(QUIET, Start(), "a", "s", NoFault)
  {
  }

  lemma StoryEnds()
    ensures AfterAll(QUIET, EmptyTree("p"), Story() + [Consolidate("a", "s", NoFault)]) == AfterStory().tree
  {
    hide Consolidated, Story, Created;
    var last := Consolidate("a", "s", NoFault);
    AfterAllConcat(QUIET, EmptyTree("p"), Story(), [last]);
    assert [last][1..] == [];
    assert AfterAll(QUIET, Start(), [last]) == After(QUIET, Start(), last);
  }

  lemma {:induction false} AfterAllConcat(env: Env, t: Tree, a: seq<Step>, b: seq<Step>)
    ensures AfterAll(env, t, a + b) == AfterAll(env, AfterAll(env, t, a), b)
    decreases |a|
  {
    hide After;
    if a == [] {
      assert a + b == b;
    } else {
      assert (a + b)[1..] == a[1..] + b;
      AfterAllConcat(env, After(env, t, a[0]), a[1..], b);
    }
  }
}
