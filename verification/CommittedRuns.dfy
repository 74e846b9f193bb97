/** What a run of updates that goes through leaves behind: every node lives on, every
    operation shows, and no other file is touched. */
module CommittedRuns {
  import opened Text
  import opened Seqs
  import opened Memory
  import opened MemoryTree
  import opened Consolidation
  import opened Transactions
  import opened OpEffects

  /** No two links with the same relation and target. */
  predicate UniqueLinks(links: seq<Link>) {
    forall i, j :: 0 <= i < j < |links| ==>
        !(links[i].relation == links[j].relation && links[i].target == links[j].target)
  }

  predicate LinksGrow(a: seq<Link>, b: seq<Link>) {
    && (forall i :: 0 <= i < |a| ==> LinkExists(b, a[i].relation, a[i].target))
    && (UniqueLinks(a) ==> UniqueLinks(b))
  }

  /** What consolidation never changes about a node; its links and flags only grow. */
  predicate Evolves(a: Node, b: Node) {
    && b.nodeId == a.nodeId && b.topicTags == a.topicTags && b.createdOnBranch == a.createdOnBranch
    && b.visibility == a.visibility && b.branch == a.branch && LinksGrow(a.links, b.links)
    && FlagsGrow(a.quality, b.quality)
  }

  /** A node stays deprecated, stale and marked a duplicate once it is. */
  predicate FlagsGrow(a: Quality, b: Quality) {
    (a.deprecated ==> b.deprecated) && (a.stale ==> b.stale) && (a.duplicateOf.Some? ==> b.duplicateOf.Some?)
  }

  lemma LinkExistsGrows(a: seq<Link>, b: seq<Link>, relation: string, target: string)
    requires LinksGrow(a, b) && LinkExists(a, relation, target)
    ensures LinkExists(b, relation, target)
  {
  }

  lemma LinksGrowTransitive(a: seq<Link>, b: seq<Link>, c: seq<Link>)
    requires LinksGrow(a, b) && LinksGrow(b, c)
    ensures LinksGrow(a, c)
  {
    forall i | 0 <= i < |a| ensures LinkExists(c, a[i].relation, a[i].target) {
      LinkExistsGrows(b, c, a[i].relation, a[i].target);
    }
  }

  lemma EvolvesTransitive(a: Node, b: Node, c: Node)
    requires Evolves(a, b) && Evolves(b, c)
    ensures Evolves(a, c)
  {
    hide LinksGrow;
    LinksGrowTransitive(a.links, b.links, c.links);
  }

  lemma EvolvesReflexive(a: Node)
    ensures Evolves(a, a)
  {
    forall i | 0 <= i < |a.links| ensures LinkExists(a.links, a.links[i].relation, a.links[i].target) {
    }
  }

  /** Applying a link adds it once: no second link with the same relation and target. */
  lemma WithLinkAddsOnce(links: seq<Link>, relation: string, target: string, evidence: string)
    ensures LinksGrow(links, WithLink(links, relation, target, evidence))
    ensures LinkExists(WithLink(links, relation, target, evidence), relation, target)
  {
    var after := WithLink(links, relation, target, evidence);
    forall i | 0 <= i < |links| ensures LinkExists(after, links[i].relation, links[i].target) {
      assert after[i] == links[i];
    }
    if !LinkExists(links, relation, target) {
      assert after[|links|] == Link(relation, target, evidence);
    }
  }

  lemma OpEvolves(env: Env, op: PlanOp, n: Node)
    requires !op.Promote?
    ensures Evolves(n, OpNode(env, op, n))
    ensures op.AddLink? ==> LinkExists(OpNode(env, op, n).links, op.link.relation, op.link.target)
    ensures op.Mark? ==> IsMarked(OpNode(env, op, n).quality)
    ensures op.Supersede? ==> IsSuperseded(OpNode(env, op, n).quality)
  {
    hide LinksGrow;
    EvolvesReflexive(n);
    if op.AddLink? {
      WithLinkAddsOnce(n.links, op.link.relation, op.link.target, op.link.evidence);
    }
  }

  // --------------------------------------------------------- effects of a run

  predicate Lives(env: Env, files: map<string, File>, after: map<string, File>, s: string) {
    Loader(env, files)(s).Some? ==>
      Loader(env, after)(s).Some? && Evolves(Loader(env, files)(s).value, Loader(env, after)(s).value)
  }

  /** The operation has left its mark on the files. */
  predicate Applied(env: Env, project: string, after: map<string, File>, op: PlanOp) {
    match op
    case Mark(d) =>
      Loader(env, after)(Strip(d.duplicate)).Some? && IsMarked(Loader(env, after)(Strip(d.duplicate)).value.quality)
    case Supersede(target) =>
      Loader(env, after)(Strip(target)).Some? && IsSuperseded(Loader(env, after)(Strip(target)).value.quality)
    case AddLink(l) =>
      Loader(env, after)(Strip(l.source)).Some? &&
          LinkExists(Loader(env, after)(Strip(l.source)).value.links, l.relation, l.target)
    case MakeHub(p) =>
      FromDict(env, p).Some? && (Strip(FromDict(env, p).value.projectId) == project ==>
        var s := Strip(FromDict(env, p).value.nodeId);
        Loader(env, after)(s).Some? && Evolves(FromDict(env, p).value, Loader(env, after)(s).value))
    case Promote(_, _, _) => true
  }

  predicate IsMarked(q: Quality) {
    q.deprecated && q.duplicateOf.Some?
  }

  predicate IsSuperseded(q: Quality) {
    q.deprecated && q.stale
  }

  function OpStem(env: Env, op: PlanOp): string {
    if op.MakeHub? then (if FromDict(env, op.payload).Some? then Strip(FromDict(env, op.payload).value.nodeId) else "")
    else Strip(TargetId(op))
  }

  predicate Untouched(env: Env, files: map<string, File>, after: map<string, File>, s: string) {
    (s in files <==> s in after) && (s in files ==> files[s] == after[s])
  }

  lemma PutEffects(env: Env, project: string, files: map<string, File>, n: Node)
    requires Named(env, project, files) && Valid(env, n) && Strip(n.projectId) == project
    requires Loader(env, files)(Strip(n.nodeId)).Some? ==> Evolves(Loader(env, files)(Strip(n.nodeId)).value, n)
    ensures Named(env, project, Put(files, n))
    ensures Loader(env, Put(files, n))(Strip(n.nodeId)) == Some(n)
    ensures forall s :: Lives(env, files, Put(files, n), s)
    ensures forall s :: s != Strip(n.nodeId) ==> Untouched(env, files, Put(files, n), s)
  {
    hide Valid, Filled, ToDict, Strip, Named, Loader, Evolves;
    PutKeepsNamed(env, project, files, n);
    forall s ensures Lives(env, files, Put(files, n), s) {
      if Loader(env, files)(s).Some? {
        EvolvesReflexive(Loader(env, files)(s).value);
      }
    }
  }

  /** One successful operation: every node lives on, the operation is applied, and only
      its own file changes. */
  lemma ApplyEffects(env: Env, t: Tree, op: PlanOp, stop: Stop)
    requires Named(env, t.project, t.files) && !op.Promote? && ApplyOp(env, t, op, stop).Done?
    ensures
      var after := ApplyOp(env, t, op, stop).tree;
      && after.project == t.project && Named(env, t.project, after.files)
      && (forall s :: Lives(env, t.files, after.files, s))
      && Applied(env, t.project, after.files, op)
      && (forall s :: s != OpStem(env, op) ==> Untouched(env, t.files, after.files, s))
      && (op.MakeHub? && Strip(FromDict(env, op.payload).value.projectId) == t.project ==>
            Loader(env, t.files)(OpStem(env, op)).Absent?)
  {
    hide Valid, Filled, ToDict, Strip, Named, Loader, Evolves, OpNode, Put, ApplyOp, FromDict, Untouched, Lives,
        LinkExists, IndexOf;
    ApplyKeepsTheRest(env, t, op, stop);
    var after := ApplyOp(env, t, op, stop).tree;
    if op.MakeHub? {
      HubEffect(env, t, op.payload, stop);
      var n := FromDict(env, op.payload).value;
      LoadsValid(env, op.payload);
      if Strip(n.projectId) == t.project {
        PutEffects(env, t.project, t.files, n);
        EvolvesReflexive(n);
      } else {
        HubElsewhere(env, t, op.payload, stop);
        NothingHappened(env, t.files);
      }
    } else {
      UpdateEffect(env, t, op, stop);
      var s := Strip(TargetId(op));
      var current := Loader(env, t.files)(s).value;
      NamedNode(env, t.project, t.files, s);
      OpKeepsIdentity(env, op, current);
      OpEvolves(env, op, current);
      PutEffects(env, t.project, t.files, OpNode(env, op, current));
    }
  }

  lemma LoadsValid(env: Env, p: Payload)
    requires FromDict(env, p).Some?
    ensures Valid(env, FromDict(env, p).value)
  {
    hide Valid, Filled;
  }

  lemma HubElsewhere(env: Env, t: Tree, p: Payload, stop: Stop)
    requires FromDict(env, p).Some? && Strip(FromDict(env, p).value.projectId) != t.project
    ensures ApplyOp(env, t, MakeHub(p), stop).tree == t
  {
    hide Valid, Filled, WriteResult;
    ElsewhereWrite(env, t, FromDict(env, p).value, stop);
  }

  lemma NothingHappened(env: Env, files: map<string, File>)
    ensures forall s :: Lives(env, files, files, s) && Untouched(env, files, files, s)
  {
    hide Loader, Evolves;
    forall s ensures Lives(env, files, files, s) {
      if Loader(env, files)(s).Some? {
        EvolvesReflexive(Loader(env, files)(s).value);
      }
    }
  }

  lemma AppliedLives(env: Env, project: string, files: map<string, File>, after: map<string, File>, op: PlanOp)
    requires Applied(env, project, files, op)
    requires forall s :: Lives(env, files, after, s)
    ensures Applied(env, project, after, op)
  {
    hide Loader, FromDict, Strip;
    match op {
      case Mark(d) => assert Lives(env, files, after, Strip(d.duplicate));
      case Supersede(target) => assert Lives(env, files, after, Strip(target));
      case AddLink(l) =>
        var s := Strip(l.source);
        assert Lives(env, files, after, s);
        LinkExistsGrows(Loader(env, files)(s).value.links, Loader(env, after)(s).value.links, l.relation, l.target);
      case MakeHub(p) =>
        var n := FromDict(env, p).value;
        var s := Strip(n.nodeId);
        assert Lives(env, files, after, s);
        if Strip(n.projectId) == project {
          EvolvesTransitive(n, Loader(env, files)(s).value, Loader(env, after)(s).value);
        }
      case _ =>
    }
  }

  lemma LivesTransitive(env: Env, a: map<string, File>, b: map<string, File>, c: map<string, File>, s: string)
    requires Lives(env, a, b, s) && Lives(env, b, c, s)
    ensures Lives(env, a, c, s)
  {
    hide Loader, Evolves;
    if Loader(env, a)(s).Some? {
      EvolvesTransitive(Loader(env, a)(s).value, Loader(env, b)(s).value, Loader(env, c)(s).value);
    }
  }

  predicate TouchedBy(env: Env, ops: seq<PlanOp>, i: nat, s: string) {
    exists k :: i <= k < |ops| && s == OpStem(env, ops[k])
  }

  /** A completed run: every node lives on, every operation is applied, no other file is
      touched, and every hub was new. */
  lemma {:induction false} RunEffects(env: Env, t: Tree, ops: seq<PlanOp>, fault: Fault, i: nat)
    requires i <= |ops| && Named(env, t.project, t.files)
    requires forall k :: 0 <= k < |ops| ==> !ops[k].Promote?
    requires RunOps(env, t, ops, fault, i).Done?
    ensures
      var after := RunOps(env, t, ops, fault, i).tree;
      && after.project == t.project && Named(env, t.project, after.files)
      && (forall s :: Lives(env, t.files, after.files, s))
      && (forall k :: i <= k < |ops| ==> Applied(env, t.project, after.files, ops[k]))
      && (forall s :: !TouchedBy(env, ops, i, s) ==> Untouched(env, t.files, after.files, s))
    decreases |ops| - i
  {
    hide Loader, Evolves, ApplyOp, Named, Lives, Applied, OpStem, Untouched;
    if i == |ops| {
      NothingHappened(env, t.files);
    } else {
      var next := ApplyOp(env, t, ops[i], StopFor(fault, i)).tree;
      ApplyEffects(env, t, ops[i], StopFor(fault, i));
      RunEffects(env, next, ops, fault, i + 1);
      var after := RunOps(env, t, ops, fault, i).tree;
      forall s ensures Lives(env, t.files, after.files, s) {
        LivesTransitive(env, t.files, next.files, after.files, s);
      }
      AppliedLives(env, t.project, next.files, after.files, ops[i]);
      forall s | !TouchedBy(env, ops, i, s) ensures Untouched(env, t.files, after.files, s) {
        assert s != OpStem(env, ops[i]);
        assert !TouchedBy(env, ops, i + 1, s);
        UntouchedTransitive(env, t.files, next.files, after.files, s);
      }
    }
  }

  lemma UntouchedTransitive(env: Env, a: map<string, File>, b: map<string, File>, c: map<string, File>, s: string)
    requires Untouched(env, a, b, s) && Untouched(env, b, c, s)
    ensures Untouched(env, a, c, s)
  {
  }

  /** A plan with a hub whose id is already taken never commits: hub ids depend on project
      and topic only, so a hub of the topic made on another branch blocks this one. */
  lemma {:induction false} TakenHubNeverCommits(env: Env, t: Tree, ops: seq<PlanOp>, fault: Fault, i: nat, k: nat)
    requires i <= k < |ops| && Named(env, t.project, t.files)
    requires forall j :: 0 <= j < |ops| ==> !ops[j].Promote?
    requires ops[k].MakeHub? && FromDict(env, ops[k].payload).Some?
    requires Strip(FromDict(env, ops[k].payload).value.projectId) == t.project
    requires Loader(env, t.files)(OpStem(env, ops[k])).Some?
    ensures RunOps(env, t, ops, fault, i).Failed?
    decreases |ops| - i
  {
    hide Loader, Evolves, ApplyOp, Named, Applied, OpStem, Untouched, FromDict, Strip;
    var r := ApplyOp(env, t, ops[i], StopFor(fault, i));
    if r.Done? {
      ApplyEffects(env, t, ops[i], StopFor(fault, i));
      assert Lives(env, t.files, r.tree.files, OpStem(env, ops[k]));
      if i < k {
        TakenHubNeverCommits(env, r.tree, ops, fault, i + 1, k);
      }
    }
  }
}
