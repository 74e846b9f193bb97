/** A node kept to its branch stays there: no run of creations, consolidations and
    promotions makes recall on another branch select it. */
module BranchIsolation {
  import opened Text
  import opened Sorting
  import opened Seqs
  import opened Memory
  import opened Postings
  import opened MemoryTree
  import opened RecallRules
  import opened Recall
  import opened StoreRuns
  import opened Consolidation
  import opened Transactions
  import opened BranchPromotion
  import opened OpEffects
  import opened TreeSteps

  // ----------------------------------------------------------------- invariant

  /** Branch-local, created on the given branch. */
  predicate PinnedNode(n: Node, id: string, anchor: string) {
    n.nodeId == id && n.visibility == BRANCH_LOCAL && n.createdOnBranch == anchor
  }

  predicate PinnedFiles(env: Env, project: string, files: map<string, File>, id: string, anchor: string) {
    && OwnFiles(env, project, files)
    && Loader(env, files)(Strip(id)).Some?
    && PinnedNode(Loader(env, files)(Strip(id)).value, id, anchor)
  }

  predicate PinnedRecord(p: Payload, id: string, anchor: string) {
    p.nodeId == Some(id) ==> p.visibility == Some(BRANCH_LOCAL) && p.createdOnBranch == Some(anchor)
  }

  predicate PinnedIndex(index: Index, id: string, anchor: string) {
    index.Index? ==> forall e :: e in index.entries ==> PinnedRecord(e, id, anchor)
  }

  /** The file of the node and every index entry under its id, stale or fresh, keep the
      node to its branch. */
  predicate Pinned(env: Env, t: Tree, id: string, anchor: string) {
    PinnedFiles(env, t.project, t.files, id, anchor) && PinnedIndex(t.index, id, anchor)
  }

  lemma OwnerOfId(env: Env, project: string, files: map<string, File>, s: string, id: string, anchor: string)
    requires PinnedFiles(env, project, files, id, anchor)
    requires Loader(env, files)(s).Some? && Loader(env, files)(s).value.nodeId == id
    ensures s == Strip(id) && PinnedNode(Loader(env, files)(s).value, id, anchor)
  {
    hide ToDict, Valid, Filled, Loader, Strip;
    LoadedIsPresent(env, files, s);
    OwnNode(env, project, files, s);
  }

  lemma LoadedIsPresent(env: Env, files: map<string, File>, s: string)
    requires Loader(env, files)(s).Some?
    ensures s in files
  {
    hide Filled, Valid;
  }

  lemma FreshIndexIsPinned(env: Env, project: string, files: map<string, File>, id: string, anchor: string)
    requires PinnedFiles(env, project, files, id, anchor)
    ensures PinnedIndex(IndexOf(env, files), id, anchor)
  {
    hide Listed, PostingsOf, Tag, PinnedFiles, Loader;
    var nodes := Listed(env, files);
    forall e | e in Mapped(nodes, ToEntry()) ensures PinnedRecord(e, id, anchor) {
      var i :| 0 <= i < |nodes| && e == Mapped(nodes, ToEntry())[i];
      if nodes[i].nodeId == id {
        ListedMember(env, files, nodes[i]);
        var s :| s in files && Loader(env, files)(s) == Some(nodes[i]);
        OwnerOfId(env, project, files, s, id, anchor);
      }
    }
  }

  // --------------------------------------------------------------------- steps

  predicate Harmless(op: PlanOp, id: string) {
    op.Promote? ==> Strip(op.id) != Strip(id)
  }

  lemma OpKeepsPin(env: Env, op: PlanOp, n: Node, id: string, anchor: string)
    requires PinnedNode(n, id, anchor) && !op.Promote?
    ensures PinnedNode(OpNode(env, op, n), id, anchor)
  {
  }

  lemma PutKeepsPin(env: Env, project: string, files: map<string, File>, n: Node, id: string, anchor: string)
    requires PinnedFiles(env, project, files, id, anchor)
    requires Valid(env, n) && Strip(n.projectId) == project
    requires Strip(n.nodeId) == Strip(id) ==> PinnedNode(n, id, anchor)
    ensures PinnedFiles(env, project, Put(files, n), id, anchor)
  {
    hide Valid, OwnFiles, Loader, Put, Strip;
    PutKeepsOwn(env, project, files, n);
  }

  lemma ApplyKeepsPin(env: Env, t: Tree, op: PlanOp, stop: Stop, id: string, anchor: string)
    requires Pinned(env, t, id, anchor) && Harmless(op, id)
    ensures Pinned(env, ApplyOp(env, t, op, stop).tree, id, anchor)
  {
    hide Valid, Loader, ApplyOp, Strip, IndexOf, Put, PinnedIndex, FromDict, OwnFiles;
    var r := ApplyOp(env, t, op, stop);
    ApplyKeepsTheRest(env, t, op, stop);
    if op.MakeHub? {
      HubEffect(env, t, op.payload, stop);
      if r.tree.files != t.files {
        PutKeepsPin(env, t.project, t.files, FromDict(env, op.payload).value, id, anchor);
      }
    } else {
      OwnIsNamed(env, t.project, t.files);
      UpdateEffect(env, t, op, stop);
      if r.tree.files != t.files {
        UpdateKeepsPin(env, t, op, id, anchor);
      }
    }
    FreshIndexIsPinned(env, t.project, r.tree.files, id, anchor);
  }

  lemma UpdateKeepsPin(env: Env, t: Tree, op: PlanOp, id: string, anchor: string)
    requires PinnedFiles(env, t.project, t.files, id, anchor) && Harmless(op, id) && !op.MakeHub?
    requires Loader(env, t.files)(Strip(TargetId(op))).Some?
    requires Valid(env, OpNode(env, op, Loader(env, t.files)(Strip(TargetId(op))).value))
    ensures PinnedFiles(env, t.project, Put(t.files,
        OpNode(env, op, Loader(env, t.files)(Strip(TargetId(op))).value)), id, anchor)
  {
    hide Valid, Loader, Strip, Put, OwnFiles, OpNode;
    var s := Strip(TargetId(op));
    var current := Loader(env, t.files)(s).value;
    LoadedIsPresent(env, t.files, s);
    OwnNode(env, t.project, t.files, s);
    OpKeepsIdentity(env, op, current);
    if s == Strip(id) {
      OpKeepsPin(env, op, current, id, anchor);
    }
    PutKeepsPin(env, t.project, t.files, OpNode(env, op, current), id, anchor);
  }

  lemma {:induction false} RunKeepsPin(env: Env, t: Tree, ops: seq<PlanOp>, fault: Fault, i: nat, id: string,
      anchor: string)
    requires i <= |ops| && Pinned(env, t, id, anchor)
    requires forall k :: 0 <= k < |ops| ==> Harmless(ops[k], id)
    ensures Pinned(env, RunOps(env, t, ops, fault, i).tree, id, anchor)
    decreases |ops| - i
  {
    hide Pinned, ApplyOp, Harmless;
    if i < |ops| {
      ApplyKeepsPin(env, t, ops[i], StopFor(fault, i), id, anchor);
      var r := ApplyOp(env, t, ops[i], StopFor(fault, i));
      if r.Done? {
        RunKeepsPin(env, r.tree, ops, fault, i + 1, id, anchor);
      }
    }
  }

  lemma TransactKeepsPin(env: Env, t: Tree, name: string, ops: seq<PlanOp>, fault: Fault, id: string, anchor: string)
    requires Pinned(env, t, id, anchor)
    requires forall k :: 0 <= k < |ops| ==> Harmless(ops[k], id)
    ensures Pinned(env, Transact(env, t, name, ops, fault).tree, id, anchor)
  {
    hide RunOps, IndexOf, PinnedFiles, PinnedIndex, SnapshotValid, Harmless, SafeSegment, Strip;
    var start := Snapped(t, name);
    if ops != [] && start.Done? {
      RunKeepsPin(env, start.tree, ops, fault, 0, id, anchor);
      RunKeepsTheRest(env, start.tree, ops, fault, 0);
      FreshIndexIsPinned(env, t.project, t.files, id, anchor);
    }
  }

  lemma ConsolidationIsHarmless(plan: Plan, id: string, k: nat)
    requires k < |OpsOf(plan)|
    ensures Harmless(OpsOf(plan)[k], id)
  {
    hide Filter;
    assert !OpsOf(plan)[k].Promote?;
  }

  lemma PromotionIsHarmless(env: Env, t: Tree, source: string, destination: string, id: string, anchor: string, k: nat)
    requires Pinned(env, t, id, anchor)
    requires k < |Eligible(env, Listed(env, t.files), source)|
    ensures Harmless(PromotionOps(Eligible(env, Listed(env, t.files), source), source, destination)[k], id)
  {
    hide Eligible, Listed, Loader, Strip, CandidateBranch, ProvenanceComplete, ConflictsWithMain, PinnedIndex,
        ToDict, OwnFiles;
    var nodes := Listed(env, t.files);
    var n := Eligible(env, nodes, source)[k];
    EligibleIsCandidate(env, nodes, source, n);
    ListedMember(env, t.files, n);
    var s :| s in t.files && Loader(env, t.files)(s) == Some(n);
    OwnNode(env, t.project, t.files, s);
  }

  lemma CreateKeepsPin(env: Env, t: Tree, p: Payload, stop: Stop, id: string, anchor: string)
    requires Pinned(env, t, id, anchor)
    ensures Pinned(env, Created(env, t, p, stop).tree, id, anchor)
  {
    hide Pinned, Created;
    ApplyKeepsPin(env, t, MakeHub(p), stop, id, anchor);
  }

  lemma StepKeepsPin(env: Env, t: Tree, step: Step, id: string, anchor: string)
    requires Pinned(env, t, id, anchor)
    ensures Pinned(env, After(env, t, step), id, anchor)
  {
    hide Pinned, Created, Transact, OpsOf, PlanFor, Eligible, Listed, Harmless;
    match step {
      case Add(p, stop) => CreateKeepsPin(env, t, p, stop, id, anchor);
      case Consolidate(branch, name, fault) =>
        var ops := OpsOf(PlanOf(env, t, branch));
        forall k | 0 <= k < |ops| ensures Harmless(ops[k], id) {
          ConsolidationIsHarmless(PlanOf(env, t, branch), id, k);
        }
        TransactKeepsPin(env, t, name, ops, fault, id, anchor);
      case PromoteBranch(source, destination, name, fault) =>
        var ops := PromotionOps(Eligible(env, Listed(env, t.files), source), source, destination);
        forall k | 0 <= k < |ops| ensures Harmless(ops[k], id) {
          PromotionIsHarmless(env, t, source, destination, id, anchor, k);
        }
        TransactKeepsPin(env, t, name, ops, fault, id, anchor);
    }
  }

  lemma {:induction false} RunKeepsNodePinned(env: Env, t: Tree, steps: seq<Step>, id: string, anchor: string)
    requires Pinned(env, t, id, anchor)
    ensures Pinned(env, AfterAll(env, t, steps), id, anchor)
    decreases |steps|
  {
    hide Pinned, After;
    if steps != [] {
      StepKeepsPin(env, t, steps[0], id, anchor);
      RunKeepsNodePinned(env, After(env, t, steps[0]), steps[1..], id, anchor);
    }
  }

  // ------------------------------------------------------------------- recall

  /** Every selected item comes from a hit. */
  lemma {:induction false} SelectedComeFromHits(
      env: Env, risk: Risk, hits: seq<Hit>, limit: int, budget: int, chosen: seq<Item>, used: nat, item: Item)
    requires item in Greedy(env, risk, hits, limit, budget, chosen, used).0
    ensures item in chosen || exists h :: h in hits && item.nodeId == h.item.nodeId
    decreases |hits|
  {
    if hits != [] && |chosen| < limit {
      var needed := env.units(hits[0].item);
      assert hits[0] in hits;
      assert forall h :: h in hits[1..] ==> h in hits;
      if used + needed > budget {
        SelectedComeFromHits(env, risk, hits[1..], limit, budget, chosen, used, item);
      } else {
        var one := Finished(risk, hits[0].item);
        SelectedComeFromHits(env, risk, hits[1..], limit, budget, chosen + [one], used + needed, item);
      }
    }
  }

  /** A record that keeps the node to a branch not visible here is passed over. */
  lemma PinnedRecordIsPassedOver(env: Env, p: Payload, rq: Request, id: string, anchor: string)
    requires PinnedRecord(p, id, anchor) && id != "" && anchor != ""
    requires !BranchVisible(anchor, rq.context.branch)
    requires Judge(env, p, rq).Chosen?
    ensures Judge(env, p, rq).hit.item.nodeId != id
  {
    hide RedFields, ScoreNode, FromDict, BranchVisible;
    assert p.nodeId == Some(id) ==> VisibilityReject(p, rq) == Some(WrongBranch);
  }

  predicate AllPinned(records: seq<Option<Payload>>, id: string, anchor: string) {
    forall r :: r in records && r.Some? ==> PinnedRecord(r.value, id, anchor)
  }

  lemma NeverSelected(env: Env, rq: Request, records: seq<Option<Payload>>, limit: int, budget: int, id: string,
      anchor: string, item: Item)
    requires AllPinned(records, id, anchor) && id != "" && anchor != ""
    requires !BranchVisible(anchor, rq.context.branch)
    requires item in Selected(env, rq, Collect(records, HitOf(env, rq)), limit, budget).0
    ensures item.nodeId != id
  {
    hide Judge, Greedy, Sort, BranchVisible, PinnedRecord;
    var hits := Collect(records, HitOf(env, rq));
    SelectedComeFromHits(env, rq.analysis.risk, Sort(hits, Ahead), limit, budget, [], 0, item);
    var h :| h in Sort(hits, Ahead) && item.nodeId == h.item.nodeId;
    SortMembers(hits, Ahead);
    CollectMember(records, HitOf(env, rq), h);
    var r :| r in records && HitOf(env, rq)(r) == Some(h);
    assert Judging(env, rq)(r) == Judged(env, rq, r);
    PinnedRecordIsPassedOver(env, r.value, rq, id, anchor);
  }

  lemma RawRecordsArePinned(env: Env, project: string, files: map<string, File>, stems: seq<string>, id: string,
      anchor: string)
    requires PinnedFiles(env, project, files, id, anchor)
    ensures AllPinned(Mapped(stems, RawPayload(files)), id, anchor)
  {
    hide Loader, Strip, ToDict, Valid;
    var records := Mapped(stems, RawPayload(files));
    forall r | r in records && r.Some? ensures PinnedRecord(r.value, id, anchor) {
      var i :| 0 <= i < |records| && records[i] == r;
      RawRecordIsPinned(env, project, files, stems[i], id, anchor);
    }
  }

  lemma RawRecordIsPinned(env: Env, project: string, files: map<string, File>, s: string, id: string, anchor: string)
    requires PinnedFiles(env, project, files, id, anchor) && RawPayload(files)(s).Some?
    ensures PinnedRecord(RawPayload(files)(s).value, id, anchor)
  {
    hide Loader, Strip, Valid, OwnFiles;
    OwnNode(env, project, files, s);
    var n := Loader(env, files)(s).value;
    assert RawPayload(files)(s) == Some(ToDict(n));
    if n.nodeId == id {
      OwnerOfId(env, project, files, s, id, anchor);
    }
  }

  lemma CandidateRecordIsPinned(env: Env, t: Tree, x: string, id: string, anchor: string)
    requires Pinned(env, t, id, anchor) && t.index.Index?
    requires CandidateRecord(env, t.files, t.index.entries)(x).Some?
    ensures PinnedRecord(CandidateRecord(env, t.files, t.index.entries)(x).value, id, anchor)
  {
    hide Filled, Strip, Valid, OwnFiles;
    if EntryFor(t.index.entries, x).Absent? {
      var n := Loader(env, t.files)(Strip(x)).value;
      if n.nodeId == id {
        OwnerOfId(env, t.project, t.files, Strip(x), id, anchor);
      }
    }
  }

  lemma IndexedRecordsArePinned(env: Env, t: Tree, order: seq<string>, id: string, anchor: string)
    requires Pinned(env, t, id, anchor) && t.index.Index?
    ensures AllPinned(IndexedRecords(env, t, order), id, anchor)
  {
    hide UnindexedStems, CandidateRecord, RawPayload, PinnedFiles, PinnedIndex, PinnedRecord;
    var unindexed := UnindexedStems(t.files, t.index);
    RawRecordsArePinned(env, t.project, t.files, unindexed, id, anchor);
    var first := Mapped(order, CandidateRecord(env, t.files, t.index.entries));
    var second := Mapped(unindexed, RawPayload(t.files));
    forall r: Option<Payload> | r in first + second && r.Some? ensures PinnedRecord(r.value, id, anchor) {
      if r in first {
        var i :| 0 <= i < |first| && first[i] == r;
        CandidateRecordIsPinned(env, t, order[i], id, anchor);
      } else {
        assert r in second;
      }
    }
  }

  /** Branch isolation over whole runs: a node created branch-local is never selected by
      recall on a branch its own is not visible from, after any sequence of creations,
      consolidations and promotions, with disk failures anywhere in them. */
  lemma NodeNeverLeavesItsBranch(
      env: Env, start: Tree, p: Payload, steps: seq<Step>, rq: Request, order: seq<string>, limit: int, budget: int,
          item: Item)
    requires Kept(env, start) && Created(env, start, p, Never).Done?
    requires
      var n: Node := FromDict(env, p).value;
      Strip(n.projectId) == start.project && n.visibility == BRANCH_LOCAL &&
          !BranchVisible(n.createdOnBranch, rq.context.branch)
    requires
      var t := AfterAll(env, Created(env, start, p, Never).tree, steps);
      if t.index.Index? then item in IndexedRecall(env, rq, t, order, limit, budget).0
      else item in ScanRecall(env, rq, t.files, limit, budget).0
    ensures item.nodeId != FromDict(env, p).value.nodeId
  {
    hide AfterAll, Created, BranchVisible, IndexedRecords, Pinned, Judge, Kept, Filled, Valid, Greedy;
    CreatedLoads(env, start, p);
    CreationPins(env, start, p);
    var n := FromDict(env, p).value;
    var t := AfterAll(env, Created(env, start, p, Never).tree, steps);
    RunKeepsNodePinned(env, Created(env, start, p, Never).tree, steps, n.nodeId, n.createdOnBranch);
    if t.index.Index? {
      IndexedRecordsArePinned(env, t, order, n.nodeId, n.createdOnBranch);
      NeverSelected(env, rq, IndexedRecords(env, t, order), limit, budget, n.nodeId, n.createdOnBranch, item);
    } else {
      FilesInOrderAreScan(env, rq, t.files, limit, budget);
      PinnedHasFiles(env, t, n.nodeId, n.createdOnBranch);
      RawRecordsArePinned(env, t.project, t.files, Stems(t.files), n.nodeId, n.createdOnBranch);
      NeverSelected(env, rq, Mapped(Stems(t.files), RawPayload(t.files)), limit, budget, n.nodeId,
          n.createdOnBranch, item);
    }
  }

  lemma CreatedLoads(env: Env, t: Tree, p: Payload)
    requires Created(env, t, p, Never).Done?
    ensures FromDict(env, p).Some?
  {
    hide Filled, Valid, WriteResult;
  }

  lemma PinnedHasFiles(env: Env, t: Tree, id: string, anchor: string)
    requires Pinned(env, t, id, anchor)
    ensures PinnedFiles(env, t.project, t.files, id, anchor)
  {
  }

  lemma CreationPins(env: Env, t: Tree, p: Payload)
    requires Kept(env, t) && Created(env, t, p, Never).Done?
    requires Strip(FromDict(env, p).value.projectId) == t.project && FromDict(env, p).value.visibility == BRANCH_LOCAL
    ensures
      var n: Node := FromDict(env, p).value;
      n.nodeId != "" && n.createdOnBranch != "" &&
          Pinned(env, Created(env, t, p, Never).tree, n.nodeId, n.createdOnBranch)
  {
    hide Filled, Valid, ToDict, IndexOf, Put, OwnFiles, Strip, Loader, OwnSnapshots, Current, WriteResult;
    var n := FromDict(env, p).value;
    ValidHasNames(env, n);
    HubEffect(env, t, p, Never);
    ApplyKeepsTheRest(env, t, MakeHub(p), Never);
    var after := Created(env, t, p, Never).tree;
    assert after == ApplyOp(env, t, MakeHub(p), Never).tree;
    PutKeepsOwn(env, t.project, t.files, n);
    FreshIndexIsPinned(env, t.project, after.files, n.nodeId, n.createdOnBranch);
  }

  lemma ValidHasNames(env: Env, n: Node)
    requires Valid(env, n)
    ensures n.nodeId != "" && n.createdOnBranch != ""
  {
    StripTrimmed("");
    assert Strip("") == "";
  }
}
