/** Duplicate pointers are well founded: whatever is marked a duplicate points to a stored
    node with a smaller id, so every chain ends at a node no consolidation has marked. */
module DuplicateChains {
  import opened Text
  import opened Seqs
  import opened Memory
  import opened MemoryTree
  import opened StoreRuns
  import opened Consolidation
  import opened Transactions
  import opened BranchPromotion
  import opened OpEffects
  import opened CommittedRuns
  import opened Convergence
  import opened TreeSteps

  // -------------------------------------------------------------------- history

  /** The tree, and the ids consolidations have marked so far. */
  datatype History = History(tree: Tree, marked: set<string>)

  function MarkOf(op: PlanOp): set<string> {
    if op.Mark? then {op.dup.duplicate} else {}
  }

  /** The operation's write reached the node file, whether it was completed or not. */
  predicate Reached(t: Tree, r: Result) {
    r.Done? || r.tree.files != t.files
  }

  /** The ids whose marks a run of operations got onto the disk. */
  ghost function MarksDone(env: Env, t: Tree, ops: seq<PlanOp>, fault: Fault, i: nat): set<string>
    requires i <= |ops|
    decreases |ops| - i
  {
    if i == |ops| then {}
    else
      var r := ApplyOp(env, t, ops[i], StopFor(fault, i));
      (if Reached(t, r) then MarkOf(ops[i]) else {}) + (if r.Done? then MarksDone(env, r.tree, ops, fault, i + 1)
          else {})
  }

  /** A rolled-back consolidation marks nothing; a committed one all it planned to mark, and
      one whose restore was refused what it got onto the disk. */
  ghost function NewMarks(env: Env, t: Tree, step: Step): set<string> {
    match step
    case Consolidate(branch, name, fault) =>
      var status := Consolidated(env, t, branch, name, fault).status;
      if status.Committed? || status.Torn?
      then MarksDone(env, Snapped(t, name).tree, OpsOf(PlanOf(env, t, branch)), fault, 0) else {}
    case _ => {}
  }

  ghost function Later(env: Env, h: History, step: Step): History {
    History(After(env, h.tree, step), h.marked + NewMarks(env, h.tree, step))
  }

  ghost function LaterAll(env: Env, h: History, steps: seq<Step>): History
    decreases |steps|
  {
    if steps == [] then h else LaterAll(env, Later(env, h, steps[0]), steps[1..])
  }

  /** A completed run marks every id it was asked to mark. */
  lemma {:induction false} CompletedRunMarksAll(env: Env, t: Tree, ops: seq<PlanOp>, fault: Fault, i: nat, k: nat)
    requires i <= k < |ops| && ops[k].Mark? && RunOps(env, t, ops, fault, i).Done?
    ensures ops[k].dup.duplicate in MarksDone(env, t, ops, fault, i)
    decreases |ops| - i
  {
    hide ApplyOp;
    if i < k {
      CompletedRunMarksAll(env, ApplyOp(env, t, ops[i], StopFor(fault, i)).tree, ops, fault, i + 1, k);
    }
  }

  // ----------------------------------------------------------------- invariant

  predicate Stored(env: Env, files: map<string, File>, id: string) {
    Loader(env, files)(Strip(id)).Some? && Loader(env, files)(Strip(id)).value.nodeId == id
  }

  function Pointer(env: Env, files: map<string, File>, id: string): Option<string>
    requires Stored(env, files, id)
  {
    Loader(env, files)(Strip(id)).value.quality.duplicateOf
  }

  /** The node is stored and points to a stored node with a smaller id. */
  predicate PointsDown(env: Env, files: map<string, File>, id: string) {
    && Stored(env, files, id) && Pointer(env, files, id).Some?
    && Less(Pointer(env, files, id).value, id) && Stored(env, files, Pointer(env, files, id).value)
  }

  predicate AllPointDown(env: Env, files: map<string, File>, marked: set<string>) {
    forall id :: id in marked ==> PointsDown(env, files, id)
  }

  predicate Sound(env: Env, h: History) {
    Tidy(env, h.tree) && AllPointDown(env, h.tree.files, h.marked)
  }

  // --------------------------------------------------------------- single writes

  /** A mark the plan makes: from a stored id to a smaller stored id. */
  predicate GoodOp(env: Env, files: map<string, File>, op: PlanOp) {
    op.Mark? ==>
        Less(op.dup.canonical, op.dup.duplicate)
        && Stored(env, files, op.dup.canonical) && Stored(env, files, op.dup.duplicate)
  }

  /** What is stored stays stored under its id. */
  ghost predicate KeepsStored(env: Env, a: map<string, File>, b: map<string, File>) {
    forall id :: Stored(env, a, id) ==> Stored(env, b, id)
  }

  predicate SamePointer(a: Node, b: Node) {
    b.nodeId == a.nodeId && b.quality.duplicateOf == a.quality.duplicateOf
  }

  lemma OpPointer(env: Env, op: PlanOp, n: Node)
    ensures op.Mark? ==> OpNode(env, op, n).quality.duplicateOf == Some(op.dup.canonical)
    ensures !op.Mark? ==> SamePointer(n, OpNode(env, op, n))
    ensures OpNode(env, op, n).nodeId == n.nodeId && OpNode(env, op, n).projectId == n.projectId
  {
  }

  /** A write over a free name or under the id of the node that was there. */
  predicate FitsIn(env: Env, files: map<string, File>, n: Node) {
    Loader(env, files)(Strip(n.nodeId)).Some? ==> Loader(env, files)(Strip(n.nodeId)).value.nodeId == n.nodeId
  }

  /** Writing a node under its own id keeps every pointer that is not its own. */
  lemma PutKeepsPointers(env: Env, project: string, files: map<string, File>, n: Node, marked: set<string>)
    requires Named(env, project, files) && AllPointDown(env, files, marked)
    requires Valid(env, n) && Strip(n.projectId) == project && FitsIn(env, files, n)
    requires n.nodeId in marked ==> SamePointer(Loader(env, files)(Strip(n.nodeId)).value, n)
    ensures Named(env, project, Put(files, n)) && AllPointDown(env, Put(files, n), marked)
    ensures Loader(env, Put(files, n))(Strip(n.nodeId)) == Some(n) && KeepsStored(env, files, Put(files, n))
  {
    hide Valid, Loader, Strip, Named, Put, Less;
    PutKeepsNamed(env, project, files, n);
    forall id | Stored(env, files, id) ensures Stored(env, Put(files, n), id) {
    }
    forall id | id in marked ensures PointsDown(env, Put(files, n), id) {
      assert PointsDown(env, files, id);
    }
  }

  /** A mark redirects one pointer, downwards. */
  lemma MarkKeepsPointers(env: Env, project: string, files: map<string, File>, n: Node, marked: set<string>, d: DupOp)
    requires Named(env, project, files) && AllPointDown(env, files, marked)
    requires Valid(env, n) && Strip(n.projectId) == project && FitsIn(env, files, n) && n.nodeId == d.duplicate
    requires n.quality.duplicateOf == Some(d.canonical) && Less(d.canonical, d.duplicate) &&
        Stored(env, files, d.canonical)
    ensures Named(env, project, Put(files, n)) && AllPointDown(env, Put(files, n), marked + {d.duplicate})
    ensures KeepsStored(env, files, Put(files, n))
  {
    hide Valid, Loader, Strip, Named, Put, Less, FitsIn;
    PutKeepsPointers(env, project, files, n, marked - {d.duplicate});
    assert Stored(env, Put(files, n), d.canonical);
    assert PointsDown(env, Put(files, n), d.duplicate);
    forall id | id in marked + {d.duplicate} ensures PointsDown(env, Put(files, n), id) {
    }
  }

  /** One operation, completed or stopped part way. */
  lemma ApplyKeepsPointers(env: Env, t: Tree, op: PlanOp, stop: Stop, marked: set<string>)
    requires Sound(env, History(t, marked)) && GoodOp(env, t.files, op)
    ensures
      var r := ApplyOp(env, t, op, stop);
      && Sound(env, History(r.tree, marked + if Reached(t, r) then MarkOf(op) else {}))
      && KeepsStored(env, t.files, r.tree.files)
  {
    hide ApplyOp, Named, AllPointDown, Stored, GoodOp, Trimmed, Reached;
    ApplyKeepsTheRest(env, t, op, stop);
    var r := ApplyOp(env, t, op, stop);
    if op.MakeHub? {
      HubKeepsPointers(env, t, op.payload, stop, marked);
      assert marked + MarkOf(op) == marked && marked + {} == marked;
    } else {
      UpdateKeepsPointers(env, t, op, stop, marked);
      assert marked + {} == marked;
    }
  }

  lemma HubKeepsPointers(env: Env, t: Tree, p: Payload, stop: Stop, marked: set<string>)
    requires Named(env, t.project, t.files) && AllPointDown(env, t.files, marked)
    ensures
      var files := ApplyOp(env, t, MakeHub(p), stop).tree.files;
      Named(env, t.project, files) && AllPointDown(env, files, marked) && KeepsStored(env, t.files, files)
  {
    hide ApplyOp, Named, Put, Strip, FromDict, Loader, Less;
    HubEffect(env, t, p, stop);
    if ApplyOp(env, t, MakeHub(p), stop).tree.files != t.files {
      LoadsValid(env, p);
      var n := FromDict(env, p).value;
      assert n.nodeId in marked ==> PointsDown(env, t.files, n.nodeId);
      PutKeepsPointers(env, t.project, t.files, n, marked);
    }
  }

  lemma UpdateKeepsPointers(env: Env, t: Tree, op: PlanOp, stop: Stop, marked: set<string>)
    requires Named(env, t.project, t.files) && AllPointDown(env, t.files, marked) && GoodOp(env, t.files, op) &&
        !op.MakeHub?
    ensures
      var r := ApplyOp(env, t, op, stop);
      && Named(env, t.project, r.tree.files) && KeepsStored(env, t.files, r.tree.files)
      && AllPointDown(env, r.tree.files, marked + if Reached(t, r) then MarkOf(op) else {})
  {
    hide ApplyOp, Named, Put, Strip, Valid, Loader, Less, OpNode, PointsDown;
    UpdateEffect(env, t, op, stop);
    var r, s := ApplyOp(env, t, op, stop), Strip(TargetId(op));
    if Reached(t, r) {
      var current := Loader(env, t.files)(s).value;
      var n := OpNode(env, op, current);
      OpKeepsIdentity(env, op, current);
      NamedNode(env, t.project, t.files, s);
      OpPointer(env, op, current);
      if op.Mark? {
        MarkKeepsPointers(env, t.project, t.files, n, marked, op.dup);
      } else {
        PutKeepsPointers(env, t.project, t.files, n, marked);
        assert marked + MarkOf(op) == marked;
      }
    } else {
      assert marked + {} == marked;
    }
  }

  lemma {:induction false} RunKeepsPointers(env: Env, t: Tree, ops: seq<PlanOp>, fault: Fault, i: nat,
      marked: set<string>)
    requires i <= |ops| && Sound(env, History(t, marked))
    requires forall k :: 0 <= k < |ops| ==> GoodOp(env, t.files, ops[k])
    ensures Sound(env, History(RunOps(env, t, ops, fault, i).tree, marked + MarksDone(env, t, ops, fault, i)))
    decreases |ops| - i
  {
    hide ApplyOp, Sound, Reached, Stored, Less, MarkOf;
    if i == |ops| {
      assert marked + MarksDone(env, t, ops, fault, i) == marked;
    } else {
      var r := ApplyOp(env, t, ops[i], StopFor(fault, i));
      var now := if Reached(t, r) then MarkOf(ops[i]) else {};
      ApplyKeepsPointers(env, t, ops[i], StopFor(fault, i), marked);
      if r.Done? {
        RunKeepsPointers(env, r.tree, ops, fault, i + 1, marked + now);
        var rest := MarksDone(env, r.tree, ops, fault, i + 1);
        assert marked + now + rest == marked + (now + rest);
      } else {
        assert now + {} == now;
      }
    }
  }

  // --------------------------------------------------------------------- steps

  lemma PlannedMarkIsGood(env: Env, t: Tree, branch: string, d: DupOp)
    requires Tidy(env, t) && d in Duplicates(env, SafeNodes(env, t.files, branch))
    ensures GoodOp(env, t.files, Mark(d))
  {
    hide Loader, Strip, Less, SafeAt, Similar, Named, Trimmed, Duplicates, Stems, FileLess, Tidy, Collect, Ids;
    var nodes := SafeNodes(env, t.files, branch);
    var i, j := DuplicateOrigin(env, nodes, d);
    var p, q := CollectAt(Stems(t.files), SafeAt(env, t.files, branch), i, j);
    var a, b := Stems(t.files)[p], Stems(t.files)[q];
    StemsProperties(t.files);
    SafeIsLoaded(env, t.files, branch, a);
    SafeIsLoaded(env, t.files, branch, b);
    TidyNode(env, t, a);
    TidyNode(env, t, b);
    LessTotal(nodes[i].nodeId, nodes[j].nodeId);
  }

  lemma PlanIsGood(env: Env, t: Tree, branch: string)
    requires Tidy(env, t)
    ensures forall k :: 0 <= k < |OpsOf(PlanOf(env, t, branch))| ==>
        GoodOp(env, t.files, OpsOf(PlanOf(env, t, branch))[k])
  {
    hide SafeNodes, Tidy, OpsOf, Hubs, Duplicates, PlannedLinks, Stored, Less;
    var ops := OpsOf(PlanOf(env, t, branch));
    forall k | 0 <= k < |ops| ensures GoodOp(env, t.files, ops[k]) {
      OpOrigin(PlanOf(env, t, branch), k);
      if ops[k].Mark? {
        PlannedMarkIsGood(env, t, branch, ops[k].dup);
      }
    }
  }

  /** However a transaction ends, pointers go down. */
  lemma TransactKeepsPointers(env: Env, t: Tree, name: string, ops: seq<PlanOp>, fault: Fault, marked: set<string>)
    requires Sound(env, History(t, marked))
    requires forall k :: 0 <= k < |ops| ==> GoodOp(env, t.files, ops[k])
    ensures
      var out := Transact(env, t, name, ops, fault);
      var done := if out.status.Committed? || out.status.Torn? then MarksDone(env, Snapped(t, name).tree, ops,
          fault, 0) else {};
      Sound(env, History(out.tree, marked + done))
  {
    hide RunOps, IndexOf, SnapshotValid, SafeSegment, Strip, Named, Trimmed, AllPointDown, GoodOp, MarksDone;
    var start := Snapped(t, name);
    assert marked + {} == marked;
    if ops != [] && start.Done? {
      RunKeepsPointers(env, start.tree, ops, fault, 0, marked);
      RollbackIsAtomic(env, t, name, ops, fault);
      RunKeepsTheRest(env, start.tree, ops, fault, 0);
    }
  }

  lemma PromotionMarksNothing(env: Env, t: Tree, ops: seq<PlanOp>, fault: Fault, i: nat)
    requires i <= |ops| && forall k :: 0 <= k < |ops| ==> ops[k].Promote?
    ensures MarksDone(env, t, ops, fault, i) == {}
    decreases |ops| - i
  {
    hide ApplyOp, Reached;
    if i < |ops| {
      PromotionMarksNothing(env, ApplyOp(env, t, ops[i], StopFor(fault, i)).tree, ops, fault, i + 1);
    }
  }

  lemma AddKeepsPointers(env: Env, t: Tree, p: Payload, stop: Stop, marked: set<string>)
    requires Sound(env, History(t, marked))
    ensures Sound(env, History(Created(env, t, p, stop).tree, marked))
  {
    hide Sound, Created, Reached;
    ApplyKeepsPointers(env, t, MakeHub(p), stop, marked);
    assert marked + MarkOf(MakeHub(p)) == marked && marked + {} == marked;
  }

  lemma StepKeepsPointers(env: Env, h: History, step: Step)
    requires Sound(env, h)
    ensures Sound(env, Later(env, h, step))
  {
    hide Created, Transact, OpsOf, PlanFor, Eligible, Listed, AllPointDown, Tidy, Stored, Less, MarksDone;
    var t := h.tree;
    assert h == History(t, h.marked);
    assert h.marked + {} == h.marked;
    match step {
      case Add(p, stop) => AddKeepsPointers(env, t, p, stop, h.marked);
      case Consolidate(branch, name, fault) =>
        PlanIsGood(env, t, branch);
        TransactKeepsPointers(env, t, name, OpsOf(PlanOf(env, t, branch)), fault, h.marked);
      case PromoteBranch(source, destination, name, fault) =>
        var ops := PromotionOps(Eligible(env, Listed(env, t.files), source), source, destination);
        TransactKeepsPointers(env, t, name, ops, fault, h.marked);
        PromotionMarksNothing(env, Snapped(t, name).tree, ops, fault, 0);
    }
  }

  /** After every run, each marked id points to a stored node with a smaller id. */
  lemma {:induction false} RunKeepsPointersDown(env: Env, h: History, steps: seq<Step>)
    requires Sound(env, h)
    ensures Sound(env, LaterAll(env, h, steps))
    decreases |steps|
  {
    hide Sound, Later;
    if steps != [] {
      StepKeepsPointers(env, h, steps[0]);
      RunKeepsPointersDown(env, Later(env, h, steps[0]), steps[1..]);
    }
  }

  // -------------------------------------------------------------------- chains

  function IdAt(env: Env, files: map<string, File>, s: string): string {
    if Loader(env, files)(s).Some? then Loader(env, files)(s).value.nodeId else s
  }

  function Rank(env: Env, files: map<string, File>, id: string): nat {
    |set s | s in files && Less(IdAt(env, files, s), id)|
  }

  lemma RankDecreases(env: Env, files: map<string, File>, a: string, b: string)
    requires Stored(env, files, a) && Less(a, b)
    ensures Rank(env, files, a) < Rank(env, files, b)
  {
    hide Loader, Strip;
    var x, y := set s | s in files && Less(IdAt(env, files, s), a), set s | s in files && Less(IdAt(env, files, s), b);
    forall s | s in x ensures s in y {
      LessTransitive(IdAt(env, files, s), a, b);
    }
    LessIrreflexive(a);
    LoadedKey(env, files, Strip(a));
    assert Strip(a) in y && Strip(a) !in x;
    SmallerSet(x, y, Strip(a));
  }

  lemma SmallerSet(x: set<string>, y: set<string>, a: string)
    requires x <= y && a in y && a !in x
    ensures |x| < |y|
  {
    assert x <= y - {a};
    SubsetSize(x, y - {a});
  }

  lemma {:induction false} SubsetSize(x: set<string>, y: set<string>)
    requires x <= y
    ensures |x| <= |y|
  {
    if x != {} {
      var e :| e in x;
      SubsetSize(x - {e}, y - {e});
    }
  }

  /** Follow `duplicate_of` for as long as the node is one a consolidation marked. */
  function Canonical(env: Env, files: map<string, File>, marked: set<string>, id: string): string
    requires AllPointDown(env, files, marked)
    decreases Rank(env, files, id)
  {
    if id !in marked then id
    else
      assert PointsDown(env, files, id);
      RankDecreases(env, files, Pointer(env, files, id).value, id);
      Canonical(env, files, marked, Pointer(env, files, id).value)
  }

  /** The chain from any stored node ends at a stored node that is not marked, and no step
      of it goes up. */
  lemma {:induction false} ChainEndsAtCanonical(env: Env, files: map<string, File>, marked: set<string>, id: string)
    requires AllPointDown(env, files, marked) && Stored(env, files, id)
    ensures
      var c := Canonical(env, files, marked, id);
      Stored(env, files, c) && c !in marked && (c == id || Less(c, id))
    decreases Rank(env, files, id)
  {
    hide Loader, Less, Stored, Rank;
    if id in marked {
      assert PointsDown(env, files, id);
      var next := Pointer(env, files, id).value;
      RankDecreases(env, files, next, id);
      ChainEndsAtCanonical(env, files, marked, next);
      var c := Canonical(env, files, marked, next);
      if c != next {
        LessTransitive(c, next, id);
      }
    }
  }

  lemma LoadedKey(env: Env, files: map<string, File>, s: string)
    requires Loader(env, files)(s).Some?
    ensures s in files
  {
    hide FromDict;
  }

  /** From an empty tree: after any run of creations, consolidations and promotions, with
      any failures, every marked duplicate leads, through strictly smaller ids, to a stored
      node that no consolidation has marked. */
  lemma DuplicatesAreWellFounded(env: Env, project: string, steps: seq<Step>, id: string)
    requires Trimmed(project)
    requires id in LaterAll(env, History(EmptyTree(project), {}), steps).marked
    ensures
      var h := LaterAll(env, History(EmptyTree(project), {}), steps);
      && h.tree == AfterAll(env, EmptyTree(project), steps)
      && AllPointDown(env, h.tree.files, h.marked)
      && var c := Canonical(env, h.tree.files, h.marked, id);
         Stored(env, h.tree.files, c) && c !in h.marked && Less(c, id)
  {
    hide AfterAll, LaterAll, Less, Trimmed, Named, Canonical, Stored;
    var start := History(EmptyTree(project), {});
    EmptyIsSound(env, project);
    RunKeepsPointersDown(env, start, steps);
    var h := LaterAll(env, start, steps);
    assert PointsDown(env, h.tree.files, id);
    ChainEndsAtCanonical(env, h.tree.files, h.marked, id);
    HistoryIsRun(env, start, steps);
  }

  lemma {:induction false} HistoryIsRun(env: Env, h: History, steps: seq<Step>)
    ensures LaterAll(env, h, steps).tree == AfterAll(env, h.tree, steps)
    decreases |steps|
  {
    hide After, NewMarks;
    if steps != [] {
      HistoryIsRun(env, Later(env, h, steps[0]), steps[1..]);
    }
  }

  lemma EmptyIsSound(env: Env, project: string)
    requires Trimmed(project)
    ensures Sound(env, History(EmptyTree(project), {}))
  {
    hide Loader;
  }
}
