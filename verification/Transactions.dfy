/** Applying a plan as a transaction: snapshot, a sequence of updates, and a restore when
    one of them fails, whether a check refused it or the disk stopped it part way. */
module Transactions {
  import opened Text
  import opened Seqs
  import opened Memory
  import opened MemoryTree
  import opened TreeStores
  import opened Consolidation

  datatype PlanOp =
    | Mark(dup: DupOp)
    | Supersede(target: string)
    | AddLink(link: LinkOp)
    | MakeHub(payload: Payload)
    | Promote(id: string, source: string, destination: string)

  /** The disk failure a run meets: the operation it hits and where its writes stop. */
  datatype Fault = NoFault | FaultAt(op: nat, stop: Stop)

  datatype Status = NotStarted | Committed | RolledBack | Torn

  datatype Outcome = Outcome(tree: Tree, status: Status)

  // --------------------------------------------------------------------- edits

  function MarkedQuality(q: Quality, canonical: string): Quality {
    q.(duplicateOf := Some(canonical), deprecated := true, status := "duplicate")
  }

  function SupersededQuality(q: Quality): Quality {
    q.(deprecated := true, stale := true, status := "deprecated")
  }

  /** `add_link`: the link is appended unless relation and target are there already. */
  function WithLink(links: seq<Link>, relation: string, target: string, evidence: string): seq<Link> {
    if LinkExists(links, relation, target) then links else links + [Link(relation, target, evidence)]
  }

  function PromotedEvidence(env: Env, e: Evidence, source: string, destination: string): Evidence {
    e.(promotedFrom := source, promotedTo := destination, promotedAt := env.now)
  }

  function TargetId(op: PlanOp): string {
    match op
    case Mark(d) => d.duplicate
    case Supersede(target) => target
    case AddLink(l) => l.source
    case MakeHub(p) => p.nodeId.GetOr("")
    case Promote(id, _, _) => id
  }

  /** What the report says of a completed operation. */
  datatype Entry = Entry(id: string, what: string, relation: Option<string>)

  function EntryOf(): PlanOp -> Entry {
    (op: PlanOp) =>
      match op
      case Mark(d) => Entry(d.duplicate, "mark_duplicate", Absent)
      case Supersede(target) => Entry(target, "superseded", Absent)
      case AddLink(l) => Entry(l.source, "link", Some(l.relation))
      case MakeHub(p) => Entry(p.nodeId.GetOr(""), "create_hub", Absent)
      case Promote(id, _, _) => Entry(id, MAIN_PROMOTED, Absent)
  }

  /** The record an update writes over the loaded one. */
  function EditOf(env: Env, op: PlanOp): Payload -> Payload {
    (p: Payload) =>
      match op
      case Mark(d) => p.(quality := Some(MarkedQuality(p.quality.GetOr(NO_QUALITY), d.canonical)))
      case Supersede(_) => p.(quality := Some(SupersededQuality(p.quality.GetOr(NO_QUALITY))))
      case AddLink(l) => p.(links := Some(WithLink(p.links.GetOr([]), l.relation, l.target, l.evidence)))
      case MakeHub(_) => p
      case Promote(_, source, destination) =>
        p.(branch := destination, visibility := Some(MAIN_PROMOTED), promotionStatus := Some("promoted"),
           evidence := Some(PromotedEvidence(env, p.evidence.GetOr(NO_EVIDENCE), source, destination)))
  }

  /** One step of the update loop. */
  ghost function ApplyOp(env: Env, t: Tree, op: PlanOp, stop: Stop): Result {
    if op.MakeHub? then Created(env, t, op.payload, stop)
    else Updated(env, t, TargetId(op), EditOf(env, op), stop)
  }

  function StopFor(fault: Fault, i: nat): Stop {
    if fault.FaultAt? && fault.op == i then fault.stop else Never
  }

  ghost function RunOps(env: Env, t: Tree, ops: seq<PlanOp>, fault: Fault, i: nat): Result
    requires i <= |ops|
    decreases |ops| - i
  {
    if i == |ops| then Done(t)
    else
      match ApplyOp(env, t, ops[i], StopFor(fault, i))
      case Failed(torn) => Failed(torn)
      case Done(next) => RunOps(env, next, ops, fault, i + 1)
  }

  /** Snapshot, run, and on failure restore. */
  ghost function Transact(env: Env, t: Tree, name: string, ops: seq<PlanOp>, fault: Fault): Outcome {
    if ops == [] then Outcome(t, NotStarted)
    else if Snapped(t, name).Failed? then Outcome(t, NotStarted)
    else
      var run := RunOps(env, Snapped(t, name).tree, ops, fault, 0);
      if run.Done? then Outcome(run.tree, Committed)
      else
        match Restored(env, run.tree, name)
        case Done(back) => Outcome(back, RolledBack)
        case Failed(torn) => Outcome(torn, Torn)
  }

  /** A plan's operations in the order the loops take them. */
  function OpsOf(plan: Plan): seq<PlanOp> {
    Mapped(plan.duplicates, (d: DupOp) => Mark(d))
    + Mapped(Filter(plan.links, (l: LinkOp) => l.relation == "supersedes"), (l: LinkOp) => Supersede(l.target))
    + Mapped(plan.links, (l: LinkOp) => AddLink(l))
    + Mapped(plan.hubs, (p: Payload) => MakeHub(p))
  }

  ghost function Consolidated(env: Env, t: Tree, branch: string, name: string, fault: Fault): Outcome {
    Transact(env, t, name, OpsOf(PlanOf(env, t, branch)), fault)
  }

  // ------------------------------------------------------------------- methods

  /** The update loop, stopped at the first failure. */
  method RunUpdates(store: TreeStore, ops: seq<PlanOp>, fault: Fault) returns (ok: bool, written: seq<Entry>)
    modifies store
    ensures RunOps(store.env, old(store.State()), ops, fault, 0) == if ok then Done(store.State())
        else Failed(store.State())
    ensures written == if ok then Mapped(ops, EntryOf()) else []
  {
    hide Created, Updated, EditOf;
    ok, written := true, [];
    for i := 0 to |ops|
      invariant RunOps(store.env, old(store.State()), ops, fault, 0) == RunOps(store.env, store.State(), ops, fault, i)
      invariant written == Mapped(ops[..i], EntryOf())
    {
      var stop := StopFor(fault, i);
      if ops[i].MakeHub? {
        ok := store.CreateNode(ops[i].payload, stop);
      } else {
        ok := store.UpdateNode(TargetId(ops[i]), EditOf(store.env, ops[i]), stop);
      }
      if !ok {
        return false, [];
      }
      written := written + [EntryOf()(ops[i])];
    }
    assert ops[..|ops|] == ops;
    ok := true;
  }

  /** `apply_plan` and the write half of `promote_branch_memory`. */
  method RunTransaction(store: TreeStore, name: string, ops: seq<PlanOp>, fault: Fault)
    returns (status: Status, written: seq<Entry>)
    modifies store
    ensures Transact(store.env, old(store.State()), name, ops, fault) == Outcome(store.State(), status)
    ensures written == if status.Committed? then Mapped(ops, EntryOf()) else []
  {
    hide RunOps, Restored, Snapped;
    if ops == [] {
      return NotStarted, [];
    }
    var ok := store.TakeSnapshot(name);
    if !ok {
      SnapRefusalChangesNothing(store.env, old(store.State()), name);
      return NotStarted, [];
    }
    ok, written := RunUpdates(store, ops, fault);
    if ok {
      return Committed, written;
    }
    ok := store.RestoreSnapshot(name);
    status := if ok then RolledBack else Torn;
  }

  lemma SnapRefusalChangesNothing(env: Env, t: Tree, name: string)
    requires Snapped(t, name).Failed?
    ensures Snapped(t, name).tree == t
  {
  }

  /** `consolidate_tree` in write mode. */
  method ConsolidateTree(store: TreeStore, branch: string, name: string, fault: Fault)
    returns (status: Status, written: seq<Entry>)
    modifies store
    ensures Consolidated(store.env, old(store.State()), branch, name, fault) == Outcome(store.State(), status)
    ensures written == if status.Committed?
      then Mapped(OpsOf(PlanOf(store.env, old(store.State()), branch)), EntryOf()) else []
  {
    hide Transact, OpsOf, PlanFor;
    var plan := BuildPlan(store.env, store.files, store.project, branch);
    status, written := RunTransaction(store, name, OpsOf(plan), fault);
  }

  // ---------------------------------------------------------- rollback atomicity

  /** Only files, index and usage log may differ. */
  predicate SameRest(t: Tree, u: Tree) {
    u.snapshots == t.snapshots && u.raws == t.raws && u.project == t.project
  }

  lemma WriteKeepsTheRest(env: Env, t: Tree, n: Node, stop: Stop)
    ensures SameRest(t, WriteResult(env, t, n, stop).tree)
  {
    hide IndexOf, ToDict;
  }

  lemma CreateKeepsTheRest(env: Env, t: Tree, p: Payload, stop: Stop)
    ensures SameRest(t, Created(env, t, p, stop).tree)
  {
    hide FromDict, WriteResult, Load, Strip;
    if FromDict(env, p).Some? {
      WriteKeepsTheRest(env, t, FromDict(env, p).value, stop);
    }
  }

  lemma UpdateKeepsTheRest(env: Env, t: Tree, id: string, edit: Payload -> Payload, stop: Stop)
    ensures SameRest(t, Updated(env, t, id, edit, stop).tree)
  {
    hide FromDict, Merged, WriteResult, Load, SafeSegment, Strip;
    var current := Load(env, t.files, Strip(id));
    if current.Some? {
      var merged := FromDict(env, Merged(env, current.value, edit));
      if merged.Some? {
        WriteKeepsTheRest(env, t, merged.value, stop);
      }
    }
  }

  lemma ApplyKeepsTheRest(env: Env, t: Tree, op: PlanOp, stop: Stop)
    ensures SameRest(t, ApplyOp(env, t, op, stop).tree)
  {
    hide Created, Updated, EditOf, TargetId;
    if op.MakeHub? {
      CreateKeepsTheRest(env, t, op.payload, stop);
    } else {
      UpdateKeepsTheRest(env, t, TargetId(op), EditOf(env, op), stop);
    }
  }

  lemma {:induction false} RunKeepsTheRest(env: Env, t: Tree, ops: seq<PlanOp>, fault: Fault, i: nat)
    requires i <= |ops|
    ensures SameRest(t, RunOps(env, t, ops, fault, i).tree)
    decreases |ops| - i
  {
    hide ApplyOp;
    if i < |ops| {
      var r := ApplyOp(env, t, ops[i], StopFor(fault, i));
      ApplyKeepsTheRest(env, t, ops[i], StopFor(fault, i));
      if r.Done? {
        RunKeepsTheRest(env, r.tree, ops, fault, i + 1);
      }
    }
  }

  /** Every file of the tree validates for its project, and no raw file is flagged. */
  predicate AllValid(env: Env, t: Tree) {
    SnapshotValid(env, t.project, SnapshotOf(t))
  }

  /** Rollback is all or nothing. Wherever the failure strikes, a restored tree has the
      node files, raw files and logs it had before, and an index built from them;
      and the restore goes through exactly when every file of the tree is valid. */
  lemma RollbackIsAtomic(env: Env, t: Tree, name: string, ops: seq<PlanOp>, fault: Fault)
    ensures
      var out := Transact(env, t, name, ops, fault);
      && (out.status.RolledBack? ==>
            && out.tree.files == t.files && out.tree.raws == t.raws && out.tree.usage == t.usage
            && out.tree.links == t.links
            && out.tree.index == IndexOf(env, t.files))
      && (out.status.Torn? ==> !AllValid(env, t))
      && (out.status.RolledBack? ==> AllValid(env, t))
      && (out.status.NotStarted? ==> out.tree == t)
  {
    hide RunOps, IndexOf, Load;
    var start := Snapped(t, name);
    if ops != [] && start.Done? {
      RunKeepsTheRest(env, start.tree, ops, fault, 0);
      var run := RunOps(env, start.tree, ops, fault, 0);
      assert run.tree.snapshots[Strip(name)] == SnapshotOf(t);
    }
  }
}
