/** Promoting a branch's merge candidates to the shared memory. */
module BranchPromotion {
  import opened Text
  import opened Seqs
  import opened Memory
  import opened MemoryTree
  import opened TreeStores
  import opened RecallRules
  import opened Consolidation
  import opened Transactions

  datatype SkipReason =
    | NotMergeCandidate | WrongSourceBranch | NoProvenance | NoTestsEvidence | NoGatesEvidence
    | UnsafeContent | MainConflict

  /** The branch a node is a candidate of. */
  function CandidateBranch(n: Node): string {
    Compact(if n.createdOnBranch != "" then n.createdOnBranch else n.branch)
  }

  function NormalSummary(n: Node): string {
    Lower(Compact(n.summary))
  }

  function LowerAll(ts: seq<string>): seq<string> {
    Mapped(ts, (t: string) => Lower(t))
  }

  /** Different summaries that share a source path, or a tag within one memory type. */
  predicate ConflictsWith(candidate: Node, current: Node) {
    && NormalSummary(candidate) != NormalSummary(current)
    && (Share(candidate.sourcePaths, current.sourcePaths)
        || (candidate.memoryType == current.memoryType &&
            Share(LowerAll(candidate.topicTags), LowerAll(current.topicTags))))
  }

  predicate ConflictsWithMain(candidate: Node, promoted: seq<Node>) {
    exists m :: m in promoted && ConflictsWith(candidate, m)
  }

  predicate RedForPromotion(env: Env, n: Node) {
    || env.red(FText(n.summary)) || env.red(FText(n.detailed)) || env.red(FTrigger(n.trigger))
    || env.red(FTexts(n.topicTags)) || env.red(FTexts(n.entities)) || env.red(FTexts(n.sourcePaths))
    || env.red(FText(n.description)) || env.red(FEvidence(n.evidence))
  }

  function When(condition: bool, reason: SkipReason): seq<SkipReason> {
    if condition then [reason] else []
  }

  /** `promotion_skip_reasons`: every reason that applies, in order. */
  function SkipReasons(env: Env, n: Node, source: string, mains: seq<Node>): seq<SkipReason> {
    When(n.visibility != MERGE_CANDIDATE, NotMergeCandidate)
    + When(CandidateBranch(n) != Compact(source), WrongSourceBranch)
    + When(!ProvenanceComplete(ToDict(n)), NoProvenance)
    + When(!n.evidence.testsPassed && n.evidence.tests == "", NoTestsEvidence)
    + When(!n.evidence.gatesPassed && n.evidence.gates == "", NoGatesEvidence)
    + When(RedForPromotion(env, n), UnsafeContent)
    + When(ConflictsWithMain(n, mains), MainConflict)
  }

  function MainNodes(nodes: seq<Node>): seq<Node> {
    Filter(nodes, (n: Node) => n.visibility == MAIN_PROMOTED)
  }

  function IsEligible(env: Env, source: string, mains: seq<Node>): Node -> bool {
    (n: Node) => SkipReasons(env, n, source, mains) == []
  }

  function Eligible(env: Env, nodes: seq<Node>, source: string): seq<Node> {
    Filter(nodes, IsEligible(env, source, MainNodes(nodes)))
  }

  function PromotionOps(eligible: seq<Node>, source: string, destination: string): seq<PlanOp> {
    Mapped(eligible, (n: Node) => Promote(n.nodeId, source, destination))
  }

  ghost function Promoted(env: Env, t: Tree, source: string, destination: string, name: string, fault: Fault): Outcome {
    Transact(env, t, name, PromotionOps(Eligible(env, Listed(env, t.files), source), source, destination), fault)
  }

  function Skipped(env: Env, source: string, mains: seq<Node>): Node -> Option<(string, seq<SkipReason>)> {
    (n: Node) =>
      var reasons := SkipReasons(env, n, source, mains);
      if reasons == [] then Absent else Some((n.nodeId, reasons))
  }

  /** The selection loop of `promote_branch_memory`. Every listed node is eligible or
      skipped for its reasons. */
  method SelectEligible(env: Env, nodes: seq<Node>, source: string)
    returns (eligible: seq<Node>, skipped: seq<(string, seq<SkipReason>)>)
    ensures eligible == Eligible(env, nodes, source)
    ensures skipped == Collect(nodes, Skipped(env, source, MainNodes(nodes)))
  {
    hide SkipReasons;
    var mains := MainNodes(nodes);
    eligible, skipped := [], [];
    for i := 0 to |nodes|
      invariant eligible == Filter(nodes[..i], IsEligible(env, source, mains))
      invariant skipped == Collect(nodes[..i], Skipped(env, source, mains))
    {
      FilterStep(nodes, IsEligible(env, source, mains), i);
      CollectStep(nodes, Skipped(env, source, mains), i);
      var reasons := SkipReasons(env, nodes[i], source, mains);
      if reasons != [] {
        skipped := skipped + [(nodes[i].nodeId, reasons)];
      } else {
        eligible := eligible + [nodes[i]];
      }
    }
    assert nodes[..|nodes|] == nodes;
  }

  /** `promote_branch_memory` in write mode. */
  method PromoteBranchMemory(store: TreeStore, source: string, destination: string, name: string, fault: Fault)
    returns (status: Status, promoted: seq<Entry>)
    modifies store
    ensures Promoted(store.env, old(store.State()), source, destination, name, fault) == Outcome(store.State(), status)
    ensures promoted == if status.Committed?
      then Mapped(Eligible(store.env, Listed(store.env, old(store.files)), source),
          (n: Node) => Entry(n.nodeId, MAIN_PROMOTED, Absent)) else []
  {
    hide Transact, Eligible, Listed;
    var nodes := store.ListNodes();
    var eligible, skipped := SelectEligible(store.env, nodes, source);
    status, promoted := RunTransaction(store, name, PromotionOps(eligible, source, destination), fault);
    assert status.Committed? ==> promoted == Mapped(eligible, (n: Node) => Entry(n.nodeId, MAIN_PROMOTED, Absent));
  }

  /** Only a merge candidate of the source branch is ever promoted. */
  lemma EligibleIsCandidate(env: Env, nodes: seq<Node>, source: string, n: Node)
    requires n in Eligible(env, nodes, source)
    ensures n in nodes && n.visibility == MERGE_CANDIDATE && CandidateBranch(n) == Compact(source)
    ensures ProvenanceComplete(ToDict(n)) && !ConflictsWithMain(n, MainNodes(nodes))
    ensures !RedForPromotion(env, n)
    ensures (n.evidence.testsPassed || n.evidence.tests != "") && (n.evidence.gatesPassed || n.evidence.gates != "")
  {
    hide ConflictsWithMain, ProvenanceComplete, CandidateBranch, RedForPromotion, Compact;
    FilterMember(nodes, IsEligible(env, source, MainNodes(nodes)), n);
  }
}
