/** The steps a tree's life is made of: creations, consolidations and promotions, whatever
    disk failure they meet and however they end. */
module TreeSteps {
  import opened Memory
  import opened MemoryTree
  import opened Transactions
  import opened BranchPromotion

  datatype Step =
    | Add(payload: Payload, stop: Stop)
    | Consolidate(branch: string, name: string, fault: Fault)
    | PromoteBranch(source: string, destination: string, name: string, fault: Fault)

  ghost function After(env: Env, t: Tree, step: Step): Tree {
    match step
    case Add(p, stop) => Created(env, t, p, stop).tree
    case Consolidate(branch, name, fault) => Consolidated(env, t, branch, name, fault).tree
    case PromoteBranch(source, destination, name, fault) => Promoted(env, t, source, destination, name, fault).tree
  }

  ghost function AfterAll(env: Env, t: Tree, steps: seq<Step>): Tree
    decreases |steps|
  {
    if steps == [] then t else AfterAll(env, After(env, t, steps[0]), steps[1..])
  }
}
