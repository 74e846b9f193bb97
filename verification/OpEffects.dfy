/** What one step of a transaction does to the stored nodes. */
module OpEffects {
  import opened Text
  import opened Seqs
  import opened Memory
  import opened MemoryTree
  import opened StoreRuns
  import opened Transactions

  // ------------------------------------------------------------------- names

  predicate NamedAs(n: Node, project: string, s: string) {
    Strip(n.nodeId) == s && Strip(n.projectId) == project
  }

  /** Every file that loads holds a node of the project and is named after its id. */
  predicate Named(env: Env, project: string, files: map<string, File>) {
    forall s :: s in files && Loader(env, files)(s).Some? ==> NamedAs(Loader(env, files)(s).value, project, s)
  }

  lemma NamedNode(env: Env, project: string, files: map<string, File>, s: string)
    requires Named(env, project, files) && Loader(env, files)(s).Some?
    ensures s in files && NamedAs(Loader(env, files)(s).value, project, s) && Valid(env, Loader(env, files)(s).value)
    ensures s != "" && SafeSegment(s)
  {
    hide Valid, Filled, Strip;
    ValidHasStem(env, Loader(env, files)(s).value);
  }

  lemma ValidHasStem(env: Env, n: Node)
    requires Valid(env, n)
    ensures SafeSegment(Strip(n.nodeId)) && Strip(n.nodeId) != ""
  {
    hide Strip, Contains;
  }

  lemma OwnIsNamed(env: Env, project: string, files: map<string, File>)
    requires OwnFiles(env, project, files)
    ensures Named(env, project, files)
  {
    hide FromDict, ToDict, Strip;
    forall s | s in files ensures OwnFile(env, project, files, s) {
    }
  }

  // ------------------------------------------------------------------- writes

  /** The node an update turns the stored one into. */
  function OpNode(env: Env, op: PlanOp, n: Node): Node {
    match op
    case Mark(d) => n.(quality := MarkedQuality(n.quality, d.canonical), updatedAt := env.now)
    case Supersede(_) => n.(quality := SupersededQuality(n.quality), updatedAt := env.now)
    case AddLink(l) => n.(links := WithLink(n.links, l.relation, l.target, l.evidence), updatedAt := env.now)
    case MakeHub(_) => n
    case Promote(_, source, destination) =>
      n.(branch := destination, visibility := MAIN_PROMOTED, promotionStatus := "promoted",
         evidence := PromotedEvidence(env, n.evidence, source, destination), updatedAt := env.now)
  }

  lemma MergedIsOpNode(env: Env, current: Node, op: PlanOp)
    requires !op.MakeHub?
    ensures Filled(env, Merged(env, current, EditOf(env, op))) == OpNode(env, op, current)
  {
  }

  /** A file map after a write of a node under its stripped id. */
  function Put(files: map<string, File>, n: Node): map<string, File> {
    files[Strip(n.nodeId) := Json(ToDict(n))]
  }

  predicate PutOf(files: map<string, File>, after: map<string, File>, n: Node) {
    after == files || after == Put(files, n)
  }

  lemma WriteResultFiles(env: Env, t: Tree, n: Node, stop: Stop)
    requires Strip(n.projectId) == t.project
    ensures var r := WriteResult(env, t, n, stop);
      && PutOf(t.files, r.tree.files, n)
      && (r.Done? ==> r.tree.files == Put(t.files, n) && r.tree.index == IndexOf(env, r.tree.files))
      && (r.tree.index == t.index || r.tree.index == IndexOf(env, r.tree.files))
      && (r.Failed? ==> stop != Never)
  {
    hide IndexOf, ToDict, Strip;
  }

  /** An update writes the changed node over the stored one, or nothing. */
  lemma UpdateEffect(env: Env, t: Tree, op: PlanOp, stop: Stop)
    requires Named(env, t.project, t.files) && !op.MakeHub?
    ensures var r, s := ApplyOp(env, t, op, stop), Strip(TargetId(op));
      && (r.tree.files == t.files
          || (Loader(env, t.files)(s).Some? && Strip(Loader(env, t.files)(s).value.nodeId) == s
              && Valid(env, OpNode(env, op, Loader(env, t.files)(s).value))
              && r.tree.files == Put(t.files, OpNode(env, op, Loader(env, t.files)(s).value))))
      && (r.Done? ==>
            && Loader(env, t.files)(s).Some? && Strip(Loader(env, t.files)(s).value.nodeId) == s
            && Valid(env, OpNode(env, op, Loader(env, t.files)(s).value))
            && r.tree.files == Put(t.files, OpNode(env, op, Loader(env, t.files)(s).value))
            && r.tree.index == IndexOf(env, r.tree.files))
      && (r.tree.index == t.index || r.tree.index == IndexOf(env, r.tree.files))
  {
    hide Valid, Filled, WriteResult, Merged, EditOf, OpNode, Named, SafeSegment, IndexOf, Put, Strip;
    var s := Strip(TargetId(op));
    var current := Load(env, t.files, s);
    if current.Some? {
      NamedNode(env, t.project, t.files, s);
      MergedIsOpNode(env, current.value, op);
      OpKeepsIdentity(env, op, current.value);
      var n := OpNode(env, op, current.value);
      if Valid(env, n) {
        WriteResultFiles(env, t, n, stop);
      }
    }
  }

  lemma OpKeepsIdentity(env: Env, op: PlanOp, n: Node)
    ensures var m := OpNode(env, op, n);
      m.nodeId == n.nodeId && m.projectId == n.projectId && m.createdOnBranch == n.createdOnBranch
      && m.topicTags == n.topicTags && (!op.Promote? ==> m.visibility == n.visibility && m.branch == n.branch)
  {
  }

  lemma OwnNode(env: Env, project: string, files: map<string, File>, s: string)
    requires OwnFiles(env, project, files) && s in files
    ensures Loader(env, files)(s).Some?
    ensures var n := Loader(env, files)(s).value;
      files[s] == Json(ToDict(n)) && Strip(n.nodeId) == s && s != "" && Strip(n.projectId) == project && Valid(env, n)
  {
    hide ToDict, Valid, Filled;
    assert OwnFile(env, project, files, s);
  }

  /** A hub is written under an id no stored node has, or not at all. */
  lemma HubEffect(env: Env, t: Tree, p: Payload, stop: Stop)
    ensures var r := ApplyOp(env, t, MakeHub(p), stop);
      && (r.tree.files == t.files
          || (FromDict(env, p).Some? && Strip(FromDict(env, p).value.projectId) == t.project
              && Loader(env, t.files)(Strip(FromDict(env, p).value.nodeId)).Absent?
              && r.tree.files == Put(t.files, FromDict(env, p).value)))
      && (r.Done? && FromDict(env, p).Some? && Strip(FromDict(env, p).value.projectId) == t.project ==>
            && r.tree.files == Put(t.files, FromDict(env, p).value)
            && Loader(env, t.files)(Strip(FromDict(env, p).value.nodeId)).Absent?
            && r.tree.index == IndexOf(env, r.tree.files))
      && (r.Done? ==> FromDict(env, p).Some?)
      && (r.tree.index == t.index || r.tree.index == IndexOf(env, r.tree.files))
  {
    hide Valid, Filled, WriteResult, IndexOf, Put;
    if FromDict(env, p).Some? {
      var n := FromDict(env, p).value;
      if Strip(n.projectId) == t.project {
        WriteResultFiles(env, t, n, stop);
      } else {
        ElsewhereWrite(env, t, n, stop);
      }
    }
  }

  lemma ElsewhereWrite(env: Env, t: Tree, n: Node, stop: Stop)
    requires Strip(n.projectId) != t.project
    ensures WriteResult(env, t, n, stop).tree == t
  {
  }

  /** Writing a valid node keeps the store's format, whatever the file held. */
  lemma PutKeepsOwn(env: Env, project: string, files: map<string, File>, n: Node)
    requires OwnFiles(env, project, files) && Valid(env, n) && Strip(n.projectId) == project
    ensures OwnFiles(env, project, Put(files, n))
    ensures Loader(env, Put(files, n))(Strip(n.nodeId)) == Some(n)
    ensures forall s :: s != Strip(n.nodeId) ==> Loader(env, Put(files, n))(s) == Loader(env, files)(s)
  {
    hide ToDict, Valid, Filled, OwnFile, Strip;
    WrittenFileIsOwn(env, files, n);
    forall s | s in Put(files, n) ensures OwnFile(env, project, Put(files, n), s) {
      if s != Strip(n.nodeId) {
        OwnFileFrame(env, project, files, Put(files, n), s);
      }
    }
  }

  lemma LoaderPut(env: Env, files: map<string, File>, n: Node)
    requires Valid(env, n)
    ensures Loader(env, Put(files, n))(Strip(n.nodeId)) == Some(n)
    ensures forall s :: s != Strip(n.nodeId) ==> Loader(env, Put(files, n))(s) == Loader(env, files)(s)
  {
    hide ToDict, Valid, Filled, Strip;
    ReloadIsIdentity(env, n);
  }

  /** Writing a valid node keeps every file named, whatever the file held. */
  lemma PutKeepsNamed(env: Env, project: string, files: map<string, File>, n: Node)
    requires Named(env, project, files) && Valid(env, n) && Strip(n.projectId) == project
    ensures Named(env, project, Put(files, n))
    ensures Loader(env, Put(files, n))(Strip(n.nodeId)) == Some(n)
    ensures forall s :: s != Strip(n.nodeId) ==> Loader(env, Put(files, n))(s) == Loader(env, files)(s)
  {
    hide ToDict, Valid, Loader, Strip;
    LoaderPut(env, files, n);
  }
}
