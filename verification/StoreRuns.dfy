/** What every run of store operations keeps: files in the store's own format, an index
    that is the projection of the directory, and postings that are exact. */
module StoreRuns {
  import opened Text
  import opened Sorting
  import opened Seqs
  import opened Memory
  import opened Postings
  import opened MemoryTree
  import opened Recall

  datatype Op =
    | Create(payload: Payload)
    | Update(id: string, edit: Payload -> Payload)
    | SaveRaw(content: string, sensitivity: string, safe: bool)
    | Snap(id: string)
    | Restore(id: string)

  ghost function Apply(env: Env, t: Tree, op: Op): Result {
    match op
    case Create(p) => Created(env, t, p, Never)
    case Update(id, edit) => Updated(env, t, id, edit, Never)
    case SaveRaw(content, sensitivity, safe) => RawSaved(env, t, content, sensitivity, safe)
    case Snap(id) => Snapped(t, id)
    case Restore(id) => Restored(env, t, id)
  }

  /** A run: operations that are refused leave the tree as it was. */
  ghost function Run(env: Env, t: Tree, ops: seq<Op>): Tree
    decreases |ops|
  {
    if ops == [] then t else Run(env, Apply(env, t, ops[0]).tree, ops[1..])
  }

  function EmptyTree(project: string): Tree {
    Tree(project, map[], map[], NoIndex, [], [], map[])
  }

  // ----------------------------------------------------------------- invariant

  /** A file written by the store: the complete record of a valid node of this project,
      named after the node. */
  predicate OwnFile(env: Env, project: string, files: map<string, File>, s: string) {
    && s in files && Loader(env, files)(s).Some?
    && var n := Loader(env, files)(s).value;
       files[s] == Json(ToDict(n)) && Strip(n.nodeId) == s && s != "" && Strip(n.projectId) == project
  }

  predicate OwnFiles(env: Env, project: string, files: map<string, File>) {
    forall s :: s in files ==> OwnFile(env, project, files, s)
  }

  predicate OwnSnapshots(env: Env, t: Tree) {
    forall name :: name in t.snapshots ==> OwnFiles(env, t.project, t.snapshots[name].files)
  }

  /** The index is the projection of the directory; before the first write both are empty. */
  ghost predicate Current(env: Env, t: Tree) {
    t.index == IndexOf(env, t.files) || (t.index.NoIndex? && t.files == map[])
  }

  ghost predicate Kept(env: Env, t: Tree) {
    OwnFiles(env, t.project, t.files) && OwnSnapshots(env, t) && Current(env, t)
  }

  // ------------------------------------------------------------------- writing

  lemma OwnFileFrame(env: Env, project: string, files: map<string, File>, more: map<string, File>, s: string)
    requires OwnFile(env, project, files, s) && s in more && more[s] == files[s]
    ensures OwnFile(env, project, more, s)
  {
    hide FromDict, ToDict;
  }

  lemma WrittenFileIsOwn(env: Env, files: map<string, File>, n: Node)
    requires Valid(env, n)
    ensures OwnFile(env, Strip(n.projectId), files[Strip(n.nodeId) := Json(ToDict(n))], Strip(n.nodeId))
    ensures Loader(env, files[Strip(n.nodeId) := Json(ToDict(n))])(Strip(n.nodeId)) == Some(n)
  {
    hide ToDict, Filled;
    ReloadIsIdentity(env, n);
  }

  /** A write puts down exactly the node: it reloads to itself, every other file stays,
      and the index is brought up to date. */
  lemma WriteKeeps(env: Env, t: Tree, n: Node)
    requires Kept(env, t) && Valid(env, n)
    ensures Kept(env, Written(env, t, n, Never))
    ensures Strip(n.projectId) == t.project ==>
      Loader(env, Written(env, t, n, Never).files)(Strip(n.nodeId)) == Some(n)
  {
    hide Valid, ToDict, Loader, IndexOf, OwnFile;
    if Strip(n.projectId) == t.project {
      var after := Written(env, t, n, Never);
      WrittenFileIsOwn(env, t.files, n);
      forall s | s in after.files ensures OwnFile(env, t.project, after.files, s) {
        if s != Strip(n.nodeId) {
          OwnFileFrame(env, t.project, t.files, after.files, s);
        }
      }
      assert OwnSnapshots(env, after);
    }
  }

  lemma CreateKeeps(env: Env, t: Tree, p: Payload)
    requires Kept(env, t)
    ensures Kept(env, Created(env, t, p, Never).tree)
  {
    hide Valid, Filled, Kept, Written, Load;
    if FromDict(env, p).Some? {
      WriteKeeps(env, t, FromDict(env, p).value);
    }
  }

  lemma UpdateKeeps(env: Env, t: Tree, id: string, edit: Payload -> Payload)
    requires Kept(env, t)
    ensures Kept(env, Updated(env, t, id, edit, Never).tree)
  {
    hide Valid, Filled, Kept, Written, Merged;
    var current := Load(env, t.files, Strip(id));
    if current.Some? && FromDict(env, Merged(env, current.value, edit)).Some? {
      WriteKeeps(env, t, FromDict(env, Merged(env, current.value, edit)).value);
    }
  }

  /** Whatever the edit says, an update leaves node id and project id alone and touches
      no other file. */
  lemma UpdateKeepsIdentity(env: Env, t: Tree, id: string, edit: Payload -> Payload)
    requires Kept(env, t) && Updated(env, t, id, edit, Never).Done?
    ensures
      var s, after := Strip(id), Updated(env, t, id, edit, Never).tree;
      && Loader(env, t.files)(s).Some? && Loader(env, after.files)(s).Some?
      && Loader(env, after.files)(s).value.nodeId == Loader(env, t.files)(s).value.nodeId
      && Loader(env, after.files)(s).value.projectId == Loader(env, t.files)(s).value.projectId
      && after.files.Keys == t.files.Keys
      && (forall other :: other in t.files && other != s ==> after.files[other] == t.files[other])
      && after.raws == t.raws && after.snapshots == t.snapshots
  {
    hide Valid, IndexOf, ToDict, FromDict, Merged, Updated, Kept, Loader, Written, Strip;
    var current, n := UpdateWrites(env, t, id, edit);
    OwnLoaded(env, t, Strip(id));
    WrittenShape(env, t, n);
  }

  lemma OwnLoaded(env: Env, t: Tree, s: string)
    requires Kept(env, t) && Loader(env, t.files)(s).Some?
    ensures s in t.files && Strip(Loader(env, t.files)(s).value.nodeId) == s
    ensures Strip(Loader(env, t.files)(s).value.projectId) == t.project
  {
    hide ToDict, FromDict, IndexOf;
    assert OwnFile(env, t.project, t.files, s);
  }

  lemma WrittenShape(env: Env, t: Tree, n: Node)
    requires Valid(env, n) && Strip(n.projectId) == t.project
    ensures
      var s, after := Strip(n.nodeId), Written(env, t, n, Never);
      && after == t.(files := after.files, index := after.index, usage := after.usage)
      && after.files == t.files[s := Json(ToDict(n))]
      && Loader(env, after.files)(s) == Some(n)
  {
    hide Valid, ToDict, Loader, IndexOf, FromDict;
    WrittenFileIsOwn(env, t.files, n);
  }

  /** A successful update writes the validated merge of the stored node. */
  lemma UpdateWrites(env: Env, t: Tree, id: string, edit: Payload -> Payload) returns (current: Node, n: Node)
    requires Updated(env, t, id, edit, Never).Done?
    ensures Loader(env, t.files)(Strip(id)) == Some(current)
    ensures FromDict(env, Merged(env, current, edit)) == Some(n) && Valid(env, n)
    ensures n.nodeId == current.nodeId && n.projectId == current.projectId
    ensures Updated(env, t, id, edit, Never).tree == Written(env, t, n, Never)
  {
    hide Valid, Filled, Written, Merged;
    current := Load(env, t.files, Strip(id)).value;
    n := FromDict(env, Merged(env, current, edit)).value;
    MergedKeepsIdentity(env, current, edit);
  }

  lemma MergedKeepsIdentity(env: Env, current: Node, edit: Payload -> Payload)
    requires FromDict(env, Merged(env, current, edit)).Some?
    ensures FromDict(env, Merged(env, current, edit)).value.nodeId == current.nodeId
    ensures FromDict(env, Merged(env, current, edit)).value.projectId == current.projectId
  {
    hide Valid;
  }

  lemma RestoreKeeps(env: Env, t: Tree, id: string)
    requires Kept(env, t)
    ensures Kept(env, Restored(env, t, id).tree)
  {
    hide IndexOf, OwnFile;
    var name := Strip(id);
    if name in t.snapshots {
      assert OwnFiles(env, t.project, t.snapshots[name].files);
    }
  }

  lemma CreateStep(env: Env, t: Tree, op: Op)
    requires Kept(env, t) && op.Create?
    ensures Kept(env, Apply(env, t, op).tree)
  {
    hide Kept, Created;
    CreateKeeps(env, t, op.payload);
  }

  lemma UpdateStep(env: Env, t: Tree, op: Op)
    requires Kept(env, t) && op.Update?
    ensures Kept(env, Apply(env, t, op).tree)
  {
    hide Kept, Updated;
    UpdateKeeps(env, t, op.id, op.edit);
  }

  /** Raw files and snapshots of own files do not touch the rest. */
  lemma SideStep(env: Env, t: Tree, op: Op)
    requires Kept(env, t) && (op.SaveRaw? || op.Snap?)
    ensures Kept(env, Apply(env, t, op).tree)
  {
    hide IndexOf, OwnFile;
    var after := Apply(env, t, op).tree;
    assert after.files == t.files && after.index == t.index && after.project == t.project;
  }

  lemma RestoreStep(env: Env, t: Tree, op: Op)
    requires Kept(env, t) && op.Restore?
    ensures Kept(env, Apply(env, t, op).tree)
  {
    hide Kept, Restored;
    RestoreKeeps(env, t, op.id);
  }

  lemma StepKeeps(env: Env, t: Tree, op: Op)
    requires Kept(env, t)
    ensures Kept(env, Apply(env, t, op).tree)
  {
    hide Kept, Apply;
    match op {
      case Create(_) => CreateStep(env, t, op);
      case Update(_, _) => UpdateStep(env, t, op);
      case SaveRaw(_, _, _) => SideStep(env, t, op);
      case Snap(_) => SideStep(env, t, op);
      case Restore(_) => RestoreStep(env, t, op);
    }
  }

  /** The invariant holds after every run from an empty tree. */
  lemma {:induction false} RunKeeps(env: Env, t: Tree, ops: seq<Op>)
    requires Kept(env, t)
    ensures Kept(env, Run(env, t, ops))
    decreases |ops|
  {
    hide Kept, Apply;
    if ops != [] {
      StepKeeps(env, t, ops[0]);
      RunKeeps(env, Apply(env, t, ops[0]).tree, ops[1..]);
    }
  }

  lemma EmptyIsKept(env: Env, project: string)
    ensures Kept(env, EmptyTree(project))
  {
  }

  // ------------------------------------------------------------- what it gives

  /** In every reachable tree that has an index: its entries are the projections of the
      listed nodes, and a token's posting is the sorted, duplicate-free sequence of
      exactly the ids of the listed nodes holding it. */
  lemma IndexIsExact(env: Env, project: string, ops: seq<Op>, token: string, id: string)
    ensures
      var t := Run(env, EmptyTree(project), ops);
      t.index.Index? ==>
        && t.index.entries == Mapped(Listed(env, t.files), ToEntry())
        && (token in t.index.postings <==> exists n :: n in Listed(env, t.files) && TokenOf(env, n, token))
        && (token in t.index.postings ==>
              && StrictlySorted(t.index.postings[token], Less) && NoDup(t.index.postings[token])
              && (id in t.index.postings[token] <==>
                    exists n :: n in Listed(env, t.files) && n.nodeId == id && TokenOf(env, n, token)))
  {
    hide Run, Listed, EntryTokens, OwnFiles, OwnSnapshots;
    EmptyIsKept(env, project);
    RunKeeps(env, EmptyTree(project), ops);
    var t := Run(env, EmptyTree(project), ops);
    if t.index.Index? {
      PostingsOfNodes(env, Listed(env, t.files), token, id);
    }
  }

  predicate TokenOf(env: Env, n: Node, token: string) {
    n.nodeId != "" && token in EntryTokens(env, IndexEntry(n))
  }

  lemma PostingsOfNodes(env: Env, nodes: seq<Node>, token: string, id: string)
    ensures
      var postings := IndexOver(env, nodes).postings;
      && (token in postings <==> exists n :: n in nodes && TokenOf(env, n, token))
      && (token in postings ==>
            && StrictlySorted(postings[token], Less) && NoDup(postings[token])
            && (id in postings[token] <==> exists n :: n in nodes && n.nodeId == id && TokenOf(env, n, token)))
  {
    hide EntryTokens, PostingsOf;
    var tags := Mapped(Mapped(nodes, ToEntry()), Tag(env));
    PostingsExact(tags, token, id);
    forall i | 0 <= i < |nodes| ensures Carries(tags[i], token) <==> TokenOf(env, nodes[i], token)
      ensures tags[i].id == nodes[i].nodeId
    {
      EntryKeepsId(nodes[i]);
    }
    if i :| 0 <= i < |tags| && Carries(tags[i], token) {
      assert nodes[i] in nodes;
    }
    if n :| n in nodes && TokenOf(env, n, token) {
      var i :| 0 <= i < |nodes| && nodes[i] == n;
      assert Carries(tags[i], token);
    }
    if i :| 0 <= i < |tags| && Carries(tags[i], token) && tags[i].id == id {
      assert nodes[i] in nodes;
    }
    if n :| n in nodes && n.nodeId == id && TokenOf(env, n, token) {
      var i :| 0 <= i < |nodes| && nodes[i] == n;
      assert Carries(tags[i], token);
    }
  }

  // ------------------------------------------------------------- padded ids

  predicate TrimmedFiles(env: Env, files: map<string, File>) {
    forall s :: s in files && Loader(env, files)(s).Some? ==> Trimmed(Loader(env, files)(s).value.nodeId)
  }

  /** With trimmed ids a reachable tree is in order for recall. */
  lemma ReachableIsInOrder(env: Env, t: Tree)
    requires Kept(env, t) && t.index.Index? && TrimmedFiles(env, t.files)
    ensures InOrder(env, t, t.files.Keys)
  {
    hide IndexOf, ToDict, Loader, Strip, Trimmed;
    assert Restrict(t.files, t.files.Keys) == t.files;
    forall s | s in t.files ensures StoredAs(env, t.files, s) {
      assert OwnFile(env, t.project, t.files, s);
      StripTrimmed(Loader(env, t.files)(s).value.nodeId);
    }
  }

  /** Validation strips an id before it looks at it, and the file is named after the
      stripped id. So the index represents every file exactly when every id is trimmed:
      a padded id leaves its file outside the index as well as inside. */
  lemma IndexRepresentsIffTrimmed(env: Env, t: Tree)
    requires Kept(env, t) && t.index.Index?
    ensures UnindexedStems(t.files, t.index) == [] <==> TrimmedFiles(env, t.files)
  {
    hide ToDict, Loader, Strip, Trimmed, FromDict, PostingsOf, Listed;
    UnindexedProperties(t.files, t.index);
    forall s | s in t.files
      ensures s in UnindexedStems(t.files, t.index) <==> !Trimmed(Loader(env, t.files)(s).value.nodeId)
    {
      StemIndexedIffTrimmed(env, t, s);
    }
    var un := UnindexedStems(t.files, t.index);
    if un != [] {
      assert un[0] in un;
    }
  }

  lemma StemIndexedIffTrimmed(env: Env, t: Tree, s: string)
    requires Kept(env, t) && t.index.Index? && s in t.files
    ensures Loader(env, t.files)(s).Some?
    ensures s in IndexedIds(t.index) <==> Trimmed(Loader(env, t.files)(s).value.nodeId)
  {
    hide ToDict, Loader, Strip, Trimmed, FromDict, PostingsOf, Listed, IndexEntry;
    var nodes := Listed(env, t.files);
    assert OwnFile(env, t.project, t.files, s);
    var n := Loader(env, t.files)(s).value;
    StripTrimmed(n.nodeId);
    if s in IndexedIds(t.index) {
      var k :| 0 <= k < |t.index.entries| && Carried(t.index.entries[k]) && t.index.entries[k].nodeId.value == s;
      EntryKeepsId(nodes[k]);
      ListedMember(env, t.files, nodes[k]);
      var f :| f in t.files && Loader(env, t.files)(f) == Some(nodes[k]);
      assert OwnFile(env, t.project, t.files, f);
      StripTrimmed(s);
    }
    if Trimmed(n.nodeId) {
      ListedMember(env, t.files, n);
      var k :| 0 <= k < |nodes| && nodes[k] == n;
      EntryKeepsId(n);
      assert Carried(t.index.entries[k]) && t.index.entries[k].nodeId.value == s;
    }
  }
}
