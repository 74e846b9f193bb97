/** The memory tree of one project as a value: node files, raw files, the index with
    its postings, the two logs and the snapshots, and what each store operation
    makes of them. */
module MemoryTree {
  import opened Text
  import opened Sorting
  import opened Seqs
  import opened Memory
  import opened PyRepr
  import opened Postings

  datatype File = Unreadable | Json(payload: Payload)

  datatype Index = NoIndex | Index(entries: seq<Payload>, postings: map<string, seq<string>>)

  datatype Snapshot = Snapshot(
    project: string, files: map<string, File>, raws: map<string, string>, index: Index,
    usage: seq<string>, links: seq<string>)

  /** `files` maps the stem of a node file to its content; `usage` and `links` are the
      lines of the two logs. */
  datatype Tree = Tree(
    project: string, files: map<string, File>, raws: map<string, string>, index: Index,
    usage: seq<string>, links: seq<string>, snapshots: map<string, Snapshot>)

  datatype Result = Done(tree: Tree) | Failed(tree: Tree)

  /** Where a disk failure stops the three writes of one node. */
  datatype Stop = Never | AtNode | AtIndex | AtUsage

  // ------------------------------------------------------------------- listing

  /** Directory order: file names, so the suffix takes part in the comparison. */
  predicate FileLess(a: string, b: string) {
    Less(a + ".json", b + ".json")
  }

  lemma SuffixInjective(a: string, b: string, suffix: string)
    ensures a + suffix == b + suffix ==> a == b
  {
    assert |a| == |b| ==> (a + suffix)[..|a|] == a && (b + suffix)[..|a|] == b;
  }

  lemma FileLessIsStrict(s: set<string>)
    ensures StrictOrderOn(FileLess, s)
  {
    forall a | a in s ensures !FileLess(a, a) { LessIrreflexive(a + ".json"); }
    forall a, b | a in s && b in s && a != b ensures FileLess(a, b) || FileLess(b, a) {
      SuffixInjective(a, b, ".json");
      LessTotal(a + ".json", b + ".json");
    }
    forall a, b, c | a in s && b in s && c in s && FileLess(a, b) && FileLess(b, c) ensures FileLess(a, c) {
      LessTransitive(a + ".json", b + ".json", c + ".json");
    }
  }

  ghost function Stems(files: map<string, File>): seq<string> {
    Listing(files.Keys, FileLess)
  }

  lemma StemsProperties(files: map<string, File>)
    ensures StrictlySorted(Stems(files), FileLess) && NoDup(Stems(files))
    ensures Elements(Stems(files)) == files.Keys
    ensures forall s :: s in Stems(files) <==> s in files
  {
    FileLessIsStrict(files.Keys);
    ListingSorted(files.Keys, FileLess);
  }

  /** `load_node`: absent for a missing, unreadable or invalid file. */
  function Load(env: Env, files: map<string, File>, stem: string): (r: Option<Node>)
    ensures r.Some? ==> stem in files
  {
    if stem in files && files[stem].Json? then FromDict(env, files[stem].payload) else Absent
  }

  function Loader(env: Env, files: map<string, File>): string -> Option<Node> {
    (stem: string) => Load(env, files, stem)
  }

  /** `list_nodes`: the nodes that load, in file order. */
  ghost function Listed(env: Env, files: map<string, File>): seq<Node> {
    Collect(Stems(files), Loader(env, files))
  }

  lemma ListedMember(env: Env, files: map<string, File>, n: Node)
    ensures n in Listed(env, files) <==> exists s :: s in files && Loader(env, files)(s) == Some(n)
  {
    StemsProperties(files);
    CollectMember(Stems(files), Loader(env, files), n);
  }

  // ---------------------------------------------------------------- the index

  /** The index keeps everything recall reads; three keys are dropped and the raw
      reference is cut down to its digest. */
  function IndexEntry(n: Node): Payload {
    ToDict(n).(
      schemaVersion := Absent, evidence := Absent, compactionReason := Absent,
      rawRef := match n.rawRef case Some(r) => Some(RawRef(r.digest, false)) case Absent => Absent)
  }

  function TriggerText(env: Env, trigger: seq<Pair>): string {
    Join(Mapped(trigger, (p: Pair) => StrVal(env, p.val)), " ")
  }

  function LinksText(env: Env, links: seq<Link>): string {
    Join(Mapped(links, l => ReprLink(env, l)), " ")
  }

  function SearchParts(env: Env, e: Payload): seq<string> {
    [e.summary, TriggerText(env, e.trigger.GetOr([])), Join(e.entities.GetOr([]), " "),
     Join(e.sourcePaths.GetOr([]), " "), Join(e.topicTags.GetOr([]), " "), LinksText(env, e.links.GetOr([]))]
  }

  function SearchBlob(env: Env, e: Payload): string {
    Lower(Join(SearchParts(env, e), " "))
  }

  /** Posting tokens: the maximal token runs of at least three characters. */
  function EntryTokens(env: Env, e: Payload): set<string> {
    var runs := Runs(SearchBlob(env, e), IsTokenChar);
    set i | 0 <= i < |runs| && |runs[i]| >= 3 :: runs[i]
  }

  function Tag(env: Env): Payload -> Tagged {
    (e: Payload) => Tagged(e.nodeId.GetOr(""), EntryTokens(env, e))
  }

  function ToEntry(): Node -> Payload {
    (n: Node) => IndexEntry(n)
  }

  /** The index over a list of nodes. */
  ghost function IndexOver(env: Env, nodes: seq<Node>): Index {
    var entries := Mapped(nodes, ToEntry());
    Index(entries, PostingsOf(Mapped(entries, Tag(env))))
  }

  /** The index `_write_index` builds from a directory. */
  ghost function IndexOf(env: Env, files: map<string, File>): Index {
    IndexOver(env, Listed(env, files))
  }

  // ---------------------------------------------------------------- operations

  /** `_write_node`, stopped by a disk failure or not. A node of another project is
      written into that project's tree. */
  ghost function Written(env: Env, t: Tree, n: Node, stop: Stop): Tree {
    if Strip(n.projectId) != t.project || stop.AtNode? then t
    else
      var files := t.files[Strip(n.nodeId) := Json(ToDict(n))];
      if stop.AtIndex? then t.(files := files)
      else if stop.AtUsage? then t.(files := files, index := IndexOf(env, files))
      else t.(files := files, index := IndexOf(env, files), usage := t.usage + [n.nodeId])
  }

  ghost function WriteResult(env: Env, t: Tree, n: Node, stop: Stop): Result {
    if stop.Never? then Done(Written(env, t, n, stop)) else Failed(Written(env, t, n, stop))
  }

  ghost function Created(env: Env, t: Tree, p: Payload, stop: Stop): Result {
    match FromDict(env, p)
    case Absent => Failed(t)
    case Some(n) =>
      if Strip(n.projectId) == t.project && Load(env, t.files, Strip(n.nodeId)).Some? then Failed(t)
      else WriteResult(env, t, n, stop)
  }

  /** `{**current, **updates}`: any change of the record, after which the identity of
      the node is put back and the stamp renewed. */
  function Merged(env: Env, current: Node, edit: Payload -> Payload): Payload {
    var m := edit(ToDict(current));
    m.(nodeId := Some(current.nodeId), projectId := current.projectId, updatedAt := Some(env.now))
  }

  ghost function Updated(env: Env, t: Tree, id: string, edit: Payload -> Payload, stop: Stop): Result {
    if !SafeSegment(Strip(id)) then Failed(t) else
    match Load(env, t.files, Strip(id))
    case Absent => Failed(t)
    case Some(current) =>
      match FromDict(env, Merged(env, current, edit))
      case Absent => Failed(t)
      case Some(n) => WriteResult(env, t, n, stop)
  }

  function RawSaved(env: Env, t: Tree, content: string, sensitivity: string, safe: bool): Result {
    if (sensitivity != "GREEN" && sensitivity != "YELLOW") || !safe || env.red(FText(content)) then Failed(t)
    else Done(t.(raws := t.raws[env.sha(content) := content]))
  }

  /** What a snapshot holds of the tree. */
  function SnapshotOf(t: Tree): Snapshot {
    Snapshot(t.project, t.files, t.raws, t.index, t.usage, t.links)
  }

  /** An empty snapshot id is replaced by one made from the time. */
  function SnapshotId(env: Env, id: string): string {
    if id == "" then "snapshot_" + Replace(Replace(env.now, ":", ""), "+", "Z") else id
  }

  function Snapped(t: Tree, id: string): Result {
    var name := Strip(id);
    if !SafeSegment(name) || name in t.snapshots then Failed(t)
    else Done(t.(snapshots := t.snapshots[name := SnapshotOf(t)]))
  }

  predicate FileValid(env: Env, project: string, files: map<string, File>, stem: string) {
    Load(env, files, stem).Some? && Load(env, files, stem).value.projectId == project
  }

  /** The conditions `_validate_snapshot` checks. */
  predicate SnapshotValid(env: Env, project: string, s: Snapshot) {
    && (forall f :: f in s.files ==> FileValid(env, project, s.files, f))
    && (forall d :: d in s.raws ==> !env.red(FText(s.raws[d])))
  }

  ghost function Restored(env: Env, t: Tree, id: string): Result {
    var name := Strip(id);
    if !SafeSegment(name) || name !in t.snapshots then Failed(t)
    else
      var s := t.snapshots[name];
      if s.project != t.project || !SnapshotValid(env, t.project, s) then Failed(t)
      else
        Done(t.(files := s.files, raws := s.raws, usage := s.usage, links := s.links,
          index := IndexOf(env, s.files)))
  }
}
