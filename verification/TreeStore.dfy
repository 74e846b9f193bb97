/** The store itself: a class whose methods change the node files, the raw files, the
    index, the logs and the snapshots in place. Each method is proved against the
    operation of the same name on tree values. */
module TreeStores {
  import opened Text
  import opened Sorting
  import opened Seqs
  import opened Memory
  import opened Postings
  import opened MemoryTree

  method AllFilesValid(env: Env, project: string, files: map<string, File>) returns (ok: bool)
    ensures ok == forall f :: f in files ==> FileValid(env, project, files, f)
  {
    var rest := files.Keys;
    while rest != {}
      invariant rest <= files.Keys
      invariant forall f :: f in files && f !in rest ==> FileValid(env, project, files, f)
    {
      var f :| f in rest;
      if !FileValid(env, project, files, f) {
        return false;
      }
      rest := rest - {f};
    }
    ok := true;
  }

  method AllRawsSafe(env: Env, raws: map<string, string>) returns (ok: bool)
    ensures ok == forall d :: d in raws ==> !env.red(FText(raws[d]))
  {
    var rest := raws.Keys;
    while rest != {}
      invariant rest <= raws.Keys
      invariant forall d :: d in raws && d !in rest ==> !env.red(FText(raws[d]))
    {
      var d :| d in rest;
      if env.red(FText(raws[d])) {
        return false;
      }
      rest := rest - {d};
    }
    ok := true;
  }

  class TreeStore {
    const env: Env
    const project: string
    var files: map<string, File>
    var raws: map<string, string>
    var index: Index
    var usage: seq<string>
    var links: seq<string>
    var snapshots: map<string, Snapshot>

    constructor (env: Env, project: string)
      ensures this.env == env
      ensures State() == Tree(project, map[], map[], NoIndex, [], [], map[])
    {
      this.env := env;
      this.project := project;
      files, raws, index, usage, links, snapshots := map[], map[], NoIndex, [], [], map[];
    }

    ghost function State(): Tree
      reads this
    {
      Tree(project, files, raws, index, usage, links, snapshots)
    }

    method ListNodes() returns (nodes: seq<Node>)
      ensures nodes == Listed(env, files)
    {
      FileLessIsStrict(files.Keys);
      var stems := Enumerate(files.Keys, FileLess);
      nodes := [];
      for i := 0 to |stems|
        invariant nodes == Collect(stems[..i], Loader(env, files))
      {
        CollectStep(stems, Loader(env, files), i);
        var loaded := Loader(env, files)(stems[i]);
        if loaded.Some? {
          nodes := nodes + [loaded.value];
        }
      }
      assert stems[..|stems|] == stems;
    }

    method WriteIndex()
      modifies this`index
      ensures index == IndexOf(env, files)
    {
      var nodes := ListNodes();
      var entries := Mapped(nodes, ToEntry());
      var postings := BuildPostings(Mapped(entries, Tag(env)));
      index := Index(entries, postings);
    }

    method WriteNode(n: Node, stop: Stop) returns (ok: bool)
      modifies this
      ensures State() == Written(env, old(State()), n, stop)
      ensures ok == stop.Never?
    {
      ok := stop.Never?;
      if Strip(n.projectId) != project || stop.AtNode? {
        return;
      }
      files := files[Strip(n.nodeId) := Json(ToDict(n))];
      if stop.AtIndex? {
        return;
      }
      WriteIndex();
      if stop.AtUsage? {
        return;
      }
      usage := usage + [n.nodeId];
    }

    method CreateNode(p: Payload, stop: Stop) returns (ok: bool)
      modifies this
      ensures Created(env, old(State()), p, stop) == if ok then Done(State()) else Failed(State())
    {
      var loaded := FromDict(env, p);
      if loaded.Absent? {
        return false;
      }
      var n := loaded.value;
      if Strip(n.projectId) == project && Load(env, files, Strip(n.nodeId)).Some? {
        return false;
      }
      ok := WriteNode(n, stop);
    }

    method UpdateNode(id: string, edit: Payload -> Payload, stop: Stop) returns (ok: bool)
      modifies this
      ensures Updated(env, old(State()), id, edit, stop) == if ok then Done(State()) else Failed(State())
    {
      if !SafeSegment(Strip(id)) {
        return false;
      }
      var current := Load(env, files, Strip(id));
      if current.Absent? {
        return false;
      }
      var n := FromDict(env, Merged(env, current.value, edit));
      if n.Absent? {
        return false;
      }
      ok := WriteNode(n.value, stop);
    }

    method SaveRaw(content: string, sensitivity: string, safe: bool) returns (ok: bool)
      modifies this`raws
      ensures RawSaved(env, old(State()), content, sensitivity, safe) == if ok then Done(State()) else Failed(State())
    {
      if (sensitivity != "GREEN" && sensitivity != "YELLOW") || !safe || env.red(FText(content)) {
        return false;
      }
      var digest := env.sha(content);
      raws := raws[digest := content];
      ok := true;
    }

    method SnapshotTree(id: string) returns (ok: bool, name: string)
      modifies this`snapshots
      ensures Snapped(old(State()), SnapshotId(env, id)) == if ok then Done(State()) else Failed(State())
      ensures name == Strip(SnapshotId(env, id))
    {
      var given := SnapshotId(env, id);
      ok := TakeSnapshot(given);
      name := Strip(given);
    }

    /** A snapshot under a given id, which transactions always have. */
    method TakeSnapshot(id: string) returns (ok: bool)
      modifies this`snapshots
      ensures Snapped(old(State()), id) == if ok then Done(State()) else Failed(State())
    {
      var name := Strip(id);
      if !SafeSegment(name) || name in snapshots {
        return false;
      }
      snapshots := snapshots[name := Snapshot(project, files, raws, index, usage, links)];
      ok := true;
    }

    /** `_validate_snapshot` over the node files and then over the raw files. */
    method ValidateSnapshot(s: Snapshot) returns (ok: bool)
      ensures ok == SnapshotValid(env, project, s)
    {
      ok := AllFilesValid(env, project, s.files);
      if ok {
        ok := AllRawsSafe(env, s.raws);
      }
    }

    method RestoreSnapshot(id: string) returns (ok: bool)
      modifies this
      ensures Restored(env, old(State()), id) == if ok then Done(State()) else Failed(State())
    {
      hide IndexOf, SnapshotValid;
      var name := Strip(id);
      if !SafeSegment(name) || name !in snapshots {
        return false;
      }
      var s := snapshots[name];
      if s.project != project {
        return false;
      }
      var valid := ValidateSnapshot(s);
      if !valid {
        return false;
      }
      files := CopyInto(files, s.files);
      raws := CopyInto(raws, s.raws);
      index, usage, links := s.index, s.usage, s.links;
      WriteIndex();
      ok := true;
    }
  }

  /** Restore of one directory: every file there is removed, then every file of the
      snapshot is written. */
  method CopyInto<V>(target: map<string, V>, source: map<string, V>) returns (r: map<string, V>)
    ensures r == source
  {
    r := target;
    var rest := target.Keys;
    while rest != {}
      invariant r.Keys == rest
    {
      var k :| k in rest;
      r := r - {k};
      rest := rest - {k};
    }
    rest := source.Keys;
    while rest != {}
      invariant rest <= source.Keys && r.Keys == source.Keys - rest
      invariant forall k :: k in r ==> r[k] == source[k]
    {
      var k :| k in rest;
      r := r[k := source[k]];
      rest := rest - {k};
    }
  }
}
