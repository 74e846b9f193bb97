/** The compaction pass: candidates built from runtime files are deduplicated against the
    tree and each other, and stored. */
module Compaction {
  import opened Text
  import opened Seqs
  import opened Memory
  import opened MemoryTree
  import opened TreeStores

  // ------------------------------------------------------------------------ keys

  /** The three keys two records may not share; a record without a source hash has none. */
  datatype Keys = Keys(source: Option<string>, summary: string, path: string)

  function HashOf(p: Payload): string {
    p.quality.GetOr(NO_QUALITY).sourceHash
  }

  function PathKey(p: Payload): string {
    p.memoryType + "|" + Join(p.sourcePaths.GetOr([]), "|")
  }

  /** `candidate_keys`. The candidate's source hash is the one in its quality. */
  function KeysOf(p: Payload): Keys {
    Keys(Some(HashOf(p)), Normalize(p.summary), PathKey(p))
  }

  /** The keys `existing_keys` takes from a stored node. */
  function StoredKeys(): Node -> Keys {
    (n: Node) =>
      var p := ToDict(n);
      Keys(if HashOf(p) == "" then Absent else Some(HashOf(p)), Normalize(p.summary), PathKey(p))
  }

  predicate Shares(a: Keys, b: Keys) {
    (a.source.Some? && a.source == b.source) || a.summary == b.summary || a.path == b.path
  }

  predicate Duplicate(known: seq<Keys>, k: Keys) {
    exists i :: 0 <= i < |known| && Shares(known[i], k)
  }

  /** `dedupe`: the candidates that share no key with a known record or an earlier one. */
  function Unique(known: seq<Keys>, candidates: seq<Payload>): seq<Payload>
    decreases |candidates|
  {
    if candidates == [] then []
    else
      var k := KeysOf(candidates[0]);
      if Duplicate(known, k) then Unique(known, candidates[1..])
      else [candidates[0]] + Unique(known + [k], candidates[1..])
  }

  ghost function Known(env: Env, t: Tree): seq<Keys> {
    Mapped(Listed(env, t.files), StoredKeys())
  }

  /** The write loop: a candidate the store refuses is passed over. */
  ghost function StoreAll(env: Env, t: Tree, unique: seq<Payload>): Tree
    decreases |unique|
  {
    if unique == [] then t else StoreAll(env, Created(env, t, unique[0], Never).tree, unique[1..])
  }

  /** The candidates the write loop stored. */
  ghost function StoredOf(env: Env, t: Tree, unique: seq<Payload>): seq<Payload>
    decreases |unique|
  {
    if unique == [] then []
    else
      var r := Created(env, t, unique[0], Never);
      (if r.Done? then [unique[0]] else []) + StoredOf(env, r.tree, unique[1..])
  }

  ghost function Compacted(env: Env, t: Tree, candidates: seq<Payload>): Tree {
    StoreAll(env, t, Unique(Known(env, t), candidates))
  }

  // --------------------------------------------------------------------- methods

  datatype Seen = Seen(sources: set<string>, summaries: set<string>, paths: set<string>)

  function AddKeys(s: Seen, k: Keys): Seen {
    Seen(if k.source.Some? then s.sources + {k.source.value} else s.sources, s.summaries + {k.summary},
        s.paths + {k.path})
  }

  predicate Hits(s: Seen, k: Keys) {
    (k.source.Some? && k.source.value in s.sources) || k.summary in s.summaries || k.path in s.paths
  }

  /** The sets of the loop answer as the known records do. */
  ghost predicate Tracks(s: Seen, known: seq<Keys>) {
    forall k :: Hits(s, k) <==> Duplicate(known, k)
  }

  lemma TracksMore(s: Seen, known: seq<Keys>, k: Keys)
    requires Tracks(s, known)
    ensures Tracks(AddKeys(s, k), known + [k])
  {
    forall x ensures Hits(AddKeys(s, k), x) <==> Duplicate(known + [k], x) {
      DuplicateSnoc(known, k, x);
      assert Hits(s, x) <==> Duplicate(known, x);
    }
  }

  lemma DuplicateSnoc(known: seq<Keys>, k: Keys, x: Keys)
    ensures Duplicate(known + [k], x) <==> Duplicate(known, x) || Shares(k, x)
  {
    var more := known + [k];
    if Duplicate(known, x) {
      var i :| 0 <= i < |known| && Shares(known[i], x);
      assert more[i] == known[i];
    }
    if Shares(k, x) {
      assert more[|known|] == k;
    }
  }

  method ExistingKeys(store: TreeStore) returns (seen: Seen)
    ensures Tracks(seen, Known(store.env, store.State()))
  {
    hide Tracks, StoredKeys, Listed, Duplicate, Hits, AddKeys;
    var nodes := store.ListNodes();
    TracksNothing();
    seen := Seen({}, {}, {});
    for i := 0 to |nodes|
      invariant Tracks(seen, Mapped(nodes[..i], StoredKeys()))
    {
      TracksMore(seen, Mapped(nodes[..i], StoredKeys()), StoredKeys()(nodes[i]));
      assert Mapped(nodes[..i + 1], StoredKeys()) == Mapped(nodes[..i], StoredKeys()) + [StoredKeys()(nodes[i])];
      seen := AddKeys(seen, StoredKeys()(nodes[i]));
    }
    assert nodes[..|nodes|] == nodes;
  }

  method Dedupe(store: TreeStore, candidates: seq<Payload>) returns (unique: seq<Payload>)
    ensures unique == Unique(Known(store.env, store.State()), candidates)
  {
    hide KeysOf, Tracks, Duplicate, Hits, AddKeys, Known;
    var seen := ExistingKeys(store);
    ghost var known := Known(store.env, store.State());
    unique := [];
    for i := 0 to |candidates|
      invariant Tracks(seen, known)
      invariant unique + Unique(known, candidates[i..]) == Unique(Known(store.env, store.State()), candidates)
    {
      var k := KeysOf(candidates[i]);
      assert candidates[i..][1..] == candidates[i + 1..];
      TracksAt(seen, known, k);
      if Hits(seen, k) {
        continue;
      }
      TracksMore(seen, known, k);
      seen := AddKeys(seen, k);
      unique := unique + [candidates[i]];
      known := known + [k];
    }
    assert candidates[|candidates|..] == [];
  }

  lemma TracksNothing()
    ensures Tracks(Seen({}, {}, {}), [])
  {
  }

  lemma TracksAt(s: Seen, known: seq<Keys>, k: Keys)
    requires Tracks(s, known)
    ensures Hits(s, k) <==> Duplicate(known, k)
  {
  }

  /** The write half of `build_report`. */
  method Compact(store: TreeStore, candidates: seq<Payload>) returns (stored: seq<Payload>)
    modifies store
    ensures store.State() == Compacted(store.env, old(store.State()), candidates)
    ensures stored == StoredOf(store.env, old(store.State()), Unique(Known(store.env, old(store.State())), candidates))
  {
    hide Created, Known, Unique;
    var unique := Dedupe(store, candidates);
    stored := [];
    for i := 0 to |unique|
      invariant StoreAll(store.env, store.State(), unique[i..]) == StoreAll(store.env, old(store.State()), unique)
      invariant stored + StoredOf(store.env, store.State(), unique[i..]) == StoredOf(store.env, old(store.State()),
          unique)
    {
      assert unique[i..][0] == unique[i] && unique[i..][1..] == unique[i + 1..];
      var ok := store.CreateNode(unique[i], Never);
      if ok {
        stored := stored + [unique[i]];
      }
    }
    assert unique[|unique|..] == [];
  }

  // ---------------------------------------------------------------- what is unique

  /** No two records share a key. */
  predicate Distinct(ps: seq<Payload>) {
    forall i, j :: 0 <= i < j < |ps| ==> !Shares(KeysOf(ps[i]), KeysOf(ps[j]))
  }

  lemma {:induction false} UniqueIsDistinct(known: seq<Keys>, candidates: seq<Payload>)
    ensures Distinct(Unique(known, candidates))
    ensures forall i :: 0 <= i < |Unique(known, candidates)| ==> !Duplicate(known, KeysOf(Unique(known, candidates)[i]))
    decreases |candidates|
  {
    hide KeysOf, Shares;
    if candidates != [] {
      var k := KeysOf(candidates[0]);
      if Duplicate(known, k) {
        UniqueIsDistinct(known, candidates[1..]);
      } else {
        var rest := Unique(known + [k], candidates[1..]);
        UniqueIsDistinct(known + [k], candidates[1..]);
        forall i | 0 <= i < |rest| ensures !Shares(k, KeysOf(rest[i])) && !Duplicate(known, KeysOf(rest[i])) {
          DuplicateSnoc(known, k, KeysOf(rest[i]));
        }
      }
    }
  }

  lemma {:induction false} StoredAreAmong(env: Env, t: Tree, unique: seq<Payload>)
    requires Distinct(unique)
    ensures Distinct(StoredOf(env, t, unique))
    ensures forall i :: 0 <= i < |StoredOf(env, t, unique)| ==> StoredOf(env, t, unique)[i] in unique
    decreases |unique|
  {
    hide KeysOf, Shares, Created;
    if unique != [] {
      StoredAreAmong(env, Created(env, t, unique[0], Never).tree, unique[1..]);
      var rest := StoredOf(env, Created(env, t, unique[0], Never).tree, unique[1..]);
      forall i | 0 <= i < |rest| ensures !Shares(KeysOf(unique[0]), KeysOf(rest[i])) {
        var j :| 0 <= j < |unique[1..]| && unique[1..][j] == rest[i];
        assert unique[j + 1] == rest[i];
      }
    }
  }

  /** What a pass stores shares no source hash, normalised summary or type-and-paths key
      with each other or with a node that was there before. */
  lemma StoredShareNoKey(env: Env, t: Tree, candidates: seq<Payload>)
    ensures
      var stored := StoredOf(env, t, Unique(Known(env, t), candidates));
      && Distinct(stored)
      && forall i, n :: 0 <= i < |stored| && n in Listed(env, t.files) ==> !Shares(StoredKeys()(n), KeysOf(stored[i]))
  {
    hide Listed, StoredKeys, KeysOf, Shares, Unique, StoredOf;
    var unique := Unique(Known(env, t), candidates);
    UniqueIsDistinct(Known(env, t), candidates);
    StoredAreAmong(env, t, unique);
    var stored := StoredOf(env, t, unique);
    forall i, n | 0 <= i < |stored| && n in Listed(env, t.files) ensures !Shares(StoredKeys()(n), KeysOf(stored[i])) {
      var j :| 0 <= j < |unique| && unique[j] == stored[i];
      assert !Duplicate(Known(env, t), KeysOf(unique[j]));
      var m :| 0 <= m < |Listed(env, t.files)| && Listed(env, t.files)[m] == n;
      assert Known(env, t)[m] == StoredKeys()(n);
    }
  }
}
