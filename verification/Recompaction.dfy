/** Running the compaction pass again over the same sources stores nothing. */
module Recompaction {
  import opened Text
  import opened Seqs
  import opened Memory
  import opened MemoryTree
  import opened StoreRuns
  import opened Compaction

  /** Built by `build_candidate` for this project: the source hash is a digest. */
  predicate Built(project: string, p: Payload) {
    Strip(p.projectId) == project && HashOf(p) != ""
  }

  /** The same candidate built at another time. */
  predicate Restamped(a: Payload, b: Payload) {
    b == a.(createdAt := b.createdAt, updatedAt := b.updatedAt)
  }

  // ----------------------------------------------------------------- one creation

  /** A stored candidate adds its node, with its keys, to what the tree lists. */
  lemma CreatedListed(env: Env, t: Tree, p: Payload, m: Node)
    requires Built(t.project, p) && Created(env, t, p, Never).Done?
    ensures
      var after := Created(env, t, p, Never).tree;
      after.project == t.project
      && (m in Listed(env, after.files) <==> m in Listed(env, t.files) || m == Filled(env, p))
  {
    hide Valid, Filled, Listed, Loader, IndexOf, Strip;
    var after, n := Created(env, t, p, Never).tree, FromDict(env, p).value;
    FilledProject(env, p);
    var s := Strip(n.nodeId);
    assert Loader(env, t.files)(s) == Load(env, t.files, s) by {
      LoaderIsLoad(env, t.files, s);
    }
    WrittenShape(env, t, n);
    ListedAfter(env, t.files, after.files, s, n, m);
  }

  lemma FilledProject(env: Env, p: Payload)
    ensures Filled(env, p).projectId == p.projectId
  {
  }

  lemma LoaderIsLoad(env: Env, files: map<string, File>, s: string)
    ensures Loader(env, files)(s) == Load(env, files, s)
  {
  }

  lemma ListedAfter(env: Env, files: map<string, File>, after: map<string, File>, s: string, n: Node, m: Node)
    requires Loader(env, files)(s).Absent? && after == files[s := Json(ToDict(n))] && Loader(env, after)(s) == Some(n)
    ensures m in Listed(env, after) <==> m in Listed(env, files) || m == n
  {
    hide ToDict, Loader, Listed;
    ListedMember(env, files, m);
    ListedMember(env, after, m);
    LoaderFrame(env, files, s, Json(ToDict(n)));
    if m in Listed(env, files) {
      var x :| x in files && Loader(env, files)(x) == Some(m);
      assert x in after && Loader(env, after)(x) == Some(m);
    }
    if m == n {
      assert s in after && Loader(env, after)(s) == Some(m);
    }
  }

  lemma StoredKeysOfFilled(env: Env, p: Payload)
    requires HashOf(p) != ""
    ensures StoredKeys()(Filled(env, p)) == KeysOf(p)
  {
    hide Normalize, Join;
  }

  lemma KnownMember(env: Env, t: Tree, k: Keys)
    ensures k in Known(env, t) <==> exists n :: n in Listed(env, t.files) && StoredKeys()(n) == k
  {
    hide Listed, StoredKeys;
    var nodes := Listed(env, t.files);
    if k in Known(env, t) {
      var i :| 0 <= i < |Known(env, t)| && Known(env, t)[i] == k;
      assert nodes[i] in nodes && StoredKeys()(nodes[i]) == k;
    }
    if n :| n in nodes && StoredKeys()(n) == k {
      var i :| 0 <= i < |nodes| && nodes[i] == n;
      assert Known(env, t)[i] == k;
    }
  }

  lemma CreatedKnown(env: Env, t: Tree, p: Payload, k: Keys)
    requires Built(t.project, p) && Created(env, t, p, Never).Done?
    ensures
      var after := Created(env, t, p, Never).tree;
      after.project == t.project && (k in Known(env, after) <==> k in Known(env, t) || k == KeysOf(p))
  {
    hide Listed, StoredKeys, KeysOf, Known, Created, Filled;
    var after, n := Created(env, t, p, Never).tree, Filled(env, p);
    KnownMember(env, t, k);
    KnownMember(env, after, k);
    StoredKeysOfFilled(env, p);
    CreatedListed(env, t, p, n);
    if x :| x in Listed(env, after.files) && StoredKeys()(x) == k {
      CreatedListed(env, t, p, x);
    }
    if x :| x in Listed(env, t.files) && StoredKeys()(x) == k {
      CreatedListed(env, t, p, x);
    }
  }

  /** Whatever loads from a name still does later. */
  ghost predicate Fuller(env: Env, t: Tree, later: Tree) {
    later.project == t.project && forall s :: Loader(env, t.files)(s).Some? ==> Loader(env, later.files)(s).Some?
  }

  lemma CreatedFuller(env: Env, t: Tree, p: Payload)
    requires Strip(p.projectId) == t.project
    ensures Fuller(env, t, Created(env, t, p, Never).tree)
  {
    hide Valid, Filled, Loader, IndexOf, Strip, ToDict;
    if Created(env, t, p, Never).Done? {
      var n := FromDict(env, p).value;
      FilledProject(env, p);
      WrittenShape(env, t, n);
      LoaderFrame(env, t.files, Strip(n.nodeId), Json(ToDict(n)));
    }
  }

  lemma LoaderFrame(env: Env, files: map<string, File>, s: string, f: File)
    ensures forall x :: x != s ==> Loader(env, files[s := f])(x) == Loader(env, files)(x)
  {
    hide FromDict;
  }

  /** A candidate the store refuses is refused later too, also under another stamp. */
  lemma RefusedForGood(env: Env, t: Tree, later: Tree, p: Payload, q: Payload)
    requires Fuller(env, t, later) && Strip(p.projectId) == t.project && Restamped(p, q)
    requires Created(env, t, p, Never).Failed?
    ensures Created(env, later, q, Never) == Failed(later)
  {
    hide Valid, Strip, IndexOf, Written;
    StampsDoNotMatter(env, p, q);
    var s := Strip(Filled(env, p).nodeId);
    assert Loader(env, t.files)(s) == Load(env, t.files, s) && Loader(env, later.files)(s) == Load(env, later.files, s);
  }

  lemma StampsDoNotMatter(env: Env, p: Payload, q: Payload)
    requires Restamped(p, q)
    ensures FromDict(env, p).Some? == FromDict(env, q).Some?
    ensures Filled(env, p).nodeId == Filled(env, q).nodeId &&
        Filled(env, p).projectId == Filled(env, q).projectId == p.projectId
    ensures KeysOf(p) == KeysOf(q)
  {
    hide SafeIdentifier, Strip, ValidLink, ValidPath, ValidRawRef, KnownVisibility, Normalize;
    var a, b := Filled(env, p), Filled(env, q);
    assert b == a.(createdAt := b.createdAt, updatedAt := b.updatedAt);
  }

  // -------------------------------------------------------------- the write loop

  lemma FullerTransitive(env: Env, a: Tree, b: Tree, c: Tree)
    requires Fuller(env, a, b) && Fuller(env, b, c)
    ensures Fuller(env, a, c)
  {
    hide Loader;
  }

  predicate AllBuilt(project: string, ps: seq<Payload>) {
    forall i :: 0 <= i < |ps| ==> Built(project, ps[i])
  }

  lemma CreatedOnce(env: Env, t: Tree, p: Payload)
    requires Built(t.project, p)
    ensures
      var after := Created(env, t, p, Never).tree;
      after.project == t.project && Fuller(env, t, after)
      && (Created(env, t, p, Never).Failed? ==> after == t)
  {
    hide Filled, Valid, Loader, Strip, IndexOf;
    CreatedFuller(env, t, p);
  }

  /** After the write loop the known keys are the old ones and those of what was stored. */
  lemma {:induction false} StoreAllKnown(env: Env, t: Tree, unique: seq<Payload>, k: Keys)
    requires AllBuilt(t.project, unique)
    ensures
      var after := StoreAll(env, t, unique);
      after.project == t.project && Fuller(env, t, after)
      && (k in Known(env, after) <==> k in Known(env, t) || exists u :: u in StoredOf(env, t, unique) && KeysOf(u) == k)
    decreases |unique|
  {
    hide Created, Known, KeysOf, Built, Fuller;
    if unique == [] {
      FullerReflexive(env, t);
    } else {
      var u := unique[0];
      var r := Created(env, t, u, Never);
      CreatedOnce(env, t, u);
      if r.Done? {
        CreatedKnown(env, t, u, k);
      }
      StoreAllKnown(env, r.tree, unique[1..], k);
      FullerTransitive(env, t, r.tree, StoreAll(env, t, unique));
    }
  }

  lemma FullerReflexive(env: Env, t: Tree)
    ensures Fuller(env, t, t)
  {
  }

  /** A candidate that was not stored is refused by the tree the loop left. */
  lemma {:induction false} StoredOrRefused(env: Env, t: Tree, unique: seq<Payload>, i: nat, q: Payload)
    requires AllBuilt(t.project, unique) && i < |unique| && Restamped(unique[i], q)
    requires unique[i] !in StoredOf(env, t, unique)
    ensures Created(env, StoreAll(env, t, unique), q, Never) == Failed(StoreAll(env, t, unique))
    decreases |unique|
  {
    hide Created, Known, KeysOf, Fuller, Restamped;
    var r := Created(env, t, unique[0], Never);
    CreatedOnce(env, t, unique[0]);
    if i == 0 {
      assert r.Failed?;
      StoreAllKnown(env, t, unique, Keys(Absent, "", ""));
      RefusedForGood(env, t, StoreAll(env, t, unique), unique[0], q);
    } else {
      StoredOrRefused(env, r.tree, unique[1..], i - 1, q);
    }
  }

  lemma {:induction false} NothingStored(env: Env, t: Tree, unique: seq<Payload>)
    requires forall i :: 0 <= i < |unique| ==> Created(env, t, unique[i], Never) == Failed(t)
    ensures StoreAll(env, t, unique) == t && StoredOf(env, t, unique) == []
    decreases |unique|
  {
    hide Created;
    if unique != [] {
      NothingStored(env, t, unique[1..]);
    }
  }

  // -------------------------------------------------------------- the second pass

  ghost predicate Twins(a: seq<Payload>, b: seq<Payload>) {
    |a| == |b| && forall i :: 0 <= i < |a| ==> Restamped(a[i], b[i])
  }

  lemma SharesSymmetric(a: Keys, b: Keys)
    ensures Shares(a, b) == Shares(b, a)
    ensures Shares(a, a)
  {
  }

  lemma DuplicateMember(known: seq<Keys>, k: Keys)
    ensures Duplicate(known, k) <==> exists x :: x in known && Shares(x, k)
  {
    hide Shares;
    if x :| x in known && Shares(x, k) {
      var i :| 0 <= i < |known| && known[i] == x;
    }
  }

  /** `grown` holds the known keys, and besides them only keys of the unique candidates. */
  ghost predicate Accounted(known: seq<Keys>, grown: seq<Keys>, unique: seq<Payload>) {
    && (forall k :: k in known ==> k in grown)
    && (forall k :: k in grown ==> k in known || exists u :: u in unique && KeysOf(u) == k)
  }

  lemma UniqueHead(known: seq<Keys>, candidates: seq<Payload>)
    requires candidates != [] && !Duplicate(known, KeysOf(candidates[0]))
    ensures Unique(known, candidates) == [candidates[0]] + Unique(known + [KeysOf(candidates[0])], candidates[1..])
  {
  }

  /** A unique candidate that was not stored is unique again. */
  lemma StillUnique(known: seq<Keys>, grown: seq<Keys>, candidates: seq<Payload>)
    requires candidates != [] && !Duplicate(known, KeysOf(candidates[0])) && KeysOf(candidates[0]) !in grown
    requires Accounted(known, grown, Unique(known, candidates))
    ensures !Duplicate(grown, KeysOf(candidates[0]))
  {
    hide KeysOf, Shares, Duplicate, Unique;
    var k := KeysOf(candidates[0]);
    var rest := Unique(known + [k], candidates[1..]);
    UniqueHead(known, candidates);
    DuplicateMember(grown, k);
    DuplicateMember(known, k);
    UniqueIsDistinct(known + [k], candidates[1..]);
    if x :| x in grown && Shares(x, k) {
      var u :| u in [candidates[0]] + rest && KeysOf(u) == x;
      var i :| 0 <= i < |rest| && rest[i] == u;
      DuplicateSnoc(known, k, x);
      SharesSymmetric(k, x);
      assert false;
    }
  }

  lemma AccountedStep(known: seq<Keys>, grown: seq<Keys>, more: seq<Keys>, candidates: seq<Payload>)
    requires candidates != [] && !Duplicate(known, KeysOf(candidates[0]))
    requires Accounted(known, grown, Unique(known, candidates))
    requires KeysOf(candidates[0]) in more && forall x :: x in more <==> x in grown || x == KeysOf(candidates[0])
    ensures Accounted(known + [KeysOf(candidates[0])], more, Unique(known + [KeysOf(candidates[0])], candidates[1..]))
  {
    hide KeysOf, Duplicate;
    var k := KeysOf(candidates[0]);
    var rest := Unique(known + [k], candidates[1..]);
    forall x | x in more ensures x in known + [k] || exists u :: u in rest && KeysOf(u) == x {
      if x !in known && x != k {
        var u :| u in Unique(known, candidates) && KeysOf(u) == x;
        assert u in [candidates[0]] + rest;
      }
    }
  }

  /** The second pass finds unique only what the first found unique and did not store. */
  lemma {:induction false} UniqueAgain(known: seq<Keys>, grown: seq<Keys>, candidates: seq<Payload>,
      again: seq<Payload>, j: nat)
    returns (i: nat)
    requires Twins(candidates, again) && j < |Unique(grown, again)|
    requires Accounted(known, grown, Unique(known, candidates))
    ensures i < |again| && Unique(grown, again)[j] == again[i]
    ensures candidates[i] in Unique(known, candidates) && KeysOf(candidates[i]) !in grown
    decreases |candidates|
  {
    hide KeysOf, Shares, Restamped, Duplicate;
    var c, d, rest, again1 := candidates[0], again[0], candidates[1..], again[1..];
    var k := KeysOf(c);
    TwinKeys(c, d);
    DuplicateMember(known, k);
    DuplicateMember(grown, k);
    if Duplicate(known, k) {
      i := UniqueAgain(known, grown, rest, again1, j);
      i := i + 1;
    } else if k in grown {
      SharesSymmetric(k, k);
      AccountedStep(known, grown, grown, candidates);
      i := UniqueAgain(known + [k], grown, rest, again1, j);
      i := i + 1;
    } else {
      StillUnique(known, grown, candidates);
      if j == 0 {
        i := 0;
      } else {
        AccountedStep(known, grown, grown + [k], candidates);
        i := UniqueAgain(known + [k], grown + [k], rest, again1, j - 1);
        i := i + 1;
      }
    }
  }

  lemma TwinKeys(p: Payload, q: Payload)
    requires Restamped(p, q)
    ensures KeysOf(p) == KeysOf(q)
  {
  }

  lemma {:induction false} UniqueIsAmong(known: seq<Keys>, candidates: seq<Payload>)
    ensures forall u :: u in Unique(known, candidates) ==> u in candidates
    decreases |candidates|
  {
    if candidates != [] {
      UniqueIsAmong(known, candidates[1..]);
      UniqueIsAmong(known + [KeysOf(candidates[0])], candidates[1..]);
    }
  }

  /** Idempotence: with unchanged sources a second write run, at any later time, leaves
      the tree as it is and stores nothing. */
  lemma SecondRunStoresNothing(env: Env, t: Tree, candidates: seq<Payload>, again: seq<Payload>)
    requires AllBuilt(t.project, candidates) && Twins(candidates, again)
    ensures
      var after := Compacted(env, t, candidates);
      Compacted(env, after, again) == after && StoredOf(env, after, Unique(Known(env, after), again)) == []
  {
    hide Known, KeysOf, StoreAll, StoredOf, Created, Unique, Built, Restamped;
    var known, unique := Known(env, t), Unique(Known(env, t), candidates);
    var after := StoreAll(env, t, unique);
    var grown := Known(env, after);
    UniqueIsAmong(known, candidates);
    forall i | 0 <= i < |unique| ensures Built(t.project, unique[i]) {
      assert unique[i] in candidates;
    }
    StoredAccounted(env, t, unique);
    var second := Unique(grown, again);
    forall j | 0 <= j < |second| ensures Created(env, after, second[j], Never) == Failed(after) {
      var i := UniqueAgain(known, grown, candidates, again, j);
      var m :| 0 <= m < |unique| && unique[m] == candidates[i];
      StoreAllKnown(env, t, unique, KeysOf(candidates[i]));
      StoredOrRefused(env, t, unique, m, again[i]);
    }
    NothingStored(env, after, second);
  }

  lemma StoredAccounted(env: Env, t: Tree, unique: seq<Payload>)
    requires AllBuilt(t.project, unique)
    ensures Accounted(Known(env, t), Known(env, StoreAll(env, t, unique)), unique)
  {
    hide Known, KeysOf, StoreAll, StoredOf, Created, Built;
    StoredWereUnique(env, t, unique);
    forall k ensures k in Known(env, t) ==> k in Known(env, StoreAll(env, t, unique))
      ensures k in Known(env, StoreAll(env, t, unique)) ==>
          k in Known(env, t) || exists u :: u in unique && KeysOf(u) == k
    {
      StoreAllKnown(env, t, unique, k);
    }
  }

  lemma {:induction false} StoredWereUnique(env: Env, t: Tree, unique: seq<Payload>)
    ensures forall u :: u in StoredOf(env, t, unique) ==> u in unique
    decreases |unique|
  {
    hide Created;
    if unique != [] {
      StoredWereUnique(env, Created(env, t, unique[0], Never).tree, unique[1..]);
    }
  }
}
