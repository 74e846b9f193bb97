/** The inverted index: under every token, the sorted ids of the entries holding it. */
module Postings {
  import opened Text
  import opened Sorting

  /** An entry as the index builder sees it. An empty id is skipped. */
  datatype Tagged = Tagged(id: string, tokens: set<string>)

  ghost predicate Carries(e: Tagged, token: string) {
    e.id != "" && token in e.tokens
  }

  ghost function AllTokens(entries: seq<Tagged>): (r: set<string>)
    ensures forall t :: t in r <==> exists i :: 0 <= i < |entries| && Carries(entries[i], t)
  {
    set i, t | 0 <= i < |entries| && t in entries[i].tokens && Carries(entries[i], t) :: t
  }

  ghost function Holders(entries: seq<Tagged>, token: string): (r: set<string>)
    ensures forall x :: x in r <==> exists i :: 0 <= i < |entries| && Carries(entries[i], token) && entries[i].id == x
  {
    set i | 0 <= i < |entries| && Carries(entries[i], token) :: entries[i].id
  }

  ghost function SortedPostings(found: map<string, seq<string>>): map<string, seq<string>> {
    map t | t in found :: Listing(Elements(found[t]), Less)
  }

  /** The postings an index must carry. */
  ghost function PostingsOf(entries: seq<Tagged>): map<string, seq<string>> {
    map t | t in AllTokens(entries) :: Listing(Holders(entries, t), Less)
  }

  /** Each posting is the sorted, duplicate-free sequence of exactly the ids whose
      entry carries the token, and only carried tokens have one. */
  lemma PostingsExact(entries: seq<Tagged>, t: string, id: string)
    ensures t in PostingsOf(entries) <==> exists i :: 0 <= i < |entries| && Carries(entries[i], t)
    ensures t in PostingsOf(entries) ==>
      && StrictlySorted(PostingsOf(entries)[t], Less)
      && NoDup(PostingsOf(entries)[t])
      && (id in PostingsOf(entries)[t] <==>
           exists i :: 0 <= i < |entries| && Carries(entries[i], t) && entries[i].id == id)
  {
    if t in PostingsOf(entries) {
      var s := Holders(entries, t);
      LessIsStrict(s);
      ListingSorted(s, Less);
    }
  }

  /** `_build_postings`: append ids under every token, then sort and drop repeats. */
  method BuildPostings(entries: seq<Tagged>) returns (postings: map<string, seq<string>>)
    ensures postings == PostingsOf(entries)
  {
    var found: map<string, seq<string>> := map[];
    for i := 0 to |entries|
      invariant found.Keys == AllTokens(entries[..i])
      invariant forall t :: t in found ==> Elements(found[t]) == Holders(entries[..i], t)
    {
      ghost var was := found;
      if entries[i].id != "" {
        found := AddTokens(found, entries[i].id, entries[i].tokens);
      }
      GrowTokens(entries, i);
      forall t | t in found ensures Elements(found[t]) == Holders(entries[..i + 1], t) {
        GrowHolders(entries, i, t);
      }
    }
    assert entries[..|entries|] == entries;
    postings := SortPostings(found);
    assert postings.Keys == PostingsOf(entries).Keys;
  }

  /** `postings.setdefault(tok, []).append(node_id)` for every token of one entry. */
  method AddTokens(before: map<string, seq<string>>, id: string, tokens: set<string>)
    returns (after: map<string, seq<string>>)
    ensures after.Keys == before.Keys + tokens
    ensures forall t :: t in after ==>
      after[t] == (if t in before then before[t] else []) + if t in tokens then [id] else []
  {
    after := before;
    var rest := tokens;
    while rest != {}
      invariant rest <= tokens && after.Keys == before.Keys + (tokens - rest)
      invariant forall t :: t in after ==>
        after[t] == (if t in before then before[t] else []) + if t in tokens - rest then [id] else []
    {
      var t :| t in rest;
      after := after[t := (if t in after then after[t] else []) + [id]];
      rest := rest - {t};
    }
  }

  method SortPostings(found: map<string, seq<string>>) returns (postings: map<string, seq<string>>)
    ensures postings == SortedPostings(found)
  {
    postings := map[];
    var rest := found.Keys;
    while rest != {}
      invariant rest <= found.Keys && postings.Keys == found.Keys - rest
      invariant forall t :: t in postings ==> postings[t] == Listing(Elements(found[t]), Less)
    {
      var t :| t in rest;
      var ids := SortIds(found[t]);
      postings := postings[t := ids];
      rest := rest - {t};
    }
  }

  /** `sorted(set(ids))`. */
  method SortIds(ids: seq<string>) returns (r: seq<string>)
    ensures r == Listing(Elements(ids), Less)
  {
    var distinct := set x | x in ids;
    assert distinct == Elements(ids);
    LessIsStrict(distinct);
    r := Enumerate(distinct, Less);
  }

  lemma GrowTokens(entries: seq<Tagged>, i: nat)
    requires i < |entries|
    ensures AllTokens(entries[..i + 1]) ==
            AllTokens(entries[..i]) + (if entries[i].id != "" then entries[i].tokens else {})
  {
    var a, b := entries[..i], entries[..i + 1];
    assert b == a + [entries[i]];
    forall t ensures t in AllTokens(b) <==> t in AllTokens(a) || Carries(entries[i], t) {
      if t in AllTokens(a) {
        var k :| 0 <= k < |a| && Carries(a[k], t);
        assert Carries(b[k], t);
      }
      if Carries(entries[i], t) {
        assert Carries(b[i], t);
      }
      if t in AllTokens(b) {
        var k :| 0 <= k < |b| && Carries(b[k], t);
        assert k == i || Carries(a[k], t);
      }
    }
  }

  lemma GrowHolders(entries: seq<Tagged>, i: nat, t: string)
    requires i < |entries|
    ensures Holders(entries[..i + 1], t) ==
            Holders(entries[..i], t) + (if Carries(entries[i], t) then {entries[i].id} else {})
    ensures t !in AllTokens(entries[..i]) ==> Holders(entries[..i], t) == {}
  {
    var a, b := entries[..i], entries[..i + 1];
    assert b == a + [entries[i]];
    forall x ensures x in Holders(b, t) <==> x in Holders(a, t) || (Carries(entries[i], t) && x == entries[i].id) {
      if x in Holders(a, t) {
        var k :| 0 <= k < |a| && Carries(a[k], t) && a[k].id == x;
        assert b[k] == a[k];
      }
      if Carries(entries[i], t) && x == entries[i].id {
        assert b[i] == entries[i];
      }
      if x in Holders(b, t) {
        var k :| 0 <= k < |b| && Carries(b[k], t) && b[k].id == x;
        assert k == i || a[k] == b[k];
      }
    }
  }
}
