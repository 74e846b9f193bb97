/** What the task intake's greedy pass guarantees about every input memory. */
module Selection {
  import opened Text
  import opened Seqs
  import opened Sorting
  import opened TaskIntake

  /** The hash is never empty text. */
  ghost predicate Hashing(h: Host) {
    forall t: string :: h.sha(t) != ""
  }

  // ------------------------------------------------------------------ the ranking

  lemma OutranksIsWeak(s: set<Memory>)
    ensures WeakOrderOn(Outranks, s)
  {
    forall a, b | a in s && b in s && Outranks(a, b) ensures !Outranks(b, a) {
      LessAsymmetric(a.id, b.id);
    }
    forall a, b, c | a in s && b in s && c in s && !Outranks(a, b) && !Outranks(b, c) ensures !Outranks(a, c) {
      if Outranks(a, c) {
        LessTotal(a.id, b.id);
        LessTotal(b.id, c.id);
        if Less(c.id, a.id) && Less(a.id, b.id) {
          LessTransitive(c.id, a.id, b.id);
        }
        if Less(a.id, b.id) && Less(b.id, c.id) {
          LessTransitive(a.id, b.id, c.id);
          LessAsymmetric(a.id, c.id);
        }
        LessIrreflexive(a.id);
        LessAsymmetric(a.id, c.id);
      }
    }
  }

  lemma RankedIsOrdered(q: Query, memories: seq<Memory>)
    ensures Ordered(Ranked(q, memories), Outranks)
  {
    hide Outranks, OutOfScope;
    var scoped := Filter(memories, InScope(q));
    OutranksIsWeak(Elements(scoped));
    SortOrdered(scoped, Outranks, Elements(scoped));
  }

  // ------------------------------------------------------------- one greedy pass

  /** Memory `m` was looked at when `selected[..k]` was selected, and had this outcome;
      the selected memories before `k` rank no lower and those after rank no higher. */
  predicate LookedAt(h: Host, lim: Limits, selected: seq<Memory>, m: Memory, outcome: Option<Reason>, k: nat) {
    && k <= |selected| && Refusal(h, lim, selected[..k], m) == outcome
    && (forall i :: 0 <= i < k ==> !Outranks(m, selected[i]))
    && (forall i :: k <= i < |selected| ==> !Outranks(selected[i], m))
  }

  /** Every memory of the ranking is selected, after exactly the selected ones ahead of it
      accepted it, or refused for a reason those ahead of it gave. */
  ghost predicate Greedy(h: Host, lim: Limits, p: Picked) {
    && (forall k :: 0 <= k < |p.selected| ==> Refusal(h, lim, p.selected[..k], p.selected[k]) == Absent)
    && (forall j :: 0 <= j < |p.refused| ==>
          Explained(h, lim, p.selected, p.refused[j]))
  }

  ghost predicate Explained(h: Host, lim: Limits, selected: seq<Memory>, r: Refused) {
    exists k: nat :: LookedAt(h, lim, selected, r.memory, Some(r.reason), k)
  }

  lemma StaysExplained(h: Host, lim: Limits, selected: seq<Memory>, r: Refused, m: Memory)
    requires Explained(h, lim, selected, r) && !Outranks(m, r.memory)
    ensures Explained(h, lim, selected + [m], r)
  {
    hide Refusal, Outranks;
    var k: nat :| LookedAt(h, lim, selected, r.memory, Some(r.reason), k);
    assert (selected + [m])[..k] == selected[..k];
    assert LookedAt(h, lim, selected + [m], r.memory, Some(r.reason), k);
  }

  lemma NowExplained(h: Host, lim: Limits, selected: seq<Memory>, r: Refused)
    requires Refusal(h, lim, selected, r.memory) == Some(r.reason)
    requires forall i :: 0 <= i < |selected| ==> !Outranks(r.memory, selected[i])
    ensures Explained(h, lim, selected, r)
  {
    hide Refusal, Outranks;
    assert selected[..|selected|] == selected;
    assert LookedAt(h, lim, selected, r.memory, Some(r.reason), |selected|);
  }

  function MemoryOf(): Refused -> Memory {
    (r: Refused) => r.memory
  }

  function Seen(p: Picked): multiset<Memory> {
    multiset(p.selected) + multiset(Mapped(p.refused, MemoryOf()))
  }

  lemma PickOneSees(h: Host, lim: Limits, p: Picked, m: Memory)
    ensures Seen(PickOne(h, lim, p, m)) == Seen(p) + multiset{m}
  {
    hide Refusal;
    match Refusal(h, lim, p.selected, m) {
      case Some(reason) =>
        assert Mapped(p.refused + [Refused(m, reason)], MemoryOf()) == Mapped(p.refused, MemoryOf()) + [m];
      case Absent =>
    }
  }

  lemma {:induction false} PickSeesAll(h: Host, lim: Limits, ranked: seq<Memory>)
    ensures Seen(Pick(h, lim, ranked)) == multiset(ranked)
  {
    hide PickOne, Seen;
    if ranked == [] {
      assert Seen(Picked([], [])) == multiset{} by {
        NothingSeen();
      }
    } else {
      var n := |ranked| - 1;
      PickSeesAll(h, lim, ranked[..n]);
      PickOneSees(h, lim, Pick(h, lim, ranked[..n]), ranked[n]);
      assert ranked == ranked[..n] + [ranked[n]];
    }
  }

  lemma NothingSeen()
    ensures Seen(Picked([], [])) == multiset{}
  {
  }

  lemma SeenMembers(p: Picked, s: seq<Memory>)
    requires Seen(p) == multiset(s)
    ensures forall i :: 0 <= i < |p.selected| ==> p.selected[i] in s
    ensures forall j :: 0 <= j < |p.refused| ==> p.refused[j].memory in s
  {
    forall i | 0 <= i < |p.selected| ensures p.selected[i] in s {
      assert p.selected[i] in multiset(p.selected);
      assert p.selected[i] in Seen(p);
    }
    forall j | 0 <= j < |p.refused| ensures p.refused[j].memory in s {
      assert Mapped(p.refused, MemoryOf())[j] == p.refused[j].memory;
      assert p.refused[j].memory in multiset(Mapped(p.refused, MemoryOf()));
      assert p.refused[j].memory in Seen(p);
    }
  }

  lemma GreedyStep(h: Host, lim: Limits, p: Picked, m: Memory)
    requires Greedy(h, lim, p)
    requires forall i :: 0 <= i < |p.selected| ==> !Outranks(m, p.selected[i])
    requires forall j :: 0 <= j < |p.refused| ==> !Outranks(m, p.refused[j].memory)
    ensures Greedy(h, lim, PickOne(h, lim, p, m))
  {
    hide Refusal, Outranks, Explained;
    var n, r := |p.selected|, PickOne(h, lim, p, m);
    match Refusal(h, lim, p.selected, m) {
      case Some(reason) => NowExplained(h, lim, p.selected, Refused(m, reason));
      case Absent =>
        forall k | 0 <= k <= n ensures Refusal(h, lim, r.selected[..k], r.selected[k]) == Absent {
          assert r.selected[..k] == p.selected[..k] && p.selected[..n] == p.selected;
        }
        forall j | 0 <= j < |p.refused| ensures Explained(h, lim, r.selected, p.refused[j]) {
          StaysExplained(h, lim, p.selected, p.refused[j], m);
        }
    }
  }

  lemma {:induction false} PickIsGreedy(h: Host, lim: Limits, ranked: seq<Memory>)
    requires Ordered(ranked, Outranks)
    ensures Greedy(h, lim, Pick(h, lim, ranked))
  {
    hide PickOne, Outranks, Seen, Greedy;
    if ranked == [] {
      NothingGreedy(h, lim);
    } else {
      var n := |ranked| - 1;
      var p, m := Pick(h, lim, ranked[..n]), ranked[n];
      PickIsGreedy(h, lim, ranked[..n]);
      PickSeesAll(h, lim, ranked[..n]);
      SeenMembers(p, ranked[..n]);
      assert forall x :: x in ranked[..n] ==> !Outranks(m, x);
      GreedyStep(h, lim, p, m);
    }
  }

  lemma NothingGreedy(h: Host, lim: Limits)
    ensures Greedy(h, lim, Picked([], []))
  {
  }

  // ---------------------------------------------------------------- consequences

  lemma NonEmptyNormalized(m: Memory)
    requires Body(m) != ""
    ensures Normalized(m) != ""
  {
    var p := (c: char) => !IsSpace(c);
    StripTrimmed(m.content);
    assert !IsSpace(Body(m)[0]);
    assert Span(Body(m), p) > 0;
    assert Words(Body(m))[0] != [];
  }

  /** Ids and normalised bodies of the selection are distinct. */
  lemma SelectedAreDistinct(h: Host, lim: Limits, p: Picked, i: nat, j: nat)
    requires Hashing(h) && Greedy(h, lim, p) && i < j < |p.selected|
    ensures p.selected[i].id != p.selected[j].id && Normalized(p.selected[i]) != Normalized(p.selected[j])
  {
    hide Normalized, Body;
    var a, b := p.selected[i], p.selected[j];
    assert Refusal(h, lim, p.selected[..j], b) == Absent;
    assert p.selected[..j][i] == a;
    assert !Clashes(h, a, b);
    NonEmptyNormalized(b);
  }

  lemma {:induction false} UsedGrows(h: Host, selected: seq<Memory>, k: nat)
    requires k <= |selected|
    ensures Used(h, selected[..k]) <= Used(h, selected)
  {
    hide Tokens, Line, Overhead;
    if k == |selected| {
      assert selected[..k] == selected;
    } else {
      var n := |selected| - 1;
      UsedGrows(h, selected[..n], k);
      assert selected[..n][..k] == selected[..k];
    }
  }

  /** The reason given for a refusal is true of the final selection. */
  predicate ReasonHolds(h: Host, lim: Limits, selected: seq<Memory>, m: Memory, reason: Reason) {
    match reason
    case BelowMinScore => m.score < lim.minScore as real
    case EmptyMemory => Body(m) == ""
    case DuplicateMemory => Repeats(h, selected, m)
    case MaxItems =>
      |selected| == NonNegative(lim.items) && forall i :: 0 <= i < |selected| ==> !Outranks(m, selected[i])
    case MaxTokens => Used(h, selected) + Tokens(Line(h, m)) > NonNegative(lim.tokens)
    case _ => false
  }

  lemma RefusedForGoodReason(h: Host, lim: Limits, p: Picked, j: nat)
    requires Greedy(h, lim, p) && j < |p.refused|
    ensures ReasonHolds(h, lim, p.selected, p.refused[j].memory, p.refused[j].reason)
  {
    hide Used, Tokens, Line, Outranks, Hash, Body, Clashes;
    var m, reason := p.refused[j].memory, p.refused[j].reason;
    assert Explained(h, lim, p.selected, p.refused[j]);
    var k: nat :| LookedAt(h, lim, p.selected, m, Some(reason), k);
    UsedGrows(h, p.selected, k);
    SelectionFits(h, lim, p);
    if reason == DuplicateMemory {
      var i :| 0 <= i < k && Clashes(h, p.selected[..k][i], m);
      assert Clashes(h, p.selected[i], m);
    }
  }

  /** The selection keeps both limits. */
  lemma SelectionFits(h: Host, lim: Limits, p: Picked)
    requires Greedy(h, lim, p)
    ensures |p.selected| <= NonNegative(lim.items)
    ensures p.selected != [] ==> Used(h, p.selected) <= NonNegative(lim.tokens)
  {
    hide Tokens, Line, Overhead, Repeats, Body;
    if p.selected != [] {
      var n := |p.selected| - 1;
      assert Refusal(h, lim, p.selected[..n], p.selected[n]) == Absent;
    }
  }

  // ------------------------------------------------------------------ word counts

  lemma {:induction false} FlatRunsConcat(a: seq<string>, b: seq<string>, p: char -> bool)
    ensures FlatRuns(a + b, p) == FlatRuns(a, p) + FlatRuns(b, p)
  {
    if a == [] {
      assert a + b == b;
    } else {
      assert (a + b)[1..] == a[1..] + b;
      FlatRunsConcat(a[1..], b, p);
    }
  }

  function Word(): char -> bool {
    (c: char) => !IsSpace(c)
  }

  function Count(parts: seq<string>): nat {
    |FlatRuns(parts, Word())|
  }

  lemma CountJoined(parts: seq<string>)
    ensures Tokens(Join(parts, "\n")) == Count(parts)
  {
    RunsOfJoin(parts, "\n", Word());
    assert Words(Join(parts, "\n")) == Runs(Join(parts, "\n"), Word()) by {
      WordsAreRuns(Join(parts, "\n"));
    }
  }

  lemma WordsAreRuns(t: string)
    ensures Words(t) == Runs(t, Word())
  {
    RunsExtensional(t, (c: char) => !IsSpace(c), Word());
  }

  lemma CountConcat(a: seq<string>, b: seq<string>)
    ensures Count(a + b) == Count(a) + Count(b)
  {
    FlatRunsConcat(a, b, Word());
  }

  lemma CountOne(t: string)
    ensures Count([t]) == Tokens(t)
  {
    WordsAreRuns(t);
    assert FlatRuns([t], Word()) == Runs(t, Word()) + FlatRuns([], Word());
  }

  lemma {:induction false} UsedIsCount(h: Host, selected: seq<Memory>)
    ensures Used(h, selected) == Overhead() + Count(Mapped(selected, LineOf(h)))
  {
    hide Tokens, Line, Overhead, Count;
    if selected == [] {
      CountNothing();
    } else {
      var n := |selected| - 1;
      UsedIsCount(h, selected[..n]);
      var line := Line(h, selected[n]);
      assert Mapped(selected, LineOf(h)) == Mapped(selected[..n], LineOf(h)) + [line];
      CountConcat(Mapped(selected[..n], LineOf(h)), [line]);
      CountOne(line);
    }
  }

  lemma CountNothing()
    ensures Count([]) == 0
  {
  }

  /** The words of the rendered block are the total the pass kept. */
  lemma BlockHasUsedTokens(h: Host, selected: seq<Memory>)
    ensures Tokens(Block(h, selected)) == if selected == [] then 0 else Used(h, selected)
  {
    hide Line, Count, Words;
    if selected == [] {
      WordsAreRuns("");
    } else {
      hide Join;
      var lines := Mapped(selected, LineOf(h));
      CountJoined([BEGIN, NOTICE] + lines + [END]);
      CountConcat([BEGIN, NOTICE] + lines, [END]);
      CountConcat([BEGIN, NOTICE], lines);
      CountConcat([BEGIN, NOTICE], [END]);
      assert [BEGIN, NOTICE] + [END] == [BEGIN, NOTICE, END];
      CountJoined([BEGIN, NOTICE, END]);
      ThreeJoined(BEGIN, NOTICE, END, "\n");
      UsedIsCount(h, selected);
    }
  }

  lemma ThreeJoined(a: string, b: string, c: string, sep: string)
    ensures Join([a, b, c], sep) == a + sep + b + sep + c
  {
    assert [a, b, c][1..] == [b, c] && [b, c][1..] == [c];
    assert Join([c], sep) == c;
    assert Join([b, c], sep) == b + sep + c;
    assert a + sep + (b + sep + c) == a + sep + b + sep + c;
  }

  // ----------------------------------------------------------------- main theorem

  lemma {:induction false} ScopeSplits(q: Query, memories: seq<Memory>)
    ensures multiset(memories) == multiset(Filter(memories, InScope(q))) + multiset(Filter(memories, OutScope(q)))
  {
    hide OutOfScope;
    if memories != [] {
      ScopeSplits(q, memories[1..]);
      assert memories == [memories[0]] + memories[1..];
    }
  }

  function OutScope(q: Query): Memory -> bool {
    (m: Memory) => OutOfScope(m, q).Some?
  }

  /** Every memory of the input is selected, refused or out of scope exactly once. */
  lemma EveryMemoryOnce(h: Host, q: Query, lim: Limits, memories: seq<Memory>)
    ensures
      var p := Pick(h, lim, Ranked(q, memories));
      multiset(memories) == multiset(p.selected) + multiset(Mapped(p.refused, MemoryOf())) +
          multiset(Filter(memories, OutScope(q)))
  {
    hide OutOfScope, Pick, Filter, Sort;
    PickSeesAll(h, lim, Ranked(q, memories));
    SortMultiset(Filter(memories, InScope(q)), Outranks);
    ScopeSplits(q, memories);
    assert multiset(Ranked(q, memories)) == multiset(Filter(memories, InScope(q)));
  }

  /** Nothing leaks in from another scope: a selected memory is one of the input, and unless
      the managed writer wrote it, it is of the active project and branch. */
  lemma SelectedStayInScope(h: Host, q: Query, lim: Limits, memories: seq<Memory>, i: nat)
    requires i < |Pick(h, lim, Ranked(q, memories)).selected|
    ensures
      var m := Pick(h, lim, Ranked(q, memories)).selected[i];
      && m in memories && !m.deprecated && !m.stale
      && (!Managed(m) && q.project != "" ==> m.repo == q.project)
      && (!Managed(m) && q.branch != "" ==> CompatibleBranch(m.branch, q.branch))
      && (q.projectId != "" && m.projectId != "" && m.projectId != q.projectId ==> Managed(m) && m.scope == "global")
  {
    hide Pick, CompatibleBranch;
    var ranked := Ranked(q, memories);
    var p := Pick(h, lim, ranked);
    PickSeesAll(h, lim, ranked);
    SeenMembers(p, ranked);
    var scoped := Filter(memories, InScope(q));
    SortMembers(scoped, Outranks);
    assert p.selected[i] in Elements(scoped);
    FilterMember(memories, InScope(q), p.selected[i]);
  }

  /** The selection is greedy, bounded and complete. */
  lemma SelectionIsFair(h: Host, q: Query, lim: Limits, memories: seq<Memory>)
    requires Hashing(h)
    ensures
      var p := Pick(h, lim, Ranked(q, memories));
      && Greedy(h, lim, p) && |p.selected| <= NonNegative(lim.items)
      && (forall i, j :: 0 <= i < j < |p.selected| ==>
            p.selected[i].id != p.selected[j].id && Normalized(p.selected[i]) != Normalized(p.selected[j]))
      && (forall j :: 0 <= j < |p.refused| ==> ReasonHolds(h, lim, p.selected, p.refused[j].memory,
          p.refused[j].reason))
      && Tokens(Block(h, p.selected)) == (if p.selected == [] then 0
          else Used(h, p.selected)) <= NonNegative(lim.tokens)
  {
    hide Pick, Ranked, Greedy, Normalized, ReasonHolds, Tokens, Used, Block, Outranks;
    var ranked := Ranked(q, memories);
    var p := Pick(h, lim, ranked);
    RankedIsOrdered(q, memories);
    PickIsGreedy(h, lim, ranked);
    SelectionFits(h, lim, p);
    BlockHasUsedTokens(h, p.selected);
    forall i, j | 0 <= i < j < |p.selected|
      ensures p.selected[i].id != p.selected[j].id && Normalized(p.selected[i]) != Normalized(p.selected[j])
    {
      SelectedAreDistinct(h, lim, p, i, j);
    }
    forall j | 0 <= j < |p.refused| ensures ReasonHolds(h, lim, p.selected, p.refused[j].memory, p.refused[j].reason) {
      RefusedForGoodReason(h, lim, p, j);
    }
  }
}
