/** The promotion pass: candidates of a report are written to layer files or noted for
    review, once, however often the report is run. */
module PromotionPass {
  import opened Text

  datatype Candidate = Candidate(
    hash: string, text: string, target: string, confidence: real, classification: string,
    duplicateExisting: bool, sourceGroups: set<string>, sourceProjectId: string)

  datatype Event = Event(hash: string, decision: string, createdAt: string, target: string)

  datatype Decision = AutoPromote | Review | Skip

  datatype Why =
    | RedClassification | ProjectMismatch | MissingProjectId | ReportOnly | DuplicateExisting
    | Corroborated | NeedsCorroboration | NeedsReview | LowConfidence | AlreadyInLayer

  datatype Ruling = Ruling(decision: Decision, why: Why)

  /** The layer files by layer, a missing one being empty, and the event log. */
  datatype Ledger = Ledger(layers: map<string, string>, events: seq<Event>)

  /** What the pass depends on besides the candidates: the active project, the clock and
      the text of a confidence. */
  datatype Setting = Setting(project: string, now: string, number: real -> string)

  const HEADING := "## Auto-Promoted Learnings"
  const PROMOTED := "auto_promoted"
  const REVIEW_REQUESTED := "review_requested"

  // -------------------------------------------------------------------- deciding

  /** `decide_candidate`. */
  function Decide(c: Candidate, project: string): Ruling {
    if c.classification == "RED" then Ruling(Skip, RedClassification)
    else if project != "" && c.sourceProjectId != "" && c.sourceProjectId != project then Ruling(Skip, ProjectMismatch)
    else if project != "" && c.sourceProjectId == "" then Ruling(Review, MissingProjectId)
    else if c.target !in {"L1", "L2", "L3"} then Ruling(Skip, ReportOnly)
    else if c.duplicateExisting then Ruling(Skip, DuplicateExisting)
    else if c.target in {"L2", "L3"} && c.confidence >= 0.8 then
      if {"handoffs", "ledgers"} <= c.sourceGroups then Ruling(AutoPromote, Corroborated)
          else Ruling(Review, NeedsCorroboration)
    else if c.confidence >= 0.6 then Ruling(Review, NeedsReview)
    else Ruling(Skip, LowConfidence)
  }

  function Marker(c: Candidate): string {
    "ralph-promotion:" + c.hash
  }

  function Layer(layers: map<string, string>, target: string): string {
    if target in layers then layers[target] else ""
  }

  /** `layer_contains_candidate`. */
  predicate Holds(layer: string, c: Candidate) {
    Contains(layer, Marker(c)) || Contains(Normalize(layer), Normalize(c.text))
  }

  // --------------------------------------------------------------------- writing

  function Block(s: Setting, c: Candidate): string {
    "<!-- " + Marker(c) + " target=" + c.target + " confidence=" + s.number(c.confidence) + " -->" + "\n" + "- " +
        c.text
  }

  function RStrip(t: string): string {
    DropRight(t, IsSpace)
  }

  function Addition(current: string, block: string): string {
    if Contains(current, HEADING) then block else HEADING + "\n\n" + block
  }

  /** `append_to_layer` on the text of the layer. */
  function Appended(s: Setting, layer: string, c: Candidate): string {
    RStrip(RStrip(layer) + "\n\n" + Addition(RStrip(layer), Block(s, c))) + "\n"
  }

  predicate Noted(events: seq<Event>, hash: string, decision: string) {
    exists i :: 0 <= i < |events| && events[i].hash == hash && events[i].decision == decision
  }

  function Note(s: Setting, events: seq<Event>, c: Candidate, decision: string): seq<Event> {
    if Noted(events, c.hash, decision) then events else events + [Event(c.hash, decision, s.now, c.target)]
  }

  /** What the pass does with one candidate. */
  function PassOne(s: Setting, g: Ledger, c: Candidate): Ledger {
    match Decide(c, s.project).decision
    case AutoPromote =>
      if Holds(Layer(g.layers, c.target), c) then g
      else Ledger(g.layers[c.target := Appended(s, Layer(g.layers, c.target), c)], Note(s, g.events, c, PROMOTED))
    case Review => g.(events := Note(s, g.events, c, REVIEW_REQUESTED))
    case Skip => g
  }

  function Pass(s: Setting, g: Ledger, candidates: seq<Candidate>): Ledger
    decreases |candidates|
  {
    if candidates == [] then g else Pass(s, PassOne(s, g, candidates[0]), candidates[1..])
  }

  /** The three lists a pass reports, each in the order of the candidates. */
  datatype Summary = Summary(promoted: seq<Candidate>, review: seq<Candidate>, skipped: seq<(Candidate, Why)>) {
    function Plus(more: Summary): Summary {
      Summary(promoted + more.promoted, review + more.review, skipped + more.skipped)
    }
  }

  function Entry(s: Setting, g: Ledger, c: Candidate): Summary {
    var ruling := Decide(c, s.project);
    match ruling.decision
    case AutoPromote =>
      if Holds(Layer(g.layers, c.target), c) then Summary([], [], [(c, AlreadyInLayer)]) else Summary([c], [], [])
    case Review => Summary([], [c], [])
    case Skip => Summary([], [], [(c, ruling.why)])
  }

  function Summarized(s: Setting, g: Ledger, candidates: seq<Candidate>): Summary
    decreases |candidates|
  {
    if candidates == [] then Summary([], [], [])
    else Entry(s, g, candidates[0]).Plus(Summarized(s, PassOne(s, g, candidates[0]), candidates[1..]))
  }

  // --------------------------------------------------------------------- methods

  /** The runtime directory as the pass changes it. */
  class Runtime {
    var layers: map<string, string>
    var events: seq<Event>

    constructor (layers: map<string, string>, events: seq<Event>)
      ensures this.layers == layers && this.events == events
    {
      this.layers := layers;
      this.events := events;
    }

    ghost function State(): Ledger
      reads this
    {
      Ledger(layers, events)
    }

    method AppendToLayer(s: Setting, c: Candidate)
      modifies this`layers
      ensures layers == old(layers)[c.target := Appended(s, Layer(old(layers), c.target), c)]
    {
      var current := RStrip(Layer(layers, c.target));
      var block := Block(s, c);
      if !Contains(current, HEADING) {
        assert current + "\n\n" + HEADING + "\n\n" + block == current + "\n\n" + (HEADING + "\n\n" + block);
        current := current + "\n\n" + HEADING + "\n\n" + block;
      } else {
        current := current + "\n\n" + block;
      }
      layers := layers[c.target := RStrip(current) + "\n"];
    }

    method AppendPromotionEvent(e: Event)
      modifies this`events
      ensures events == old(events) + [e]
    {
      events := events + [e];
    }

    /** The keys already in the log. */
    method LoadKeys() returns (seen: set<(string, string)>)
      ensures forall hash, decision :: (hash, decision) in seen <==> Noted(events, hash, decision)
    {
      seen := {};
      for i := 0 to |events|
        invariant forall hash, decision :: (hash, decision) in seen <==> Noted(events[..i], hash, decision)
      {
        NotedSnoc(events[..i], events[i]);
        assert events[..i + 1] == events[..i] + [events[i]];
        seen := seen + {(events[i].hash, events[i].decision)};
      }
      assert events[..|events|] == events;
    }

    /** Append an event unless its key was seen. */
    method NoteOnce(s: Setting, c: Candidate, decision: string,
        seen: set<(string, string)>) returns (now: set<(string, string)>)
      requires forall hash, decision :: (hash, decision) in seen <==> Noted(events, hash, decision)
      modifies this`events
      ensures events == Note(s, old(events), c, decision)
      ensures forall hash, decision :: (hash, decision) in now <==> Noted(events, hash, decision)
    {
      hide Noted;
      now := seen;
      if (c.hash, decision) !in seen {
        NotedSnoc(events, Event(c.hash, decision, s.now, c.target));
        AppendPromotionEvent(Event(c.hash, decision, s.now, c.target));
        now := seen + {(c.hash, decision)};
      }
    }

    /** The body of the loop for one candidate. */
    method Promote(s: Setting, c: Candidate, seen: set<(string, string)>) returns (entry: Summary,
        now: set<(string, string)>)
      requires forall hash, decision :: (hash, decision) in seen <==> Noted(events, hash, decision)
      modifies this
      ensures State() == PassOne(s, old(State()), c) && entry == Entry(s, old(State()), c)
      ensures forall hash, decision :: (hash, decision) in now <==> Noted(events, hash, decision)
    {
      hide Decide, Appended, Holds, Noted, Note;
      now := seen;
      var ruling := Decide(c, s.project);
      if ruling.decision.AutoPromote? {
        if Holds(Layer(layers, c.target), c) {
          entry := Summary([], [], [(c, AlreadyInLayer)]);
          return;
        }
        AppendToLayer(s, c);
        now := NoteOnce(s, c, PROMOTED, seen);
        entry := Summary([c], [], []);
      } else if ruling.decision.Review? {
        now := NoteOnce(s, c, REVIEW_REQUESTED, seen);
        entry := Summary([], [c], []);
      } else {
        entry := Summary([], [], [(c, ruling.why)]);
      }
    }

    /** `summarize_promotions`: the loop over the candidates of a report. */
    method SummarizePromotions(s: Setting, candidates: seq<Candidate>) returns (r: Summary)
      modifies this
      ensures State() == Pass(s, old(State()), candidates)
      ensures r == Summarized(s, old(State()), candidates)
    {
      hide PassOne, Entry, Noted;
      r := Summary([], [], []);
      var seen := LoadKeys();
      for i := 0 to |candidates|
        invariant Pass(s, State(), candidates[i..]) == Pass(s, old(State()), candidates)
        invariant r.Plus(Summarized(s, State(), candidates[i..])) == Summarized(s, old(State()), candidates)
        invariant forall hash, decision :: (hash, decision) in seen <==> Noted(events, hash, decision)
      {
        assert candidates[i..][0] == candidates[i] && candidates[i..][1..] == candidates[i + 1..];
        var entry;
        entry, seen := Promote(s, candidates[i], seen);
        PlusAssociates(r, entry, Summarized(s, State(), candidates[i + 1..]));
        r := r.Plus(entry);
      }
      assert candidates[|candidates|..] == [];
    }
  }

  lemma PlusAssociates(a: Summary, b: Summary, c: Summary)
    ensures a.Plus(b.Plus(c)) == a.Plus(b).Plus(c)
  {
  }

  lemma NotedSnoc(events: seq<Event>, e: Event)
    ensures forall hash, decision :: Noted(events + [e], hash, decision) <==>
      Noted(events, hash, decision) || (hash == e.hash && decision == e.decision)
  {
    var more := events + [e];
    forall hash, decision
      ensures Noted(more, hash, decision) <==>
          Noted(events, hash, decision) || (hash == e.hash && decision == e.decision)
    {
      if Noted(events, hash, decision) {
        var i :| 0 <= i < |events| && events[i].hash == hash && events[i].decision == decision;
        assert more[i] == events[i];
      }
      if hash == e.hash && decision == e.decision {
        assert more[|events|] == e;
      }
    }
  }

  // ------------------------------------------------------- what a layer text keeps

  /** `new` holds all of `before` but white space at its end, with the words of `before`
      first and in order. */
  predicate Extends(before: string, new_: string) {
    && RStrip(before) <= new_
    && Runs(Lower(before), IsWordChar()) <= Runs(Lower(new_), IsWordChar())
  }

  lemma RunsOfStripped(t: string)
    ensures Runs(Lower(RStrip(t)), IsWordChar()) == Runs(Lower(t), IsWordChar())
  {
    var kept := RStrip(t);
    var gone := t[|kept|..];
    assert t == kept + gone;
    LowerConcat(kept, gone);
    RunsDropSep(Lower(kept), Lower(gone), IsWordChar());
  }

  lemma RStripIdempotent(t: string)
    ensures RStrip(RStrip(t)) == RStrip(t)
  {
  }

  /** Text kept in front of an addition survives stripping the end. */
  lemma {:induction false} RStripKeepsFront(a: string, b: string)
    requires a == RStrip(a)
    ensures a <= RStrip(a + b)
    decreases |b|
  {
    if b == [] {
      assert a + b == a;
    } else if IsSpace(b[|b| - 1]) {
      assert (a + b)[..|a + b| - 1] == a + b[..|b| - 1];
      RStripKeepsFront(a, b[..|b| - 1]);
    } else {
      assert (a + b)[|a + b| - 1] == b[|b| - 1];
    }
  }

  lemma NewlineRuns(t: string)
    ensures Runs(Lower(t + "\n"), IsWordChar()) == Runs(Lower(t), IsWordChar())
  {
    LowerConcat(t, "\n");
    assert Lower("\n") == "\n";
    RunsDropSep(Lower(t), "\n", IsWordChar());
  }

  lemma AppendedExtends(s: Setting, layer: string, c: Candidate)
    ensures Extends(layer, Appended(s, layer, c))
  {
    hide Block, Runs, Contains;
    var kept, more := RStrip(layer), Addition(RStrip(layer), Block(s, c));
    var all := kept + "\n\n" + more;
    RStripIdempotent(layer);
    RStripKeepsFront(kept, "\n\n" + more);
    assert kept + ("\n\n" + more) == all;
    NewlineRuns(RStrip(all));
    RunsOfStripped(all);
    LowerConcat(kept + "\n\n", more);
    LowerConcat(kept, "\n\n");
    assert Lower("\n\n") == "\n\n";
    RunsJoinSep(Lower(kept), "\n\n", Lower(more), IsWordChar());
    RunsOfStripped(layer);
  }

  lemma ExtendsTransitive(a: string, b: string, c: string)
    requires Extends(a, b) && Extends(b, c)
    ensures Extends(a, c)
  {
    RStripIdempotent(a);
    var rest := b[|RStrip(a)|..];
    assert b == RStrip(a) + rest;
    RStripKeepsFront(RStrip(a), rest);
  }

  lemma ExtendsReflexive(a: string)
    ensures Extends(a, a)
  {
  }

  predicate TidyHash(c: Candidate) {
    c.hash == [] || !IsSpace(c.hash[|c.hash| - 1])
  }

  /** An occurrence that does not end in white space survives stripping the end. */
  lemma StripKeepsOccurrence(t: string, w: string)
    requires w != [] && !IsSpace(w[|w| - 1]) && Contains(t, w)
    ensures Contains(RStrip(t), w)
  {
    var kept := RStrip(t);
    var i :| 0 <= i <= |t| && OccursAt(t, w, i);
    OccursAtChar(t, w, i, |w| - 1);
    assert forall j :: |kept| <= j < |t| ==> t[j] == t[|kept|..][j - |kept|];
    assert kept[i..i + |w|] == t[i..i + |w|];
    assert OccursAt(kept, w, i);
  }

  lemma PrefixContains(a: string, b: string, w: string)
    requires a <= b && Contains(a, w)
    ensures Contains(b, w)
  {
    ContainsPart([], a, b[|a|..], w);
    assert [] + a + b[|a|..] == b;
  }

  lemma JoinGrows(xs: seq<string>, ys: seq<string>, w: string)
    requires xs <= ys && Contains(Join(xs, " "), w)
    ensures Contains(Join(ys, " "), w)
  {
    var rest := ys[|xs|..];
    assert ys == xs + rest;
    if xs == [] {
      assert w == [];
      assert OccursAt(Join(ys, " "), w, 0);
    } else if rest == [] {
      assert xs == ys;
    } else {
      JoinConcat(xs, rest, " ");
      PrefixContains(Join(xs, " "), Join(ys, " "), w);
    }
  }

  /** A layer that holds a candidate holds it after anything is appended. */
  lemma ExtendsKeepsHolding(before: string, new_: string, c: Candidate)
    requires Extends(before, new_) && TidyHash(c) && Holds(before, c)
    ensures Holds(new_, c)
  {
    hide Contains, Runs, Join;
    if Contains(before, Marker(c)) {
      StripKeepsOccurrence(before, Marker(c));
      PrefixContains(RStrip(before), new_, Marker(c));
    } else {
      JoinGrows(Runs(Lower(before), IsWordChar()), Runs(Lower(new_), IsWordChar()), Normalize(c.text));
    }
  }

  lemma BlockHasMarker(s: Setting, c: Candidate)
    ensures Contains(Block(s, c), Marker(c))
  {
    var m, after := Marker(c), " target=" + c.target + " confidence=" + s.number(c.confidence) + " -->" + "\n" +
        "- " + c.text;
    assert OccursAt(m, m, 0);
    ContainsPart("<!-- ", m, after, m);
    assert Block(s, c) == "<!-- " + m + after;
  }

  lemma AppendedHolds(s: Setting, layer: string, c: Candidate)
    requires TidyHash(c)
    ensures Holds(Appended(s, layer, c), c)
  {
    hide Contains, Block, Normalize, DropRight;
    var m, block := Marker(c), Block(s, c);
    BlockHasMarker(s, c);
    var cur := RStrip(layer);
    var front := if Contains(cur, HEADING) then cur + "\n\n" else cur + "\n\n" + (HEADING + "\n\n");
    ContainsPart(front, block, [], m);
    assert front + block + [] == cur + "\n\n" + Addition(cur, block);
    StripKeepsOccurrence(cur + "\n\n" + Addition(cur, block), m);
    ContainsPart([], RStrip(cur + "\n\n" + Addition(cur, block)), "\n", m);
    assert [] + RStrip(cur + "\n\n" + Addition(cur, block)) + "\n" == Appended(s, layer, c);
  }

  // ------------------------------------------------------------------ idempotence

  /** The ledger has nothing left to do for the candidate. */
  predicate Settled(s: Setting, g: Ledger, c: Candidate) {
    match Decide(c, s.project).decision
    case AutoPromote => Holds(Layer(g.layers, c.target), c)
    case Review => Noted(g.events, c.hash, REVIEW_REQUESTED)
    case Skip => true
  }

  lemma NoteNotes(s: Setting, events: seq<Event>, c: Candidate, decision: string)
    ensures Noted(Note(s, events, c, decision), c.hash, decision)
    ensures events <= Note(s, events, c, decision)
  {
    NotedSnoc(events, Event(c.hash, decision, s.now, c.target));
  }

  lemma NotedStays(a: seq<Event>, b: seq<Event>, hash: string, decision: string)
    requires a <= b && Noted(a, hash, decision)
    ensures Noted(b, hash, decision)
  {
    var i :| 0 <= i < |a| && a[i].hash == hash && a[i].decision == decision;
    assert b[i] == a[i];
  }

  lemma PassOneSettles(s: Setting, g: Ledger, c: Candidate)
    requires TidyHash(c)
    ensures Settled(s, PassOne(s, g, c), c)
  {
    hide Decide, Holds, Noted, Appended;
    AppendedHolds(s, Layer(g.layers, c.target), c);
    NoteNotes(s, g.events, c, REVIEW_REQUESTED);
  }

  /** A pass only adds to the log and to the layers. */
  ghost predicate Grows(g: Ledger, later: Ledger) {
    g.events <= later.events && forall l :: Extends(Layer(g.layers, l), Layer(later.layers, l))
  }

  lemma PassOneGrows(s: Setting, g: Ledger, c: Candidate)
    ensures Grows(g, PassOne(s, g, c))
  {
    hide Decide, Holds, Noted, Appended, Extends;
    var later := PassOne(s, g, c);
    NoteGrows(s, g.events, c);
    forall l ensures Extends(Layer(g.layers, l), Layer(later.layers, l)) {
      ExtendsReflexive(Layer(g.layers, l));
      AppendedExtends(s, Layer(g.layers, l), c);
    }
  }

  lemma NoteGrows(s: Setting, events: seq<Event>, c: Candidate)
    ensures forall decision :: events <= Note(s, events, c, decision)
  {
  }

  /** Nothing a ledger grows by can unsettle a candidate. */
  lemma GrowsKeepsSettled(s: Setting, g: Ledger, later: Ledger, c: Candidate)
    requires Grows(g, later) && TidyHash(c) && Settled(s, g, c)
    ensures Settled(s, later, c)
  {
    hide Decide, Holds, Noted, Extends;
    match Decide(c, s.project).decision {
      case AutoPromote => ExtendsKeepsHolding(Layer(g.layers, c.target), Layer(later.layers, c.target), c);
      case Review => NotedStays(g.events, later.events, c.hash, REVIEW_REQUESTED);
      case Skip =>
    }
  }

  lemma GrowsTransitive(a: Ledger, b: Ledger, c: Ledger)
    requires Grows(a, b) && Grows(b, c)
    ensures Grows(a, c)
  {
    hide Extends;
    forall l ensures Extends(Layer(a.layers, l), Layer(c.layers, l)) {
      ExtendsTransitive(Layer(a.layers, l), Layer(b.layers, l), Layer(c.layers, l));
    }
  }

  lemma {:induction false} PassSettles(s: Setting, g: Ledger, candidates: seq<Candidate>)
    requires forall i :: 0 <= i < |candidates| ==> TidyHash(candidates[i])
    ensures Grows(g, Pass(s, g, candidates))
    ensures forall i :: 0 <= i < |candidates| ==> Settled(s, Pass(s, g, candidates), candidates[i])
    decreases |candidates|
  {
    hide Settled, Grows, PassOne;
    if candidates == [] {
      GrowsReflexive(g);
    } else {
      var c, next := candidates[0], PassOne(s, g, candidates[0]);
      PassOneGrows(s, g, c);
      PassOneSettles(s, g, c);
      PassSettles(s, next, candidates[1..]);
      GrowsTransitive(g, next, Pass(s, g, candidates));
      GrowsKeepsSettled(s, next, Pass(s, g, candidates), c);
      forall i | 0 <= i < |candidates| ensures Settled(s, Pass(s, g, candidates), candidates[i]) {
        assert i > 0 ==> candidates[i] == candidates[1..][i - 1];
      }
    }
  }

  lemma GrowsReflexive(g: Ledger)
    ensures Grows(g, g)
  {
    forall l ensures Extends(Layer(g.layers, l), Layer(g.layers, l)) {
      ExtendsReflexive(Layer(g.layers, l));
    }
  }

  lemma {:induction false} SettledPassIsIdle(s: Setting, g: Ledger, candidates: seq<Candidate>)
    requires forall i :: 0 <= i < |candidates| ==> Settled(s, g, candidates[i])
    ensures Pass(s, g, candidates) == g
    decreases |candidates|
  {
    hide Decide, Holds, Noted, Appended;
    if candidates != [] {
      assert PassOne(s, g, candidates[0]) == g;
      SettledPassIsIdle(s, g, candidates[1..]);
    }
  }

  /** The passes of a run, each with its own clock, in the same project. */
  function Passes(s: Setting, g: Ledger, reports: seq<(string, seq<Candidate>)>): Ledger
    decreases |reports|
  {
    if reports == [] then g
    else Passes(s, Pass(s.(now := reports[0].0), g, reports[0].1), reports[1..])
  }

  predicate TidyRun(reports: seq<(string, seq<Candidate>)>) {
    forall i, j :: 0 <= i < |reports| && 0 <= j < |reports[i].1| ==> TidyHash(reports[i].1[j])
  }

  /** Idempotence over runs: running any report of the run again, at any later time,
      changes no layer and appends no event. */
  lemma RepeatedReportIsIdle(s: Setting, g: Ledger, reports: seq<(string, seq<Candidate>)>, k: nat, now: string)
    requires TidyRun(reports) && k < |reports|
    ensures Pass(s.(now := now), Passes(s, g, reports), reports[k].1) == Passes(s, g, reports)
  {
    hide Settled;
    var done := Passes(s, g, reports);
    RunSettles(s, g, reports, k);
    forall i | 0 <= i < |reports[k].1| ensures Settled(s.(now := now), done, reports[k].1[i]) {
      ClockDoesNotMatter(s, now, done, reports[k].1[i]);
    }
    SettledPassIsIdle(s.(now := now), done, reports[k].1);
  }

  lemma ClockDoesNotMatter(s: Setting, now: string, g: Ledger, c: Candidate)
    ensures Settled(s.(now := now), g, c) == Settled(s, g, c)
  {
    hide Holds, Noted, Decide;
  }

  lemma {:induction false} RunSettles(s: Setting, g: Ledger, reports: seq<(string, seq<Candidate>)>, k: nat)
    requires TidyRun(reports) && k < |reports|
    ensures forall i :: 0 <= i < |reports[k].1| ==> Settled(s, Passes(s, g, reports), reports[k].1[i])
    decreases |reports|
  {
    hide Settled, Pass, TidyHash, Grows;
    var at := s.(now := reports[0].0);
    var next := Pass(at, g, reports[0].1);
    assert TidyRun(reports[1..]) by {
      forall i, j | 0 <= i < |reports[1..]| && 0 <= j < |reports[1..][i].1| ensures TidyHash(reports[1..][i].1[j]) {
        assert reports[1..][i] == reports[i + 1];
      }
    }
    if k > 0 {
      RunSettles(s, next, reports[1..], k - 1);
    } else {
      PassSettles(at, g, reports[0].1);
      RunGrows(s, next, reports[1..]);
      forall i | 0 <= i < |reports[0].1| ensures Settled(s, Passes(s, g, reports), reports[0].1[i]) {
        ClockDoesNotMatter(s, reports[0].0, next, reports[0].1[i]);
        GrowsKeepsSettled(s, next, Passes(s, g, reports), reports[0].1[i]);
      }
    }
  }

  lemma {:induction false} PassGrows(s: Setting, g: Ledger, candidates: seq<Candidate>)
    ensures Grows(g, Pass(s, g, candidates))
    decreases |candidates|
  {
    hide Grows, PassOne;
    if candidates == [] {
      GrowsReflexive(g);
    } else {
      PassOneGrows(s, g, candidates[0]);
      PassGrows(s, PassOne(s, g, candidates[0]), candidates[1..]);
      GrowsTransitive(g, PassOne(s, g, candidates[0]), Pass(s, g, candidates));
    }
  }

  /** Over a run the log only gets longer, and every layer keeps its text and words. */
  lemma {:induction false} RunGrows(s: Setting, g: Ledger, reports: seq<(string, seq<Candidate>)>)
    ensures Grows(g, Passes(s, g, reports))
    decreases |reports|
  {
    hide Grows, Pass;
    if reports == [] {
      GrowsReflexive(g);
    } else {
      var next := Pass(s.(now := reports[0].0), g, reports[0].1);
      PassGrows(s.(now := reports[0].0), g, reports[0].1);
      RunGrows(s, next, reports[1..]);
      GrowsTransitive(g, next, Passes(s, g, reports));
    }
  }

  // ------------------------------------------------------------- the log's keys

  predicate DistinctKeys(events: seq<Event>) {
    forall i, j :: 0 <= i < j < |events| ==>
        events[i].hash != events[j].hash || events[i].decision != events[j].decision
  }

  lemma NoteKeepsDistinct(s: Setting, events: seq<Event>, c: Candidate, decision: string)
    requires DistinctKeys(events)
    ensures DistinctKeys(Note(s, events, c, decision))
  {
    if !Noted(events, c.hash, decision) {
      assert forall i :: 0 <= i < |events| ==> events[i].hash != c.hash || events[i].decision != decision;
    }
  }

  lemma {:induction false} PassKeepsDistinct(s: Setting, g: Ledger, candidates: seq<Candidate>)
    requires DistinctKeys(g.events)
    ensures DistinctKeys(Pass(s, g, candidates).events)
    decreases |candidates|
  {
    hide Decide, Holds, Note, Appended;
    if candidates != [] {
      var c := candidates[0];
      NoteKeepsDistinct(s, g.events, c, PROMOTED);
      NoteKeepsDistinct(s, g.events, c, REVIEW_REQUESTED);
      PassKeepsDistinct(s, PassOne(s, g, c), candidates[1..]);
    }
  }

  /** The log never holds two events with the same candidate hash and decision. */
  lemma {:induction false} RunKeepsDistinct(s: Setting, g: Ledger, reports: seq<(string, seq<Candidate>)>)
    requires DistinctKeys(g.events)
    ensures DistinctKeys(Passes(s, g, reports).events)
    decreases |reports|
  {
    hide Pass;
    if reports != [] {
      var at := s.(now := reports[0].0);
      PassKeepsDistinct(at, g, reports[0].1);
      RunKeepsDistinct(s, Pass(at, g, reports[0].1), reports[1..]);
    }
  }
}
