/** Archiving old sessions, and the restore program that undoes it. */
module SessionArchive {
  import opened Text
  import opened Seqs
  import opened Manifest

  /** A row of the thread table. */
  datatype Thread = Thread(path: string, archived: bool, archivedAt: Option<int>)

  datatype Candidate = Candidate(threadId: string, relative: string, bytes: nat)

  /** The two directories, as canonical paths. */
  datatype Roots = Roots(sessions: string, archive: string)

  /** Files by path, thread rows by id, and the manifest text. */
  datatype Home = Home(files: map<string, string>, threads: map<string, Thread>, manifest: string)

  /** The program ran to its end, or an exception stopped it. */
  datatype Outcome = Completed(home: Home) | Stopped(home: Home)

  function Source(roots: Roots, c: Candidate): string {
    roots.sessions + "/" + c.relative
  }

  function Dest(roots: Roots, c: Candidate): string {
    roots.archive + "/" + c.relative
  }

  function RecordOf(roots: Roots, c: Candidate): Record {
    Record(c.threadId, c.bytes, Source(roots, c), Dest(roots, c))
  }

  /** `shutil.move` of a file. */
  function Move(files: map<string, string>, from: string, to: string): map<string, string>
    requires from in files
  {
    (files - {from})[to := files[from]]
  }

  function SetThread(threads: map<string, Thread>, id: string, row: Thread): map<string, Thread> {
    if id in threads then threads[id := row] else threads
  }

  // --------------------------------------------------------------------- archiving

  function ArchiveOne(roots: Roots, now: int, h: Home, c: Candidate): Home
    requires Source(roots, c) in h.files
  {
    Home(Move(h.files, Source(roots, c), Dest(roots, c)),
      SetThread(h.threads, c.threadId, Thread(Dest(roots, c), true, Some(now))),
      h.manifest + RecordLine(RecordOf(roots, c)) + "\n")
  }

  /** The loop; an exception loses the rows that were not committed. */
  function ArchiveFrom(roots: Roots, now: int, h: Home, cs: seq<Candidate>, committed: map<string, Thread>): Outcome
    decreases |cs|
  {
    if cs == [] then Completed(h)
    else if Source(roots, cs[0]) !in h.files then Stopped(h.(threads := committed))
    else ArchiveFrom(roots, now, ArchiveOne(roots, now, h, cs[0]), cs[1..], committed)
  }

  function Archived(roots: Roots, now: int, h: Home, cs: seq<Candidate>): Outcome {
    if cs == [] then Completed(h) else ArchiveFrom(roots, now, h.(manifest := ""), cs, h.threads)
  }

  // --------------------------------------------------------------------- restoring

  /** One record of the manifest. */
  function RestoreOne(h: Home, r: Record): Home {
    h.(files := if r.dest in h.files then Move(h.files, r.dest, r.source) else h.files,
       threads := if r.threadId != "" then SetThread(h.threads, r.threadId, Thread(r.source, false, Absent))
           else h.threads)
  }

  function RestoreFrom(h: Home, lines: seq<string>, committed: map<string, Thread>): Outcome
    decreases |lines|
  {
    if lines == [] then Completed(h)
    else
      var r := ReadRecord(lines[0]);
      if r.Absent? then Stopped(h.(threads := committed))
          else RestoreFrom(RestoreOne(h, r.value), lines[1..], committed)
  }

  /** The restore program. */
  function Restored(h: Home): Outcome {
    RestoreFrom(h, SplitLines(h.manifest), h.threads)
  }

  // --------------------------------------------------------------------- methods

  class CodexHome {
    var files: map<string, string>
    var threads: map<string, Thread>
    var manifest: string

    constructor (files: map<string, string>, threads: map<string, Thread>)
      ensures State() == Home(files, threads, "")
    {
      this.files, this.threads, this.manifest := files, threads, "";
    }

    ghost function State(): Home
      reads this
    {
      Home(files, threads, manifest)
    }

    /** `archive_sessions` with `apply`. */
    method ArchiveSessions(roots: Roots, now: int, candidates: seq<Candidate>) returns (ok: bool)
      modifies this
      ensures Archived(roots, now, old(State()), candidates) == if ok then Completed(State()) else Stopped(State())
    {
      hide RecordLine, Move;
      if candidates == [] {
        return true;
      }
      ghost var start := State();
      var committed := threads;
      manifest := "";
      for i := 0 to |candidates|
        invariant ArchiveFrom(roots, now, State(), candidates[i..], committed) == Archived(roots, now, start,
            candidates)
      {
        var c := candidates[i];
        assert candidates[i..][1..] == candidates[i + 1..];
        if Source(roots, c) !in files {
          threads := committed;
          return false;
        }
        files := Move(files, Source(roots, c), Dest(roots, c));
        manifest := manifest + RecordLine(RecordOf(roots, c)) + "\n";
        threads := SetThread(threads, c.threadId, Thread(Dest(roots, c), true, Some(now)));
      }
      assert candidates[|candidates|..] == [];
      ok := true;
    }

    /** The program `write_session_restore_script` writes. */
    method RestoreSessions() returns (ok: bool)
      modifies this
      ensures Restored(old(State())) == if ok then Completed(State()) else Stopped(State())
    {
      hide ReadRecord, SplitLines, Move;
      ghost var start := State();
      var committed := threads;
      var lines := SplitLines(manifest);
      for i := 0 to |lines|
        invariant manifest == start.manifest
        invariant RestoreFrom(State(), lines[i..], committed) == Restored(start)
      {
        assert lines[i..][1..] == lines[i + 1..];
        var r := ReadRecord(lines[i]);
        if r.Absent? {
          threads := committed;
          return false;
        }
        if r.value.dest in files {
          files := Move(files, r.value.dest, r.value.source);
        }
        if r.value.threadId != "" {
          threads := SetThread(threads, r.value.threadId, Thread(r.value.source, false, Absent));
        }
      }
      assert lines[|lines|..] == [];
      ok := true;
    }
  }

  // -------------------------------------------------------------- where files are

  /** Distinct sources that exist, not archived before, whose thread rows are distinct,
      unarchived by date and point at them, as `active_session_candidates` selects them. */
  predicate Ready(roots: Roots, h: Home, cs: seq<Candidate>) {
    && (forall i :: 0 <= i < |cs| ==> Source(roots, cs[i]) in h.files && Dest(roots, cs[i]) !in h.files)
    && (forall i, j :: 0 <= i < j < |cs| ==> cs[i].relative != cs[j].relative && cs[i].threadId != cs[j].threadId)
    && (forall i :: 0 <= i < |cs| ==>
          && cs[i].threadId in h.threads && h.threads[cs[i].threadId].path == Source(roots, cs[i])
          && h.threads[cs[i].threadId].archivedAt == Absent)
  }

  function Sources(roots: Roots, cs: seq<Candidate>): seq<string> {
    Mapped(cs, (c: Candidate) => Source(roots, c))
  }

  function Dests(roots: Roots, cs: seq<Candidate>): seq<string> {
    Mapped(cs, (c: Candidate) => Dest(roots, c))
  }

  /** No two of these paths are the same. */
  predicate Apart(from: seq<string>, to: seq<string>) {
    && |from| == |to|
    && (forall i, j :: 0 <= i < |from| && 0 <= j < |to| ==> from[i] != to[j])
    && (forall i, j :: 0 <= i < |from| && 0 <= j < |from| && i != j ==> from[i] != from[j] && to[i] != to[j])
  }

  predicate Away(i: int, lo: int, hi: int) {
    lo <= i < hi
  }

  /** Exactly the files from `lo` to `hi` are away: each file of the start is either where
      it was or at its other path, with its content, and there is nothing else. */
  ghost predicate Placed(start: map<string, string>, from: seq<string>, to: seq<string>, lo: int, hi: int,
      now: map<string, string>)
    requires |from| == |to|
  {
    && (forall i :: 0 <= i < |from| ==> from[i] in start && to[i] !in start)
    && (forall i :: 0 <= i < |from| && Away(i, lo, hi) ==>
        from[i] !in now && to[i] in now && now[to[i]] == start[from[i]])
    && (forall i :: 0 <= i < |from| && !Away(i, lo, hi) ==>
        from[i] in now && now[from[i]] == start[from[i]] && to[i] !in now)
    && (forall p :: p !in from && p !in to ==> (p in now <==> p in start) && (p in start ==> now[p] == start[p]))
  }

  lemma ReadyIsApart(roots: Roots, h: Home, cs: seq<Candidate>)
    requires Ready(roots, h, cs)
    ensures Apart(Sources(roots, cs), Dests(roots, cs))
    ensures forall k :: 0 <= k <= |cs| ==> Placed(h.files, Sources(roots, cs), Dests(roots, cs), k, k, h.files)
  {
    forall i, j | 0 <= i < |cs| && 0 <= j < |cs| && i != j
      ensures Source(roots, cs[i]) != Source(roots, cs[j]) && Dest(roots, cs[i]) != Dest(roots, cs[j])
    {
      assert cs[i].relative != cs[j].relative;
      SamePrefix(roots.sessions + "/", cs[i].relative, cs[j].relative);
      SamePrefix(roots.archive + "/", cs[i].relative, cs[j].relative);
    }
  }

  lemma SamePrefix(p: string, a: string, b: string)
    ensures p + a == p + b ==> a == b
  {
    assert (p + a)[|p|..] == a && (p + b)[|p|..] == b;
  }

  lemma MoveMoves(files: map<string, string>, from: string, to: string)
    requires from in files && from != to
    ensures
      var moved := Move(files, from, to);
      && from !in moved && to in moved && moved[to] == files[from]
      && forall p :: p != from && p != to ==> (p in moved <==> p in files) && (p in files ==> moved[p] == files[p])
  {
  }

  lemma SendAway(start: map<string, string>, from: seq<string>, to: seq<string>, k: nat, now: map<string, string>)
    requires Apart(from, to) && k < |from| && Placed(start, from, to, 0, k, now)
    ensures from[k] in now && Placed(start, from, to, 0, k + 1, Move(now, from[k], to[k]))
  {
    hide Move;
    assert !Away(k, 0, k);
    MoveMoves(now, from[k], to[k]);
    forall i | 0 <= i < |from| ensures Away(i, 0, k + 1) <==> Away(i, 0, k) || i == k {
    }
  }

  lemma BringBack(start: map<string, string>, from: seq<string>, to: seq<string>, k: nat, now: map<string, string>)
    requires Apart(from, to) && k < |from| && Placed(start, from, to, k, |from|, now)
    ensures to[k] in now && Placed(start, from, to, k + 1, |from|, Move(now, to[k], from[k]))
  {
    hide Move;
    assert Away(k, k, |from|);
    MoveMoves(now, to[k], from[k]);
    forall i | 0 <= i < |from| ensures Away(i, k, |from|) <==> Away(i, k + 1, |from|) || i == k {
    }
  }

  lemma NothingAway(start: map<string, string>, from: seq<string>, to: seq<string>, now: map<string, string>)
    requires Apart(from, to) && Placed(start, from, to, |from|, |from|, now)
    ensures now == start
  {
    forall p ensures (p in now <==> p in start) && (p in start && p in now ==> now[p] == start[p]) {
      if p in from {
        var i :| 0 <= i < |from| && from[i] == p;
        assert !Away(i, |from|, |from|);
      } else if p in to {
        var i :| 0 <= i < |to| && to[i] == p;
        assert !Away(i, |from|, |from|);
      }
    }
  }

  /** Wherever the two programs stop, every content of the start is still in some file. */
  lemma NothingIsLost(start: map<string, string>, from: seq<string>, to: seq<string>, lo: nat, hi: nat,
      now: map<string, string>, p: string)
    requires Apart(from, to) && Placed(start, from, to, lo, hi, now) && p in start
    ensures exists q :: q in now && now[q] == start[p]
  {
    if p in from {
      var i :| 0 <= i < |from| && from[i] == p;
      var q := if Away(i, lo, hi) then to[i] else from[i];
      assert q in now && now[q] == start[p];
    } else {
      assert p !in to;
      assert p in now && now[p] == start[p];
    }
  }

  // ------------------------------------------------------------------ thread rows

  /** The row of candidate `i` when those from `lo` to `hi` are in the archive and those
      before `lo` were restored: a row with an empty id is not restored. */
  function RowAt(roots: Roots, now: int, start: map<string, Thread>, c: Candidate, i: int, lo: int, hi: int): Thread
    requires c.threadId in start
  {
    if Away(i, lo, hi) || (i < lo && c.threadId == "") then Thread(Dest(roots, c), true, Some(now))
    else if i < lo then Thread(Source(roots, c), false, Absent)
    else start[c.threadId]
  }

  ghost predicate RowsPlaced(roots: Roots, now: int, start: map<string, Thread>, cs: seq<Candidate>, lo: int,
      hi: int, rows: map<string, Thread>) {
    && rows.Keys == start.Keys
    && (forall i :: 0 <= i < |cs| ==>
        cs[i].threadId in start && rows[cs[i].threadId] == RowAt(roots, now, start, cs[i], i, lo, hi))
    && (forall id :: id in start && (forall i :: 0 <= i < |cs| ==> cs[i].threadId != id) ==> rows[id] == start[id])
  }

  predicate DistinctIds(cs: seq<Candidate>) {
    forall i, j :: 0 <= i < |cs| && 0 <= j < |cs| && i != j ==> cs[i].threadId != cs[j].threadId
  }

  lemma RowSentAway(roots: Roots, now: int, start: map<string, Thread>, cs: seq<Candidate>, k: nat,
      rows: map<string, Thread>)
    requires DistinctIds(cs) && k < |cs| && RowsPlaced(roots, now, start, cs, 0, k, rows)
    ensures RowsPlaced(roots, now, start, cs, 0, k + 1,
        SetThread(rows, cs[k].threadId, Thread(Dest(roots, cs[k]), true, Some(now))))
  {
    hide Source, Dest;
  }

  lemma RowBroughtBack(roots: Roots, now: int, start: map<string, Thread>, cs: seq<Candidate>, k: nat,
      rows: map<string, Thread>)
    requires DistinctIds(cs) && k < |cs| && RowsPlaced(roots, now, start, cs, k, |cs|, rows)
    ensures RowsPlaced(roots, now, start, cs, k + 1, |cs|,
      if cs[k].threadId != "" then SetThread(rows, cs[k].threadId, Thread(Source(roots, cs[k]), false, Absent))
          else rows)
  {
    hide Source, Dest;
  }

  /** All rows are back exactly when every id is non-empty and every row was unarchived. */
  lemma RowsAreBackIff(roots: Roots, now: int, h: Home, cs: seq<Candidate>, rows: map<string, Thread>)
    requires Ready(roots, h, cs) && RowsPlaced(roots, now, h.threads, cs, |cs|, |cs|, rows)
    ensures rows == h.threads <==> forall i :: 0 <= i < |cs| ==>
        cs[i].threadId != "" && !h.threads[cs[i].threadId].archived
  {
    forall i | 0 <= i < |cs|
      ensures rows[cs[i].threadId] == h.threads[cs[i].threadId] <==>
          cs[i].threadId != "" && !h.threads[cs[i].threadId].archived
    {
      assert !Away(i, |cs|, |cs|);
    }
  }

  // ---------------------------------------------------------------- the two loops

  function Lines(roots: Roots, cs: seq<Candidate>): seq<string> {
    Mapped(cs, (c: Candidate) => RecordLine(RecordOf(roots, c)))
  }

  /** The state between two steps: those from `lo` to `hi` are in the archive. */
  ghost predicate Between(roots: Roots, now: int, h: Home, cs: seq<Candidate>, lo: int, hi: int, g: Home)
  {
    && Placed(h.files, Sources(roots, cs), Dests(roots, cs), lo, hi, g.files)
    && RowsPlaced(roots, now, h.threads, cs, lo, hi, g.threads)
  }

  lemma ArchiveStep(roots: Roots, now: int, h: Home, cs: seq<Candidate>, k: nat, g: Home)
    requires Ready(roots, h, cs) && k < |cs| && Between(roots, now, h, cs, 0, k, g)
    ensures Source(roots, cs[k]) in g.files && Between(roots, now, h, cs, 0, k + 1, ArchiveOne(roots, now, g, cs[k]))
  {
    hide Placed, RowsPlaced, RecordLine, Move, SetThread, Source, Dest;
    ReadyIsApart(roots, h, cs);
    SendAway(h.files, Sources(roots, cs), Dests(roots, cs), k, g.files);
    RowSentAway(roots, now, h.threads, cs, k, g.threads);
  }

  lemma RestoreStep(roots: Roots, now: int, h: Home, cs: seq<Candidate>, k: nat, g: Home)
    requires Ready(roots, h, cs) && k < |cs| && Between(roots, now, h, cs, k, |cs|, g)
    ensures Between(roots, now, h, cs, k + 1, |cs|, RestoreOne(g, RecordOf(roots, cs[k])))
  {
    hide Placed, RowsPlaced, RecordLine, Move, SetThread, Source, Dest;
    ReadyIsApart(roots, h, cs);
    BringBack(h.files, Sources(roots, cs), Dests(roots, cs), k, g.files);
    RowBroughtBack(roots, now, h.threads, cs, k, g.threads);
  }

  lemma {:induction false} UnlinesSnoc(lines: seq<string>, line: string)
    ensures Unlines(lines + [line]) == Unlines(lines) + line + "\n"
  {
    if lines == [] {
      assert [line][1..] == [];
    } else {
      assert (lines + [line])[1..] == lines[1..] + [line];
      UnlinesSnoc(lines[1..], line);
    }
  }

  /** The archive loop completes, from any point of it. */
  lemma {:induction false} ArchiveCompletes(roots: Roots, now: int, h: Home, cs: seq<Candidate>, k: nat, g: Home,
      committed: map<string, Thread>)
    returns (e: Home)
    requires Ready(roots, h, cs) && k <= |cs| && Between(roots, now, h, cs, 0, k, g)
    requires g.manifest == Unlines(Lines(roots, cs[..k]))
    ensures ArchiveFrom(roots, now, g, cs[k..], committed) == Completed(e)
    ensures Between(roots, now, h, cs, 0, |cs|, e) && e.manifest == Unlines(Lines(roots, cs))
    decreases |cs| - k
  {
    hide Between, Ready, RecordLine, Unlines, Move;
    if k == |cs| {
      assert cs[..k] == cs && cs[k..] == [];
      e := g;
    } else {
      ArchiveStep(roots, now, h, cs, k, g);
      assert cs[..k + 1] == cs[..k] + [cs[k]];
      assert Lines(roots, cs[..k + 1]) == Lines(roots, cs[..k]) + [RecordLine(RecordOf(roots, cs[k]))];
      UnlinesSnoc(Lines(roots, cs[..k]), RecordLine(RecordOf(roots, cs[k])));
      assert cs[k..][0] == cs[k] && cs[k..][1..] == cs[k + 1..];
      e := ArchiveCompletes(roots, now, h, cs, k + 1, ArchiveOne(roots, now, g, cs[k]), committed);
    }
  }

  predicate AllClean(roots: Roots, cs: seq<Candidate>) {
    forall i :: 0 <= i < |cs| ==> Clean(RecordOf(roots, cs[i]))
  }

  /** The restore loop, from any point of it: it completes exactly on a clean manifest, and
      stops with the files in some state between the two steps otherwise. */
  lemma {:induction false} RestoreRuns(roots: Roots, now: int, h: Home, cs: seq<Candidate>, k: nat, g: Home,
      committed: map<string, Thread>)
    returns (e: Home, m: nat)
    requires Ready(roots, h, cs) && k <= |cs| && Between(roots, now, h, cs, k, |cs|, g)
    ensures m <= |cs| && e.manifest == g.manifest
    ensures
      var outcome := RestoreFrom(g, SplitLines(Unlines(Lines(roots, cs[k..]))), committed);
      if AllClean(roots, cs[k..]) then outcome == Completed(e) && m == |cs| && Between(roots, now, h, cs, m, |cs|, e)
      else
        outcome == Stopped(e) && e.threads == committed &&
            Placed(h.files, Sources(roots, cs), Dests(roots, cs), m, |cs|, e.files)
    decreases |cs| - k
  {
    hide Ready, RecordLine, Clean, ReadRecord, SplitLines, Placed, RowsPlaced, RestoreOne;
    ReadyIsApart(roots, h, cs);
    var rest := cs[k..];
    if k == |cs| {
      NoLines();
      e, m := g, k;
    } else {
      var r := RecordOf(roots, cs[k]);
      var later := Unlines(Lines(roots, rest[1..]));
      assert rest[0] == cs[k] && rest[1..] == cs[k + 1..];
      assert Lines(roots, rest)[0] == RecordLine(r) && Lines(roots, rest)[1..] == Lines(roots, rest[1..]);
      FirstLine(r, later);
      if Clean(r) {
        ReadInvertsLine(r);
        RestoreStep(roots, now, h, cs, k, g);
        RestoreKeepsManifest(g, r);
        assert ([RecordLine(r)] + SplitLines(later))[1..] == SplitLines(later);
        e, m := RestoreRuns(roots, now, h, cs, k + 1, RestoreOne(g, r), committed);
        CleanRest(roots, rest);
      } else {
        e, m := g.(threads := committed), k;
        assert !AllClean(roots, rest);
      }
    }
  }

  lemma CleanRest(roots: Roots, cs: seq<Candidate>)
    requires cs != [] && Clean(RecordOf(roots, cs[0]))
    ensures AllClean(roots, cs) <==> AllClean(roots, cs[1..])
  {
    hide Clean;
    if AllClean(roots, cs[1..]) {
      forall i | 0 <= i < |cs| ensures Clean(RecordOf(roots, cs[i])) {
        assert i > 0 ==> cs[i] == cs[1..][i - 1];
      }
    }
  }

  lemma RestoreKeepsManifest(g: Home, r: Record)
    ensures RestoreOne(g, r).manifest == g.manifest
  {
  }

  lemma NoLines()
    ensures SplitLines(Unlines([])) == []
  {
  }

  // ----------------------------------------------------------------- main theorem

  /** Archiving always completes; restoring afterwards gives back every file and every
      thread row exactly when no id or path holds a line boundary JSON leaves as it is, no
      thread id is empty and no row was flagged archived. Whatever happens, no content is
      lost on the way. */
  lemma RestoreInvertsArchiveIff(roots: Roots, now: int, h: Home, cs: seq<Candidate>) returns (m: nat)
    requires Ready(roots, h, cs) && cs != []
    ensures
      var a := Archived(roots, now, h, cs);
      && a.Completed?
      && (Restored(a.home) == Completed(h.(manifest := a.home.manifest)) <==>
            AllClean(roots, cs) && forall i :: 0 <= i < |cs| ==>
                cs[i].threadId != "" && !h.threads[cs[i].threadId].archived)
      && (AllClean(roots, cs) ==> Restored(a.home).Completed? && Restored(a.home).home.files == h.files)
      && m <= |cs| && Placed(h.files, Sources(roots, cs), Dests(roots, cs), m, |cs|, Restored(a.home).home.files)
  {
    hide Placed, RowsPlaced, RestoreFrom, ArchiveFrom, Ready, AllClean, SplitLines, Unlines;
    ReadyIsApart(roots, h, cs);
    var g := h.(manifest := "");
    NothingDone(roots, now, h, cs);
    assert cs[0..] == cs;
    assert Unlines(Lines(roots, cs[..0])) == "" by {
      NoUnlines();
    }
    var e := ArchiveCompletes(roots, now, h, cs, 0, g, h.threads);
    var back, at := RestoreRuns(roots, now, h, cs, 0, e, e.threads);
    m := at;
    if AllClean(roots, cs) {
      NothingAway(h.files, Sources(roots, cs), Dests(roots, cs), back.files);
      RowsAreBackIff(roots, now, h, cs, back.threads);
    }
  }

  lemma NoUnlines()
    ensures Unlines([]) == ""
  {
  }

  lemma NothingDone(roots: Roots, now: int, h: Home, cs: seq<Candidate>)
    requires Ready(roots, h, cs)
    ensures Between(roots, now, h, cs, 0, 0, h.(manifest := ""))
  {
    ReadyIsApart(roots, h, cs);
  }
}
