/** What each operation on the vault and its index is for, from the request and the state alone
    (internal/document/service.go, internal/indexer/indexer.go): when it is refused, what it changes, and
    that it changes nothing else. */
module VaultLaws {
  import opened Text
  import opened Documents
  import opened Index
  import opened Reindex
  import opened DocumentService
  import opened Watcher
  import L = Lifecycle

  // ----- saving -----

  /** The request names a valid project and a title. */
  predicate WellNamed(req: Request) {
    var alias := TrimSpace(req.project);
    && 3 <= |alias| <= 33 && alias[0] == '@'
    && (forall k :: 1 <= k < |alias| ==> 'a' <= alias[k] <= 'z' || '0' <= alias[k] <= '9' || alias[k] == '-')
    && TrimSpace(req.title) != ""
  }

  /** An update finds a readable document of its own kind; legacy files count as plain documents. */
  predicate FindsItsKind(files: Files, req: Request) {
    req.path == "" || (Readable(files, req.path) && PlainKind(files[req.path].doc.kind) == PlainKind(req.kind))
  }

  function PlainKind(k: Kind): Kind {
    match k
    case Canvas => Canvas
    case _ => PlainDocument
  }

  /** The version the caller read is not the one on disk. */
  predicate Outdated(files: Files, req: Request) {
    req.path != "" && req.expected.Some? && Readable(files, req.path) && Normalize(files[req.path].doc) != req.expected.value
  }

  /** Every verdict of a save, exactly: a conflict is an outdated update with nothing else wrong, a refusal is
      a bad name, a missing or mismatched document or a failed write, an index failure is an active document
      of an unknown project, and everything else is saved. */
  lemma SaveVerdictIff(v: Vault, known: Known, req: Request, id: string, now: int, writes: bool)
    ensures var verdict, fine := SaveVerdict(v, known, req, id, now, writes), WellNamed(req) && FindsItsKind(v.files, req);
            && (verdict == Conflict <==> fine && Outdated(v.files, req))
            && (verdict == Refused <==> !fine || (!Outdated(v.files, req) && !writes))
            && (verdict == IndexFailed <==>
                  fine && !Outdated(v.files, req) && writes && !Archived(v.tables, TargetPath(req, id))
                  && Lower(TrimSpace(req.project)) !in known.projects)
            && (verdict.Saved? ==> verdict.path == if req.path != "" then req.path else NewPath(TrimSpace(req.project), id))
  {
    if Objection(v.files, req).None? {
      WrittenHolds(v.files, req, now);
    }
  }

  // ----- moving -----

  /** A move is refused for a blank path, an invalid or unknown project, a missing or archived document, and
      the project the document is in; refused it changes nothing, else the document is in the project and
      its row says so. */
  lemma MoveMeans(v: Vault, known: Known, path: Path, target: string, now: int)
    ensures var p, alias := TrimSpace(path), TrimSpace(target);
            var w := L.Do(v, L.Step(L.Move(path, target, true), known, now));
            if p == "" || !ValidAlias(alias) || alias !in known.projects || !Readable(v.files, p)
               || p !in v.tables.docs || v.tables.docs[p].deleted || v.tables.docs[p].project == alias
            then w == v
            else Readable(w.files, p) && w.files[p].doc.project == alias && p in w.tables.docs && w.tables.docs[p].project == alias
    ensures L.Do(v, L.Step(L.Move(path, target, false), known, now)) == v
  {
  }

  // ----- archiving -----

  /** The rows of a path, apart from whether it is archived. */
  predicate SameButMark(t: Tables, u: Tables, q: Path) {
    && (q in t.docs <==> q in u.docs) && (q in t.docs ==> t.docs[q].(deleted := false) == u.docs[q].(deleted := false))
    && SetAt(t.tags, q) == SetAt(u.tags, q) && SetAt(t.links, q) == SetAt(u.links, q) && SetAt(t.assets, q) == SetAt(u.assets, q)
  }

  /** Archiving a document marks it and takes it out of the full-text table, and does nothing else. */
  lemma ArchiveMeans(v: Vault, p: Path, known: Known, now: int, q: Path)
    ensures var w := L.Do(v, L.Step(L.Archive(p), known, now));
            && w.files == v.files && SameButMark(v.tables, w.tables, q)
            && (Archived(w.tables, q) <==> Archived(v.tables, q) || (q == p && TrimSpace(p) != "" && p in v.tables.docs))
            && (RowsAt(w.tables.fts, q) == if q == p && TrimSpace(p) != "" && Active(v.tables, p) then [] else RowsAt(v.tables.fts, q))
  {
  }

  /** Archiving a project marks exactly its documents; the full-text table stays. */
  lemma ArchiveProjectMeans(v: Vault, project: string, known: Known, now: int, q: Path)
    ensures var w, alias := L.Do(v, L.Step(L.ArchiveProject(project), known, now)), TrimSpace(project);
            && w.files == v.files && w.tables.fts == v.tables.fts && SameButMark(v.tables, w.tables, q)
            && (Archived(w.tables, q) <==>
                  Archived(v.tables, q) || (ValidAlias(alias) && q in v.tables.docs && v.tables.docs[q].project == alias))
  {
  }

  /** Restoring takes the mark off exactly the document named, if it was archived. */
  lemma RestoreMeans(v: Vault, known: Known, now: int, p: Path, q: Path)
    ensures var w := L.Do(v, L.Step(L.Restore(p), known, now));
            && w.files == v.files
            && (Archived(w.tables, q) <==> Archived(v.tables, q) && !(q == p && TrimSpace(p) != ""))
            && (q != p ==> SameRows(v.tables, w.tables, q))
  {
  }

  // ----- deleting -----

  predicate NoRows(t: Tables, q: Path) {
    q !in t.docs && RowsAt(t.fts, q) == [] && SetAt(t.tags, q) == {} && SetAt(t.links, q) == {} && SetAt(t.assets, q) == {}
  }

  predicate SameFile(before: Files, after: Files, q: Path) {
    if q in before then q in after && before[q] == after[q] else q !in after
  }

  /** Deleting for good takes file and rows of an active document away, unless the file cannot be removed; an
      archived or unknown document, and every other path, stays as it is. */
  lemma HardDeleteMeans(v: Vault, p: Path, stuck: set<Path>, known: Known, now: int, q: Path)
    requires ReferencesHold(v.tables)
    ensures var w := L.Do(v, L.Step(L.HardDelete(p, stuck), known, now));
            if q == p && TrimSpace(p) != "" && p in v.tables.docs && !v.tables.docs[p].deleted && !(p in v.files && p in stuck)
            then q !in w.files && NoRows(w.tables, q)
            else SameFile(v.files, w.files, q) && SameRows(v.tables, w.tables, q)
  {
  }

  /** Some path of the batch is blank, unknown or named twice. */
  predicate Faulty(t: Tables, paths: seq<Path>) {
    || paths == []
    || (exists i :: 0 <= i < |paths| && (TrimSpace(paths[i]) == "" || paths[i] !in t.docs))
    || (exists i, j :: 0 <= i < j < |paths| && paths[i] == paths[j])
  }

  /** A batch with a faulty path changes nothing. Otherwise every path of it loses its rows and, if it can be
      removed, its file, and every other path stays as it is. */
  lemma BatchMeans(v: Vault, paths: seq<Path>, stuck: set<Path>, known: Known, now: int, q: Path)
    requires ReferencesHold(v.tables)
    ensures var w := L.Do(v, L.Step(L.HardDeleteBatch(paths, stuck), known, now));
            if Faulty(v.tables, paths) then w == v
            else if q in paths then NoRows(w.tables, q) && (q in w.files <==> q in v.files && q in stuck)
            else SameFile(v.files, w.files, q) && SameRows(v.tables, w.tables, q)
  {
    if Faulty(v.tables, paths) {
      assert !BatchAccepted(v.tables, paths);
    } else {
      assert forall i :: 0 <= i < |paths| ==> TrimSpace(paths[i]) != "" && paths[i] in v.tables.docs;
      assert forall i, j :: 0 <= i < j < |paths| ==> paths[i] != paths[j];
      assert BatchAccepted(v.tables, paths);
      assert q in Elements(paths) <==> q in paths;
    }
  }

  // ----- indexing -----

  /** Only `.json` files under `projects/` are documents, and a day's journal is none. */
  lemma DocumentPaths(p: Path, day: Day)
    requires IsDay(day)
    ensures IsDocument(p) ==> "projects/" <= p && |p| >= 5 && p[|p| - 5..] == ".json"
    ensures !IsDocument(JournalPath(day))
  {
    JournalPathRoundTrip(day);
  }

  /** A change of another kind than the five known ones is passed over, and so is a path that is no document. */
  lemma OtherChangesIgnored(s: Progress, files: Files, known: Known, c: Change)
    requires c.status == Other || !("projects/" <= c.path)
    ensures ApplyChange(s, files, known, c) == s
  {
  }

  /** One entry of a journal gives one row with its id, content and tags, unless it is deleted or has no id. */
  lemma LiveRowsOne(e: JournalEntry)
    ensures var rows := LiveRows([e]);
            if e.deleted || e.id == "" then rows == []
            else |rows| == 1 && rows[0].id == e.id && rows[0].content == e.content && rows[0].tags == e.tags
  {
    assert [e][1..] == [];
  }

  lemma LiveRowsStep(es: seq<JournalEntry>)
    requires es != []
    ensures LiveRows(es) == LiveRows([es[0]]) + LiveRows(es[1..])
  {
    assert [es[0]][1..] == [];
  }

  /** The rows of a journal are those of its entries, in order. */
  lemma {:induction false} LiveRowsAppend(a: seq<JournalEntry>, b: seq<JournalEntry>)
    ensures LiveRows(a + b) == LiveRows(a) + LiveRows(b)
  {
    if a == [] {
      assert a + b == b;
    } else {
      assert (a + b)[0] == a[0] && (a + b)[1..] == a[1..] + b;
      LiveRowsAppend(a[1..], b);
      LiveRowsStep(a);
      LiveRowsStep(a + b);
      Assoc(LiveRows([a[0]]), LiveRows(a[1..]), LiveRows(b));
    }
  }

  /** A reindexed day has no rows if its file is gone, and keeps the ones it had if the file does not parse. */
  lemma DayWithoutJournal(before: map<Day, seq<JournalRow>>, after: map<Day, seq<JournalRow>>, days: set<Day>, files: Files, day: Day)
    requires DaysReindexed(before, after, days, files) && day in days
    ensures JournalPath(day) !in files ==> RowsAt(after, day) == []
    ensures JournalPath(day) in files && !files[JournalPath(day)].Journal? ==> RowsAt(after, day) == RowsAt(before, day)
  {
  }

  // ----- timers -----

  /** Stopping stops the timer armed last and no other: one whose body is already under way stays. */
  lemma ScheduleStopsLast(timers: map<Path, seq<Op>>, p: Path, op: Op, stops: bool, q: Path)
    ensures var was, now := RowsAt(timers, p), RowsAt(Schedule(timers, p, op, stops), p);
            && now != [] && now[|now| - 1] == op
            && (if stops && was != [] then now[..|now| - 1] == was[..|was| - 1] else now[..|now| - 1] == was)
    ensures q != p ==> RowsAt(Schedule(timers, p, op, stops), q) == RowsAt(timers, q)
  {
  }
}
