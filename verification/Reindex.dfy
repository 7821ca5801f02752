/** Reindexing from a list of changed paths brings the index into agreement with the files
    (internal/indexer/indexer.go). */
module Reindex {
  import opened Text
  import opened Documents
  import opened Index

  // ----- what agreement means -----

  /** The rows of a path are what a direct extraction from the file gives; a file that does not
      parse says nothing about them. */
  predicate Agrees(t: Tables, files: Files, assets: set<string>, p: Path) {
    if p !in files then
      p !in t.docs && RowsAt(t.fts, p) == []
      && SetAt(t.tags, p) == {} && SetAt(t.links, p) == {} && SetAt(t.assets, p) == {}
    else files[p].Good? ==>
      var d := files[p].doc;
      p in t.docs && t.docs[p] == Row(d.project, d.title, KindOf(d.kind), false)
      && RowsAt(t.fts, p) == [FtsText(d.title, d.payload.body)]
      && SetAt(t.tags, p) == TagsOf(d) && SetAt(t.links, p) == d.payload.links
      && SetAt(t.assets, p) == d.payload.assets * assets
  }

  predicate Settled(t: Tables, files: Files, assets: set<string>, p: Path) {
    Archived(t, p) || Agrees(t, files, assets, p)
  }

  /** Two states of the tables have the same rows for a path. */
  predicate SameRows(t: Tables, u: Tables, p: Path) {
    (p in t.docs <==> p in u.docs) && (p in t.docs ==> t.docs[p] == u.docs[p])
    && RowsAt(t.fts, p) == RowsAt(u.fts, p) && SetAt(t.tags, p) == SetAt(u.tags, p)
    && SetAt(t.links, p) == SetAt(u.links, p) && SetAt(t.assets, p) == SetAt(u.assets, p)
  }

  /** Tag, link and asset rows refer to a document row. */
  predicate ReferencesHold(t: Tables) {
    t.tags.Keys <= t.docs.Keys && t.links.Keys <= t.docs.Keys && t.assets.Keys <= t.docs.Keys
  }

  // ----- what a faithful change list is -----

  predicate IsJournalFile(p: Path) {
    IsScanned(p) && IsJournalPath(p)
  }

  /** One entry tells the truth about its paths. What is renamed away from a document or a journal goes
      to a document or a journal: see `RenameSettlesIff`. */
  predicate TrueEntry(c: Change, before: Files, after: Files) {
    match c.status
    case Added => c.path !in before && c.path in after
    case Modified => c.path in before && c.path in after
    case Deleted => c.path in before && c.path !in after
    case Renamed =>
      c.oldPath in before && c.oldPath !in after && c.path !in before && c.path in after
      && (IsDocument(c.oldPath) ==> IsDocument(c.path)) && (IsJournalFile(c.oldPath) ==> IsJournalFile(c.path))
    case _ => false
  }

  predicate Mentions(c: Change, p: Path) {
    c.path == p || (c.status == Renamed && c.oldPath == p)
  }

  predicate Unchanged(before: Files, after: Files, p: Path) {
    if p in before then p in after && before[p] == after[p] else p !in after
  }

  ghost predicate Faithful(changes: seq<Change>, before: Files, after: Files) {
    (forall i :: 0 <= i < |changes| ==> TrueEntry(changes[i], before, after))
    && (forall p: Path :: !Unchanged(before, after, p) ==> exists i :: 0 <= i < |changes| && Mentions(changes[i], p))
  }

  // ----- one step -----

  lemma RemovalKeeps(t: Tables, q: Path)
    requires ReferencesHold(t)
    ensures ReferencesHold(RemovedCompletely(t, q))
  {
  }

  lemma RemovalSettles(t: Tables, q: Path, files: Files, known: Known, p: Path)
    requires ReferencesHold(t) && q !in files
    requires p == q || Settled(t, files, known.assets, p)
    ensures Settled(RemovedCompletely(t, q), files, known.assets, p)
  {
  }

  lemma IndexingKeeps(s: Progress, files: Files, known: Known, q: Path)
    requires ReferencesHold(s.tables)
    ensures ReferencesHold(IndexChange(s, files, known, q).tables)
  {
  }

  lemma IndexingSettles(s: Progress, files: Files, known: Known, q: Path, p: Path)
    requires p == q || Settled(s.tables, files, known.assets, p)
    requires !IndexChange(s, files, known, q).failed
    ensures Settled(IndexChange(s, files, known, q).tables, files, known.assets, p)
  {
  }

  /** Whatever an entry mentions is settled by it, and nothing settled is disturbed. */
  lemma EntrySettles(s: Progress, before: Files, after: Files, known: Known, c: Change, p: Path)
    requires ReferencesHold(s.tables) && TrueEntry(c, before, after) && IsDocument(p)
    requires Mentions(c, p) || Settled(s.tables, after, known.assets, p)
    requires !ApplyChange(s, after, known, c).failed
    ensures ReferencesHold(ApplyChange(s, after, known, c).tables)
    ensures Settled(ApplyChange(s, after, known, c).tables, after, known.assets, p)
  {
    if IsDocument(c.path) {
      if c.status == Deleted {
        RemovalKeeps(s.tables, c.path);
        RemovalSettles(s.tables, c.path, after, known, p);
      } else if c.status == Renamed && c.oldPath != "" {
        RenameSettles(s, after, known, c.path, c.oldPath, p);
      } else {
        IndexingKeeps(s, after, known, c.path);
        IndexingSettles(s, after, known, c.path, p);
      }
    }
  }

  /** Removing the old path and indexing the new one settles both. */
  lemma RenameSettles(s: Progress, files: Files, known: Known, path: Path, oldPath: Path, p: Path)
    requires ReferencesHold(s.tables) && oldPath !in files
    requires p == path || p == oldPath || Settled(s.tables, files, known.assets, p)
    requires !IndexChange(s.(tables := RemovedCompletely(s.tables, oldPath)), files, known, path).failed
    ensures var next := IndexChange(s.(tables := RemovedCompletely(s.tables, oldPath)), files, known, path).tables;
            ReferencesHold(next) && Settled(next, files, known.assets, p)
  {
    var cleared := s.(tables := RemovedCompletely(s.tables, oldPath));
    RemovalKeeps(s.tables, oldPath);
    if p != path {
      RemovalSettles(s.tables, oldPath, files, known, p);
    }
    IndexingKeeps(cleared, files, known, path);
    IndexingSettles(cleared, files, known, path, p);
  }

  lemma EntryKeeps(s: Progress, files: Files, known: Known, c: Change)
    requires ReferencesHold(s.tables)
    ensures ReferencesHold(ApplyChange(s, files, known, c).tables)
  {
    RemovalKeeps(s.tables, c.path);
    RemovalKeeps(s.tables, c.oldPath);
    IndexingKeeps(s, files, known, c.path);
    IndexingKeeps(s.(tables := RemovedCompletely(s.tables, c.oldPath)), files, known, c.path);
  }

  // ----- the whole list -----

  lemma {:induction false} ListSettles(s: Progress, before: Files, after: Files, known: Known, changes: seq<Change>, p: Path)
    requires ReferencesHold(s.tables) && IsDocument(p)
    requires forall i :: 0 <= i < |changes| ==> TrueEntry(changes[i], before, after)
    requires Settled(s.tables, after, known.assets, p) || exists i :: 0 <= i < |changes| && Mentions(changes[i], p)
    requires !ApplyChanges(s, after, known, changes).failed
    ensures Settled(ApplyChanges(s, after, known, changes).tables, after, known.assets, p)
    ensures ReferencesHold(ApplyChanges(s, after, known, changes).tables)
    decreases changes
  {
    if changes != [] && !s.failed {
      var next := ApplyChange(s, after, known, changes[0]);
      if Mentions(changes[0], p) || Settled(s.tables, after, known.assets, p) {
        EntrySettles(s, before, after, known, changes[0], p);
      } else {
        EntryKeeps(s, after, known, changes[0]);
        var i :| 0 <= i < |changes| && Mentions(changes[i], p);
        assert changes[1..][i - 1] == changes[i];
      }
      ListSettles(next, before, after, known, changes[1..], p);
    }
  }

  /** From an index agreeing with the files before a pull, a faithful list in any order ends agreeing
      with the files after it, on every document path that is neither archived nor corrupt. */
  lemma ReindexAgrees(t: Tables, before: Files, after: Files, known: Known, changes: seq<Change>)
    requires ReferencesHold(t) && Faithful(changes, before, after)
    requires forall p :: IsDocument(p) ==> Settled(t, before, known.assets, p)
    requires !ApplyChanges(Progress(t, [], false), after, known, changes).failed
    ensures ReferencesHold(ApplyChanges(Progress(t, [], false), after, known, changes).tables)
    ensures forall p :: IsDocument(p) ==> Settled(ApplyChanges(Progress(t, [], false), after, known, changes).tables, after, known.assets, p)
  {
    var s := Progress(t, [], false);
    forall p | IsDocument(p) ensures Settled(ApplyChanges(s, after, known, changes).tables, after, known.assets, p) {
      assert Unchanged(before, after, p) ==> Settled(t, after, known.assets, p);
      ListSettles(s, before, after, known, changes, p);
    }
    ListKeeps(s, after, known, changes);
  }

  lemma {:induction false} ListKeeps(s: Progress, files: Files, known: Known, changes: seq<Change>)
    requires ReferencesHold(s.tables)
    ensures ReferencesHold(ApplyChanges(s, files, known, changes).tables)
    decreases changes
  {
    if changes != [] && !s.failed {
      EntryKeeps(s, files, known, changes[0]);
      ListKeeps(ApplyChange(s, files, known, changes[0]), files, known, changes[1..]);
    }
  }

  // ----- when it fails, and what it reports -----

  /** The entry names a readable, active document of a project the index does not know. */
  predicate OfUnknownProject(t: Tables, files: Files, known: Known, c: Change) {
    IsDocument(c.path) && c.path in files && files[c.path].Good? && !Archived(t, c.path)
    && files[c.path].doc.project !in known.projects
  }

  predicate IsCorruptAt(files: Files, p: Path) {
    p in files && !files[p].Good?
  }

  lemma RemovalKeepsArchived(t: Tables, q: Path, p: Path)
    requires p != q
    ensures Archived(RemovedCompletely(t, q), p) == Archived(t, p)
  {
  }

  lemma IndexingKeepsArchived(s: Progress, files: Files, known: Known, q: Path, p: Path)
    ensures Archived(IndexChange(s, files, known, q).tables, p) == Archived(s.tables, p)
  {
  }

  /** Entries never change which surviving files are archived. */
  lemma EntryKeepsArchived(s: Progress, before: Files, after: Files, known: Known, c: Change, p: Path)
    requires TrueEntry(c, before, after) && p in after
    ensures Archived(ApplyChange(s, after, known, c).tables, p) == Archived(s.tables, p)
  {
    if c.status == Deleted {
      RemovalKeepsArchived(s.tables, c.path, p);
    } else if c.status == Renamed {
      RemovalKeepsArchived(s.tables, c.oldPath, p);
      IndexingKeepsArchived(s.(tables := RemovedCompletely(s.tables, c.oldPath)), after, known, c.path, p);
      IndexingKeepsArchived(s, after, known, c.path, p);
    } else {
      IndexingKeepsArchived(s, after, known, c.path, p);
    }
  }

  function Reported(files: Files, p: Path): seq<Path> {
    if IsDocument(p) && IsCorruptAt(files, p) then [p] else []
  }

  lemma EntryOutcome(s: Progress, before: Files, after: Files, known: Known, c: Change)
    requires TrueEntry(c, before, after) && !s.failed
    ensures ApplyChange(s, after, known, c).failed <==> OfUnknownProject(s.tables, after, known, c)
    ensures ApplyChange(s, after, known, c).corrupt == s.corrupt + Reported(after, c.path)
  {
    if c.status == Renamed {
      RemovalKeepsArchived(s.tables, c.oldPath, c.path);
    }
  }

  /** The only hard failure is a readable, active document of an unknown project. */
  lemma {:induction false} ReindexFailsIff(s: Progress, before: Files, after: Files, known: Known, changes: seq<Change>)
    requires !s.failed
    requires forall i :: 0 <= i < |changes| ==> TrueEntry(changes[i], before, after)
    ensures ApplyChanges(s, after, known, changes).failed
       <==> exists i :: 0 <= i < |changes| && OfUnknownProject(s.tables, after, known, changes[i])
    decreases changes
  {
    if changes != [] {
      var next := ApplyChange(s, after, known, changes[0]);
      EntryOutcome(s, before, after, known, changes[0]);
      if !next.failed {
        ReindexFailsIff(next, before, after, known, changes[1..]);
        forall i | 0 < i < |changes|
          ensures changes[1..][i - 1] == changes[i]
          ensures OfUnknownProject(next.tables, after, known, changes[i]) == OfUnknownProject(s.tables, after, known, changes[i])
        {
          if changes[i].path in after {
            EntryKeepsArchived(s, before, after, known, changes[0], changes[i].path);
          }
        }
      }
    }
  }

  /** The corrupt list names, in order, the changed document paths whose files do not parse. */
  function CorruptOf(changes: seq<Change>, files: Files): seq<Path> {
    if changes == [] then [] else Reported(files, changes[0].path) + CorruptOf(changes[1..], files)
  }

  lemma {:induction false} CorruptReported(s: Progress, before: Files, after: Files, known: Known, changes: seq<Change>)
    requires !ApplyChanges(s, after, known, changes).failed
    requires forall i :: 0 <= i < |changes| ==> TrueEntry(changes[i], before, after)
    ensures ApplyChanges(s, after, known, changes).corrupt == s.corrupt + CorruptOf(changes, after)
    decreases changes
  {
    if changes != [] {
      var next := ApplyChange(s, after, known, changes[0]);
      EntryOutcome(s, before, after, known, changes[0]);
      CorruptReported(next, before, after, known, changes[1..]);
      Assoc(s.corrupt, Reported(after, changes[0].path), CorruptOf(changes[1..], after));
    }
  }

  // ----- lists outside the promise -----

  /** A renamed document's old path is settled afterwards if and only if the new path is a document path:
      a rename out of the documents is skipped, and the old rows stay. */
  lemma RenameSettlesIff(t: Tables, before: Files, after: Files, known: Known, c: Change)
    requires ReferencesHold(t) && c.status == Renamed && IsDocument(c.oldPath) && c.path != c.oldPath
    requires c.oldPath in before && before[c.oldPath].Good? && c.oldPath !in after && Agrees(t, before, known.assets, c.oldPath)
    ensures Settled(ApplyChanges(Progress(t, [], false), after, known, [c]).tables, after, known.assets, c.oldPath)
       <==> IsDocument(c.path)
  {
    var s := Progress(t, [], false);
    assert ApplyChanges(s, after, known, [c]) == ApplyChange(s, after, known, c);
    if IsDocument(c.path) {
      var cleared := s.(tables := RemovedCompletely(t, c.oldPath));
      RemovalSettles(t, c.oldPath, after, known, c.oldPath);
      KeptElsewhere(cleared, after, known, c.path, c.oldPath);
    }
  }

  lemma KeptElsewhere(s: Progress, files: Files, known: Known, q: Path, p: Path)
    requires p != q && Settled(s.tables, files, known.assets, p)
    ensures Settled(IndexChange(s, files, known, q).tables, files, known.assets, p)
  {
  }

  /** A copy entry is handled like a rename, so the original goes out of the index. Its path is settled
      afterwards if and only if its file, which is still there, is one that does not parse. */
  lemma CopySettlesIff(t: Tables, after: Files, known: Known, c: Change)
    requires c.status == Copied && IsDocument(c.path) && c.oldPath != "" && c.oldPath != c.path && c.oldPath in after
    ensures Settled(ApplyChanges(Progress(t, [], false), after, known, [c]).tables, after, known.assets, c.oldPath)
       <==> !after[c.oldPath].Good?
  {
    var s := Progress(t, [], false);
    assert ApplyChanges(s, after, known, [c]) == ApplyChange(s, after, known, c);
  }

  lemma ShortPath(name: string)
    requires '/' !in name && HasSuffix(name, ".json")
    ensures IsDocument("projects/" + name)
  {
    var p := "projects/" + name;
    JoinCons("projects", [name], "/");
    assert Join(["projects", name], "/") == p;
    SplitJoin(["projects", name], '/');
    assert p[|p| - 5..] == name[|name| - 5..];
  }

  const NOTHING_INDEXED := Tables(map[], map[], map[], map[], map[])

  /** A document renamed to a file that is no document: its rows stay behind. */
  lemma RenamedAwayStays(doc: Doc)
    ensures var origin, known := "projects/" + "a.json", Known({doc.project}, {});
            var t := Indexed(NOTHING_INDEXED, origin, doc, known);
            Agrees(t, map[origin := Good(doc)], {}, origin)
            && !Settled(ApplyChanges(Progress(t, [], false), map[], known, [Change(Renamed, "a", origin)]).tables,
                        map[], {}, origin)
  {
    var origin, known := "projects/" + "a.json", Known({doc.project}, {});
    ShortPath("a.json");
    RenameSettlesIff(Indexed(NOTHING_INDEXED, origin, doc, known), map[origin := Good(doc)], map[], known,
                     Change(Renamed, "a", origin));
  }

  /** A document copied to another path: the original drops out of the index. */
  lemma CopiedOriginalDropped(doc: Doc)
    ensures var origin, copy, known := "projects/" + "a.json", "projects/" + "b.json", Known({doc.project}, {});
            var t, after := Indexed(NOTHING_INDEXED, origin, doc, known), map[origin := Good(doc), copy := Good(doc)];
            Agrees(t, after, {}, origin)
            && !Settled(ApplyChanges(Progress(t, [], false), after, known, [Change(Copied, copy, origin)]).tables,
                        after, {}, origin)
  {
    var origin, copy, known := "projects/" + "a.json", "projects/" + "b.json", Known({doc.project}, {});
    ShortPath("b.json");
    assert origin[9] != copy[9];
    CopySettlesIff(Indexed(NOTHING_INDEXED, origin, doc, known), map[origin := Good(doc), copy := Good(doc)], known,
                   Change(Copied, copy, origin));
  }

  // ----- journals -----

  predicate DayAgrees(rows: map<Day, seq<JournalRow>>, files: Files, day: Day) {
    var p := JournalPath(day);
    (p in files && !files[p].Journal?) || RowsAt(rows, day) == DayRows([], files, day)
  }

  lemma {:induction false} DayCollected(changes: seq<Change>, i: nat, before: Files, after: Files, day: Day)
    requires IsDay(day) && i < |changes| && Mentions(changes[i], JournalPath(day))
    requires TrueEntry(changes[i], before, after)
    ensures day in AllDays(changes)
    decreases changes
  {
    if i == 0 {
      JournalPathRoundTrip(day);
    } else {
      DayCollected(changes[1..], i - 1, before, after, day);
    }
  }

  /** Journal rows agree with the files after the pull on every day whose file parses. */
  lemma JournalsAgree(rows: map<Day, seq<JournalRow>>, rows': map<Day, seq<JournalRow>>, before: Files, after: Files, changes: seq<Change>)
    requires Faithful(changes, before, after) && DaysReindexed(rows, rows', AllDays(changes), after)
    requires forall day :: IsDay(day) ==> DayAgrees(rows, before, day)
    ensures forall day :: IsDay(day) ==> DayAgrees(rows', after, day)
  {
    forall day | IsDay(day) ensures DayAgrees(rows', after, day) {
      if day !in AllDays(changes) {
        assert Unchanged(before, after, JournalPath(day)) by {
          if !Unchanged(before, after, JournalPath(day)) {
            var i :| 0 <= i < |changes| && Mentions(changes[i], JournalPath(day));
            DayCollected(changes, i, before, after, day);
          }
        }
        assert DayAgrees(rows, before, day);
      }
    }
  }
}
