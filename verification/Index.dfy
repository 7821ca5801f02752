/** The search index over the vault (internal/indexer/indexer.go, internal/search/store.go): a row
    per document, its full-text rows, tags, links and asset links, and the journal rows. */
module Index {
  import opened Text
  import opened Documents

  datatype JournalEntry = JournalEntry(id: string, content: string, tags: seq<string>, deleted: bool)

  /** What the file at a path holds. */
  datatype File = Good(doc: Doc) | Journal(entries: seq<JournalEntry>) | Corrupt

  type Files = map<Path, File>

  datatype Row = Row(project: string, title: string, kind: Kind, deleted: bool)
  datatype FtsText = FtsText(title: string, body: string)
  datatype JournalRow = JournalRow(id: string, content: string, tags: seq<string>)
  type Day = (string, string)

  /** The document tables. Full-text rows have no key, so a path may have any number of them; rows
      are grouped by the column every statement selects on. */
  datatype Tables = Tables(
    docs: map<Path, Row>, fts: map<Path, seq<FtsText>>,
    tags: map<Path, set<string>>, links: map<Path, set<string>>, assets: map<Path, set<string>>)

  /** What indexing depends on besides the file: the projects and assets that exist. */
  datatype Known = Known(projects: set<string>, assets: set<string>)

  function RowsAt<K, R>(m: map<K, seq<R>>, k: K): seq<R> {
    if k in m then m[k] else []
  }

  function SetAt<K, R>(m: map<K, set<R>>, k: K): set<R> {
    if k in m then m[k] else {}
  }

  // ----- one document -----

  function RowOf(d: Doc): Row {
    Row(d.project, d.title, KindOf(d.kind), false)
  }

  function TextOf(d: Doc): FtsText {
    FtsText(d.title, d.payload.body)
  }

  function TagsOf(d: Doc): set<string> {
    set t | t in NormalTags(d.tags, {})
  }

  /** Delete, then insert. */
  function UpdateFts(fts: map<Path, seq<FtsText>>, p: Path, t: FtsText): map<Path, seq<FtsText>> {
    var without := fts - {p};
    without[p := RowsAt(without, p) + [t]]
  }

  function Reset(m: map<Path, set<string>>, p: Path, values: set<string>): map<Path, set<string>> {
    (m - {p})[p := values]
  }

  function Indexed(t: Tables, p: Path, d: Doc, known: Known): Tables {
    Tables(t.docs[p := RowOf(d)],
           UpdateFts(t.fts, p, TextOf(d)),
           Reset(t.tags, p, TagsOf(d)),
           Reset(t.links, p, d.payload.links),
           Reset(t.assets, p, d.payload.assets * known.assets))
  }

  /** Deleting a document row takes its tags, links and asset links along. */
  function RemovedCompletely(t: Tables, p: Path): Tables {
    var u := t.(fts := t.fts - {p});
    if p !in t.docs then u
    else u.(docs := u.docs - {p}, tags := u.tags - {p}, links := u.links - {p}, assets := u.assets - {p})
  }

  datatype Outcome = Done | SkippedArchived | IsCorrupt | Fails

  predicate Archived(t: Tables, p: Path) {
    p in t.docs && t.docs[p].deleted
  }

  /** A missing file and an unknown project are hard errors; a file that does not parse is corrupt. */
  function OutcomeOf(t: Tables, files: Files, known: Known, p: Path): Outcome {
    if p !in files then Fails
    else if !files[p].Good? then IsCorrupt
    else if Archived(t, p) then SkippedArchived
    else if files[p].doc.project !in known.projects then Fails
    else Done
  }

  function AfterIndexing(t: Tables, files: Files, known: Known, p: Path): Tables {
    if OutcomeOf(t, files, known, p) == Done then Indexed(t, p, files[p].doc, known) else t
  }

  // ----- what the rows hold -----

  lemma {:induction false} NormalTagsHold(tags: seq<string>, seen: set<string>, t: string)
    ensures t in NormalTags(tags, seen) <==> t != "" && t !in seen && exists k :: 0 <= k < |tags| && NormalTag(tags[k]) == t
    decreases tags
  {
    if tags != [] {
      var n := NormalTag(tags[0]);
      NormalTagsHold(tags[1..], seen, t);
      NormalTagsHold(tags[1..], seen + {n}, t);
      if k :| 0 <= k < |tags| && NormalTag(tags[k]) == t {
        assert k > 0 ==> tags[1..][k - 1] == tags[k];
      }
      if k :| 0 <= k < |tags[1..]| && NormalTag(tags[1..][k]) == t {
        assert tags[k + 1] == tags[1..][k];
      }
    }
  }

  /** A document indexed at a path: its row has the document's project, title and kind and is not deleted,
      there is one full-text row with title and body in their columns, the tags are those of the
      document trimmed, in lower case and not blank, and the links and known assets are the document's.
      No other path is touched. */
  lemma IndexedRows(t: Tables, files: Files, known: Known, p: Path)
    requires OutcomeOf(t, files, known, p) == Done
    ensures var d, u := files[p].doc, AfterIndexing(t, files, known, p);
            && p in u.docs && u.docs[p].project == d.project && u.docs[p].title == d.title && !u.docs[p].deleted
            && u.docs[p].kind == (if d.kind == Legacy then PlainDocument else d.kind)
            && |RowsAt(u.fts, p)| == 1 && RowsAt(u.fts, p)[0].title == d.title && RowsAt(u.fts, p)[0].body == d.payload.body
            && (forall tag :: tag in SetAt(u.tags, p) <==>
                  tag != "" && exists k :: 0 <= k < |d.tags| && Lower(TrimSpace(d.tags[k])) == tag)
            && SetAt(u.links, p) == d.payload.links
            && (forall a :: a in SetAt(u.assets, p) <==> a in d.payload.assets && a in known.assets)
    ensures forall q: Path :: q != p ==>
              var u := AfterIndexing(t, files, known, p);
              && (q in u.docs <==> q in t.docs) && (q in t.docs ==> u.docs[q] == t.docs[q])
              && RowsAt(u.fts, q) == RowsAt(t.fts, q) && SetAt(u.tags, q) == SetAt(t.tags, q)
              && SetAt(u.links, q) == SetAt(t.links, q) && SetAt(u.assets, q) == SetAt(t.assets, q)
  {
    var d := files[p].doc;
    forall tag ensures tag in TagsOf(d) <==> tag != "" && exists k :: 0 <= k < |d.tags| && Lower(TrimSpace(d.tags[k])) == tag {
      NormalTagsHold(d.tags, {}, tag);
    }
  }

  // ----- journal paths -----

  predicate HasSuffix(s: string, suffix: string) {
    |suffix| <= |s| && s[|s| - |suffix|..] == suffix
  }

  function TrimSuffix(s: string, suffix: string): string {
    if HasSuffix(s, suffix) then s[..|s| - |suffix|] else s
  }

  predicate IsJournalPath(p: Path) {
    var parts := Split(p, '/');
    |parts| >= 4 && parts[2] == "journal"
  }

  function ParseJournalPath(p: Path): Day {
    var parts := Split(p, '/');
    if IsJournalPath(p) then (parts[1], TrimSuffix(parts[3], ".json")) else ("", "")
  }

  predicate IsScanned(p: Path) {
    "projects/" <= p && HasSuffix(p, ".json")
  }

  predicate IsDocument(p: Path) {
    IsScanned(p) && !IsJournalPath(p)
  }

  function JournalPath(day: Day): Path {
    Join(["projects", day.0, "journal", day.1 + ".json"], "/")
  }

  predicate IsDay(day: Day) {
    day.0 != "" && day.1 != "" && '/' !in day.0 && '/' !in day.1
  }

  /** A day's path is scanned, is a journal path, and names that day. */
  lemma JournalPathRoundTrip(day: Day)
    requires IsDay(day)
    ensures IsScanned(JournalPath(day)) && IsJournalPath(JournalPath(day)) && ParseJournalPath(JournalPath(day)) == day
  {
    SplitJoin(["projects", day.0, "journal", day.1 + ".json"], '/');
    FourParts(day);
    SuffixOff(day.1);
    JournalPathScanned(day);
  }

  lemma SuffixOff(date: string)
    ensures TrimSuffix(date + ".json", ".json") == date
  {
    assert (date + ".json")[|date|..] == ".json" && (date + ".json")[..|date|] == date;
  }

  lemma JournalPathScanned(day: Day)
    ensures IsScanned(JournalPath(day))
  {
    FourParts(day);
    var p := JournalPath(day);
    assert p[..9] == "projects/";
    assert p[|p| - 5..] == ".json";
  }

  lemma FourParts(day: Day)
    ensures JournalPath(day) == "projects" + "/" + (day.0 + "/" + ("journal" + "/" + (day.1 + ".json")))
  {
    var file := day.1 + ".json";
    JoinCons("projects", [day.0, "journal", file], "/");
    JoinCons(day.0, ["journal", file], "/");
    JoinCons("journal", [file], "/");
  }

  function LiveRows(entries: seq<JournalEntry>): seq<JournalRow> {
    if entries == [] then []
    else
      var e := entries[0];
      (if e.deleted || e.id == "" then [] else [JournalRow(e.id, e.content, e.tags)]) + LiveRows(entries[1..])
  }

  /** The rows a day should have; a journal file that does not parse leaves the old ones. */
  function DayRows(before: seq<JournalRow>, files: Files, day: Day): seq<JournalRow> {
    var p := JournalPath(day);
    if p !in files then []
    else if files[p].Journal? then LiveRows(files[p].entries)
    else before
  }

  // ----- a list of changes -----

  datatype ChangeStatus = Added | Modified | Deleted | Renamed | Copied | Other
  datatype Change = Change(status: ChangeStatus, path: Path, oldPath: Path)

  datatype Progress = Progress(tables: Tables, corrupt: seq<Path>, failed: bool)

  function IndexChange(s: Progress, files: Files, known: Known, p: Path): Progress {
    match OutcomeOf(s.tables, files, known, p)
    case IsCorrupt => s.(corrupt := s.corrupt + [p])
    case Fails => s.(failed := true)
    case _ => s.(tables := AfterIndexing(s.tables, files, known, p))
  }

  /** A copy is handled like a rename. */
  function ApplyChange(s: Progress, files: Files, known: Known, c: Change): Progress {
    if !IsDocument(c.path) || c.status == Other then s
    else if c.status == Deleted then s.(tables := RemovedCompletely(s.tables, c.path))
    else if c.status in {Renamed, Copied} && c.oldPath != "" then
      IndexChange(s.(tables := RemovedCompletely(s.tables, c.oldPath)), files, known, c.path)
    else IndexChange(s, files, known, c.path)
  }

  /** Stops at the first hard error. */
  function ApplyChanges(s: Progress, files: Files, known: Known, changes: seq<Change>): Progress
    decreases changes
  {
    if changes == [] || s.failed then s
    else ApplyChanges(ApplyChange(s, files, known, changes[0]), files, known, changes[1..])
  }

  predicate NonEmpty(day: Day) {
    day.0 != "" && day.1 != ""
  }

  /** The days whose journal a change touches. */
  function DaysOf(c: Change): set<Day> {
    if !IsScanned(c.path) || !IsJournalPath(c.path) then {}
    else
      (if NonEmpty(ParseJournalPath(c.path)) then {ParseJournalPath(c.path)} else {})
      + (if c.oldPath != "" && IsJournalPath(c.oldPath) && NonEmpty(ParseJournalPath(c.oldPath))
         then {ParseJournalPath(c.oldPath)} else {})
  }

  function AllDays(changes: seq<Change>): set<Day> {
    if changes == [] then {} else DaysOf(changes[0]) + AllDays(changes[1..])
  }

  /** The given days have the rows their files call for; every other day keeps its rows. */
  ghost predicate DaysReindexed(before: map<Day, seq<JournalRow>>, after: map<Day, seq<JournalRow>>, days: set<Day>, files: Files) {
    forall d: Day ::
      RowsAt(after, d) == (if d in days then DayRows(RowsAt(before, d), files, d) else RowsAt(before, d))
  }

  // ----- the index as an object -----

  class Indexer {
    var docs: map<Path, Row>
    var fts: map<Path, seq<FtsText>>
    var tags: map<Path, set<string>>
    var links: map<Path, set<string>>
    var assets: map<Path, set<string>>
    var journal: map<Day, seq<JournalRow>>

    function View(): Tables
      reads this
    {
      Tables(docs, fts, tags, links, assets)
    }

    constructor (t: Tables, rows: map<Day, seq<JournalRow>>)
      ensures View() == t && journal == rows
    {
      docs, fts, tags, links, assets, journal := t.docs, t.fts, t.tags, t.links, t.assets, rows;
    }

    method UpdateDocumentFts(p: Path, text: FtsText)
      modifies this`fts
      ensures RowsAt(fts, p) == [text] && forall q: Path :: q != p ==> RowsAt(fts, q) == RowsAt(old(fts), q)
      ensures fts == UpdateFts(old(fts), p, text)
    {
      fts := fts - {p};
      fts := fts[p := RowsAt(fts, p) + [text]];
    }

    /** One transaction: on any failure nothing is changed. */
    method IndexDocument(p: Path, files: Files, known: Known) returns (r: Outcome)
      modifies this`docs, this`fts, this`tags, this`links, this`assets
      ensures r == OutcomeOf(old(View()), files, known, p)
      ensures View() == AfterIndexing(old(View()), files, known, p)
      ensures r == Done ==>
                var d := files[p].doc;
                && p in docs && docs[p].project == d.project && docs[p].title == d.title && !docs[p].deleted
                && RowsAt(fts, p) == [FtsText(d.title, d.payload.body)]
                && (forall tag :: tag in SetAt(tags, p) <==>
                      tag != "" && exists k :: 0 <= k < |d.tags| && Lower(TrimSpace(d.tags[k])) == tag)
                && SetAt(links, p) == d.payload.links && SetAt(assets, p) == d.payload.assets * known.assets
    {
      if p !in files {
        return Fails;
      }
      if !files[p].Good? {
        return IsCorrupt;
      }
      if p in docs && docs[p].deleted {
        return SkippedArchived;
      }
      var doc := files[p].doc;
      if doc.project !in known.projects {
        return Fails;
      }
      docs := docs[p := RowOf(doc)];
      UpdateDocumentFts(p, TextOf(doc));
      tags := tags - {p};
      tags := tags[p := TagsOf(doc)];
      links := links - {p};
      links := links[p := doc.payload.links];
      assets := assets - {p};
      assets := assets[p := doc.payload.assets * known.assets];
      IndexedRows(old(View()), files, known, p);
      return Done;
    }

    /** Only the full-text rows go; the document row stays. */
    method RemoveDocument(p: Path)
      modifies this`fts
      ensures RowsAt(fts, p) == [] && forall q: Path :: q != p ==> RowsAt(fts, q) == RowsAt(old(fts), q)
      ensures fts == old(fts) - {p}
    {
      fts := fts - {p};
    }

    method RemoveDocumentCompletely(p: Path)
      modifies this`docs, this`fts, this`tags, this`links, this`assets
      ensures View() == RemovedCompletely(old(View()), p)
    {
      fts := fts - {p};
      if p in docs {
        docs, tags, links, assets := docs - {p}, tags - {p}, links - {p}, assets - {p};
      }
    }

    method ReindexJournalDate(day: Day, files: Files)
      modifies this`journal
      ensures DaysReindexed(old(journal), journal, {day}, files)
    {
      var p := JournalPath(day);
      if p !in files {
        journal := journal - {day};
      } else if files[p].Journal? {
        var entries := files[p].entries;
        var rows: seq<JournalRow> := [];
        for i := 0 to |entries|
          invariant rows + LiveRows(entries[i..]) == LiveRows(entries)
        {
          assert entries[i..][1..] == entries[i + 1..];
          var e := entries[i];
          if !e.deleted && e.id != "" {
            rows := rows + [JournalRow(e.id, e.content, e.tags)];
          }
        }
        journal := journal[day := rows];
      }
    }

    /** Runs over the days in no particular order, as the source's map iteration does. */
    method ReindexDays(days: set<Day>, files: Files)
      modifies this`journal
      ensures DaysReindexed(old(journal), journal, days, files)
    {
      var left := days;
      while left != {}
        invariant left <= days
        invariant DaysReindexed(old(journal), journal, days - left, files)
      {
        var day :| day in left;
        ReindexJournalDate(day, files);
        left := left - {day};
      }
    }

    /** One entry of the change list. */
    method ReindexChange(c: Change, files: Files, known: Known, corrupt: seq<Path>) returns (reported: seq<Path>, failed: bool)
      modifies this`docs, this`fts, this`tags, this`links, this`assets
      ensures Progress(View(), reported, failed) == ApplyChange(Progress(old(View()), corrupt, false), files, known, c)
    {
      reported, failed := corrupt, false;
      if IsDocument(c.path) && c.status != Other {
        if c.status == Deleted {
          RemoveDocumentCompletely(c.path);
        } else {
          if c.status in {Renamed, Copied} && c.oldPath != "" {
            RemoveDocumentCompletely(c.oldPath);
          }
          var outcome := IndexDocument(c.path, files, known);
          if outcome == IsCorrupt {
            reported := corrupt + [c.path];
          } else {
            failed := outcome == Fails;
          }
        }
      }
    }

    method ReindexPaths(changes: seq<Change>, files: Files, known: Known) returns (corrupt: seq<Path>, failed: bool)
      modifies this
      ensures Progress(View(), corrupt, failed) == ApplyChanges(Progress(old(View()), [], false), files, known, changes)
      ensures failed ==> journal == old(journal)
      ensures !failed ==> DaysReindexed(old(journal), journal, AllDays(changes), files)
    {
      corrupt, failed := [], false;
      var days: set<Day> := {};
      var i := 0;
      while i < |changes| && !failed
        invariant 0 <= i <= |changes| && journal == old(journal)
        invariant ApplyChanges(Progress(View(), corrupt, failed), files, known, changes[i..])
          == ApplyChanges(Progress(old(View()), [], false), files, known, changes)
        invariant days + AllDays(changes[i..]) == AllDays(changes)
      {
        assert changes[i..][1..] == changes[i + 1..];
        days := days + DaysOf(changes[i]);
        corrupt, failed := ReindexChange(changes[i], files, known, corrupt);
        i := i + 1;
      }
      if !failed {
        ReindexDays(days, files);
      }
    }
  }
}
