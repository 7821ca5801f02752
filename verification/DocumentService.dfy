/** Saving, moving, archiving and deleting documents (internal/document/service.go and store.go):
    each operation changes the files, the document tables, or both. */
module DocumentService {
  import opened Text
  import opened Documents
  import opened Index

  datatype Vault = Vault(files: Files, tables: Tables)

  datatype Verdict = Saved(path: Path) | Refused | Conflict | IndexFailed

  /** A save with an empty path creates a document; `expected` is the version the caller read, taken
      by content since a hash stands for its content. */
  datatype Request = Request(
    path: Path, project: string, title: string, kind: Kind, payload: Payload, tags: seq<string>, expected: Option<Doc>)

  predicate AliasChar(c: char) {
    'a' <= c <= 'z' || '0' <= c <= '9' || c == '-'
  }

  predicate ValidAlias(alias: string) {
    3 <= |alias| <= 33 && alias[0] == '@' && forall k :: 1 <= k < |alias| ==> AliasChar(alias[k])
  }

  function NewPath(alias: string, id: string): Path
    requires alias != ""
  {
    "projects/" + alias + "/doc-" + alias[1..] + "-" + id + ".json"
  }

  // ----- saving -----

  predicate Acceptable(req: Request) {
    ValidAlias(TrimSpace(req.project)) && TrimSpace(req.title) != ""
  }

  function TargetPath(req: Request, id: string): Path
    requires Acceptable(req)
  {
    if req.path == "" then NewPath(TrimSpace(req.project), id) else req.path
  }

  function Draft(req: Request, now: int): Doc {
    Doc(Lower(TrimSpace(req.project)), TrimSpace(req.title), req.tags, [], now, now, KindOf(req.kind), req.payload)
  }

  predicate Readable(files: Files, p: Path) {
    p in files && files[p].Good?
  }

  /** Reading normalises. */
  function Read(files: Files, p: Path): Doc
    requires Readable(files, p)
  {
    Normalize(files[p].doc)
  }

  /** What is written: an update keeps the created time and the aliases of the version it replaces. */
  function Written(files: Files, req: Request, now: int): Doc
    requires req.path != "" ==> Readable(files, req.path)
  {
    var draft := Draft(req, now);
    Normalize(if req.path == "" then draft
              else draft.(created := Read(files, req.path).created, aliases := Read(files, req.path).aliases))
  }

  /** A new document has the request's content, starts now and has no aliases; an update keeps when the
      document was created and its aliases. */
  lemma WrittenHolds(files: Files, req: Request, now: int)
    requires req.path != "" ==> Readable(files, req.path)
    ensures var d := Written(files, req, now);
            && d.title == TrimSpace(req.title) && d.payload == req.payload && d.project == Lower(TrimSpace(req.project))
            && d.tags == NormalTags(req.tags, {}) && d.kind == (if req.kind == Legacy then PlainDocument else req.kind)
            && d.updated == now && d.created == (if req.path == "" then now else Read(files, req.path).created)
            && d.aliases == (if req.path == "" then [] else Read(files, req.path).aliases)
            && Normalize(d) == d
  {
    var draft := Draft(req, now);
    NormalizeTwice(if req.path == "" then draft
                   else draft.(created := Read(files, req.path).created, aliases := Read(files, req.path).aliases));
  }

  /** Why an update is turned down before anything is written, if it is. */
  function Objection(files: Files, req: Request): Option<Verdict> {
    if !Acceptable(req) then Some(Refused)
    else if req.path == "" then None
    else if !Readable(files, req.path) then Some(Refused)
    else if Read(files, req.path).kind != KindOf(req.kind) then Some(Refused)
    else if req.expected.Some? && Read(files, req.path) != req.expected.value then Some(Conflict)
    else None
  }

  function Put(v: Vault, p: Path, d: Doc): Vault {
    v.(files := v.files[p := Good(d)])
  }

  /** Write, then index; when indexing fails the file is removed again. */
  function WriteAndIndex(v: Vault, known: Known, p: Path, d: Doc): Vault {
    var w := Put(v, p, d);
    if OutcomeOf(w.tables, w.files, known, p) == Fails then w.(files := w.files - {p})
    else w.(tables := AfterIndexing(w.tables, w.files, known, p))
  }

  function SaveVerdict(v: Vault, known: Known, req: Request, id: string, now: int, writes: bool): Verdict {
    if Objection(v.files, req).Some? then Objection(v.files, req).value
    else if !writes then Refused
    else
      var p := TargetPath(req, id);
      if OutcomeOf(v.tables, Put(v, p, Written(v.files, req, now)).files, known, p) == Fails then IndexFailed else Saved(p)
  }

  function AfterSave(v: Vault, known: Known, req: Request, id: string, now: int, writes: bool): Vault {
    if Objection(v.files, req).Some? || !writes then v
    else WriteAndIndex(v, known, TargetPath(req, id), Written(v.files, req, now))
  }

  // ----- moving -----

  predicate Active(t: Tables, p: Path) {
    p in t.docs && !t.docs[p].deleted
  }

  predicate CanMove(v: Vault, known: Known, path: Path, target: string) {
    var p, alias := TrimSpace(path), TrimSpace(target);
    p != "" && ValidAlias(alias) && alias in known.projects
    && Readable(v.files, p) && Active(v.tables, p) && v.tables.docs[p].project != alias
  }

  function Moved(files: Files, p: Path, alias: string, now: int): Doc
    requires Readable(files, p)
  {
    Normalize(Read(files, p).(project := alias, updated := now))
  }

  function AfterMove(v: Vault, known: Known, path: Path, target: string, now: int, writes: bool): Vault {
    if !CanMove(v, known, path, target) || !writes then v
    else
      var p := TrimSpace(path);
      var w := Put(v, p, Moved(v.files, p, TrimSpace(target), now));
      w.(tables := AfterIndexing(w.tables, w.files, known, p))
  }

  // ----- archiving, restoring, deleting -----

  function Mark(t: Tables, p: Path, deleted: bool): Tables
    requires p in t.docs
  {
    t.(docs := t.docs[p := t.docs[p].(deleted := deleted)])
  }

  function AfterArchive(v: Vault, p: Path): Vault {
    if TrimSpace(p) == "" || !Active(v.tables, p) then v
    else
      var t := Mark(v.tables, p, true);
      v.(tables := t.(fts := t.fts - {p}))
  }

  function MarkProject(docs: map<Path, Row>, alias: string): map<Path, Row> {
    map p | p in docs :: if docs[p].project == alias then docs[p].(deleted := true) else docs[p]
  }

  /** Archiving a whole project leaves the full-text rows alone. */
  function AfterArchiveProject(v: Vault, project: string): Vault {
    var alias := TrimSpace(project);
    if !ValidAlias(alias) then v else v.(tables := v.tables.(docs := MarkProject(v.tables.docs, alias)))
  }

  /** A reindexing that fails after a restore is only logged. */
  function AfterRestore(v: Vault, known: Known, p: Path): Vault {
    if TrimSpace(p) == "" || !Archived(v.tables, p) then v
    else v.(tables := AfterIndexing(Mark(v.tables, p, false), v.files, known, p))
  }

  /** `stuck` are the files the operating system refuses to delete. */
  function AfterHardDelete(v: Vault, p: Path, stuck: set<Path>): Vault {
    if TrimSpace(p) == "" || !Active(v.tables, p) || (p in v.files && p in stuck) then v
    else Vault(v.files - {p}, RemovedCompletely(v.tables, p))
  }

  predicate Distinct(paths: seq<Path>) {
    forall i, j :: 0 <= i < j < |paths| ==> paths[i] != paths[j]
  }

  predicate KnownPaths(t: Tables, paths: seq<Path>) {
    forall i :: 0 <= i < |paths| ==> TrimSpace(paths[i]) != "" && paths[i] in t.docs
  }

  /** A batch is all or nothing: an unknown, blank or repeated path rolls everything back. */
  predicate BatchAccepted(t: Tables, paths: seq<Path>) {
    paths != [] && Distinct(paths) && KnownPaths(t, paths)
  }

  function Elements(paths: seq<Path>): set<Path> {
    set p | p in paths
  }

  function WithoutRows(t: Tables, gone: set<Path>): Tables {
    t.(docs := t.docs - gone, tags := t.tags - gone, links := t.links - gone, assets := t.assets - gone)
  }

  function AfterBatch(v: Vault, paths: seq<Path>, stuck: set<Path>): Vault {
    if !BatchAccepted(v.tables, paths) then v
    else
      var gone := Elements(paths);
      var t := WithoutRows(v.tables, gone);
      Vault(v.files - (gone - stuck), t.(fts := t.fts - gone))
  }

  lemma KnownSnoc(t: Tables, paths: seq<Path>, i: nat)
    requires i < |paths|
    ensures KnownPaths(t, paths[..i + 1]) <==> KnownPaths(t, paths[..i]) && TrimSpace(paths[i]) != "" && paths[i] in t.docs
  {
    assert paths[..i + 1] == paths[..i] + [paths[i]];
  }

  lemma ElementsSnoc(paths: seq<Path>, i: nat)
    requires i < |paths|
    ensures Elements(paths[..i + 1]) == Elements(paths[..i]) + {paths[i]}
    ensures Distinct(paths[..i + 1]) <==> Distinct(paths[..i]) && paths[i] !in Elements(paths[..i])
  {
    assert paths[..i + 1] == paths[..i] + [paths[i]];
  }

  lemma RowsOneByOne(t: Tables, gone: set<Path>, p: Path)
    ensures WithoutRows(WithoutRows(t, gone), {p}) == WithoutRows(t, gone + {p})
  {
    assert t.docs - gone - {p} == t.docs - (gone + {p});
    assert t.tags - gone - {p} == t.tags - (gone + {p});
    assert t.links - gone - {p} == t.links - (gone + {p});
    assert t.assets - gone - {p} == t.assets - (gone + {p});
  }

  // ----- the service as an object -----

  class Service {
    var files: Files
    const indexer: Indexer

    constructor (v: Vault)
      ensures View() == v && fresh(indexer)
    {
      files := v.files;
      indexer := new Indexer(v.tables, map[]);
    }

    function View(): Vault
      reads this, indexer
    {
      Vault(files, indexer.View())
    }

    method Save(known: Known, req: Request, id: string, now: int, writes: bool) returns (r: Verdict)
      modifies this, indexer
      ensures r == SaveVerdict(old(View()), known, req, id, now, writes)
      ensures View() == AfterSave(old(View()), known, req, id, now, writes)
      ensures r.Saved? ==>
                var p := r.path;
                && Readable(files, p) && files - {p} == old(files) - {p}
                && Read(files, p).title == TrimSpace(req.title) && Read(files, p).payload == req.payload
                && Read(files, p).project == Lower(TrimSpace(req.project))
                && Read(files, p).tags == NormalTags(req.tags, {}) && Read(files, p).updated == now
    {
      if !Acceptable(req) {
        return Refused;
      }
      var path := TargetPath(req, id);
      var doc := Draft(req, now);
      if req.path != "" {
        if !Readable(files, path) {
          return Refused;
        }
        var existing := Read(files, path);
        doc := doc.(created := existing.created, aliases := existing.aliases);
        if existing.kind != KindOf(req.kind) {
          return Refused;
        }
        if req.expected.Some? && existing != req.expected.value {
          return Conflict;
        }
      }
      if !writes {
        return Refused;
      }
      WrittenHolds(files, req, now);
      files := files[path := Good(Normalize(doc))];
      var outcome := indexer.IndexDocument(path, files, known);
      if outcome == Fails {
        files := files - {path};
        return IndexFailed;
      }
      return Saved(path);
    }

    method MoveToProject(known: Known, path: Path, target: string, now: int, writes: bool) returns (ok: bool)
      modifies this, indexer
      ensures ok == (CanMove(old(View()), known, path, target) && writes)
      ensures View() == AfterMove(old(View()), known, path, target, now, writes)
    {
      var p, alias := TrimSpace(path), TrimSpace(target);
      ok := p != "" && ValidAlias(alias) && alias in known.projects && Readable(files, p)
        && p in indexer.docs && !indexer.docs[p].deleted && indexer.docs[p].project != alias && writes;
      if ok {
        var doc := Read(files, p).(project := alias, updated := now);
        files := files[p := Good(Normalize(doc))];
        var outcome := indexer.IndexDocument(p, files, known);
        assert outcome == Done;
      }
    }

    method SoftDelete(p: Path) returns (ok: bool)
      modifies this, indexer
      ensures ok == (TrimSpace(p) != "" && Active(old(View()).tables, p))
      ensures View() == AfterArchive(old(View()), p)
    {
      ok := TrimSpace(p) != "" && p in indexer.docs && !indexer.docs[p].deleted;
      if ok {
        indexer.docs := indexer.docs[p := indexer.docs[p].(deleted := true)];
        indexer.RemoveDocument(p);
      }
    }

    method SoftDeleteByProject(project: string) returns (ok: bool)
      modifies this, indexer
      ensures ok == ValidAlias(TrimSpace(project))
      ensures View() == AfterArchiveProject(old(View()), project)
    {
      var alias := TrimSpace(project);
      ok := ValidAlias(alias);
      if ok {
        indexer.docs := MarkProject(indexer.docs, alias);
      }
    }

    method Restore(known: Known, p: Path) returns (ok: bool)
      modifies this, indexer
      ensures ok == (TrimSpace(p) != "" && Archived(old(View()).tables, p))
      ensures View() == AfterRestore(old(View()), known, p)
    {
      ok := TrimSpace(p) != "" && p in indexer.docs && indexer.docs[p].deleted;
      if ok {
        indexer.docs := indexer.docs[p := indexer.docs[p].(deleted := false)];
        var outcome := indexer.IndexDocument(p, files, known);
      }
    }

    method HardDelete(p: Path, stuck: set<Path>) returns (ok: bool)
      modifies this, indexer
      ensures ok == (TrimSpace(p) != "" && Active(old(View()).tables, p) && (p in old(files) ==> p !in stuck))
      ensures View() == AfterHardDelete(old(View()), p, stuck)
    {
      ok := TrimSpace(p) != "" && p in indexer.docs && !indexer.docs[p].deleted && (p in files ==> p !in stuck);
      if ok {
        files := files - {p};
        DeleteRows(p);
        indexer.RemoveDocument(p);
      }
    }

    method DeleteRows(p: Path)
      modifies indexer
      ensures indexer.View() == WithoutRows(old(indexer.View()), {p})
    {
      indexer.docs, indexer.tags := indexer.docs - {p}, indexer.tags - {p};
      indexer.links, indexer.assets := indexer.links - {p}, indexer.assets - {p};
    }

    /** The transaction: every path is looked up first, then each row is deleted; a second delete of
        the same path finds no row, and the tables are put back. */
    method DeleteRowsOfAll(paths: seq<Path>) returns (ok: bool)
      modifies indexer
      ensures ok == BatchAccepted(old(indexer.View()), paths)
      ensures indexer.View() == if ok then WithoutRows(old(indexer.View()), Elements(paths)) else old(indexer.View())
    {
      ok := paths != [];
      for i := 0 to |paths|
        invariant indexer.View() == old(indexer.View())
        invariant ok == (paths != [] && KnownPaths(indexer.View(), paths[..i]))
      {
        KnownSnoc(indexer.View(), paths, i);
        ok := ok && TrimSpace(paths[i]) != "" && paths[i] in indexer.docs;
      }
      assert paths[..|paths|] == paths;
      if ok {
        var docs, tags, links, assets := indexer.docs, indexer.tags, indexer.links, indexer.assets;
        ok := DeleteEach(paths);
        if !ok {
          indexer.docs, indexer.tags, indexer.links, indexer.assets := docs, tags, links, assets;
        }
      }
    }

    method DeleteEach(paths: seq<Path>) returns (ok: bool)
      requires KnownPaths(indexer.View(), paths)
      modifies indexer
      ensures ok == Distinct(paths)
      ensures ok ==> indexer.View() == WithoutRows(old(indexer.View()), Elements(paths))
      ensures indexer.fts == old(indexer.fts)
    {
      ok := true;
      var i := 0;
      while i < |paths| && ok
        invariant 0 <= i <= |paths|
        invariant ok ==> Distinct(paths[..i])
        invariant !ok ==> !Distinct(paths)
        invariant indexer.View() == WithoutRows(old(indexer.View()), Elements(paths[..i])) || !ok
        invariant indexer.fts == old(indexer.fts)
      {
        ElementsSnoc(paths, i);
        if paths[i] in indexer.docs {
          RowsOneByOne(old(indexer.View()), Elements(paths[..i]), paths[i]);
          DeleteRows(paths[i]);
        } else {
          ok := false;
        }
        i := i + 1;
      }
      assert ok ==> paths[..i] == paths;
    }

    method DeleteFilesAndText(paths: seq<Path>, stuck: set<Path>)
      modifies this, indexer`fts
      ensures files == old(files) - (Elements(paths) - stuck)
      ensures indexer.fts == old(indexer.fts) - Elements(paths)
    {
      for i := 0 to |paths|
        invariant files == old(files) - (Elements(paths[..i]) - stuck)
        invariant indexer.fts == old(indexer.fts) - Elements(paths[..i])
      {
        ElementsSnoc(paths, i);
        if paths[i] !in stuck {
          files := files - {paths[i]};
        }
        indexer.RemoveDocument(paths[i]);
      }
      assert paths[..|paths|] == paths;
    }

    method HardDeleteBatch(paths: seq<Path>, stuck: set<Path>) returns (ok: bool)
      modifies this, indexer
      ensures ok == BatchAccepted(old(View()).tables, paths)
      ensures View() == AfterBatch(old(View()), paths, stuck)
    {
      ok := DeleteRowsOfAll(paths);
      if ok {
        DeleteFilesAndText(paths, stuck);
      }
    }
  }
}
