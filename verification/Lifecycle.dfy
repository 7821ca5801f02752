/** The runs of the document service (internal/document/service.go) and what they keep of the full-text
    table. */
module Lifecycle {
  import opened Text
  import opened Documents
  import opened Index
  import opened DocumentService

  /** A pull replaces the files and reindexes from the list of changes. */
  datatype Action =
    | Save(req: Request, id: string, writes: bool)
    | Move(path: Path, target: string, writes: bool)
    | Archive(path: Path)
    | ArchiveProject(project: string)
    | Restore(path: Path)
    | HardDelete(path: Path, stuck: set<Path>)
    | HardDeleteBatch(paths: seq<Path>, stuck: set<Path>)
    | Pull(after: Files, changes: seq<Change>)

  datatype Step = Step(action: Action, known: Known, now: int)

  function Reindexed(t: Tables, after: Files, known: Known, changes: seq<Change>): Progress {
    ApplyChanges(Progress(t, [], false), after, known, changes)
  }

  function Do(v: Vault, s: Step): Vault {
    match s.action
    case Save(req, id, writes) => AfterSave(v, s.known, req, id, s.now, writes)
    case Move(path, target, writes) => AfterMove(v, s.known, path, target, s.now, writes)
    case Archive(path) => AfterArchive(v, path)
    case ArchiveProject(project) => AfterArchiveProject(v, project)
    case Restore(path) => AfterRestore(v, s.known, path)
    case HardDelete(path, stuck) => AfterHardDelete(v, path, stuck)
    case HardDeleteBatch(paths, stuck) => AfterBatch(v, paths, stuck)
    case Pull(after, changes) => Vault(after, Reindexed(v.tables, after, s.known, changes).tables)
  }

  ghost predicate IsRun(states: seq<Vault>, steps: seq<Step>) {
    |states| == |steps| + 1 && forall i :: 0 <= i < |steps| ==> states[i + 1] == Do(states[i], steps[i])
  }

  // ----- the full-text invariant -----

  ghost predicate RowsInOrder(t: Tables) {
    (forall p: Path :: |RowsAt(t.fts, p)| <= 1)
    && (forall p: Path :: RowsAt(t.fts, p) != [] ==> p in t.docs)
    && (forall p: Path :: Active(t, p) ==> |RowsAt(t.fts, p)| == 1)
  }

  predicate Indexable(v: Vault, known: Known, p: Path) {
    Readable(v.files, p) && v.files[p].doc.project in known.projects
  }

  predicate CanRestore(v: Vault, p: Path) {
    TrimSpace(p) != "" && Archived(v.tables, p)
  }

  lemma IndexingInOrder(t: Tables, files: Files, known: Known, p: Path)
    requires RowsInOrder(t)
    ensures RowsInOrder(AfterIndexing(t, files, known, p))
  {
    var u := AfterIndexing(t, files, known, p);
    forall q: Path ensures |RowsAt(u.fts, q)| <= 1 {
      assert |RowsAt(t.fts, q)| <= 1;
    }
    assert forall q: Path :: Active(u, q) ==> q == p || Active(t, q);
  }

  lemma RemovalInOrder(t: Tables, p: Path)
    requires RowsInOrder(t)
    ensures RowsInOrder(RemovedCompletely(t, p))
  {
    var u := RemovedCompletely(t, p);
    assert forall q: Path :: q != p ==> RowsAt(u.fts, q) == RowsAt(t.fts, q);
    assert forall q: Path :: Active(u, q) ==> q != p && Active(t, q);
  }

  lemma {:induction false} ChangesInOrder(s: Progress, files: Files, known: Known, changes: seq<Change>)
    requires RowsInOrder(s.tables)
    ensures RowsInOrder(ApplyChanges(s, files, known, changes).tables)
    decreases changes
  {
    if changes != [] && !s.failed {
      var c := changes[0];
      RemovalInOrder(s.tables, c.path);
      RemovalInOrder(s.tables, c.oldPath);
      IndexingInOrder(s.tables, files, known, c.path);
      IndexingInOrder(RemovedCompletely(s.tables, c.oldPath), files, known, c.path);
      ChangesInOrder(ApplyChange(s, files, known, c), files, known, changes[1..]);
    }
  }

  lemma ArchiveInOrder(v: Vault, p: Path)
    requires RowsInOrder(v.tables)
    ensures RowsInOrder(AfterArchive(v, p).tables)
  {
    var u := AfterArchive(v, p).tables;
    assert u == v.tables || forall q: Path :: q != p ==> RowsAt(u.fts, q) == RowsAt(v.tables.fts, q);
    assert forall q: Path :: Active(u, q) ==> Active(v.tables, q);
  }

  lemma ArchiveProjectInOrder(v: Vault, project: string)
    requires RowsInOrder(v.tables)
    ensures RowsInOrder(AfterArchiveProject(v, project).tables)
  {
    var u := AfterArchiveProject(v, project).tables;
    assert forall q: Path :: Active(u, q) ==> Active(v.tables, q);
  }

  lemma BatchInOrder(v: Vault, paths: seq<Path>, stuck: set<Path>)
    requires RowsInOrder(v.tables)
    ensures RowsInOrder(AfterBatch(v, paths, stuck).tables)
  {
    var u := AfterBatch(v, paths, stuck).tables;
    assert forall q: Path :: RowsAt(u.fts, q) == RowsAt(v.tables.fts, q) || RowsAt(u.fts, q) == [];
    assert forall q: Path :: Active(u, q) ==> Active(v.tables, q);
  }

  /** Restoring keeps the invariant exactly when the document can be indexed, or its full-text row
      was never taken away (a project archive leaves it). */
  lemma RestoreInOrderIff(v: Vault, known: Known, p: Path)
    requires RowsInOrder(v.tables) && CanRestore(v, p)
    ensures RowsInOrder(AfterRestore(v, known, p).tables) <==> Indexable(v, known, p) || RowsAt(v.tables.fts, p) != []
  {
    var m := Mark(v.tables, p, false);
    var u := AfterRestore(v, known, p).tables;
    assert Active(u, p);
    assert forall q: Path :: Active(m, q) ==> q == p || Active(v.tables, q);
    if Indexable(v, known, p) {
      assert forall q: Path :: q != p ==> RowsAt(u.fts, q) == RowsAt(v.tables.fts, q);
      assert forall q: Path :: Active(u, q) ==> q == p || Active(v.tables, q);
    } else {
      assert u == m;
    }
  }

  /** An archived document whose file is gone: restoring it leaves an active row without a full-text row. */
  lemma RestoredUnsearchable()
    ensures var v := Vault(map[], Tables(map["a" := Row("@abc", "t", PlainDocument, true)], map[], map[], map[], map[]));
            RowsInOrder(v.tables) && CanRestore(v, "a") && !RowsInOrder(AfterRestore(v, Known({}, {}), "a").tables)
  {
    var v := Vault(map[], Tables(map["a" := Row("@abc", "t", PlainDocument, true)], map[], map[], map[], map[]));
    assert TrimSpace("a") == "a" by {
      TrimPadded("", "a", "");
      assert "" + "a" + "" == "a";
    }
    RestoreInOrderIff(v, Known({}, {}), "a");
  }

  predicate RestoreSucceeds(v: Vault, s: Step) {
    s.action.Restore? && CanRestore(v, s.action.path) ==>
      Indexable(v, s.known, s.action.path) || RowsAt(v.tables.fts, s.action.path) != []
  }

  lemma SaveInOrder(v: Vault, s: Step)
    requires RowsInOrder(v.tables) && (s.action.Save? || s.action.Move?)
    ensures RowsInOrder(Do(v, s).tables)
  {
    match s.action
    case Save(req, id, writes) =>
      if Objection(v.files, req).None? && writes {
        var p := TargetPath(req, id);
        IndexingInOrder(v.tables, Put(v, p, Written(v.files, req, s.now)).files, s.known, p);
      }
    case Move(path, target, writes) =>
      if CanMove(v, s.known, path, target) && writes {
        var p := TrimSpace(path);
        IndexingInOrder(v.tables, Put(v, p, Moved(v.files, p, TrimSpace(target), s.now)).files, s.known, p);
      }
  }

  lemma StepInOrder(v: Vault, s: Step)
    requires RowsInOrder(v.tables) && RestoreSucceeds(v, s)
    ensures RowsInOrder(Do(v, s).tables)
  {
    match s.action
    case Save(_, _, _) => SaveInOrder(v, s);
    case Move(_, _, _) => SaveInOrder(v, s);
    case Archive(p) => ArchiveInOrder(v, p);
    case ArchiveProject(project) => ArchiveProjectInOrder(v, project);
    case Restore(p) => if CanRestore(v, p) { RestoreInOrderIff(v, s.known, p); }
    case HardDelete(p, _) => RemovalInOrder(v.tables, p);
    case HardDeleteBatch(paths, stuck) => BatchInOrder(v, paths, stuck);
    case Pull(after, changes) => ChangesInOrder(Progress(v.tables, [], false), after, s.known, changes);
  }

  /** Over every run: at most one full-text row a path, none without a document row, and exactly one
      for every active document. */
  lemma {:induction false} RunInOrder(states: seq<Vault>, steps: seq<Step>, n: nat)
    requires IsRun(states, steps) && n <= |steps| && RowsInOrder(states[0].tables)
    requires forall i :: 0 <= i < n ==> RestoreSucceeds(states[i], steps[i])
    ensures RowsInOrder(states[n].tables)
  {
    if n > 0 {
      RunInOrder(states, steps, n - 1);
      StepInOrder(states[n - 1], steps[n - 1]);
    }
  }
}
