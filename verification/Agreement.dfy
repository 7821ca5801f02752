/** The index agrees with the files over every run of the document service and of pulls
    (internal/document/service.go, internal/indexer/indexer.go). */
module Agreement {
  import opened Text
  import opened Documents
  import opened Index
  import opened Reindex
  import opened DocumentService
  import opened Lifecycle

  ghost predicate InStep(v: Vault, assets: set<string>) {
    ReferencesHold(v.tables) && forall p :: IsDocument(p) ==> Settled(v.tables, v.files, assets, p)
  }

  /** The index and file steps of an action succeed. */
  ghost predicate Succeeds(v: Vault, s: Step) {
    match s.action
    case Save(req, id, writes) => SaveVerdict(v, s.known, req, id, s.now, writes) != IndexFailed
    case Restore(p) => CanRestore(v, p) ==> Indexable(v, s.known, p)
    case HardDeleteBatch(paths, stuck) => BatchAccepted(v.tables, paths) ==> Elements(paths) * stuck !! v.files.Keys
    case Pull(after, changes) => Faithful(changes, v.files, after) && !Reindexed(v.tables, after, s.known, changes).failed
    case _ => true
  }

  lemma IndexedSettles(t: Tables, files: Files, known: Known, p: Path, q: Path)
    requires q == p || Settled(t, files, known.assets, q)
    requires OutcomeOf(t, files, known, p) != Fails
    ensures Settled(AfterIndexing(t, files, known, p), files, known.assets, q)
  {
    IndexingSettles(Progress(t, [], false), files, known, p, q);
  }

  /** Indexing one path settles it and leaves every other path as it was. */
  lemma IndexingInStep(t: Tables, files: Files, known: Known, p: Path)
    requires ReferencesHold(t) && OutcomeOf(t, files, known, p) != Fails
    requires forall q :: IsDocument(q) && q != p ==> Settled(t, files, known.assets, q)
    ensures InStep(Vault(files, AfterIndexing(t, files, known, p)), known.assets)
  {
    forall q | IsDocument(q) ensures Settled(AfterIndexing(t, files, known, p), files, known.assets, q) {
      IndexedSettles(t, files, known, p, q);
    }
    IndexingKeeps(Progress(t, [], false), files, known, p);
  }

  lemma WriteSettles(v: Vault, known: Known, p: Path, d: Doc)
    requires InStep(v, known.assets) && OutcomeOf(v.tables, Put(v, p, d).files, known, p) != Fails
    ensures InStep(Vault(Put(v, p, d).files, AfterIndexing(v.tables, Put(v, p, d).files, known, p)), known.assets)
  {
    forall q | IsDocument(q) && q != p ensures Settled(v.tables, Put(v, p, d).files, known.assets, q) {
      assert Settled(v.tables, v.files, known.assets, q);
    }
    IndexingInStep(v.tables, Put(v, p, d).files, known, p);
  }

  lemma SaveInStep(v: Vault, s: Step)
    requires InStep(v, s.known.assets) && Succeeds(v, s) && s.action.Save?
    ensures InStep(Do(v, s), s.known.assets)
  {
    var Save(req, id, writes) := s.action;
    if Objection(v.files, req).None? && writes {
      WriteSettles(v, s.known, TargetPath(req, id), Written(v.files, req, s.now));
    }
  }

  lemma MoveInStep(v: Vault, s: Step)
    requires InStep(v, s.known.assets) && s.action.Move?
    ensures InStep(Do(v, s), s.known.assets)
  {
    var Move(path, target, writes) := s.action;
    if CanMove(v, s.known, path, target) && writes {
      var p := TrimSpace(path);
      WriteSettles(v, s.known, p, Moved(v.files, p, TrimSpace(target), s.now));
    }
  }

  lemma ArchiveInStep(v: Vault, p: Path, assets: set<string>)
    requires InStep(v, assets)
    ensures InStep(AfterArchive(v, p), assets)
  {
    var u := AfterArchive(v, p);
    forall q | IsDocument(q) ensures Settled(u.tables, u.files, assets, q) {
      assert Settled(v.tables, v.files, assets, q);
    }
  }

  lemma ArchiveProjectInStep(v: Vault, project: string, assets: set<string>)
    requires InStep(v, assets)
    ensures InStep(AfterArchiveProject(v, project), assets)
  {
    var u := AfterArchiveProject(v, project);
    forall q | IsDocument(q) ensures Settled(u.tables, u.files, assets, q) {
      assert Settled(v.tables, v.files, assets, q);
    }
  }

  lemma MarkElsewhere(t: Tables, files: Files, assets: set<string>, p: Path, q: Path)
    requires p in t.docs && q != p && Settled(t, files, assets, q)
    ensures Settled(Mark(t, p, false), files, assets, q)
  {
  }

  lemma RestoreInStep(v: Vault, known: Known, p: Path)
    requires InStep(v, known.assets) && (CanRestore(v, p) ==> Indexable(v, known, p))
    ensures InStep(AfterRestore(v, known, p), known.assets)
  {
    if CanRestore(v, p) {
      forall q | IsDocument(q) && q != p ensures Settled(Mark(v.tables, p, false), v.files, known.assets, q) {
        MarkElsewhere(v.tables, v.files, known.assets, p, q);
      }
      IndexingInStep(Mark(v.tables, p, false), v.files, known, p);
    }
  }

  lemma HardDeleteInStep(v: Vault, p: Path, stuck: set<Path>, assets: set<string>)
    requires InStep(v, assets)
    ensures InStep(AfterHardDelete(v, p, stuck), assets)
  {
    var u := AfterHardDelete(v, p, stuck);
    RemovalKeeps(v.tables, p);
    forall q | IsDocument(q) ensures Settled(u.tables, u.files, assets, q) {
      assert Settled(v.tables, v.files, assets, q);
    }
  }

  lemma BatchInStep(v: Vault, paths: seq<Path>, stuck: set<Path>, assets: set<string>)
    requires InStep(v, assets) && (BatchAccepted(v.tables, paths) ==> Elements(paths) * stuck !! v.files.Keys)
    ensures InStep(AfterBatch(v, paths, stuck), assets)
  {
    if BatchAccepted(v.tables, paths) {
      var u, gone := AfterBatch(v, paths, stuck), Elements(paths);
      forall q | IsDocument(q) ensures Settled(u.tables, u.files, assets, q) {
        assert Settled(v.tables, v.files, assets, q);
        assert q in v.files && q in gone ==> q !in stuck by {
          assert q in gone && q in stuck ==> q in gone * stuck;
        }
      }
    }
  }

  lemma StepInStep(v: Vault, s: Step)
    requires InStep(v, s.known.assets) && Succeeds(v, s)
    ensures InStep(Do(v, s), s.known.assets)
  {
    match s.action
    case Save(_, _, _) => SaveInStep(v, s);
    case Move(_, _, _) => MoveInStep(v, s);
    case Archive(p) => ArchiveInStep(v, p, s.known.assets);
    case ArchiveProject(project) => ArchiveProjectInStep(v, project, s.known.assets);
    case Restore(p) => RestoreInStep(v, s.known, p);
    case HardDelete(p, stuck) => HardDeleteInStep(v, p, stuck, s.known.assets);
    case HardDeleteBatch(paths, stuck) => BatchInStep(v, paths, stuck, s.known.assets);
    case Pull(after, changes) => ReindexAgrees(v.tables, v.files, after, s.known, changes);
  }

  /** Over every run of saves, moves, archives, restores, deletions and pulls whose index steps
      succeed, every readable active document has exactly the rows a direct extraction gives. */
  lemma {:induction false} RunInStep(states: seq<Vault>, steps: seq<Step>, n: nat, assets: set<string>)
    requires IsRun(states, steps) && n <= |steps| && InStep(states[0], assets)
    requires forall i :: 0 <= i < n ==> Succeeds(states[i], steps[i]) && steps[i].known.assets == assets
    ensures InStep(states[n], assets)
  {
    if n > 0 {
      RunInStep(states, steps, n - 1, assets);
      StepInStep(states[n - 1], steps[n - 1]);
    }
  }

  // ----- archiving is undone by restoring -----

  lemma ArchivedThenRestored(v: Vault, known: Known, p: Path)
    requires TrimSpace(p) != "" && Active(v.tables, p) && Indexable(v, known, p)
    ensures AfterArchive(v, p).files == v.files && Archived(AfterArchive(v, p).tables, p)
    ensures RowsAt(AfterArchive(v, p).tables.fts, p) == []
    ensures AfterRestore(AfterArchive(v, p), known, p).tables
         == Indexed(Mark(AfterArchive(v, p).tables, p, false), p, v.files[p].doc, known)
  {
  }

  /** Restoring an archived document gives back exactly the rows it had, and no other path notices. */
  lemma RestoreUndoesArchive(v: Vault, known: Known, p: Path, q: Path)
    requires InStep(v, known.assets) && IsDocument(p)
    requires TrimSpace(p) != "" && Active(v.tables, p) && Indexable(v, known, p)
    ensures AfterRestore(AfterArchive(v, p), known, p).files == v.files
    ensures SameRows(v.tables, AfterRestore(AfterArchive(v, p), known, p).tables, q)
  {
    ArchivedThenRestored(v, known, p);
    assert Settled(v.tables, v.files, known.assets, p);
  }

  // ----- what a failed index step costs -----

  /** The update passes every check and is written, but its project is one the index does not know. */
  predicate Doomed(v: Vault, known: Known, req: Request, writes: bool) {
    Objection(v.files, req).None? && writes && !Archived(v.tables, req.path)
    && Lower(TrimSpace(req.project)) !in known.projects
  }

  /** An update of a readable document makes it disappear if and only if it is doomed. */
  lemma UpdateLosesDocumentIff(v: Vault, known: Known, req: Request, id: string, now: int, writes: bool)
    requires req.path != "" && Readable(v.files, req.path)
    ensures req.path !in AfterSave(v, known, req, id, now, writes).files <==> Doomed(v, known, req, writes)
  {
  }

  /** An update whose project the index does not know, while the document is there: the file is gone after. */
  lemma UpdateLosesDocument()
    ensures var doc := Doc("@abc", "t", [], [], 0, 0, PlainDocument, Payload("", {}, {}));
            var v := Vault(map["a" := Good(doc)], Tables(map[], map[], map[], map[], map[]));
            var req := Request("a", "@abc", "t", PlainDocument, doc.payload, [], None);
            "a" in v.files && "a" !in AfterSave(v, Known({}, {}), req, "", 1, true).files
  {
    var doc := Doc("@abc", "t", [], [], 0, 0, PlainDocument, Payload("", {}, {}));
    var v := Vault(map["a" := Good(doc)], Tables(map[], map[], map[], map[], map[]));
    var req := Request("a", "@abc", "t", PlainDocument, doc.payload, [], None);
    TrimPadded("", "@abc", "");
    TrimPadded("", "t", "");
    assert "" + "@abc" + "" == "@abc" && "" + "t" + "" == "t";
    assert Objection(v.files, req).None?;
    UpdateLosesDocumentIff(v, Known({}, {}), req, "", 1, true);
  }

  /** What becomes of an update, from the request and the vault alone: turned down before the write it
      changes nothing, doomed it loses the document and leaves its rows, otherwise it is saved. */
  lemma UpdateOutcome(v: Vault, known: Known, req: Request, id: string, now: int, writes: bool)
    requires req.path != ""
    ensures var verdict, w := SaveVerdict(v, known, req, id, now, writes), AfterSave(v, known, req, id, now, writes);
            && (verdict == Saved(req.path) <==> Objection(v.files, req).None? && writes && !Doomed(v, known, req, writes))
            && (w == v <== Objection(v.files, req).Some? || !writes)
            && (Doomed(v, known, req, writes) ==> w == v.(files := v.files - {req.path}) && req.path in v.files)
            && (verdict == Saved(req.path) ==> w.files == v.files[req.path := Good(Written(v.files, req, now))])
  {
    if Doomed(v, known, req, writes) {
      assert v.files[req.path := Good(Written(v.files, req, now))] - {req.path} == v.files - {req.path};
    }
  }

  /** A doomed update always breaks the agreement between index and files. */
  lemma DoomedBreaksAgreement(v: Vault, known: Known, req: Request, id: string, now: int, writes: bool)
    requires InStep(v, known.assets) && req.path != "" && IsDocument(req.path) && Doomed(v, known, req, writes)
    ensures !InStep(AfterSave(v, known, req, id, now, writes), known.assets)
  {
    var w := AfterSave(v, known, req, id, now, writes);
    UpdateOutcome(v, known, req, id, now, writes);
    assert Settled(v.tables, v.files, known.assets, req.path);
    assert !Settled(w.tables, w.files, known.assets, req.path);
  }
}
