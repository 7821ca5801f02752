/** The document service and the watcher at work on the same files and tables: whenever nothing is under
    way for a document its rows agree with the disk, unless a version the watcher has noted is put back
    after the service has moved on from it. */
module SharedVault {
  import opened Text
  import opened Documents
  import opened Index
  import opened Reindex
  import opened DocumentService
  import opened Watcher
  import opened WatcherSettles
  import L = Lifecycle

  /** A step of the watcher or of the world outside, or an action of the service with the filesystem
      events it causes. */
  datatype Event = Watch(move: Move) | Serve(step: L.Step, ops: map<Path, seq<Op>>)

  function Appended(events: map<Path, seq<Op>>, ops: map<Path, seq<Op>>): map<Path, seq<Op>> {
    map p | p in events.Keys + ops.Keys :: RowsAt(events, p) + RowsAt(ops, p)
  }

  function VaultOf(w: World): Vault {
    Vault(w.disk, w.tables)
  }

  /** Only a save notes what it has written. */
  function Noted(w: World, s: L.Step): map<Path, Doc> {
    match s.action
    case Save(req, id, writes) =>
      if Objection(w.disk, req).None? && writes then w.reconciled[TargetPath(req, id) := Written(w.disk, req, s.now)]
      else w.reconciled
    case _ => w.reconciled
  }

  function After(w: World, known: Known, e: Event): World {
    match e
    case Watch(m) => Next(w, known, m)
    case Serve(s, ops) =>
      var v := L.Do(VaultOf(w), s);
      World(v.files, v.tables, Appended(w.events, ops), w.timers, Noted(w, s), w.touched + ops.Keys, w.emitted)
  }

  function RunShared(w: World, known: Known, events: seq<Event>): World
    decreases events
  {
    if events == [] then w else RunShared(After(w, known, events[0]), known, events[1..])
  }

  // ----- what the runs are -----

  predicate LastFits(ops: seq<Op>, files: Files, p: Path) {
    ops != [] && Chmod !in ops
    && (Readable(files, p) ==> Writes(ops[|ops| - 1])) && (p !in files ==> Removes(ops[|ops| - 1]))
  }

  /** Every changed file is announced, the last event of a path fitting what the path has become. */
  ghost predicate Announced(ops: map<Path, seq<Op>>, before: Files, after: Files) {
    forall p: Path ::
      (!Unchanged(before, after, p) ==> p in ops) && (p in ops ==> LastFits(ops[p], after, p))
  }

  ghost predicate FilesKnown(files: Files, known: Known) {
    forall p: Path :: Readable(files, p) ==> files[p].doc.project in known.projects
  }

  /** What is saved belongs to a known project, what is restored is there, what is deleted goes away, and
      what is pulled is listed and belongs to known projects. */
  ghost predicate Orderly(v: Vault, known: Known, s: L.Step) {
    s.known == known &&
    match s.action
    case Save(req, _, _) => Lower(TrimSpace(req.project)) in known.projects
    case Restore(p) => L.CanRestore(v, p) ==> p in v.files
    case HardDeleteBatch(paths, stuck) => BatchAccepted(v.tables, paths) ==> Elements(paths) * stuck !! v.files.Keys
    case Pull(after, changes) => Faithful(changes, v.files, after) && FilesKnown(after, known)
    case _ => true
  }

  /** An outside write that puts the noted version back finds the rows still reflecting it. */
  predicate PutsBackSafely(w: World, assets: set<string>, m: Move) {
    m.OutsideWrite? && m.file.Good? && Reconciled(w, m.path) == Some(Normalize(m.file.doc)) ==>
      Settled(w.tables, map[m.path := m.file], assets, m.path)
  }

  ghost predicate Permitted(w: World, known: Known, e: Event) {
    match e
    case Watch(m) => Allowed(m) && !m.Save? && KnownProject(m, known) && PutsBackSafely(w, known.assets, m)
    case Serve(s, ops) => Orderly(VaultOf(w), known, s) && Announced(ops, w.disk, L.Do(VaultOf(w), s).files)
  }

  ghost predicate PermittedRun(w: World, known: Known, events: seq<Event>)
    decreases events
  {
    events == [] || (Permitted(w, known, events[0]) && PermittedRun(After(w, known, events[0]), known, events[1..]))
  }

  // ----- the invariant -----

  /** The version on disk, once noted, is indexed. */
  predicate NotedIsIndexed(w: World, assets: set<string>, p: Path) {
    Readable(w.disk, p) && Reconciled(w, p) == DiskHash(w.disk, p) ==> Settled(w.tables, w.disk, assets, p)
  }

  /** With nothing under way, or with the version on disk already noted, the rows agree with the disk. */
  predicate Kept(w: World, assets: set<string>, p: Path) {
    LastMatches(w, p) && NoChmod(w, p) && NotedIsIndexed(w, assets, p)
    && (Work(w, p) == [] ==> Settled(w.tables, w.disk, assets, p))
  }

  ghost predicate AllKept(w: World, known: Known) {
    ReferencesHold(w.tables) && FilesKnown(w.disk, known) && forall p :: IsDocument(p) ==> Kept(w, known.assets, p)
  }

  // ----- one action of the service -----

  /** An action settles a path or leaves it alone. */
  predicate SettlesOrLeaves(v: Vault, u: Vault, assets: set<string>, p: Path) {
    Settled(u.tables, u.files, assets, p) || (SameRows(v.tables, u.tables, p) && Unchanged(v.files, u.files, p))
  }

  lemma PutSettles(v: Vault, known: Known, q: Path, d: Doc, p: Path)
    requires d.project in known.projects
    ensures var files := Put(v, q, d).files;
            SettlesOrLeaves(v, Vault(files, AfterIndexing(v.tables, files, known, q)), known.assets, p)
  {
    var files := Put(v, q, d).files;
    if p == q {
      IndexingSettlesPath(v.tables, files, known, q);
    } else {
      IndexingElsewhere(v.tables, files, known, q, p);
    }
  }

  lemma SaveServes(v: Vault, known: Known, s: L.Step, p: Path)
    requires s.action.Save? && Orderly(v, known, s)
    ensures SettlesOrLeaves(v, L.Do(v, s), known.assets, p)
  {
    var req := s.action.req;
    if Objection(v.files, req).None? && s.action.writes {
      var q, d := TargetPath(req, s.action.id), Written(v.files, req, s.now);
      WrittenHolds(v.files, req, s.now);
      PutSettles(v, known, q, d, p);
    }
  }

  lemma MoveServes(v: Vault, known: Known, s: L.Step, p: Path)
    requires s.action.Move? && s.known == known
    ensures SettlesOrLeaves(v, L.Do(v, s), known.assets, p)
  {
    var q, alias := TrimSpace(s.action.path), TrimSpace(s.action.target);
    if CanMove(v, known, s.action.path, s.action.target) && s.action.writes {
      PutSettles(v, known, q, Moved(v.files, q, alias, s.now), p);
    }
  }

  lemma ArchiveServes(v: Vault, q: Path, assets: set<string>, p: Path)
    ensures SettlesOrLeaves(v, AfterArchive(v, q), assets, p)
  {
  }

  lemma ArchiveProjectServes(v: Vault, project: string, assets: set<string>, p: Path)
    ensures SettlesOrLeaves(v, AfterArchiveProject(v, project), assets, p)
  {
  }

  lemma RestoreServes(v: Vault, known: Known, q: Path, p: Path)
    requires FilesKnown(v.files, known) && (L.CanRestore(v, q) ==> q in v.files)
    ensures SettlesOrLeaves(v, AfterRestore(v, known, q), known.assets, p)
  {
    if L.CanRestore(v, q) {
      var t := Mark(v.tables, q, false);
      if p == q {
        assert Readable(v.files, q) ==> v.files[q].doc.project in known.projects;
        IndexingSettlesPath(t, v.files, known, q);
      } else {
        IndexingElsewhere(t, v.files, known, q, p);
      }
    }
  }

  lemma DeleteServes(v: Vault, q: Path, stuck: set<Path>, known: Known, p: Path)
    requires ReferencesHold(v.tables)
    ensures SettlesOrLeaves(v, AfterHardDelete(v, q, stuck), known.assets, p)
  {
    if p == q {
      RemovalSettles(v.tables, q, v.files - {q}, known, p);
    } else {
      RemovalElsewhere(v.tables, q, p);
    }
  }

  lemma BatchServes(v: Vault, paths: seq<Path>, stuck: set<Path>, assets: set<string>, p: Path)
    requires BatchAccepted(v.tables, paths) ==> Elements(paths) * stuck !! v.files.Keys
    ensures SettlesOrLeaves(v, AfterBatch(v, paths, stuck), assets, p)
  {
    assert p in Elements(paths) && p in stuck ==> p in Elements(paths) * stuck;
  }

  lemma SameThrough(t: Tables, u: Tables, v: Tables, p: Path)
    requires SameRows(t, u, p) && SameRows(u, v, p)
    ensures SameRows(t, v, p)
  {
  }

  lemma IndexElsewhere(s: Progress, files: Files, known: Known, q: Path, p: Path)
    requires q != p
    ensures SameRows(s.tables, IndexChange(s, files, known, q).tables, p)
  {
    IndexingElsewhere(s.tables, files, known, q, p);
  }

  lemma EntryElsewhere(s: Progress, files: Files, known: Known, c: Change, p: Path)
    requires !Mentions(c, p) && c.status != Copied
    ensures SameRows(s.tables, ApplyChange(s, files, known, c).tables, p)
  {
    if c.status == Deleted {
      RemovalElsewhere(s.tables, c.path, p);
    } else if c.status == Renamed {
      var cleared := s.(tables := RemovedCompletely(s.tables, c.oldPath));
      RemovalElsewhere(s.tables, c.oldPath, p);
      IndexElsewhere(cleared, files, known, c.path, p);
      IndexElsewhere(s, files, known, c.path, p);
      SameThrough(s.tables, cleared.tables, IndexChange(cleared, files, known, c.path).tables, p);
    } else {
      IndexElsewhere(s, files, known, c.path, p);
    }
  }

  lemma {:induction false} ListElsewhere(s: Progress, before: Files, after: Files, known: Known,
                                         changes: seq<Change>, p: Path)
    requires forall i :: 0 <= i < |changes| ==> TrueEntry(changes[i], before, after) && !Mentions(changes[i], p)
    ensures SameRows(s.tables, ApplyChanges(s, after, known, changes).tables, p)
    decreases changes
  {
    if changes != [] && !s.failed {
      EntryElsewhere(s, after, known, changes[0], p);
      ListElsewhere(ApplyChange(s, after, known, changes[0]), before, after, known, changes[1..], p);
    }
  }

  /** With every project known, a faithful list is worked through. */
  lemma PullSucceeds(t: Tables, before: Files, after: Files, known: Known, changes: seq<Change>)
    requires Faithful(changes, before, after) && FilesKnown(after, known)
    ensures !L.Reindexed(t, after, known, changes).failed
  {
    ReindexFailsIff(Progress(t, [], false), before, after, known, changes);
    forall i | 0 <= i < |changes| ensures !OfUnknownProject(t, after, known, changes[i]) {
      assert Readable(after, changes[i].path) ==> after[changes[i].path].doc.project in known.projects;
    }
  }

  lemma PullServes(v: Vault, after: Files, changes: seq<Change>, known: Known, p: Path)
    requires ReferencesHold(v.tables) && IsDocument(p) && Faithful(changes, v.files, after) && FilesKnown(after, known)
    ensures SettlesOrLeaves(v, Vault(after, L.Reindexed(v.tables, after, known, changes).tables), known.assets, p)
  {
    var s := Progress(v.tables, [], false);
    if exists i :: 0 <= i < |changes| && Mentions(changes[i], p) {
      PullSucceeds(v.tables, v.files, after, known, changes);
      ListSettles(s, v.files, after, known, changes, p);
    } else {
      ListElsewhere(s, v.files, after, known, changes, p);
    }
  }

  lemma StepServes(v: Vault, known: Known, s: L.Step, p: Path)
    requires ReferencesHold(v.tables) && FilesKnown(v.files, known) && Orderly(v, known, s) && IsDocument(p)
    ensures SettlesOrLeaves(v, L.Do(v, s), known.assets, p)
  {
    match s.action
    case Save(_, _, _) => SaveServes(v, known, s, p);
    case Move(_, _, _) => MoveServes(v, known, s, p);
    case Archive(q) => ArchiveServes(v, q, known.assets, p);
    case ArchiveProject(project) => ArchiveProjectServes(v, project, known.assets, p);
    case Restore(q) => RestoreServes(v, known, q, p);
    case HardDelete(q, stuck) => DeleteServes(v, q, stuck, known, p);
    case HardDeleteBatch(paths, stuck) => BatchServes(v, paths, stuck, known.assets, p);
    case Pull(after, changes) => PullServes(v, after, changes, known, p);
  }

  lemma StepReferences(v: Vault, known: Known, s: L.Step)
    requires ReferencesHold(v.tables) && s.known == known
    ensures ReferencesHold(L.Do(v, s).tables)
  {
    match s.action
    case Save(req, id, writes) =>
      if Objection(v.files, req).None? && writes {
        var q := TargetPath(req, id);
        IndexingReferences(v.tables, Put(v, q, Written(v.files, req, s.now)).files, known, q);
      }
    case Move(path, target, writes) =>
      if CanMove(v, known, path, target) && writes {
        var q := TrimSpace(path);
        IndexingReferences(v.tables, Put(v, q, Moved(v.files, q, TrimSpace(target), s.now)).files, known, q);
      }
    case Restore(q) => if L.CanRestore(v, q) { IndexingReferences(Mark(v.tables, q, false), v.files, known, q); }
    case HardDelete(q, stuck) => RemovalKeeps(v.tables, q);
    case Pull(after, changes) => ListKeeps(Progress(v.tables, [], false), after, known, changes);
    case _ =>
  }

  lemma StepFilesKnown(v: Vault, known: Known, s: L.Step)
    requires FilesKnown(v.files, known) && Orderly(v, known, s)
    ensures FilesKnown(L.Do(v, s).files, known)
  {
    if s.action.Save? && Objection(v.files, s.action.req).None? {
      WrittenHolds(v.files, s.action.req, s.now);
    }
  }

  // ----- every event keeps the invariant -----

  lemma ServeWork(w: World, known: Known, e: Event, p: Path)
    requires e.Serve?
    ensures Work(After(w, known, e), p) == Work(w, p) + RowsAt(e.ops, p)
  {
    Assoc(RowsAt(w.timers, p), RowsAt(w.events, p), RowsAt(e.ops, p));
  }

  lemma LastCarries(w: World, x: World, ops: map<Path, seq<Op>>, p: Path)
    requires Work(x, p) == Work(w, p) + RowsAt(ops, p) && LastMatches(w, p) && NoChmod(w, p)
    requires if p in ops then LastFits(ops[p], x.disk, p) else Unchanged(w.disk, x.disk, p)
    ensures LastMatches(x, p) && NoChmod(x, p)
  {
    if p !in ops {
      assert Work(x, p) == Work(w, p);
    }
  }

  lemma ServeLast(w: World, known: Known, e: Event, p: Path)
    requires e.Serve? && Permitted(w, known, e) && LastMatches(w, p) && NoChmod(w, p)
    ensures LastMatches(After(w, known, e), p) && NoChmod(After(w, known, e), p)
  {
    var x := After(w, known, e);
    ServeWork(w, known, e, p);
    assert Announced(e.ops, w.disk, x.disk);
    LastCarries(w, x, e.ops, p);
  }

  lemma NotedElsewhere(w: World, s: L.Step, p: Path)
    requires !(s.action.Save? && Objection(w.disk, s.action.req).None? && s.action.writes
               && TargetPath(s.action.req, s.action.id) == p)
    ensures p in Noted(w, s) <==> p in w.reconciled
    ensures p in w.reconciled ==> Noted(w, s)[p] == w.reconciled[p]
  {
  }

  lemma SavedSettles(w: World, known: Known, s: L.Step)
    requires s.action.Save? && Orderly(VaultOf(w), known, s) && Objection(w.disk, s.action.req).None? && s.action.writes
    ensures var v := L.Do(VaultOf(w), s); Settled(v.tables, v.files, known.assets, TargetPath(s.action.req, s.action.id))
  {
    var q, d := TargetPath(s.action.req, s.action.id), Written(w.disk, s.action.req, s.now);
    WrittenHolds(w.disk, s.action.req, s.now);
    IndexingSettlesPath(w.tables, Put(VaultOf(w), q, d).files, known, q);
  }

  lemma ServeKeeps(w: World, known: Known, e: Event, p: Path)
    requires e.Serve? && AllKept(w, known) && Permitted(w, known, e) && IsDocument(p)
    ensures Kept(After(w, known, e), known.assets, p)
  {
    var x, s := After(w, known, e), e.step;
    assert Kept(w, known.assets, p);
    ServeLast(w, known, e, p);
    ServeWork(w, known, e, p);
    StepServes(VaultOf(w), known, s, p);
    if s.action.Save? && Objection(w.disk, s.action.req).None? && s.action.writes
       && TargetPath(s.action.req, s.action.id) == p {
      SavedSettles(w, known, s);
    } else {
      NotedElsewhere(w, s, p);
    }
  }

  lemma WriteExecutes(w: World, known: Known, p: Path, op: Op)
    requires LastMatches(w, p) && NoChmod(w, p) && NotedIsIndexed(w, known.assets, p) && Writes(op)
    requires Readable(w.disk, p) ==> w.disk[p].doc.project in known.projects
    requires Work(w, p) == [] ==> p in w.disk
    ensures Kept(Execute(w, known, p, op), known.assets, p)
  {
    if p in w.disk {
      IndexingSettlesPath(w.tables, w.disk, known, p);
    }
  }

  lemma RemovalExecutes(w: World, known: Known, p: Path, op: Op)
    requires ReferencesHold(w.tables) && LastMatches(w, p) && NoChmod(w, p) && Removes(op)
    requires Work(w, p) == [] ==> !Readable(w.disk, p)
    ensures Kept(Execute(w, known, p, op), known.assets, p)
  {
    if p !in w.disk {
      RemovalSettles(w.tables, p, w.disk, known, p);
    }
  }

  /** The waiting work less its first timer. */
  lemma Disarmed(w: World, p: Path)
    requires RowsAt(w.timers, p) != [] && LastMatches(w, p) && NoChmod(w, p)
    ensures var armed := RowsAt(w.timers, p);
            var x := w.(timers := w.timers[p := armed[1..]]);
            && Work(w, p) == [armed[0]] + Work(x, p)
            && LastMatches(x, p) && NoChmod(x, p)
  {
    var armed := RowsAt(w.timers, p);
    var x := w.(timers := w.timers[p := armed[1..]]);
    Assoc([armed[0]], armed[1..], RowsAt(w.events, p));
    assert armed == [armed[0]] + armed[1..];
    assert Work(w, p) == [armed[0]] + Work(x, p);
    assert Work(x, p) != [] ==> Work(x, p)[|Work(x, p)| - 1] == Work(w, p)[|Work(w, p)| - 1];
  }

  lemma FireKeeps(w: World, known: Known, p: Path)
    requires AllKept(w, known) && IsDocument(p)
    ensures Kept(Next(w, known, Fire(p)), known.assets, p)
  {
    var armed := RowsAt(w.timers, p);
    assert Kept(w, known.assets, p);
    if armed != [] {
      var x := w.(timers := w.timers[p := armed[1..]]);
      Disarmed(w, p);
      assert Work(w, p)[0] == armed[0] && armed[0] in Work(w, p);
      if Writes(armed[0]) {
        WriteExecutes(x, known, p, armed[0]);
      } else {
        RemovalExecutes(x, known, p, armed[0]);
      }
    }
  }

  lemma SameStaysKept(w: World, x: World, assets: set<string>, p: Path)
    requires Kept(w, assets, p) && SameAt(w, x, p)
    ensures Kept(x, assets, p)
  {
  }

  lemma DeliverKeeps(w: World, known: Known, p: Path, stops: bool)
    requires Kept(w, known.assets, p) && NoChmod(Next(w, known, Deliver(p, stops)), p)
    ensures Kept(Next(w, known, Deliver(p, stops)), known.assets, p)
  {
    DeliverLast(w, known, p, stops);
  }

  lemma OutsideKeeps(w: World, known: Known, m: Move)
    requires (m.OutsideWrite? || m.OutsideRemove?) && Allowed(m) && PutsBackSafely(w, known.assets, m)
    requires Kept(w, known.assets, m.path)
    ensures Kept(Next(w, known, m), known.assets, m.path)
  {
    EnqueueLast(w, m.path, m.op);
  }

  lemma WatchKeeps(w: World, known: Known, e: Event, p: Path)
    requires e.Watch? && AllKept(w, known) && Permitted(w, known, e) && IsDocument(p)
    ensures Kept(After(w, known, e), known.assets, p)
  {
    var m := e.move;
    assert Kept(w, known.assets, p);
    NextNoChmod(w, known, m, p);
    if m.path != p {
      NextElsewhere(w, known, m, p);
      SameStaysKept(w, After(w, known, e), known.assets, p);
    } else if m.Deliver? {
      DeliverKeeps(w, known, p, m.stops);
    } else if m.Fire? {
      FireKeeps(w, known, p);
    } else {
      OutsideKeeps(w, known, m);
    }
  }

  lemma EventKeeps(w: World, known: Known, e: Event)
    requires AllKept(w, known) && Permitted(w, known, e)
    ensures AllKept(After(w, known, e), known)
  {
    match e
    case Watch(m) =>
      NextReferences(w, known, m);
      NextProjects(w, known, m);
      forall p | IsDocument(p) ensures Kept(After(w, known, e), known.assets, p) {
        WatchKeeps(w, known, e, p);
      }
    case Serve(s, _) =>
      StepReferences(VaultOf(w), known, s);
      StepFilesKnown(VaultOf(w), known, s);
      forall p | IsDocument(p) ensures Kept(After(w, known, e), known.assets, p) {
        ServeKeeps(w, known, e, p);
      }
  }

  lemma {:induction false} SharedRunKeeps(w: World, known: Known, events: seq<Event>)
    requires AllKept(w, known) && PermittedRun(w, known, events)
    ensures AllKept(RunShared(w, known, events), known)
    decreases events
  {
    if events != [] {
      EventKeeps(w, known, events[0]);
      SharedRunKeeps(After(w, known, events[0]), known, events[1..]);
    }
  }

  /** Over every run in which service, watcher, git and the world outside act on the same files and
      tables, in any order, a document with nothing under way for it has the rows its file calls for. */
  lemma SharedRowsAgree(w: World, known: Known, events: seq<Event>, p: Path)
    requires Started(w, known) && PermittedRun(w, known, events) && IsDocument(p)
    ensures var x := RunShared(w, known, events); Work(x, p) == [] ==> Settled(x.tables, x.disk, known.assets, p)
  {
    forall q | IsDocument(q) ensures Kept(w, known.assets, q) {
      assert Settled(w.tables, w.disk, known.assets, q);
    }
    SharedRunKeeps(w, known, events);
    assert Kept(RunShared(w, known, events), known.assets, p);
  }

  // ----- a noted version put back -----

  /** As long as only saves and the world outside change a path, putting a noted version back is safe. */
  lemma PutBackSafeAlone(w: World, assets: set<string>, m: Move)
    requires Sound(w, assets, m.path)
    ensures PutsBackSafely(w, assets, m)
  {
    if m.OutsideWrite? && m.file.Good? {
      NormalRows(w.tables, map[m.path := m.file], assets, m.path);
    }
  }

  /** A file written again while its removal is waiting ends up with agreeing rows if and only if the
      write does not put back a noted version that the rows no longer reflect: the write stops the
      removal, and the noted version is taken for one already indexed. */
  lemma PutBackSettlesIff(w: World, known: Known, p: Path, doc: Doc, gone: Op)
    requires RowsAt(w.timers, p) == [gone] && RowsAt(w.events, p) == [] && doc.project in known.projects
    ensures var m := OutsideWrite(p, Good(doc), Create);
            var x := Run(w, known, [m, Deliver(p, true), Fire(p)]);
            && Work(x, p) == [] && Reconciled(x, p) == DiskHash(x.disk, p) && x.disk == w.disk[p := Good(doc)]
            && (Reconciled(w, p) == Some(Normalize(doc)) ==> x.tables == w.tables)
            && (Settled(x.tables, x.disk, known.assets, p) <==> PutsBackSafely(w, known.assets, m))
  {
    var m := OutsideWrite(p, Good(doc), Create);
    var a := Next(w, known, m);
    var b := Next(a, known, Deliver(p, true));
    var x := Next(b, known, Fire(p));
    ThreeMoves(w, known, m, Deliver(p, true), Fire(p));
    assert RowsAt(a.events, p) == [Create] && RowsAt(a.timers, p) == [gone];
    assert RowsAt(b.events, p) == [] && RowsAt(b.timers, p) == [Create];
    if Reconciled(w, p) != Some(Normalize(doc)) {
      IndexingSettlesPath(w.tables, x.disk, known, p);
    }
  }

  lemma {:induction false} WatchRun(w: World, known: Known, moves: seq<Move>)
    ensures var events := seq(|moves|, k requires 0 <= k < |moves| => Watch(moves[k]));
            RunShared(w, known, events) == Run(w, known, moves)
    decreases moves
  {
    if moves != [] {
      var events := seq(|moves|, k requires 0 <= k < |moves| => Watch(moves[k]));
      WatchRun(Next(w, known, moves[0]), known, moves[1..]);
      assert events[1..] == seq(|moves[1..]|, k requires 0 <= k < |moves[1..]| => Watch(moves[1..][k]));
    }
  }

  lemma {:induction false} SharedAppend(w: World, known: Known, a: seq<Event>, b: seq<Event>)
    ensures RunShared(w, known, a + b) == RunShared(RunShared(w, known, a), known, b)
    decreases a
  {
    if a == [] {
      assert a + b == b;
    } else {
      assert (a + b)[0] == a[0] && (a + b)[1..] == a[1..] + b;
      SharedAppend(After(w, known, a[0]), known, a[1..], b);
    }
  }

  lemma TwoEvents(w: World, known: Known, a: Event, b: Event)
    ensures RunShared(w, known, [a, b]) == After(After(w, known, a), known, b)
  {
    assert [a, b][1..] == [b] && [b][1..] == [];
    assert RunShared(After(w, known, a), known, [b]) == RunShared(After(After(w, known, a), known, b), known, []);
  }

  lemma DeleteQueued(w: World, known: Known, p: Path, now: int)
    requires TrimSpace(p) != "" && Active(w.tables, p) && Readable(w.disk, p) && Work(w, p) == []
    ensures var x := After(w, known, Serve(L.Step(L.HardDelete(p, {}), known, now), map[p := [Remove]]));
            && RowsAt(x.timers, p) == [] && RowsAt(x.events, p) == [Remove]
            && Reconciled(x, p) == Reconciled(w, p) && p !in x.tables.docs && p !in x.disk
  {
    assert RowsAt(w.timers, p) == [] && RowsAt(w.events, p) == [];
  }

  lemma DeliverOne(w: World, known: Known, p: Path, op: Op)
    requires RowsAt(w.timers, p) == [] && RowsAt(w.events, p) == [op]
    ensures var x := After(w, known, Watch(Deliver(p, true)));
            && RowsAt(x.timers, p) == [op] && RowsAt(x.events, p) == []
            && x.reconciled == w.reconciled && x.tables == w.tables && x.disk == w.disk
  {
  }

  // ----- the service's saves, seen by the watcher -----

  /** A save that goes through, with the events of its own write. */
  predicate SavedWith(w: World, known: Known, e: Event, p: Path) {
    && e.Serve? && e.step.action.Save? && e.step.known == known
    && var a := e.step.action;
       && SaveVerdict(VaultOf(w), known, a.req, a.id, e.step.now, a.writes) == Saved(p)
       && RowsAt(e.ops, p) != [] && forall op :: op in RowsAt(e.ops, p) ==> Writes(op)
  }

  lemma SavedIsNoted(w: World, known: Known, e: Event, p: Path)
    requires SavedWith(w, known, e, p)
    ensures var x := After(w, known, e);
            && Readable(x.disk, p) && Reconciled(x, p) == DiskHash(x.disk, p) && x.emitted == w.emitted
  {
    WrittenHolds(w.disk, e.step.action.req, e.step.now);
  }

  lemma SavedWork(w: World, known: Known, e: Event, p: Path)
    requires SavedWith(w, known, e, p)
    ensures var x := After(w, known, e);
            && Work(x, p) == Work(w, p) + RowsAt(e.ops, p)
            && (RemovalUnderWay(x, p) <==> RemovalUnderWay(w, p))
  {
    ServeWork(w, known, e, p);
  }

  /** The service's own save is never reported as an external change, whatever happens to other paths
      and however the watcher is scheduled, if and only if no removal of the path was under way. */
  lemma ServedSaveIsSilentIff(w: World, known: Known, e: Event, p: Path)
    requires SavedWith(w, known, e, p)
    ensures (forall moves: seq<Move> | forall i :: 0 <= i < |moves| ==> Leaves(moves[i], p) ::
               Emissions(Run(After(w, known, e), known, moves), p) == Emissions(w, p))
       <==> !RemovalUnderWay(w, p)
  {
    var x := After(w, known, e);
    SavedIsNoted(w, known, e, p);
    SavedWork(w, known, e, p);
    if RemovalUnderWay(w, p) {
      var moves := ReportComes(x, known, p);
    } else {
      forall moves: seq<Move> | forall i :: 0 <= i < |moves| ==> Leaves(moves[i], p)
        ensures Emissions(Run(x, known, moves), p) == Emissions(w, p)
      {
        RunSilent(x, known, moves, p);
      }
    }
  }

  /** Hard-deleting a document leaves its version noted and its removal waiting. */
  lemma DeleteLeavesNoted(w: World, known: Known, p: Path, now: int)
    requires TrimSpace(p) != "" && Active(w.tables, p) && Readable(w.disk, p) && Work(w, p) == []
    ensures var e := Serve(L.Step(L.HardDelete(p, {}), known, now), map[p := [Remove]]);
            var x := RunShared(w, known, [e, Watch(Deliver(p, true))]);
            && RowsAt(x.timers, p) == [Remove] && RowsAt(x.events, p) == []
            && Reconciled(x, p) == Reconciled(w, p) && p !in x.tables.docs && p !in x.disk
  {
    var e := Serve(L.Step(L.HardDelete(p, {}), known, now), map[p := [Remove]]);
    DeleteQueued(w, known, p, now);
    DeliverOne(After(w, known, e), known, p, Remove);
    TwoEvents(w, known, e, Watch(Deliver(p, true)));
  }

  /** So every noted document that is hard-deleted and then put back unchanged before the watcher has
      handled the removal stays out of the index for good: nothing is under way for it any more. */
  lemma PutBackIsLost(w: World, known: Known, p: Path, now: int) returns (events: seq<Event>)
    requires TrimSpace(p) != "" && Active(w.tables, p) && Work(w, p) == [] && Readable(w.disk, p)
    requires Reconciled(w, p) == DiskHash(w.disk, p) && w.disk[p].doc.project in known.projects
    ensures var x := RunShared(w, known, events);
            Work(x, p) == [] && p in x.disk && x.disk[p] == w.disk[p] && p !in x.tables.docs
  {
    var doc := w.disk[p].doc;
    var moves := [OutsideWrite(p, Good(doc), Create), Deliver(p, true), Fire(p)];
    var first := [Serve(L.Step(L.HardDelete(p, {}), known, now), map[p := [Remove]]), Watch(Deliver(p, true))];
    var second := seq(|moves|, k requires 0 <= k < |moves| => Watch(moves[k]));
    events := first + second;
    var a := RunShared(w, known, first);
    DeleteLeavesNoted(w, known, p, now);
    SharedAppend(w, known, first, second);
    WatchRun(a, known, moves);
    PutBackSettlesIff(a, known, p, doc, Remove);
  }

  /** Such a state comes about: a document appears and the watcher handles it. */
  lemma NotedDocument(known: Known, p: Path, doc: Doc) returns (w: World, moves: seq<Move>)
    requires doc.project in known.projects
    ensures Started(w, known)
    ensures var x := Run(w, known, moves);
            && Active(x.tables, p) && Work(x, p) == [] && Readable(x.disk, p)
            && Reconciled(x, p) == DiskHash(x.disk, p) && x.disk[p] == Good(doc)
  {
    w := IDLE;
    moves := [OutsideWrite(p, Good(doc), Write), Deliver(p, true), Fire(p)];
    WriteSettlesIff(w, known, p, doc);
    ThreeMoves(w, known, moves[0], moves[1], moves[2]);
    var a := Next(w, known, moves[0]);
    var b := Next(a, known, moves[1]);
    assert RowsAt(a.events, p) == [Write] && RowsAt(b.timers, p) == [Write];
  }
}
