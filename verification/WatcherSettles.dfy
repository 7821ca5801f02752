/** What every run of the watcher keeps: no change is missed, the index catches up, and the app's
    own saves stay silent exactly when no removal was under way. */
module WatcherSettles {
  import opened Text
  import opened Documents
  import opened Index
  import opened Reindex
  import opened DocumentService
  import opened Watcher

  // ----- the invariant of one path -----

  /** The index holds what the reconciled version calls for. */
  predicate ReflectsReconciled(w: World, assets: set<string>, p: Path) {
    p in w.reconciled ==> Settled(w.tables, map[p := Good(w.reconciled[p])], assets, p)
  }

  /** The last thing under way for a path matches the disk: a write for a readable file, a removal for
      a missing one. */
  predicate LastMatches(w: World, p: Path) {
    var work := Work(w, p);
    work != [] ==>
      (Readable(w.disk, p) ==> Writes(work[|work| - 1])) && (p !in w.disk ==> Removes(work[|work| - 1]))
  }

  /** No change is missed: with nothing under way, a touched readable path is reconciled. */
  predicate Tracked(w: World, p: Path) {
    LastMatches(w, p) && NoChmod(w, p)
    && (Work(w, p) == [] && p in w.touched && Readable(w.disk, p) ==> Reconciled(w, p) == DiskHash(w.disk, p))
  }

  predicate NoChmod(w: World, p: Path) {
    Chmod !in Work(w, p)
  }

  /** The rows of a path follow: with nothing under way they agree with the disk. */
  predicate Sound(w: World, assets: set<string>, p: Path) {
    ReferencesHold(w.tables) && ReflectsReconciled(w, assets, p) && LastMatches(w, p)
    && (Work(w, p) == [] ==> Settled(w.tables, w.disk, assets, p))
  }

  // ----- other paths are left alone -----

  predicate SameAt(w: World, x: World, p: Path) {
    SameRows(w.tables, x.tables, p) && RowsAt(w.events, p) == RowsAt(x.events, p) && RowsAt(w.timers, p) == RowsAt(x.timers, p)
    && (p in w.disk <==> p in x.disk) && (p in w.disk ==> w.disk[p] == x.disk[p])
    && Reconciled(w, p) == Reconciled(x, p) && (p in w.touched <==> p in x.touched)
  }

  lemma SameStaysSound(w: World, x: World, assets: set<string>, p: Path)
    requires Sound(w, assets, p) && SameAt(w, x, p) && ReferencesHold(x.tables)
    ensures Sound(x, assets, p)
  {
  }

  lemma IndexingElsewhere(t: Tables, files: Files, known: Known, q: Path, p: Path)
    requires p != q
    ensures SameRows(t, AfterIndexing(t, files, known, q), p)
  {
  }

  lemma RemovalElsewhere(t: Tables, q: Path, p: Path)
    requires p != q
    ensures SameRows(t, RemovedCompletely(t, q), p)
  {
  }

  lemma WriteElsewhere(v: Vault, known: Known, q: Path, doc: Doc, p: Path)
    requires q != p
    ensures var u := WriteAndIndex(v, known, q, doc);
            SameRows(v.tables, u.tables, p) && (p in v.files <==> p in u.files) && (p in v.files ==> v.files[p] == u.files[p])
  {
    IndexingElsewhere(v.tables, v.files[q := Good(doc)], known, q, p);
  }

  lemma SaveElsewhere(w: World, known: Known, q: Path, doc: Doc, p: Path)
    requires q != p
    ensures SameAt(w, AfterAppWrite(w, known, q, doc), p)
  {
    WriteElsewhere(Vault(w.disk, w.tables), known, q, Normalize(doc), p);
  }

  lemma ExecuteElsewhere(w: World, known: Known, q: Path, op: Op, p: Path)
    requires q != p
    ensures SameAt(w, Execute(w, known, q, op), p)
  {
    if Writes(op) {
      IndexingElsewhere(w.tables, w.disk, known, q, p);
      WriteElsewhereBody(w, AfterIndexing(w.tables, w.disk, known, q), q, DiskHash(w.disk, q), p);
    } else {
      RemovalElsewhere(w.tables, q, p);
    }
  }

  lemma WriteElsewhereBody(w: World, t: Tables, q: Path, hash: Option<Doc>, p: Path)
    requires q != p && SameRows(w.tables, t, p)
    ensures SameAt(w, w.(tables := t, reconciled := if hash.Some? then w.reconciled[q := hash.value] else w.reconciled, emitted := w.emitted + [q]), p)
  {
  }

  lemma NextElsewhere(w: World, known: Known, m: Move, p: Path)
    requires m.path != p
    ensures SameAt(w, Next(w, known, m), p)
  {
    match m
    case Save(q, doc) => SaveElsewhere(w, known, q, doc, p);
    case Fire(q) =>
      var armed := RowsAt(w.timers, q);
      if armed != [] {
        ExecuteElsewhere(w.(timers := w.timers[q := armed[1..]]), known, q, armed[0], p);
      }
    case _ =>
  }

  lemma IndexingReferences(t: Tables, files: Files, known: Known, q: Path)
    requires ReferencesHold(t)
    ensures ReferencesHold(AfterIndexing(t, files, known, q))
  {
    IndexingKeeps(Progress(t, [], false), files, known, q);
  }

  lemma NextReferences(w: World, known: Known, m: Move)
    requires ReferencesHold(w.tables)
    ensures ReferencesHold(Next(w, known, m).tables)
  {
    match m
    case Save(q, doc) => IndexingReferences(w.tables, w.disk[q := Good(Normalize(doc))], known, q);
    case Fire(q) =>
      IndexingReferences(w.tables, w.disk, known, q);
      RemovalKeeps(w.tables, q);
    case _ =>
  }

  // ----- the moved path -----

  /** Everything readable that is written belongs to a project the index knows. */
  predicate KnownProject(m: Move, known: Known) {
    (m.OutsideWrite? && m.file.Good? ==> m.file.doc.project in known.projects)
    && (m.Save? ==> m.doc.project in known.projects)
  }

  ghost predicate ProjectsKnown(w: World, known: Known) {
    forall p: Path :: Readable(w.disk, p) ==> w.disk[p].doc.project in known.projects
  }

  /** Rows for a document are rows for its normal form. */
  lemma NormalRows(t: Tables, files: Files, assets: set<string>, p: Path)
    requires Readable(files, p)
    ensures Settled(t, map[p := Good(Read(files, p))], assets, p) == Settled(t, files, assets, p)
  {
    NormalizeTwice(files[p].doc);
  }

  lemma IndexingSettlesPath(t: Tables, files: Files, known: Known, p: Path)
    requires p in files && (files[p].Good? ==> files[p].doc.project in known.projects)
    ensures Settled(AfterIndexing(t, files, known, p), files, known.assets, p)
  {
    IndexingSettles(Progress(t, [], false), files, known, p, p);
  }

  lemma WriteFires(w: World, known: Known, p: Path, op: Op)
    requires ReferencesHold(w.tables) && ReflectsReconciled(w, known.assets, p) && LastMatches(w, p) && Writes(op)
    requires Readable(w.disk, p) ==> w.disk[p].doc.project in known.projects
    requires Work(w, p) == [] ==> p in w.disk
    ensures Sound(Execute(w, known, p, op), known.assets, p)
  {
    var x := Execute(w, known, p, op);
    IndexingReferences(w.tables, w.disk, known, p);
    if Readable(w.disk, p) {
      NormalRows(w.tables, w.disk, known.assets, p);
      NormalRows(AfterIndexing(w.tables, w.disk, known, p), w.disk, known.assets, p);
      IndexingSettlesPath(w.tables, w.disk, known, p);
    }
  }

  lemma RemovalFires(w: World, known: Known, p: Path, op: Op)
    requires ReferencesHold(w.tables) && LastMatches(w, p) && Removes(op)
    requires Work(w, p) == [] ==> !Readable(w.disk, p)
    ensures Sound(Execute(w, known, p, op), known.assets, p)
  {
    RemovalKeeps(w.tables, p);
    if p !in w.disk {
      RemovalSettles(w.tables, p, w.disk, known, p);
    }
  }

  lemma FireSound(w: World, known: Known, p: Path)
    requires Sound(w, known.assets, p) && NoChmod(w, p)
    requires Readable(w.disk, p) ==> w.disk[p].doc.project in known.projects
    ensures Sound(Next(w, known, Fire(p)), known.assets, p)
  {
    var armed := RowsAt(w.timers, p);
    if armed != [] {
      var x := w.(timers := w.timers[p := armed[1..]]);
      assert Work(w, p) == [armed[0]] + Work(x, p);
      assert Work(w, p)[0] == armed[0];
      if Writes(armed[0]) {
        WriteFires(x, known, p, armed[0]);
      } else {
        RemovalFires(x, known, p, armed[0]);
      }
    }
  }

  lemma DeliverSound(w: World, known: Known, p: Path, stops: bool)
    requires Sound(w, known.assets, p)
    ensures Sound(Next(w, known, Deliver(p, stops)), known.assets, p)
  {
    var x := Next(w, known, Deliver(p, stops));
    var queue := RowsAt(w.events, p);
    if queue != [] {
      var work, work' := Work(w, p), Work(x, p);
      assert work'[|work'| - 1] == queue[|queue| - 1] == work[|work| - 1];
    }
  }

  lemma EnqueueLast(w: World, p: Path, op: Op)
    ensures Work(Enqueue(w, p, op), p) == Work(w, p) + [op]
  {
  }

  lemma ChangeSound(w: World, known: Known, m: Move)
    requires WellFormed(m) && KnownProject(m, known) && Sound(w, known.assets, m.path)
    requires m.OutsideWrite? || m.OutsideRemove? || m.Save?
    ensures Sound(Next(w, known, m), known.assets, m.path)
  {
    match m
    case OutsideWrite(p, file, op) => EnqueueLast(w, p, op);
    case OutsideRemove(p, op) => EnqueueLast(w, p, op);
    case Save(p, doc) =>
      EnqueueLast(w, p, Create);
      SaveSound(w, known, p, doc);
  }

  lemma SaveSound(w: World, known: Known, p: Path, doc: Doc)
    requires Sound(w, known.assets, p) && doc.project in known.projects
    ensures Sound(Next(w, known, Save(p, doc)), known.assets, p)
  {
    var files := w.disk[p := Good(Normalize(doc))];
    EnqueueLast(w, p, Create);
    NextReferences(w, known, Save(p, doc));
    IndexingSettlesPath(w.tables, files, known, p);
    NormalizeTwice(doc);
    NormalRows(AfterIndexing(w.tables, files, known, p), files, known.assets, p);
  }

  // ----- every run: nothing is missed -----

  /** The operations a move may add to the work of its path. */
  function Adds(m: Move): set<Op> {
    match m
    case OutsideWrite(_, _, op) => {op}
    case OutsideRemove(_, op) => {op}
    case OutsideChmod(_) => {Chmod}
    case Save(_, _) => {Create, Remove}
    case _ => {}
  }

  lemma FireWork(w: World, known: Known, p: Path)
    requires RowsAt(w.timers, p) != []
    ensures Work(w, p) == [RowsAt(w.timers, p)[0]] + Work(Next(w, known, Fire(p)), p)
  {
    var armed, queue := RowsAt(w.timers, p), RowsAt(w.events, p);
    var x := Next(w, known, Fire(p));
    assert RowsAt(x.timers, p) == armed[1..] && RowsAt(x.events, p) == queue;
    assert armed + queue == [armed[0]] + (armed[1..] + queue);
  }

  lemma DeliverWork(w: World, known: Known, p: Path, stops: bool, op: Op)
    requires op in Work(Next(w, known, Deliver(p, stops)), p)
    ensures op in Work(w, p)
  {
    var queue := RowsAt(w.events, p);
    if queue != [] {
      assert queue == [queue[0]] + queue[1..];
    }
  }

  lemma SaveWork(w: World, known: Known, p: Path, doc: Doc, op: Op)
    requires op in Work(Next(w, known, Save(p, doc)), p)
    ensures op in Work(w, p) || op in {Create, Remove}
  {
    var noted := Enqueue(w, p, Create);
    EnqueueLast(w, p, Create);
    EnqueueLast(noted, p, Remove);
    var x := Next(w, known, Save(p, doc));
    assert Work(x, p) == Work(noted, p) || Work(x, p) == Work(Enqueue(noted, p, Remove), p);
  }

  lemma WorkComesFrom(w: World, known: Known, m: Move, op: Op)
    requires op in Work(Next(w, known, m), m.path)
    ensures op in Work(w, m.path) || op in Adds(m)
  {
    match m
    case Fire(p) => if RowsAt(w.timers, p) != [] { FireWork(w, known, p); }
    case Deliver(p, stops) => DeliverWork(w, known, p, stops, op);
    case Save(p, doc) => SaveWork(w, known, p, doc, op);
    case OutsideWrite(p, _, o) => EnqueueLast(w, p, o);
    case OutsideRemove(p, o) => EnqueueLast(w, p, o);
    case OutsideChmod(p) => EnqueueLast(w, p, Chmod);
  }

  lemma NextNoChmod(w: World, known: Known, m: Move, p: Path)
    requires NoChmod(w, p) && Allowed(m)
    ensures NoChmod(Next(w, known, m), p)
  {
    if m.path != p {
      NextElsewhere(w, known, m, p);
    } else if Chmod in Work(Next(w, known, m), p) {
      WorkComesFrom(w, known, m, Chmod);
    }
  }

  /** Chmod events are left out. */
  predicate Allowed(m: Move) {
    WellFormed(m) && !m.OutsideChmod?
  }

  lemma FireLast(w: World, known: Known, p: Path)
    requires Tracked(w, p)
    ensures LastMatches(Next(w, known, Fire(p)), p)
  {
    if RowsAt(w.timers, p) != [] {
      FireWork(w, known, p);
      var work, work' := Work(w, p), Work(Next(w, known, Fire(p)), p);
      assert work' != [] ==> work'[|work'| - 1] == work[|work| - 1];
    }
  }

  lemma FireTracked(w: World, known: Known, p: Path)
    requires Tracked(w, p)
    ensures var x := Next(w, known, Fire(p));
            Work(x, p) == [] && p in x.touched && Readable(x.disk, p) ==> Reconciled(x, p) == DiskHash(x.disk, p)
  {
    if RowsAt(w.timers, p) != [] {
      FireWork(w, known, p);
      assert Work(w, p)[0] == RowsAt(w.timers, p)[0];
    }
  }

  lemma DeliverLast(w: World, known: Known, p: Path, stops: bool)
    requires LastMatches(w, p)
    ensures var x := Next(w, known, Deliver(p, stops)); LastMatches(x, p) && (Work(x, p) == [] <==> Work(w, p) == [])
  {
    var x := Next(w, known, Deliver(p, stops));
    var queue := RowsAt(w.events, p);
    if queue != [] {
      var work, work' := Work(w, p), Work(x, p);
      assert work'[|work'| - 1] == queue[|queue| - 1] == work[|work| - 1];
    }
  }

  /** The last event of a change is the change: a write for a written file, a removal for a missing one. */
  lemma ChangeLast(w: World, known: Known, m: Move)
    requires WellFormed(m) && (m.OutsideWrite? || m.OutsideRemove? || m.Save?)
    ensures var x := Next(w, known, m); LastMatches(x, m.path) && Work(x, m.path) != []
  {
    match m
    case OutsideWrite(p, file, op) => EnqueueLast(w, p, op);
    case OutsideRemove(p, op) => EnqueueLast(w, p, op);
    case Save(p, doc) => SaveLast(w, known, p, doc);
  }

  lemma SaveLast(w: World, known: Known, p: Path, doc: Doc)
    ensures var x := Next(w, known, Save(p, doc)); LastMatches(x, p) && Work(x, p) != []
  {
    SaveLeaves(w, known, p, doc);
  }

  /** A save leaves its file with a create event, or, when it cannot be indexed, no file and a removal. */
  lemma SaveLeaves(w: World, known: Known, p: Path, doc: Doc)
    ensures var x := Next(w, known, Save(p, doc));
            if SaveFails(w, known, p, doc)
            then p !in x.disk && Work(x, p) == Work(w, p) + [Create] + [Remove]
            else Readable(x.disk, p) && Reconciled(x, p) == DiskHash(x.disk, p) && Work(x, p) == Work(w, p) + [Create]
  {
    NormalizeTwice(doc);
    EnqueueLast(w, p, Create);
    EnqueueLast(Enqueue(w, p, Create), p, Remove);
    var x, noted := Next(w, known, Save(p, doc)), Enqueue(w, p, Create);
    assert Work(x, p) == if SaveFails(w, known, p, doc) then Work(Enqueue(noted, p, Remove), p) else Work(noted, p);
  }

  /** The saved document cannot be indexed: it is active and its project is unknown. */
  predicate SaveFails(w: World, known: Known, p: Path, doc: Doc) {
    OutcomeOf(w.tables, w.disk[p := Good(Normalize(doc))], known, p) == Fails
  }

  lemma NextTracked(w: World, known: Known, m: Move, p: Path)
    requires Tracked(w, p) && Allowed(m)
    ensures Tracked(Next(w, known, m), p)
  {
    NextNoChmod(w, known, m, p);
    if m.path != p {
      NextElsewhere(w, known, m, p);
      assert Work(Next(w, known, m), p) == Work(w, p);
    } else if m.Deliver? {
      DeliverLast(w, known, p, m.stops);
    } else if m.Fire? {
      FireLast(w, known, p);
      FireTracked(w, known, p);
    } else {
      ChangeLast(w, known, m);
    }
  }

  lemma {:induction false} RunTracked(w: World, known: Known, moves: seq<Move>, p: Path)
    requires Tracked(w, p) && forall i :: 0 <= i < |moves| ==> Allowed(moves[i])
    ensures Tracked(Run(w, known, moves), p)
    decreases moves
  {
    if moves != [] {
      NextTracked(w, known, moves[0], p);
      RunTracked(Next(w, known, moves[0]), known, moves[1..], p);
    }
  }

  /** In every state reachable from one with nothing under way and nothing touched, a touched readable
      path has an event or a timer under way, or its reconciled version is what is on disk: whatever is
      written, whether or not it can be indexed, and whatever the index held. */
  lemma NothingIsMissed(w: World, known: Known, moves: seq<Move>, p: Path)
    requires w.events == map[] && w.timers == map[] && w.touched == {}
    requires forall i :: 0 <= i < |moves| ==> Allowed(moves[i])
    ensures var x := Run(w, known, moves);
            p in x.touched && Readable(x.disk, p) ==> Work(x, p) != [] || Reconciled(x, p) == DiskHash(x.disk, p)
  {
    RunTracked(w, known, moves, p);
  }

  // ----- every run: the rows follow -----

  ghost predicate AllSound(w: World, known: Known) {
    ProjectsKnown(w, known) && forall p: Path :: Sound(w, known.assets, p) && NoChmod(w, p)
  }

  lemma NextProjects(w: World, known: Known, m: Move)
    requires ProjectsKnown(w, known) && KnownProject(m, known)
    ensures ProjectsKnown(Next(w, known, m), known)
  {
  }

  lemma NextSound(w: World, known: Known, m: Move, p: Path)
    requires AllSound(w, known) && Allowed(m) && KnownProject(m, known)
    ensures Sound(Next(w, known, m), known.assets, p)
  {
    assert Sound(w, known.assets, p) && NoChmod(w, p);
    if m.path != p {
      NextElsewhere(w, known, m, p);
      NextReferences(w, known, m);
      SameStaysSound(w, Next(w, known, m), known.assets, p);
    } else if m.Deliver? {
      DeliverSound(w, known, p, m.stops);
    } else if m.Fire? {
      FireSound(w, known, p);
    } else {
      ChangeSound(w, known, m);
    }
  }

  lemma NextAllSound(w: World, known: Known, m: Move)
    requires AllSound(w, known) && Allowed(m) && KnownProject(m, known)
    ensures AllSound(Next(w, known, m), known)
  {
    NextProjects(w, known, m);
    forall p: Path ensures Sound(Next(w, known, m), known.assets, p) && NoChmod(Next(w, known, m), p) {
      assert NoChmod(w, p);
      NextSound(w, known, m, p);
      NextNoChmod(w, known, m, p);
    }
  }

  lemma {:induction false} RunAllSound(w: World, known: Known, moves: seq<Move>)
    requires AllSound(w, known) && forall i :: 0 <= i < |moves| ==> Allowed(moves[i]) && KnownProject(moves[i], known)
    ensures AllSound(Run(w, known, moves), known)
    decreases moves
  {
    if moves != [] {
      NextAllSound(w, known, moves[0]);
      RunAllSound(Next(w, known, moves[0]), known, moves[1..]);
    }
  }

  /** A vault the index agrees with, and a watcher that has just started. */
  ghost predicate Started(w: World, known: Known) {
    ReferencesHold(w.tables) && ProjectsKnown(w, known)
    && w.events == map[] && w.timers == map[] && w.reconciled == map[] && w.touched == {}
    && forall p: Path :: Settled(w.tables, w.disk, known.assets, p)
  }

  /** From an index that agrees with the vault, and with every written document in a known project,
      the rows of a path agree with the disk whenever nothing is under way for it. */
  lemma RowsCatchUp(w: World, known: Known, moves: seq<Move>, p: Path)
    requires Started(w, known) && forall i :: 0 <= i < |moves| ==> Allowed(moves[i]) && KnownProject(moves[i], known)
    ensures var x := Run(w, known, moves); Work(x, p) == [] ==> Settled(x.tables, x.disk, known.assets, p)
  {
    forall q: Path ensures Sound(w, known.assets, q) && NoChmod(w, q) {
      assert Settled(w.tables, w.disk, known.assets, q);
    }
    RunAllSound(w, known, moves);
    assert Sound(Run(w, known, moves), known.assets, p);
  }

  /** Why the rows need known projects: a file written to an idle path ends up with agreeing rows if and
      only if its project is known or its rows agreed without being touched. */
  lemma WriteSettlesIff(w: World, known: Known, p: Path, doc: Doc)
    requires Work(w, p) == [] && Reconciled(w, p) != Some(Normalize(doc))
    ensures var x := Run(w, known, [OutsideWrite(p, Good(doc), Write), Deliver(p, true), Fire(p)]);
            && Work(x, p) == [] && Reconciled(x, p) == DiskHash(x.disk, p) && x.disk == w.disk[p := Good(doc)]
            && (Settled(x.tables, x.disk, known.assets, p)
                <==> doc.project in known.projects || Settled(w.tables, w.disk[p := Good(doc)], known.assets, p))
  {
    var a := Next(w, known, OutsideWrite(p, Good(doc), Write));
    var b := Next(a, known, Deliver(p, true));
    var x := Next(b, known, Fire(p));
    ThreeMoves(w, known, OutsideWrite(p, Good(doc), Write), Deliver(p, true), Fire(p));
    assert RowsAt(w.timers, p) == [] && RowsAt(w.events, p) == [];
    assert RowsAt(a.events, p) == [Write] && RowsAt(a.timers, p) == [];
    assert RowsAt(b.events, p) == [] && RowsAt(b.timers, p) == [Write];
    assert x.tables == AfterIndexing(w.tables, x.disk, known, p) && x.disk == w.disk[p := Good(doc)];
    if doc.project in known.projects {
      IndexingSettlesPath(w.tables, x.disk, known, p);
    }
  }

  const IDLE := World(map[], Tables(map[], map[], map[], map[], map[]), map[], map[], map[], {}, [])

  /** A file of an unknown project, dropped into an empty vault: handled, and not indexed. */
  lemma UnknownProjectUnindexed(p: Path, doc: Doc)
    ensures var x := Run(IDLE, Known({}, {}), [OutsideWrite(p, Good(doc), Write), Deliver(p, true), Fire(p)]);
            Work(x, p) == [] && Readable(x.disk, p) && !Settled(x.tables, x.disk, {}, p)
  {
    WriteSettlesIff(IDLE, Known({}, {}), p, doc);
  }

  lemma RunCons(w: World, known: Known, m: Move, moves: seq<Move>)
    ensures Run(w, known, [m] + moves) == Run(Next(w, known, m), known, moves)
  {
    assert ([m] + moves)[1..] == moves;
  }

  lemma ThreeMoves(w: World, known: Known, a: Move, b: Move, c: Move)
    ensures Run(w, known, [a, b, c]) == Next(Next(Next(w, known, a), known, b), known, c)
  {
    assert [a, b, c] == [a] + [b, c] && [b, c] == [b] + [c] && [c] == [c] + [];
    RunCons(w, known, a, [b, c]);
    RunCons(Next(w, known, a), known, b, [c]);
    RunCons(Next(Next(w, known, a), known, b), known, c, []);
  }

  // ----- the app's own saves -----

  predicate RemovalUnderWay(w: World, p: Path) {
    Remove in Work(w, p) || Rename in Work(w, p)
  }

  predicate Silent(w: World, p: Path) {
    Readable(w.disk, p) && Reconciled(w, p) == DiskHash(w.disk, p) && !RemovalUnderWay(w, p)
  }

  function Emissions(w: World, p: Path): nat {
    multiset(w.emitted)[p]
  }

  /** Anything may happen to other paths; to this one only the watcher's own steps and chmods. */
  predicate Leaves(m: Move, p: Path) {
    m.path != p || m.Deliver? || m.Fire? || m.OutsideChmod?
  }

  lemma FireSilent(w: World, known: Known, p: Path)
    requires Silent(w, p)
    ensures var x := Next(w, known, Fire(p)); Readable(x.disk, p) && Reconciled(x, p) == DiskHash(x.disk, p) && x.emitted == w.emitted
  {
    if RowsAt(w.timers, p) != [] {
      FireWork(w, known, p);
      assert RowsAt(w.timers, p)[0] in Work(w, p);
    }
  }

  lemma OwnSilent(w: World, known: Known, m: Move)
    requires Silent(w, m.path) && (m.Deliver? || m.Fire? || m.OutsideChmod?)
    ensures !RemovalUnderWay(Next(w, known, m), m.path)
  {
    if Remove in Work(Next(w, known, m), m.path) {
      WorkComesFrom(w, known, m, Remove);
    }
    if Rename in Work(Next(w, known, m), m.path) {
      WorkComesFrom(w, known, m, Rename);
    }
  }

  lemma ElsewhereSilent(w: World, known: Known, m: Move, p: Path)
    requires m.path != p
    ensures Emissions(Next(w, known, m), p) == Emissions(w, p)
  {
  }

  lemma NextSilent(w: World, known: Known, m: Move, p: Path)
    requires Silent(w, p) && Leaves(m, p)
    ensures Silent(Next(w, known, m), p) && Emissions(Next(w, known, m), p) == Emissions(w, p)
  {
    if m.path != p {
      NextElsewhere(w, known, m, p);
      ElsewhereSilent(w, known, m, p);
      assert Work(Next(w, known, m), p) == Work(w, p);
    } else {
      OwnSilent(w, known, m);
      if m.Fire? {
        FireSilent(w, known, p);
      }
    }
  }

  lemma {:induction false} RunSilent(w: World, known: Known, moves: seq<Move>, p: Path)
    requires Silent(w, p) && forall i :: 0 <= i < |moves| ==> Leaves(moves[i], p)
    ensures Emissions(Run(w, known, moves), p) == Emissions(w, p)
    decreases moves
  {
    if moves != [] {
      NextSilent(w, known, moves[0], p);
      RunSilent(Next(w, known, moves[0]), known, moves[1..], p);
    }
  }

  predicate WatcherMove(m: Move, p: Path) {
    m.path == p && (m.Deliver? || m.Fire?)
  }

  /** A report is certain to come: the file is readable, its reconciled version is gone or about to be
      forgotten and a write is to be handled after; or the file is missing with a write to be handled. */
  predicate WillReport(w: World, p: Path) {
    var work := Work(w, p);
    if Readable(w.disk, p)
    then work != [] && Writes(work[|work| - 1]) && (RemovalUnderWay(w, p) || Reconciled(w, p).None?)
    else Create in work || Write in work
  }

  lemma FireMissing(w: World, known: Known, p: Path)
    requires !Readable(w.disk, p) && WillReport(w, p) && RowsAt(w.timers, p) != []
    ensures var x := Next(w, known, Fire(p)); Emissions(x, p) > Emissions(w, p) || (WillReport(x, p) && Emissions(x, p) == Emissions(w, p))
  {
    var armed, x := RowsAt(w.timers, p), Next(w, known, Fire(p));
    FireWork(w, known, p);
    if Writes(armed[0]) {
      assert x.emitted == w.emitted + [p];
    } else {
      assert x.emitted == w.emitted && x.disk == w.disk;
      assert armed[0] != Create && armed[0] != Write;
    }
  }

  lemma FirePresent(w: World, known: Known, p: Path)
    requires Readable(w.disk, p) && WillReport(w, p) && RowsAt(w.timers, p) != []
    ensures var x := Next(w, known, Fire(p)); Emissions(x, p) > Emissions(w, p) || (WillReport(x, p) && Emissions(x, p) == Emissions(w, p))
  {
    FireWork(w, known, p);
    var armed, x := RowsAt(w.timers, p), Next(w, known, Fire(p));
    var work, work' := Work(w, p), Work(x, p);
    assert work' != [] ==> work'[|work'| - 1] == work[|work| - 1];
    assert !Removes(armed[0]) && RemovalUnderWay(w, p) ==> RemovalUnderWay(x, p);
  }

  lemma FireReports(w: World, known: Known, p: Path)
    requires WillReport(w, p) && RowsAt(w.timers, p) != []
    ensures var x := Next(w, known, Fire(p)); Emissions(x, p) > Emissions(w, p) || (WillReport(x, p) && Emissions(x, p) == Emissions(w, p))
  {
    if Readable(w.disk, p) {
      FirePresent(w, known, p);
    } else {
      FireMissing(w, known, p);
    }
  }

  lemma DeliverReports(w: World, known: Known, p: Path)
    requires WillReport(w, p) && RowsAt(w.timers, p) == []
    ensures var x := Next(w, known, Deliver(p, true));
            WillReport(x, p) && Emissions(x, p) == Emissions(w, p)
            && RowsAt(x.timers, p) == [RowsAt(w.events, p)[0]] && RowsAt(x.events, p) == RowsAt(w.events, p)[1..]
  {
    var x := Next(w, known, Deliver(p, true));
    assert Work(x, p) == Work(w, p);
  }

  lemma FireShrinks(w: World, known: Known, p: Path)
    requires RowsAt(w.timers, p) != []
    ensures var x := Next(w, known, Fire(p)); RowsAt(x.events, p) == RowsAt(w.events, p) && RowsAt(x.timers, p) == RowsAt(w.timers, p)[1..]
  {
  }

  /** Handling the events in order ends in a report. */
  lemma {:induction false} ReportComes(w: World, known: Known, p: Path) returns (moves: seq<Move>)
    requires WillReport(w, p)
    ensures forall i :: 0 <= i < |moves| ==> WatcherMove(moves[i], p)
    ensures Emissions(Run(w, known, moves), p) > Emissions(w, p)
    decreases 2 * |RowsAt(w.events, p)| + |RowsAt(w.timers, p)|
  {
    var m := if RowsAt(w.timers, p) != [] then Fire(p) else Deliver(p, true);
    var x := Next(w, known, m);
    var rest: seq<Move> := [];
    if RowsAt(w.timers, p) != [] {
      FireReports(w, known, p);
      FireShrinks(w, known, p);
      if Emissions(x, p) == Emissions(w, p) {
        rest := ReportComes(x, known, p);
      }
    } else {
      DeliverReports(w, known, p);
      rest := ReportComes(x, known, p);
    }
    moves := [m] + rest;
    assert moves[1..] == rest;
  }

  lemma SaveWillReport(w: World, known: Known, p: Path, doc: Doc)
    requires RemovalUnderWay(w, p) || SaveFails(w, known, p, doc)
    ensures WillReport(Next(w, known, Save(p, doc)), p)
  {
    var x := Next(w, known, Save(p, doc));
    SaveLeaves(w, known, p, doc);
    if SaveFails(w, known, p, doc) {
      assert Work(x, p)[|Work(w, p)|] == Create;
    } else {
      assert Remove in Work(w, p) ==> Remove in Work(x, p);
      assert Rename in Work(w, p) ==> Rename in Work(x, p);
    }
  }

  lemma SaveStaysSilent(w: World, known: Known, p: Path, doc: Doc)
    requires !RemovalUnderWay(w, p) && !SaveFails(w, known, p, doc)
    ensures Silent(Next(w, known, Save(p, doc)), p)
  {
    SaveLeaves(w, known, p, doc);
  }

  /** After a save, no external-change event is ever emitted for that path, whatever happens elsewhere
      and however the watcher is scheduled, if and only if no removal of it was under way when it was
      saved and the saved document can be indexed. */
  lemma SaveIsSilentIff(w: World, known: Known, p: Path, doc: Doc)
    ensures (forall moves: seq<Move> | forall i :: 0 <= i < |moves| ==> Leaves(moves[i], p) ::
               Emissions(Run(Next(w, known, Save(p, doc)), known, moves), p) == Emissions(w, p))
       <==> !RemovalUnderWay(w, p) && !SaveFails(w, known, p, doc)
  {
    var x := Next(w, known, Save(p, doc));
    if RemovalUnderWay(w, p) || SaveFails(w, known, p, doc) {
      SaveWillReport(w, known, p, doc);
      var moves := ReportComes(x, known, p);
    } else {
      SaveStaysSilent(w, known, p, doc);
      forall moves: seq<Move> | forall i :: 0 <= i < |moves| ==> Leaves(moves[i], p)
        ensures Emissions(Run(x, known, moves), p) == Emissions(w, p)
      {
        RunSilent(x, known, moves, p);
      }
    }
  }

  /** A removal can be under way at a save although a missing file cannot be saved: the file was removed
      and written again from outside before the watcher got to it. */
  lemma OvertakenRemoval(known: Known, p: Path, doc: Doc) returns (w: World, moves: seq<Move>)
    requires doc.project in known.projects
    ensures Started(w, known) && forall i :: 0 <= i < |moves| ==> Allowed(moves[i]) && KnownProject(moves[i], known)
    ensures var x := Run(w, known, moves); Readable(x.disk, p) && RemovalUnderWay(x, p) && !SaveFails(x, known, p, doc)
  {
    w := IDLE;
    var put, remove := OutsideWrite(p, Good(doc), Create), OutsideRemove(p, Remove);
    moves := [put, remove, put];
    var a := Next(w, known, put);
    var b := Next(a, known, remove);
    var c := Next(b, known, put);
    ThreeMoves(w, known, put, remove, put);
    EnqueueLast(w, p, Create);
    EnqueueLast(a, p, Remove);
    EnqueueLast(b, p, Create);
    assert Work(c, p) == Work(b, p) + [Create];
    assert Work(b, p)[|Work(a, p)|] == Remove;
  }

  /** Why chmod events are left out of the promise: one that arrives while a write is waiting loses that
      write if and only if the waiting timer could still be stopped. */
  lemma ChmodDropsWriteIff(w: World, known: Known, p: Path, op: Op, stops: bool)
    requires Readable(w.disk, p) && Reconciled(w, p) != DiskHash(w.disk, p)
    requires Writes(op) && RowsAt(w.timers, p) == [op] && RowsAt(w.events, p) == []
    ensures var x := Run(w, known, [OutsideChmod(p), Deliver(p, stops), Fire(p), Fire(p)]);
            && x.disk == w.disk && Work(x, p) == []
            && (Reconciled(x, p) != DiskHash(x.disk, p) <==> stops)
  {
    var a := Next(w, known, OutsideChmod(p));
    var b := Next(a, known, Deliver(p, stops));
    var c := Next(b, known, Fire(p));
    var x := Next(c, known, Fire(p));
    FourMoves(w, known, OutsideChmod(p), Deliver(p, stops), Fire(p), Fire(p));
    assert RowsAt(a.events, p) == [Chmod] && RowsAt(a.timers, p) == [op];
    assert RowsAt(b.events, p) == [] && RowsAt(b.timers, p) == if stops then [Chmod] else [op, Chmod];
    assert RowsAt(c.timers, p) == if stops then [] else [Chmod];
  }

  /** A file just written and then chmodded before its timer fires: the write is lost. */
  lemma ChmodDropsWrite(p: Path, doc: Doc)
    ensures var w := IDLE.(disk := map[p := Good(doc)], timers := map[p := [Write]], touched := {p});
            var x := Run(w, Known({}, {}), [OutsideChmod(p), Deliver(p, true), Fire(p), Fire(p)]);
            Work(x, p) == [] && Reconciled(x, p) != DiskHash(x.disk, p)
  {
    ChmodDropsWriteIff(IDLE.(disk := map[p := Good(doc)], timers := map[p := [Write]], touched := {p}), Known({}, {}), p, Write, true);
  }

  lemma FourMoves(w: World, known: Known, a: Move, b: Move, c: Move, d: Move)
    ensures Run(w, known, [a, b, c, d]) == Next(Next(Next(Next(w, known, a), known, b), known, c), known, d)
  {
    assert [a, b, c, d] == [a] + [b, c, d];
    RunCons(w, known, a, [b, c, d]);
    ThreeMoves(Next(w, known, a), known, b, c, d);
  }
}
