/** The file watcher (internal/indexer/watcher.go): filesystem events arm a debounce timer per path;
    a timer body compares the file with the last version reconciled and reindexes. */
module Watcher {
  import opened Text
  import opened Documents
  import opened Index
  import opened DocumentService

  datatype Op = Create | Write | Remove | Rename | Chmod

  predicate Writes(op: Op) {
    op == Create || op == Write
  }

  predicate Removes(op: Op) {
    op == Remove || op == Rename
  }

  /** `events` are waiting to be delivered and `timers` are armed, both oldest first per path; nothing
      orders different paths. `touched` are the paths changed since the start, `emitted` the
      external-change events sent. */
  datatype World = World(
    disk: Files, tables: Tables, events: map<Path, seq<Op>>, timers: map<Path, seq<Op>>,
    reconciled: map<Path, Doc>, touched: set<Path>, emitted: seq<Path>)

  function Work(w: World, p: Path): seq<Op> {
    RowsAt(w.timers, p) + RowsAt(w.events, p)
  }

  /** A hash stands for the normalised content; an unreadable file has none. */
  function DiskHash(disk: Files, p: Path): Option<Doc> {
    if Readable(disk, p) then Some(Read(disk, p)) else None
  }

  function Reconciled(w: World, p: Path): Option<Doc> {
    if p in w.reconciled then Some(w.reconciled[p]) else None
  }

  // ----- the timer body -----

  function Execute(w: World, known: Known, p: Path, op: Op): World {
    if Writes(op) then
      var hash := DiskHash(w.disk, p);
      if hash.Some? && Reconciled(w, p) == hash then w
      else w.(tables := AfterIndexing(w.tables, w.disk, known, p),
              reconciled := if hash.Some? then w.reconciled[p := hash.value] else w.reconciled,
              emitted := w.emitted + [p])
    else if Removes(op) then
      w.(reconciled := w.reconciled - {p}, tables := RemovedCompletely(w.tables, p))
    else w
  }

  // ----- the steps -----

  datatype Move =
    | OutsideWrite(path: Path, file: File, op: Op)
    | OutsideRemove(path: Path, op: Op)
    | OutsideChmod(path: Path)
    | Save(path: Path, doc: Doc)
    | Deliver(path: Path, stops: bool)
    | Fire(path: Path)

  /** The operations an event of each kind may carry. */
  predicate WellFormed(m: Move) {
    (m.OutsideWrite? ==> Writes(m.op)) && (m.OutsideRemove? ==> Removes(m.op))
  }

  function Enqueue(w: World, p: Path, op: Op): World {
    w.(events := w.events[p := RowsAt(w.events, p) + [op]], touched := w.touched + {p})
  }

  function DropLast(s: seq<Op>): seq<Op> {
    if s == [] then s else s[..|s| - 1]
  }

  /** An event arms a timer. The one armed before it is stopped, unless it has already fired and its
      body is still to run. */
  function Schedule(timers: map<Path, seq<Op>>, p: Path, op: Op, stops: bool): map<Path, seq<Op>> {
    timers[p := (if stops then DropLast(RowsAt(timers, p)) else RowsAt(timers, p)) + [op]]
  }

  /** A save writes, notes the content it wrote, and indexes; when indexing fails the file goes again. */
  function AfterAppWrite(w: World, known: Known, p: Path, doc: Doc): World {
    var v := WriteAndIndex(Vault(w.disk, w.tables), known, p, Normalize(doc));
    var noted := Enqueue(w, p, Create).(disk := v.files, tables := v.tables, reconciled := w.reconciled[p := Normalize(doc)]);
    if p in v.files then noted else Enqueue(noted, p, Remove)
  }

  function Next(w: World, known: Known, m: Move): World {
    match m
    case OutsideWrite(p, file, op) => Enqueue(w, p, op).(disk := w.disk[p := file])
    case OutsideRemove(p, op) => Enqueue(w, p, op).(disk := w.disk - {p})
    case OutsideChmod(p) => Enqueue(w, p, Chmod)
    case Save(p, doc) => AfterAppWrite(w, known, p, doc)
    case Deliver(p, stops) =>
      var queue := RowsAt(w.events, p);
      if queue == [] then w
      else w.(events := w.events[p := queue[1..]], timers := Schedule(w.timers, p, queue[0], stops))
    case Fire(p) =>
      var armed := RowsAt(w.timers, p);
      if armed == [] then w else Execute(w.(timers := w.timers[p := armed[1..]]), known, p, armed[0])
  }

  function Run(w: World, known: Known, moves: seq<Move>): World
    decreases moves
  {
    if moves == [] then w else Run(Next(w, known, moves[0]), known, moves[1..])
  }

  // ----- the watcher as an object -----

  class FileWatcher {
    var timers: map<Path, seq<Op>>
    var reconciled: map<Path, Doc>
    var emitted: seq<Path>
    const indexer: Indexer

    constructor (indexer: Indexer)
      ensures this.indexer == indexer && timers == map[] && reconciled == map[] && emitted == []
    {
      this.indexer := indexer;
      timers, reconciled, emitted := map[], map[], [];
    }

    /** The watcher's part of the world, over the given disk and undelivered events. */
    function View(disk: Files, events: map<Path, seq<Op>>, touched: set<Path>): World
      reads this, indexer
    {
      World(disk, indexer.View(), events, timers, reconciled, touched, emitted)
    }

    method ScheduleIndexing(p: Path, op: Op, stops: bool)
      modifies this`timers
      ensures RowsAt(timers, p) != [] && RowsAt(timers, p)[|RowsAt(timers, p)| - 1] == op
      ensures stops && |RowsAt(old(timers), p)| <= 1 ==> RowsAt(timers, p) == [op]
      ensures forall q: Path :: q != p ==> RowsAt(timers, q) == RowsAt(old(timers), q)
      ensures timers == Schedule(old(timers), p, op, stops)
    {
      var armed := RowsAt(timers, p);
      if stops && armed != [] {
        armed := armed[..|armed| - 1];
      }
      timers := timers[p := armed + [op]];
    }

    /** Without a hash (`None`) nothing is noted. A noted version is the one the next timer body skips,
        and no other path is affected. */
    method NoteAppWrite(p: Path, hash: Option<Doc>)
      modifies this`reconciled
      ensures hash == None ==> reconciled == old(reconciled)
      ensures hash.Some? ==> reconciled == old(reconciled)[p := hash.value]
      ensures forall disk: Files, events: map<Path, seq<Op>>, touched: set<Path>, known: Known, op: Op ::
                hash.Some? && DiskHash(disk, p) == hash && Writes(op) ==>
                  Execute(View(disk, events, touched), known, p, op) == View(disk, events, touched)
    {
      if hash.Some? {
        reconciled := reconciled[p := hash.value];
      }
    }

    method ExecuteIndexing(p: Path, op: Op, disk: Files, known: Known, ghost events: map<Path, seq<Op>>, ghost touched: set<Path>)
      modifies this`reconciled, this`emitted, indexer
      ensures View(disk, events, touched) == Execute(old(View(disk, events, touched)), known, p, op)
    {
      if Writes(op) {
        var hash := DiskHash(disk, p);
        if hash.Some? && p in reconciled && reconciled[p] == hash.value {
          return;
        }
        var outcome := indexer.IndexDocument(p, disk, known);
        if hash.Some? {
          reconciled := reconciled[p := hash.value];
        }
        emitted := emitted + [p];
      } else if Removes(op) {
        reconciled := reconciled - {p};
        indexer.RemoveDocumentCompletely(p);
      }
    }
  }
}
