/** No change is dropped: the content a note is consumed for is at least as new as the note. This holds
    whatever the app, the other devices and the editor do; the user's own git tool can break it in one
    way, and exactly when is shown here. */
module SyncCover {
  import opened Text
  import opened SyncProtocol
  import opened SyncSafety
  import opened SyncRuns

  // ----- new enough -----

  /** The vault had this content at that version or later. */
  predicate Covered(vault: seq<Content>, at: nat, content: Content) {
    exists v :: at <= v < |vault| && vault[v] == content
  }

  predicate AllCovered(notes: seq<Note>, vault: seq<Content>, content: Content) {
    forall k :: 0 <= k < |notes| ==> Covered(vault, notes[k].at, content)
  }

  predicate InStage(pc: Pc) {
    pc.Staged? || pc.Committing?
  }

  /** What is staged, or was committed, covers the notes the cycle will consume. */
  predicate OpCovered(op: Op, c: Core) {
    (InStage(op.pc) ==> AllCovered(op.snap, c.vault, c.staged)) && (op.pc.Clear? ==> AllCovered(op.snap, c.vault, op.tree))
  }

  predicate EntriesCovered(c: Core) {
    forall k :: 0 <= k < |c.consumed| ==> Covered(c.vault, c.consumed[k].note.at, c.consumed[k].tree)
  }

  ghost predicate CoverInv(d: Device) {
    EntriesCovered(d.core) && forall t :: t in d.ops ==> OpCovered(d.ops[t], d.core)
  }

  lemma CoveredLater(vault: seq<Content>, later: seq<Content>, at: nat, content: Content)
    requires vault <= later && Covered(vault, at, content)
    ensures Covered(later, at, content)
  {
    var v :| at <= v < |vault| && vault[v] == content;
    assert later[v] == content;
  }

  lemma AllCoveredLater(notes: seq<Note>, vault: seq<Content>, later: seq<Content>, content: Content)
    requires vault <= later && AllCovered(notes, vault, content)
    ensures AllCovered(notes, later, content)
  {
    forall k | 0 <= k < |notes| ensures Covered(later, notes[k].at, content) {
      CoveredLater(vault, later, notes[k].at, content);
    }
  }

  lemma EntriesLater(c: Core, d: Core)
    requires EntriesCovered(c) && c.vault <= d.vault && d.consumed == c.consumed
    ensures EntriesCovered(d)
  {
    forall k | 0 <= k < |d.consumed| ensures Covered(d.vault, d.consumed[k].note.at, d.consumed[k].tree) {
      CoveredLater(c.vault, d.vault, c.consumed[k].note.at, c.consumed[k].tree);
    }
  }

  lemma OpLater(op: Op, c: Core, d: Core)
    requires OpCovered(op, c) && c.vault <= d.vault && (InStage(op.pc) ==> d.staged == c.staged)
    ensures OpCovered(op, d)
  {
    if InStage(op.pc) {
      AllCoveredLater(op.snap, c.vault, d.vault, c.staged);
    } else if op.pc.Clear? {
      AllCoveredLater(op.snap, c.vault, d.vault, op.tree);
    }
  }

  // ----- one step of an operation -----

  /** What is on disk covers every queued note. */
  lemma DiskCovers(c: Core, notes: seq<Note>)
    requires c.vault != [] && notes <= c.reasons && forall k :: 0 <= k < |c.reasons| ==> c.reasons[k].at < |c.vault|
    ensures AllCovered(notes, c.vault, Disk(c))
  {
    forall k | 0 <= k < |notes| ensures Covered(c.vault, notes[k].at, Disk(c)) {
      assert notes[k] == c.reasons[k];
      assert c.vault[|c.vault| - 1] == Disk(c);
    }
  }

  lemma EarlyCovered(c: Core, op: Op, remote: seq<Change>, out: Outcome)
    requires c.vault != [] && QueueInv(c) && OpInv(op, c) && (op.pc.Guarded? || op.pc.Staged?) && OpCovered(op, c)
    ensures var e := StepOp(c, op, remote, out); OpCovered(e.op, e.core)
  {
    DiskCovers(c, op.snap);
  }

  lemma CommitCovered(c: Core, op: Op, remote: seq<Change>, out: Outcome)
    requires op.pc.Committing? && OpCovered(op, c)
    ensures var e := StepCommit(c, op, remote, out); OpCovered(e.op, e.core)
  {
  }

  predicate ReachesStage(pc: Pc) {
    pc.Guarded? || InStage(pc)
  }

  lemma OthersUncovered(c: Core, op: Op, remote: seq<Change>, out: Outcome)
    requires !ReachesStage(op.pc) && Active(op)
    ensures var pc := StepOp(c, op, remote, out).op.pc; !InStage(pc) && !pc.Clear?
  {
    if !IsEarly(op.pc) {
      LateStays(c, op, remote, out);
    }
  }

  lemma StepOpCovered(c: Core, op: Op, remote: seq<Change>, out: Outcome)
    requires c.vault != [] && QueueInv(c) && OpInv(op, c) && Active(op) && OpCovered(op, c)
    ensures var e := StepOp(c, op, remote, out); OpCovered(e.op, e.core)
  {
    if op.pc.Committing? {
      CommitCovered(c, op, remote, out);
    } else if ReachesStage(op.pc) {
      EarlyCovered(c, op, remote, out);
    } else {
      OthersUncovered(c, op, remote, out);
    }
  }

  lemma ClearCovers(c: Core, op: Op)
    requires EntriesCovered(c) && OpInv(op, c) && OpCovered(op, c) && op.pc.Clear?
    ensures EntriesCovered(ClearPending(c, op))
  {
    var d := ClearPending(c, op);
    forall k | 0 <= k < |d.consumed| ensures Covered(d.vault, d.consumed[k].note.at, d.consumed[k].tree) {
      if k >= |c.consumed| {
        assert d.consumed[k].note == op.snap[k - |c.consumed|] && d.consumed[k].tree == op.tree;
      }
    }
  }

  lemma GitGrowsVault(c: Core, op: Op, remote: seq<Change>, out: Outcome)
    requires op.pc.Committing? || op.pc.Push1? || op.pc.Push2? || op.pc.Rebasing?
    ensures Lasting(c, StepOp(c, op, remote, out).core)
  {
    CommitLasts(c, op, remote, out);
    PushLasts(c, op, remote, out);
    RebaseLasts(c, op, remote, out);
  }

  lemma ManualGrowsVault(c: Core, op: Op, remote: seq<Change>, out: Outcome)
    requires op.pc.ManualRebase? || op.pc.ManualPush?
    ensures Lasting(c, StepOp(c, op, remote, out).core)
  {
    RebaseLasts(c, op, remote, out);
  }

  lemma StepGrowsVault(c: Core, op: Op, remote: seq<Change>, out: Outcome)
    requires !op.pc.Clear?
    ensures Lasting(c, StepOp(c, op, remote, out).core)
  {
    if IsQuiet(op.pc) {
      QuietStep(c, op, remote, out);
    } else if op.pc.ManualRebase? || op.pc.ManualPush? {
      ManualGrowsVault(c, op, remote, out);
    } else {
      GitGrowsVault(c, op, remote, out);
    }
  }

  predicate Lasting(c: Core, d: Core) {
    c.vault <= d.vault && d.consumed == c.consumed
  }

  lemma CommitLasts(c: Core, op: Op, remote: seq<Change>, out: Outcome)
    ensures Lasting(c, StepCommit(c, op, remote, out).core)
  {
  }

  lemma PushLasts(c: Core, op: Op, remote: seq<Change>, out: Outcome)
    ensures Lasting(c, StepPush(c, op, remote, out).core)
  {
  }

  lemma RebaseLasts(c: Core, op: Op, remote: seq<Change>, out: Outcome)
    ensures Lasting(c, StepRebase(c, op, remote, out).core) && Lasting(c, StepManual(c, op, remote, out).core)
  {
  }

  lemma StepEntries(c: Core, op: Op, remote: seq<Change>, out: Outcome)
    requires EntriesCovered(c) && OpInv(op, c) && OpCovered(op, c)
    ensures EntriesCovered(StepOp(c, op, remote, out).core)
  {
    if op.pc.Clear? {
      ClearCovers(c, op);
    } else {
      StepGrowsVault(c, op, remote, out);
      EntriesLater(c, StepOp(c, op, remote, out).core);
    }
  }

  // ----- one action of a device -----

  lemma ThreadCovers(d: Device, t: Thread, remote: seq<Change>, out: Outcome)
    requires DeviceInv(d, remote) && CoverInv(d) && t in d.ops
    ensures CoverInv(StepThread(d, t, remote, out).0)
  {
    var op, n := d.ops[t], StepThread(d, t, remote, out).0;
    if Active(op) && !op.pc.Finishing? {
      StepOpCovered(d.core, op, remote, out);
      StepEntries(d.core, op, remote, out);
      forall u | u in n.ops ensures OpCovered(n.ops[u], n.core) {
        assert u != t ==> !Active(d.ops[u]);
      }
    }
  }

  /** The state after a merge or rebase is finished by hand, if there was one. */
  predicate Resolves(d: Device, a: Action) {
    a.UserResolves? && d.core.unfinished && Ids(d.core.local) <= Ids(a.local)
  }

  /** A merge finished by hand leaves, for an operation between staging and commit, a tree that is still
      new enough for its notes. What the merge leaves on disk counts: finishing it cleanly is safe. */
  predicate Harmless(d: Device, a: Action) {
    Resolves(d, a) ==>
      var tree := if a.local == [] then EMPTY else a.head;
      forall t :: t in d.ops && InStage(d.ops[t].pc) ==> AllCovered(d.ops[t].snap, d.core.vault + [a.disk], tree)
  }

  lemma ResolveCovers(d: Device, a: Action, remote: seq<Change>)
    requires CoverInv(d) && Harmless(d, a) && Resolves(d, a)
    ensures CoverInv(Act(d, a, remote).0)
  {
    var n := Act(d, a, remote).0;
    EntriesLater(d.core, n.core);
    forall t | t in n.ops ensures OpCovered(n.ops[t], n.core) {
      if !InStage(d.ops[t].pc) {
        OpLater(d.ops[t], d.core, n.core);
      }
    }
  }

  lemma EditCovers(d: Device, c: Core)
    requires CoverInv(d) && d.core.vault <= c.vault && c.consumed == d.core.consumed && c.staged == d.core.staged
    ensures CoverInv(d.(core := c))
  {
    EntriesLater(d.core, c);
    forall t | t in d.ops ensures OpCovered(d.ops[t], c) {
      OpLater(d.ops[t], d.core, c);
    }
  }

  lemma ActCovers(d: Device, a: Action, remote: seq<Change>)
    requires DeviceInv(d, remote) && CoverInv(d) && Harmless(d, a)
    ensures CoverInv(Act(d, a, remote).0)
  {
    if a.Step? {
      if a.t in d.ops {
        ThreadCovers(d, a.t, remote, a.out);
      }
    } else if Resolves(d, a) {
      ResolveCovers(d, a, remote);
    } else if !a.Invoke? {
      EditCovers(d, Act(d, a, remote).0.core);
    }
  }

  // ----- runs -----

  ghost predicate WorldCovered(w: World) {
    forall i :: i in w.devices ==> CoverInv(w.devices[i])
  }

  /** No merge is finished by hand to the harm of an operation between staging and commit. */
  predicate HarmlessRun(w: World, es: seq<Event>)
    decreases es
  {
    es == [] ||
    ((es[0].who in w.devices ==> Harmless(w.devices[es[0].who], es[0].what)) && HarmlessRun(Next(w, es[0]), es[1..]))
  }

  lemma {:induction false} RunCovers(w: World, es: seq<Event>)
    requires WorldInv(w) && WorldCovered(w) && HarmlessRun(w, es)
    ensures WorldCovered(Run(w, es))
    decreases es
  {
    if es != [] {
      if es[0].who in w.devices {
        ActCovers(w.devices[es[0].who], es[0].what, w.remote);
      }
      NextKeeps(w, es[0]);
      RunCovers(Next(w, es[0]), es[1..]);
    }
  }

  /** The note is justified: its commit is in the local history and held vault content at least as new as
      when the note was taken. */
  predicate Justified(c: Core, e: Entry) {
    Backed(c, e) && exists v :: e.note.at <= v < |c.vault| && Holds(c, e.commit, c.vault[v])
  }

  lemma CoveredJustified(c: Core, e: Entry)
    requires Backed(c, e) && Covered(c.vault, e.note.at, e.tree)
    ensures Justified(c, e)
  {
    var v :| e.note.at <= v < |c.vault| && c.vault[v] == e.tree;
    assert Holds(c, e.commit, c.vault[v]);
  }

  lemma AllJustified(d: Device, remote: seq<Change>, k: nat)
    requires DeviceInv(d, remote) && CoverInv(d) && k < |d.core.consumed|
    ensures Justified(d.core, d.core.consumed[k])
  {
    assert Backed(d.core, d.core.consumed[k]);
    CoveredJustified(d.core, d.core.consumed[k]);
  }

  /** Over every run, the notes accepted are the notes consumed followed by those still queued, in order;
      and every consumed note is justified, unless a merge was finished by hand to the harm of an
      operation between staging and commit. */
  lemma NoChangeDropped(w: World, es: seq<Event>, i: DeviceId)
    requires Initial(w) && HarmlessRun(w, es) && i in Run(w, es).devices
    ensures var c := Run(w, es).devices[i].core;
            && c.accepted == NotesOf(c.consumed) + c.reasons
            && (c.hasPending <==> c.reasons != [])
            && forall k :: 0 <= k < |c.consumed| ==> Justified(c, c.consumed[k])
  {
    InitialInv(w);
    Reachable(w, es);
    RunCovers(w, es);
    var d := Run(w, es).devices[i];
    forall k | 0 <= k < |d.core.consumed| ensures Justified(d.core, d.core.consumed[k]) {
      AllJustified(d, Run(w, es).remote, k);
    }
  }

  // ----- exactly when a merge finished by hand does harm -----

  /** Some consumed note is not justified. */
  ghost predicate DropsNote(d: Device) {
    exists k :: 0 <= k < |d.core.consumed| && !Justified(d.core, d.core.consumed[k])
  }

  lemma {:induction false} OwnActionsCover(d: Device, acts: seq<Action>, remote: seq<Change>)
    requires DeviceInv(d, remote) && CoverInv(d) && OwnActions(acts)
    ensures !DropsNote(After(d, acts, remote).0)
    decreases acts
  {
    if acts == [] {
      forall k | 0 <= k < |d.core.consumed| ensures Justified(d.core, d.core.consumed[k]) {
        AllJustified(d, remote, k);
      }
    } else {
      ActKeeps(d, acts[0], remote);
      ActCovers(d, acts[0], remote);
      var (n, next) := Act(d, acts[0], remote);
      OwnActionsCover(n, acts[1..], next);
    }
  }

  lemma {:induction false} Unused(s: set<Change>) returns (id: Change)
    ensures forall x :: x in s ==> x < id
    decreases s
  {
    if s == {} {
      id := 0;
    } else {
      var x :| x in s;
      var bound := Unused(s - {x});
      id := if bound > x then bound else x + 1;
      assert forall y :: y in s ==> y == x || y in s - {x};
    }
  }

  /** The state in which a cycle is about to commit, with a tree too old for one of its notes. */
  ghost predicate AboutToDrop(d: Device, t: Thread, k: nat) {
    && t in d.ops && InStage(d.ops[t].pc) && IsAuto(d.ops[t]) && d.ops[t].snap <= d.core.reasons
    && k < |d.ops[t].snap| && !Covered(d.core.vault, d.ops[t].snap[k].at, d.core.staged)
  }

  lemma CommitThenClear(d: Device, t: Thread, k: nat, id: Change, remote: seq<Change>)
    requires AboutToDrop(d, t, k) && d.ops[t].pc.Committing? && id !in d.core.held
    ensures DropsNote(After(d, [Step(t, CommitOk(id)), Step(t, StatusClean)], remote).0)
  {
    var op := d.ops[t];
    var a, b := Step(t, CommitOk(id)), Step(t, StatusClean);
    var c := CommitStaged(d.core, id);
    var cleared := Recorded(op, c, ToCommitted);
    var n := d.(core := c, ops := d.ops[t := cleared]);
    assert Act(d, a, remote) == (n, remote);
    AfterCons(d, a, [b], remote);
    AfterCons(n, b, [], remote);
    assert [a, b] == [a] + [b] && [b] == [b] + [];
    var m := Act(n, b, remote).0;
    assert m.core == ClearPending(c, cleared);
    assert c.held[id] == {d.core.staged};
    ClearedUnjustified(c, cleared, k, id);
    assert !Justified(m.core, m.core.consumed[|c.consumed| + k]);
  }

  lemma ClearedUnjustified(c: Core, op: Op, k: nat, id: Change)
    requires op.snap <= c.reasons && k < |op.snap| && op.commit == Some(id) && id in c.held
    requires forall content :: content in c.held[id] ==> !Covered(c.vault, op.snap[k].at, content)
    ensures var d := ClearPending(c, op);
            |c.consumed| + k < |d.consumed| && !Justified(d, d.consumed[|c.consumed| + k])
  {
    var d := ClearPending(c, op);
    var e := d.consumed[|c.consumed| + k];
    assert e.note == op.snap[k] && e.commit == Some(id);
    forall v | e.note.at <= v < |d.vault| ensures !Holds(d, e.commit, d.vault[v]) {
      assert Covered(c.vault, op.snap[k].at, d.vault[v]);
    }
  }

  lemma StatusThenCommit(d: Device, t: Thread, k: nat, id: Change, remote: seq<Change>)
    requires AboutToDrop(d, t, k) && d.ops[t].pc.Staged? && id !in d.core.held
    ensures DropsNote(After(d, [Step(t, StatusDirty), Step(t, CommitOk(id)), Step(t, StatusClean)], remote).0)
  {
    var a, rest := Step(t, StatusDirty), [Step(t, CommitOk(id)), Step(t, StatusClean)];
    var n := d.(ops := d.ops[t := d.ops[t].(pc := Committing)]);
    assert Act(d, a, remote) == (n, remote);
    assert [a, Step(t, CommitOk(id)), Step(t, StatusClean)] == [a] + rest;
    AfterCons(d, a, rest, remote);
    CommitThenClear(n, t, k, id, remote);
  }

  lemma DropFollows(d: Device, t: Thread, k: nat, remote: seq<Change>) returns (acts: seq<Action>)
    requires AboutToDrop(d, t, k)
    ensures OwnActions(acts) && DropsNote(After(d, acts, remote).0)
  {
    var id := Unused(d.core.held.Keys);
    assert id !in d.core.held;
    if d.ops[t].pc.Committing? {
      acts := [Step(t, CommitOk(id)), Step(t, StatusClean)];
      CommitThenClear(d, t, k, id, remote);
    } else {
      acts := [Step(t, StatusDirty), Step(t, CommitOk(id)), Step(t, StatusClean)];
      StatusThenCommit(d, t, k, id, remote);
    }
  }

  /** When the user's git tool finishes a merge, some way the app may go on from there consumes a note
      that is not justified if and only if the merge leaves an operation between staging and commit with
      a tree too old for one of its notes. */
  lemma ResolveDropsIff(d: Device, a: Action, remote: seq<Change>)
    requires DeviceInv(d, remote) && CoverInv(d) && Resolves(d, a)
    ensures (exists acts: seq<Action> :: OwnActions(acts) && DropsNote(After(Act(d, a, remote).0, acts, remote).0))
       <==> !Harmless(d, a)
  {
    var n := Act(d, a, remote).0;
    if Harmless(d, a) {
      ActKeeps(d, a, remote);
      ActCovers(d, a, remote);
      forall acts: seq<Action> | OwnActions(acts) ensures !DropsNote(After(n, acts, remote).0) {
        OwnActionsCover(n, acts, remote);
      }
    } else {
      var t :| t in d.ops && InStage(d.ops[t].pc)
        && !AllCovered(d.ops[t].snap, d.core.vault + [a.disk], if a.local == [] then EMPTY else a.head);
      var k :| 0 <= k < |d.ops[t].snap|
        && !Covered(d.core.vault + [a.disk], d.ops[t].snap[k].at, if a.local == [] then EMPTY else a.head);
      assert OpInv(d.ops[t], d.core);
      assert AboutToDrop(n, t, k);
      var acts := DropFollows(n, t, k, remote);
    }
  }

  /** From a fresh start: a note, a cycle that has staged its content, a merge begun and finished by hand
      with other content committed and other content on disk; the note is then consumed for nothing. */
  lemma DroppedNote() returns (w: World, es: seq<Event>, acts: seq<Action>)
    ensures Initial(w) && 0 in Run(w, es).devices && OwnActions(acts)
    ensures DropsNote(After(Run(w, es).devices[0], acts, Run(w, es).remote).0)
  {
    var es0;
    w, es0 := MergeInWindow();
    var d := Middle().0[4];
    var a := UserResolves([3], 7, 8);
    es := es0 + [Event(0, a)];
    RunAppend(w, es0, [Event(0, a)]);
    var n := Act(d, a, []).0;
    assert [Event(0, a)][1..] == [];
    assert Next(OneDevice(d), Event(0, a)) == OneDevice(n);
    assert n.core.vault == [5, 6, 8] && n.core.staged == 7;
    assert AboutToDrop(n, 0, 0);
    acts := DropFollows(n, 0, 0, []);
  }
}
