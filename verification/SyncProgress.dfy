/** What the git operations achieve when git answers well (internal/git/sync_manager.go,
    internal/system/service.go): a cycle commits what is on disk and publishes it, a remembered failed
    push is made up for, and every report says what happened. */
module SyncProgress {
  import opened Text
  import opened SyncProtocol
  import opened SyncSafety
  import opened SyncRuns

  // ----- between the steps of an operation -----

  predicate Spares(e: Event, i: DeviceId, t: Thread) {
    !(e.who == i && e.what.Step? && e.what.t == t)
  }

  predicate AllSpare(es: seq<Event>, i: DeviceId, t: Thread) {
    forall k :: 0 <= k < |es| ==> Spares(es[k], i, t)
  }

  /** The operation of a thread is where it was, whatever else happens on any device. */
  lemma {:induction false} OperationWaits(w: World, es: seq<Event>, i: DeviceId, t: Thread)
    requires i in w.devices && t in w.devices[i].ops && AllSpare(es, i, t)
    ensures var x := Run(w, es); i in x.devices && t in x.devices[i].ops && x.devices[i].ops[t] == w.devices[i].ops[t]
    decreases es
  {
    if es != [] {
      SparedNext(w, es[0], i, t);
      OperationWaits(Next(w, es[0]), es[1..], i, t);
    }
  }

  lemma SparedNext(w: World, e: Event, i: DeviceId, t: Thread)
    requires i in w.devices && t in w.devices[i].ops && Spares(e, i, t)
    ensures var x := Next(w, e); i in x.devices && t in x.devices[i].ops && x.devices[i].ops[t] == w.devices[i].ops[t]
  {
  }

  function Stepped(w: World, i: DeviceId, t: Thread, out: Outcome): World {
    Next(w, Event(i, Step(t, out)))
  }

  lemma OneStep(w: World, i: DeviceId, t: Thread, out: Outcome)
    requires i in w.devices && t in w.devices[i].ops && Active(w.devices[i].ops[t]) && !w.devices[i].ops[t].pc.Finishing?
    ensures var x := Stepped(w, i, t, out);
            && i in x.devices && t in x.devices[i].ops
            && x.devices[i].ops[t] == StepOp(w.devices[i].core, w.devices[i].ops[t], w.remote, out).op
  {
  }

  // ----- a failed push is made up for -----

  /** An automatic operation that has the lock and finds its gate open, nothing queued and the flag set,
      and later a repository and something to publish, makes a push attempt if and only if no merge or
      rebase was unfinished at its check, whatever happens in between. */
  lemma RetryReachesPush(w: World, i: DeviceId, t: Thread, es1: seq<Event>, es2: seq<Event>)
    requires i in w.devices && t in w.devices[i].ops && w.devices[i].ops[t].pc == Held && w.devices[i].ops[t].kind == Auto
    requires !w.devices[i].core.hasPending && w.devices[i].core.needsPush && AllSpare(es1, i, t) && AllSpare(es2, i, t)
    ensures var checked := Run(Stepped(w, i, t, Gate(true)), es1);
            var asked := Run(Stepped(checked, i, t, Succeeds(true)), es2);
            var x := Stepped(asked, i, t, Gate(true));
            && i in checked.devices && i in x.devices && t in x.devices[i].ops
            && (x.devices[i].ops[t].pc == Push1 <==> !checked.devices[i].core.unfinished)
  {
    var begun := Stepped(w, i, t, Gate(true));
    OneStep(w, i, t, Gate(true));
    OperationWaits(begun, es1, i, t);
    assert Run(begun, es1).devices[i].ops[t].pc == Retry;
    CheckReachesPush(Run(begun, es1), i, t, es2);
  }

  lemma CheckReachesPush(w: World, i: DeviceId, t: Thread, es: seq<Event>)
    requires i in w.devices && t in w.devices[i].ops && w.devices[i].ops[t].pc == Retry && IsAuto(w.devices[i].ops[t])
    requires AllSpare(es, i, t)
    ensures var x := Stepped(Run(Stepped(w, i, t, Succeeds(true)), es), i, t, Gate(true));
            && i in x.devices && t in x.devices[i].ops
            && (x.devices[i].ops[t].pc == Push1 <==> !w.devices[i].core.unfinished)
  {
    OneStep(w, i, t, Succeeds(true));
    var told := Stepped(w, i, t, Succeeds(true));
    OperationWaits(told, es, i, t);
    OneStep(Run(told, es), i, t, Gate(true));
  }

  // ----- an operation that nobody disturbs -----

  function Chain(e: Effect, outs: seq<Outcome>): Effect
    decreases outs
  {
    if outs == [] then e else Chain(StepOp(e.core, e.op, e.remote, outs[0]), outs[1..])
  }

  lemma ChainOne(e: Effect, out: Outcome)
    ensures Chain(e, [out]) == StepOp(e.core, e.op, e.remote, out)
  {
    assert [out][1..] == [];
  }

  lemma {:induction false} ChainAppend(e: Effect, a: seq<Outcome>, b: seq<Outcome>)
    ensures Chain(e, a + b) == Chain(Chain(e, a), b)
    decreases a
  {
    if a == [] {
      assert a + b == b;
    } else {
      assert (a + b)[0] == a[0] && (a + b)[1..] == a[1..] + b;
      ChainAppend(StepOp(e.core, e.op, e.remote, a[0]), a[1..], b);
    }
  }

  lemma ChainTwo(e: Effect, a: Outcome, b: Outcome)
    ensures var f := StepOp(e.core, e.op, e.remote, a); Chain(e, [a, b]) == StepOp(f.core, f.op, f.remote, b)
  {
    assert [a, b] == [a] + [b];
    ChainAppend(e, [a], [b]);
    ChainOne(e, a);
    ChainOne(StepOp(e.core, e.op, e.remote, a), b);
  }

  predicate SameQueue(c: Core, d: Core) {
    d.reasons == c.reasons && d.hasPending == c.hasPending && d.consumed == c.consumed
  }

  /** Everything is published: the remote has the local history, which has kept every change of both. */
  predicate Published(before: Effect, after: Effect) {
    && after.remote == after.core.local && before.remote <= after.remote
    && Ids(before.core.local) <= Ids(after.remote)
  }

  /** The automatic path when git answers well, the remote being ahead or not. */
  function GoodPush(c: Core, remote: seq<Change>, head: Content, disk: Content): seq<Outcome> {
    (if remote <= c.local then [PushOk] else [PushRejected, RebaseOk(head, disk)] + [PushOk]) + [Gate(true)]
  }

  lemma RebaseThenPush(e: Effect, head: Content, disk: Content)
    requires e.op.pc == Push1 && !(e.remote <= e.core.local)
    ensures var x := Chain(e, [PushRejected, RebaseOk(head, disk)]);
            && x.op == e.op.(pc := Push2, pushes := e.op.pushes + 1, rebases := e.op.rebases + 1)
            && x.remote == e.remote && e.remote <= x.core.local && Ids(e.core.local) <= Ids(x.core.local)
            && SameQueue(e.core, x.core)
  {
    ChainTwo(e, PushRejected, RebaseOk(head, disk));
    UnpublishedKeeps(e.core.local, e.remote);
    IdsAppend(e.remote, Unpublished(e.core.local, e.remote));
  }

  lemma PushLands(e: Effect)
    requires (e.op.pc == Push1 || e.op.pc == Push2) && e.remote <= e.core.local
    ensures StepOp(e.core, e.op, e.remote, PushOk)
         == Effect(e.core.(attempt := Some(Synced), published := |e.core.consumed|),
                   e.op.(pc := SetFlag(Synced), pushes := e.op.pushes + 1), e.core.local)
  {
  }

  lemma FlagWritten(c: Core, op: Op, remote: seq<Change>, st: Status)
    requires op.pc == SetFlag(st)
    ensures StepOp(c, op, remote, Gate(true)) == Effect(c.(needsPush := st == PushFailed), op.(pc := Report(st)), remote)
  {
  }

  lemma PushThenFlag(e: Effect)
    requires (e.op.pc == Push1 || e.op.pc == Push2) && e.remote <= e.core.local
    ensures var x := Chain(e, [PushOk] + [Gate(true)]);
            && x.op == e.op.(pc := Report(Synced), pushes := e.op.pushes + 1)
            && x.remote == e.core.local && x.core.local == e.core.local
            && !x.core.needsPush && x.core.published == |x.core.consumed|
            && SameQueue(e.core, x.core)
  {
    var f := StepOp(e.core, e.op, e.remote, PushOk);
    ChainAppend(e, [PushOk], [Gate(true)]);
    ChainOne(e, PushOk);
    ChainOne(f, Gate(true));
    PushLands(e);
    FlagWritten(f.core, f.op, f.remote, Synced);
  }

  /** A push attempt that git answers well publishes everything, clears the flag and reports it. */
  lemma GoodPushPublishes(e: Effect, head: Content, disk: Content)
    requires e.op.pc == Push1
    ensures var x := Chain(e, GoodPush(e.core, e.remote, head, disk));
            && x.op.pc == Report(Synced) && Published(e, x) && !x.core.needsPush
            && x.core.published == |x.core.consumed|
            && SameQueue(e.core, x.core)
  {
    if e.remote <= e.core.local {
      PushThenFlag(e);
    } else {
      var first, rest := [PushRejected, RebaseOk(head, disk)], [PushOk] + [Gate(true)];
      RebaseThenPush(e, head, disk);
      PushThenFlag(Chain(e, first));
      Assoc(first, [PushOk], [Gate(true)]);
      ChainAppend(e, first, rest);
    }
  }

  /** A cycle that finds nothing queued and the flag set makes up for the failed push. */
  lemma RetryPublishes(e: Effect, head: Content, disk: Content)
    requires e.op.pc == Held && e.op.kind == Auto && !e.core.hasPending && e.core.needsPush && !e.core.unfinished
    ensures var x := Chain(e, [Gate(true), Succeeds(true)] + ([Gate(true)] + GoodPush(e.core, e.remote, head, disk)));
            x.op.pc == Report(Synced) && Published(e, x) && !x.core.needsPush
  {
    var good := GoodPush(e.core, e.remote, head, disk);
    ChainTwo(e, Gate(true), Succeeds(true));
    var f := Chain(e, [Gate(true), Succeeds(true)]);
    assert f == Effect(e.core, e.op.(pc := Publishing), e.remote);
    ChainOne(f, Gate(true));
    var g := Effect(e.core, e.op.(pc := Push1), e.remote);
    assert Chain(f, [Gate(true)]) == g;
    ChainAppend(e, [Gate(true), Succeeds(true)], [Gate(true)] + good);
    ChainAppend(f, [Gate(true)], good);
    GoodPushPublishes(g, head, disk);
  }

  // ----- a cycle commits and publishes -----

  /** Up to the commit: gate, repository, staging, status, and a commit if there is anything new. */
  function GoodCommit(c: Core, id: Change): seq<Outcome> {
    [Gate(true), Succeeds(true)] + ([Succeeds(true)] + if Disk(c) == c.tree then [StatusClean] else [StatusDirty, CommitOk(id)])
  }

  lemma StagesDisk(e: Effect)
    requires e.op.pc == Held && e.op.kind != Pull && e.op.kind != Push && !e.core.unfinished
    requires IsAuto(e.op) ==> e.core.reasons != [] && e.core.hasPending
    ensures Chain(e, [Gate(true), Succeeds(true)] + [Succeeds(true)])
         == Effect(e.core.(staged := Disk(e.core)),
                   e.op.(pc := Staged, snap := if IsAuto(e.op) then e.core.reasons else e.op.snap), e.remote)
  {
    var f := Chain(e, [Gate(true), Succeeds(true)]);
    ChainTwo(e, Gate(true), Succeeds(true));
    ChainAppend(e, [Gate(true), Succeeds(true)], [Succeeds(true)]);
    ChainOne(f, Succeeds(true));
  }

  /** Nothing of the vault's content is uncommitted, and every change of before is still there. */
  predicate AllCommitted(c: Core, d: Core) {
    d.tree == Disk(c) && Disk(d) == Disk(c) && Holds(d, Tip(d.local), Disk(c)) && c.local <= d.local
  }

  /** Where an operation stands that has found or made a commit of what is on disk. */
  predicate CommitDone(e: Effect, x: Effect, next: AfterClear) {
    && AllCommitted(e.core, x.core) && x.remote == e.remote && SameQueue(e.core, x.core)
    && x.op.kind == e.op.kind && x.op.snap == e.op.snap && x.op.pc == (if IsAuto(e.op) then Clear(next) else ManualRebase)
    && x.op.tree == Disk(e.core) && x.op.commit == Tip(x.core.local)
  }

  lemma CleanStatus(e: Effect)
    requires e.op.pc == Staged && e.core.staged == Disk(e.core) == e.core.tree && TipInv(e.core)
    ensures var x := Chain(e, [StatusClean]); CommitDone(e, x, ToPublish) && x.core.local == e.core.local
  {
    ChainOne(e, StatusClean);
  }

  lemma CommitMade(c: Core, op: Op, remote: seq<Change>, id: Change)
    requires op.pc == Committing && c.staged == Disk(c)
    ensures var e, x := Effect(c, op, remote), StepCommit(c, op, remote, CommitOk(id));
            CommitDone(e, x, ToCommitted) && x.core.local == c.local + [id]
  {
  }

  lemma DirtyStatus(e: Effect, id: Change)
    requires e.op.pc == Staged && e.core.staged == Disk(e.core)
    ensures var x := Chain(e, [StatusDirty, CommitOk(id)]); CommitDone(e, x, ToCommitted) && x.core.local == e.core.local + [id]
  {
    ChainTwo(e, StatusDirty, CommitOk(id));
    assert StepOp(e.core, e.op, e.remote, StatusDirty) == Effect(e.core, e.op.(pc := Committing), e.remote);
    CommitMade(e.core, e.op.(pc := Committing), e.remote, id);
  }

  lemma CommitsDisk(e: Effect, id: Change)
    requires e.op.pc == Held && e.op.kind != Pull && e.op.kind != Push && !e.core.unfinished && TipInv(e.core)
    requires IsAuto(e.op) ==> e.core.reasons != [] && e.core.hasPending
    ensures var x, clean := Chain(e, GoodCommit(e.core, id)), Disk(e.core) == e.core.tree;
            var op := if IsAuto(e.op) then e.op.(snap := e.core.reasons) else e.op;
            && CommitDone(e.(op := op), x, if clean then ToPublish else ToCommitted)
            && x.core.local == if clean then e.core.local else e.core.local + [id]
  {
    var front := [Gate(true), Succeeds(true)] + [Succeeds(true)];
    var back := if Disk(e.core) == e.core.tree then [StatusClean] else [StatusDirty, CommitOk(id)];
    StagesDisk(e);
    Assoc([Gate(true), Succeeds(true)], [Succeeds(true)], back);
    ChainAppend(e, front, back);
    var f := Chain(e, front);
    if Disk(e.core) == e.core.tree {
      CleanStatus(f);
    } else {
      DirtyStatus(f, id);
    }
  }

  /** The notes of a cycle are taken off the queue as entries for what was committed. */
  predicate AllConsumed(c: Core, d: Core) {
    && d.reasons == [] && !d.hasPending && |d.consumed| == |c.consumed| + |c.reasons|
    && d.consumed[..|c.consumed|] == c.consumed
    && forall k :: 0 <= k < |c.reasons| ==>
         var e := d.consumed[|c.consumed| + k];
         e.note == c.reasons[k] && e.tree == Disk(c) && (e.commit.Some? ==> e.commit.value in Ids(d.local))
  }

  lemma ClearsNotes(e: Effect, next: AfterClear)
    requires e.op.pc == Clear(next) && e.op.snap == e.core.reasons && e.op.commit == Tip(e.core.local)
    ensures var x := StepOp(e.core, e.op, e.remote, Gate(true));
            && x.remote == e.remote && x.core == ClearPending(e.core, e.op) && x.core.reasons == [] && !x.core.hasPending
            && x.core.consumed == e.core.consumed + seq(|e.core.reasons|, k requires 0 <= k < |e.core.reasons| =>
                                                       Entry(e.core.reasons[k], e.op.tree, e.op.commits, e.op.commit))
            && (next != ToNothing ==> StepOp(x.core, x.op, x.remote, Gate(true)) == x.(op := e.op.(pc := Push1)))
  {
  }

  lemma EntriesFor(c: Core, d: Core, op: Op)
    requires d.reasons == c.reasons == op.snap && d.consumed == c.consumed && op.commit == Tip(d.local) && op.tree == Disk(c)
    ensures AllConsumed(c, ClearPending(d, op))
  {
    assert d.local != [] ==> d.local[|d.local| - 1] in Ids(d.local);
  }

  /** With the commit made, the notes are cleared and the push is next. */
  lemma CommittedConsumes(e: Effect, f: Effect, next: AfterClear)
    requires IsAuto(e.op) && CommitDone(e, f, next) && e.op.snap == e.core.reasons && next != ToNothing
    ensures var x := Chain(f, [Gate(true), Gate(true)]);
            x.op.pc == Push1 && x.core == ClearPending(f.core, f.op) && x.remote == e.remote && AllConsumed(e.core, x.core)
  {
    ChainTwo(f, Gate(true), Gate(true));
    ClearsNotes(f, next);
    EntriesFor(e.core, f.core, f.op);
  }

  lemma ClearKeepsCommit(c: Core, d: Core, op: Op)
    requires AllCommitted(c, d)
    ensures AllCommitted(c, ClearPending(d, op))
  {
  }

  lemma CycleConsumes(e: Effect, id: Change)
    requires e.op.pc == Held && IsAuto(e.op) && !e.core.unfinished && TipInv(e.core) && e.core.reasons != [] && e.core.hasPending
    ensures var x := Chain(e, GoodCommit(e.core, id) + [Gate(true), Gate(true)]);
            && x.op.pc == Push1 && AllConsumed(e.core, x.core) && AllCommitted(e.core, x.core) && x.remote == e.remote
  {
    var f := Chain(e, GoodCommit(e.core, id));
    CommitsDisk(e, id);
    ChainAppend(e, GoodCommit(e.core, id), [Gate(true), Gate(true)]);
    CommittedConsumes(e.(op := e.op.(snap := e.core.reasons)), f, f.op.pc.next);
    ClearKeepsCommit(e.core, f.core, f.op);
  }

  lemma ConsumedStays(c: Core, d: Core, n: Core)
    requires AllConsumed(c, d) && SameQueue(d, n) && Ids(d.local) <= Ids(n.local)
    ensures AllConsumed(c, n)
  {
  }

  /** A cycle of the automatic path that nobody disturbs and git answers well: what is on disk is
      committed, every queued note is consumed for exactly that content, and the remote has it all. */
  lemma CyclePublishes(e: Effect, id: Change, head: Content, disk: Content)
    requires e.op.pc == Held && IsAuto(e.op) && !e.core.unfinished && TipInv(e.core) && e.core.reasons != [] && e.core.hasPending
    ensures var f := Chain(e, GoodCommit(e.core, id) + [Gate(true), Gate(true)]);
            var x := Chain(f, GoodPush(f.core, f.remote, head, disk));
            && x.op.pc == Report(Synced) && Published(e, x) && AllCommitted(e.core, f.core)
            && AllConsumed(e.core, x.core) && x.core.published == |x.core.consumed| && !x.core.needsPush
  {
    var f := Chain(e, GoodCommit(e.core, id) + [Gate(true), Gate(true)]);
    CycleConsumes(e, id);
    var x := Chain(f, GoodPush(f.core, f.remote, head, disk));
    GoodPushPublishes(f, head, disk);
    PrefixIds(e.core.local, f.core.local);
    ConsumedStays(e.core, f.core, x.core);
  }

  // ----- the manual operations -----

  lemma RebasedThenPushed(e: Effect, head: Content, disk: Content)
    requires e.op.pc == ManualRebase && e.op.kind == SyncNow
    ensures var x := Chain(e, [RebaseOk(head, disk), PushOk]);
            x.op.pc == Finishing && Published(e, x) && SameQueue(e.core, x.core)
  {
    ChainTwo(e, RebaseOk(head, disk), PushOk);
    UnpublishedKeeps(e.core.local, e.remote);
    IdsAppend(e.remote, Unpublished(e.core.local, e.remote));
  }

  /** Sync now: what is on disk is committed, the remote's changes are taken in, and the result is
      pushed. The queue is the automatic path's and stays. */
  lemma SyncNowPublishes(e: Effect, id: Change, head: Content, disk: Content)
    requires e.op.pc == Held && e.op.kind == SyncNow && !e.core.unfinished && TipInv(e.core)
    ensures var f := Chain(e, GoodCommit(e.core, id));
            var x := Chain(f, [RebaseOk(head, disk), PushOk]);
            && x.op.pc == Finishing && Published(e, x) && AllCommitted(e.core, f.core) && SameQueue(e.core, x.core)
  {
    var f := Chain(e, GoodCommit(e.core, id));
    CommitsDisk(e, id);
    RebasedThenPushed(f, head, disk);
    PrefixIds(e.core.local, f.core.local);
  }

  /** Pull: the local history becomes the remote's with the unpublished changes on top. */
  lemma PullTakesIn(e: Effect, head: Content, disk: Content)
    requires e.op.pc == Held && e.op.kind == Pull
    ensures var x := Chain(e, [Gate(true), RebaseOk(head, disk)]);
            && x.op.pc == Finishing && x.remote == e.remote && e.remote <= x.core.local
            && Ids(x.core.local) == Ids(e.remote) + Ids(e.core.local)
            && (x.core.local != [] ==> x.core.tree == head) && Disk(x.core) == disk
  {
    ChainTwo(e, Gate(true), RebaseOk(head, disk));
    UnpublishedKeeps(e.core.local, e.remote);
    UnpublishedFrom(e.core.local, e.remote);
    IdsAppend(e.remote, Unpublished(e.core.local, e.remote));
  }

  lemma {:induction false} UnpublishedFrom(local: seq<Change>, remote: seq<Change>)
    ensures Ids(Unpublished(local, remote)) <= Ids(local)
  {
    if local != [] {
      UnpublishedFrom(local[1..], remote);
      IdsAppend([local[0]], local[1..]);
      assert local == [local[0]] + local[1..];
      IdsAppend(if local[0] in remote then [] else [local[0]], Unpublished(local[1..], remote));
    }
  }

  /** Push: a remote that is not ahead takes over the local history; one that is ahead stays. */
  lemma PushPublishes(e: Effect)
    requires e.op.pc == Held && e.op.kind == Push
    ensures var x := Chain(e, [Gate(true), PushOk]);
            x.op.pc == Finishing && x.core == e.core && x.remote == if e.remote <= e.core.local then e.core.local else e.remote
  {
    ChainTwo(e, Gate(true), PushOk);
  }

  // ----- on the device -----

  predicate Running(op: Op) {
    Active(op) && !op.pc.Finishing?
  }

  function Steps(t: Thread, outs: seq<Outcome>): seq<Action> {
    seq(|outs|, k requires 0 <= k < |outs| => Step(t, outs[k]))
  }

  /** A thread that is still running at the end was running all along. */
  lemma {:induction false} DeviceFollows(d: Device, t: Thread, outs: seq<Outcome>, remote: seq<Change>)
    requires t in d.ops && Running(Chain(Effect(d.core, d.ops[t], remote), outs).op)
    ensures var x := Chain(Effect(d.core, d.ops[t], remote), outs);
            After(d, Steps(t, outs), remote) == (d.(core := x.core, ops := d.ops[t := x.op]), x.remote)
    decreases outs
  {
    if outs == [] {
      assert d.ops[t := d.ops[t]] == d.ops;
    } else {
      if !Running(d.ops[t]) {
        StoppedStays(Effect(d.core, d.ops[t], remote), outs);
      }
      var e := StepOp(d.core, d.ops[t], remote, outs[0]);
      var n := d.(core := e.core, ops := d.ops[t := e.op]);
      var x := Chain(e, outs[1..]);
      DeviceFollows(n, t, outs[1..], e.remote);
      assert n.ops[t := x.op] == d.ops[t := x.op];
      assert Steps(t, outs)[1..] == Steps(t, outs[1..]);
    }
  }

  lemma {:induction false} StoppedStays(e: Effect, outs: seq<Outcome>)
    requires !Running(e.op)
    ensures Chain(e, outs) == e
    decreases outs
  {
    if outs != [] {
      StoppedStays(e, outs[1..]);
    }
  }

  lemma {:induction false} AfterAppend(d: Device, a: seq<Action>, b: seq<Action>, remote: seq<Change>)
    ensures var (n, next) := After(d, a, remote); After(d, a + b, remote) == After(n, b, next)
    decreases a
  {
    if a == [] {
      assert a + b == b;
    } else {
      assert (a + b)[0] == a[0] && (a + b)[1..] == a[1..] + b;
      var (n, next) := Act(d, a[0], remote);
      AfterAppend(n, a[1..], b, next);
    }
  }

  /** An operation begun on a device whose lock is free takes it. */
  lemma Enters(d: Device, t: Thread, kind: Kind, remote: seq<Change>)
    requires d.lock == None && t !in d.ops
    ensures After(d, [Invoke(t, kind), Step(t, Gate(true))], remote)
         == (d.(lock := Some(t), ops := d.ops[t := Op(kind, Held, [], EMPTY, {}, None, 0, 0)]), remote)
  {
    var op := Op(kind, Start, [], EMPTY, {}, None, 0, 0);
    AfterCons(d, Invoke(t, kind), [Step(t, Gate(true))], remote);
    assert [Invoke(t, kind), Step(t, Gate(true))] == [Invoke(t, kind)] + [Step(t, Gate(true))];
    var n := d.(ops := d.ops[t := op]);
    AfterCons(n, Step(t, Gate(true)), [], remote);
    assert [Step(t, Gate(true))] == [Step(t, Gate(true))] + [];
    assert n.ops[t := op.(pc := Held)] == d.ops[t := op.(pc := Held)];
  }

  /** One that has reported leaves, and the lock is free again. */
  lemma Leaves(d: Device, t: Thread, remote: seq<Change>)
    requires t in d.ops && d.ops[t].pc.Report?
    ensures After(d, [Step(t, Gate(true)), Step(t, Gate(true))], remote)
         == (d.(lock := None, ops := d.ops[t := d.ops[t].(pc := Done)]), remote)
  {
    var a := Step(t, Gate(true));
    assert [a, a] == [a] + [a] && [a] == [a] + [];
    var n := d.(ops := d.ops[t := d.ops[t].(pc := Finishing)]);
    AfterCons(d, a, [a], remote);
    AfterCons(n, a, [], remote);
    assert n.ops[t := n.ops[t].(pc := Done)] == d.ops[t := d.ops[t].(pc := Done)];
  }

  /** Enter, run, leave. */
  lemma OperationRuns(d: Device, t: Thread, kind: Kind, outs: seq<Outcome>, remote: seq<Change>) returns (acts: seq<Action>)
    requires d.lock == None && t !in d.ops
    requires Chain(Effect(d.core, Op(kind, Held, [], EMPTY, {}, None, 0, 0), remote), outs).op.pc.Report?
    ensures OwnActions(acts)
    ensures var x := Chain(Effect(d.core, Op(kind, Held, [], EMPTY, {}, None, 0, 0), remote), outs);
            var (n, next) := After(d, acts, remote);
            n.core == x.core && next == x.remote && n.lock == None
  {
    var held := d.(lock := Some(t), ops := d.ops[t := Op(kind, Held, [], EMPTY, {}, None, 0, 0)]);
    var first, last := [Invoke(t, kind), Step(t, Gate(true))], [Step(t, Gate(true)), Step(t, Gate(true))];
    Enters(d, t, kind, remote);
    DeviceFollows(held, t, outs, remote);
    var (n, next) := After(held, Steps(t, outs), remote);
    Leaves(n, t, next);
    AfterAppend(held, Steps(t, outs), last, remote);
    AfterAppend(d, first, Steps(t, outs) + last, remote);
    acts := first + (Steps(t, outs) + last);
  }

  /** On any device whose lock is free and that has notes queued and nothing unfinished, whatever its
      history and the remote's, the automatic path can publish everything: the queue is then empty, the
      remote has the whole local history, and the lock is free again. */
  lemma QueueCanDrain(d: Device, t: Thread, kind: Kind, id: Change, remote: seq<Change>) returns (acts: seq<Action>)
    requires DeviceInv(d, remote) && d.lock == None && t !in d.ops && (kind == Auto || kind == Force)
    requires d.core.reasons != [] && !d.core.unfinished
    ensures OwnActions(acts)
    ensures var (n, next) := After(d, acts, remote);
            && n.core.reasons == [] && AllConsumed(d.core, n.core) && n.core.published == |n.core.consumed|
            && next == n.core.local && remote <= next && Ids(d.core.local) <= Ids(next)
            && !n.core.needsPush && n.lock == None
  {
    var e := Effect(d.core, Op(kind, Held, [], EMPTY, {}, None, 0, 0), remote);
    var first := GoodCommit(d.core, id) + [Gate(true), Gate(true)];
    var f := Chain(e, first);
    var good := GoodPush(f.core, f.remote, EMPTY, EMPTY);
    CyclePublishes(e, id, EMPTY, EMPTY);
    ChainAppend(e, first, good);
    acts := OperationRuns(d, t, kind, first + good, remote);
  }

  /** And with nothing queued but the flag set, so is what was stranded. */
  lemma StrandedCanPublish(d: Device, t: Thread, remote: seq<Change>) returns (acts: seq<Action>)
    requires DeviceInv(d, remote) && d.lock == None && t !in d.ops
    requires d.core.reasons == [] && d.core.needsPush && !d.core.unfinished
    ensures OwnActions(acts)
    ensures var (n, next) := After(d, acts, remote);
            && next == n.core.local && remote <= next && Ids(d.core.local) <= Ids(next)
            && !n.core.needsPush && n.lock == None
  {
    var e := Effect(d.core, Op(Auto, Held, [], EMPTY, {}, None, 0, 0), remote);
    RetryPublishes(e, EMPTY, EMPTY);
    acts := OperationRuns(d, t, Auto, [Gate(true), Succeeds(true)] + ([Gate(true)] + GoodPush(e.core, e.remote, EMPTY, EMPTY)), remote);
  }

  // ----- reports -----

  /** What an automatic operation reports, read off the answers it got: an unfinished merge or rebase, or
      a rebase that conflicts, is a conflict; a command that fails before the push is an error; a commit
      that is not to be pushed is a commit; and nothing to commit or to publish is no change. */
  lemma ReportMeans(c: Core, op: Op, remote: seq<Change>, out: Outcome)
    requires Active(op) && IsAuto(op) && !op.pc.Report?
    ensures var e := StepOp(c, op, remote, out);
            && (e.op.pc == Report(Conflict) <==>
                  ((op.pc == Ready || op.pc == Retry) && out == Succeeds(true) && c.unfinished) || op.pc == SetFlag(Conflict))
            && (e.op.pc == Report(Committed) <==> (op.pc == AfterCommit && out != Gate(true)) || op.pc == SetFlag(Committed))
            && (e.op.pc == Report(Synced) <==> op.pc == SetFlag(Synced))
            && (e.op.pc == Report(PushFailed) <==> op.pc == SetFlag(PushFailed))
            && (e.op.pc == Report(NoChanges) <==> op.pc == FlagOff || op.pc == Clear(ToNothing) || op.pc == SetFlag(NoChanges))
            && (e.op.pc == Report(Error) <==> op.pc == SetFlag(Error) || CommandFailed(c, op, out))
  {
    if IsQuiet(op.pc) {
      QuietReports(c, op, remote, out);
    } else {
      LoudReports(c, op, remote, out);
    }
  }

  /** What a step that runs no git command over the history reports. */
  function QuietReport(c: Core, op: Op, out: Outcome): Option<Status> {
    match op.pc
    case Ready => if out != Succeeds(true) then Some(Error) else if c.unfinished then Some(Conflict) else None
    case Retry => if out == Succeeds(true) && c.unfinished then Some(Conflict) else None
    case Guarded => if out != Succeeds(true) then Some(Error) else None
    case Staged => if out.StatusClean? || out.StatusDirty? then None else Some(Error)
    case AfterCommit => if out == Gate(true) then None else Some(Committed)
    case SetFlag(st) => Some(st)
    case FlagOff => Some(NoChanges)
    case _ => None
  }

  lemma QuietReports(c: Core, op: Op, remote: seq<Change>, out: Outcome)
    requires Active(op) && IsAuto(op) && IsQuiet(op.pc) && !op.pc.Report?
    ensures var pc := StepOp(c, op, remote, out).op.pc;
            if pc.Report? then QuietReport(c, op, out) == Some(pc.st) else QuietReport(c, op, out) == None
  {
  }

  /** Opening the repository, staging, reading the status, or committing went wrong. */
  predicate CommandFailed(c: Core, op: Op, out: Outcome) {
    || ((op.pc == Ready || op.pc == Guarded) && out != Succeeds(true))
    || (op.pc == Staged && !out.StatusClean? && !out.StatusDirty?)
    || (op.pc == Committing && !out.CommitOk? && !(out.CommitNothing? && c.staged == c.tree))
  }

  lemma LoudReports(c: Core, op: Op, remote: seq<Change>, out: Outcome)
    requires IsAuto(op) && !IsQuiet(op.pc)
    ensures var e := StepOp(c, op, remote, out);
            if op.pc == Clear(ToNothing) then e.op.pc == Report(NoChanges)
            else if CommandFailed(c, op, out) then e.op.pc == Report(Error)
            else !e.op.pc.Report?
  {
    match op.pc
    case Committing =>
    case Clear(_) =>
    case Push1 =>
    case Push2 =>
    case Rebasing =>
    case _ =>
  }

  // ----- cycles that publish nothing -----

  /** A forced cycle does not wait for its interval: it starts whatever the gate says. */
  lemma ForceIgnoresGate(c: Core, op: Op, remote: seq<Change>, out: Outcome)
    requires op.pc == Held && op.kind == Force && c.reasons != []
    ensures StepOp(c, op, remote, out) == Effect(c, op.(pc := Ready, snap := c.reasons), remote)
  {
  }

  lemma ClearStep(e: Effect, next: AfterClear)
    requires e.op.pc == Clear(next) && next != ToNothing
    ensures StepOp(e.core, e.op, e.remote, Gate(true))
         == Effect(ClearPending(e.core, e.op), e.op.(pc := if next == ToPublish then Publishing else AfterCommit), e.remote)
  {
  }

  lemma StopStep(c: Core, op: Op, remote: seq<Change>)
    requires op.pc == Publishing || op.pc == AfterCommit
    ensures StepOp(c, op, remote, Gate(false))
         == Effect(c, op.(pc := if op.pc == Publishing then FlagOff else Report(Committed)), remote)
  {
  }

  lemma ClearsThenStops(e: Effect, next: AfterClear)
    requires e.op.pc == Clear(next) && next != ToNothing
    ensures var x := Chain(e, [Gate(true), Gate(false)]);
            && x.remote == e.remote && x.core == ClearPending(e.core, e.op)
            && x.op == e.op.(pc := if next == ToPublish then FlagOff else Report(Committed))
  {
    var f := StepOp(e.core, e.op, e.remote, Gate(true));
    ChainTwo(e, Gate(true), Gate(false));
    ClearStep(e, next);
    StopStep(f.core, f.op, f.remote);
  }

  /** A cycle that is not to push, or finds nothing to push, still commits and consumes. With a new commit it
      reports that and leaves the flag; without one it reports no change and clears the flag. */
  lemma CycleWithoutPush(e: Effect, id: Change)
    requires e.op.pc == Held && IsAuto(e.op) && !e.core.unfinished && TipInv(e.core) && e.core.reasons != [] && e.core.hasPending
    ensures var x := Chain(Chain(e, GoodCommit(e.core, id)), [Gate(true), Gate(false)]);
            && x.remote == e.remote && AllConsumed(e.core, x.core) && AllCommitted(e.core, x.core)
            && x.core.needsPush == e.core.needsPush
            && x.op.pc == (if Disk(e.core) == e.core.tree then FlagOff else Report(Committed))
  {
    var f := Chain(e, GoodCommit(e.core, id));
    CommitsDisk(e, id);
    ClearsThenStops(f, f.op.pc.next);
    EntriesFor(e.core, f.core, f.op);
    ClearKeepsCommit(e.core, f.core, f.op);
    FlagLeft(e, id);
  }

  /** Finding nothing to publish clears the flag and reports no change. */
  lemma FlagOffEnds(c: Core, op: Op, remote: seq<Change>, out: Outcome)
    requires op.pc == FlagOff
    ensures StepOp(c, op, remote, out) == Effect(c.(needsPush := false), op.(pc := Report(NoChanges)), remote)
  {
  }

  lemma FlagLeft(e: Effect, id: Change)
    requires e.op.pc == Held && IsAuto(e.op) && !e.core.unfinished && e.core.reasons != [] && e.core.hasPending
    ensures Chain(e, GoodCommit(e.core, id)).core.needsPush == e.core.needsPush
  {
    var front := [Gate(true), Succeeds(true)] + [Succeeds(true)];
    var back := if Disk(e.core) == e.core.tree then [StatusClean] else [StatusDirty, CommitOk(id)];
    StagesDisk(e);
    Assoc([Gate(true), Succeeds(true)], [Succeeds(true)], back);
    ChainAppend(e, front, back);
    var f := Chain(e, front);
    if Disk(e.core) == e.core.tree {
      ChainOne(f, StatusClean);
    } else {
      ChainTwo(f, StatusDirty, CommitOk(id));
    }
  }

  /** When git finds nothing to commit after all, the notes are consumed, nothing is pushed and no change is
      reported; the flag stays. */
  lemma NothingToCommit(e: Effect)
    requires e.op.pc == Staged && IsAuto(e.op) && e.core.staged == e.core.tree && e.op.snap == e.core.reasons
    ensures var x := Chain(e, [StatusDirty, CommitNothing] + [Gate(true)]);
            && x.op.pc == Report(NoChanges) && x.remote == e.remote && x.core.local == e.core.local
            && x.core.reasons == [] && x.core.needsPush == e.core.needsPush
            && NotesOf(x.core.consumed) == NotesOf(e.core.consumed) + e.core.reasons
  {
    ChainTwo(e, StatusDirty, CommitNothing);
    var f := Chain(e, [StatusDirty, CommitNothing]);
    ChainAppend(e, [StatusDirty, CommitNothing], [Gate(true)]);
    ChainOne(f, Gate(true));
  }

  // ----- what git leaves behind -----

  /** A rebase that goes through leaves a clean index on the remote's history with the unpublished changes on
      top. One that does not leaves history, tree and index alone; it stays unfinished exactly when it was
      not aborted, and then it has changed what is on disk. */
  lemma RebaseLeaves(c: Core, remote: seq<Change>, out: Outcome)
    ensures var d := PullRebase(c, remote, out);
            && (out.RebaseOk? ==> remote <= d.local && d.staged == d.tree && d.unfinished == c.unfinished && Disk(d) == out.disk)
            && (!out.RebaseOk? ==> d.local == c.local && d.tree == c.tree && d.staged == c.staged && d.held == c.held)
            && var stuck := (out.RebaseConflict? && !out.aborted) || (out.RebaseFails? && out.left);
               (stuck ==> d.unfinished && Disk(d) == out.disk) && (!stuck && !out.RebaseOk? ==> d == c)
  {
  }

  /** A push reaches the remote if and only if git sent it, whether or not it says so, and the remote was not
      ahead; the remote then has exactly the local history. */
  lemma PushReaches(c: Core, remote: seq<Change>, out: Outcome)
    ensures Pushed(c, remote, out) == c.local
       <==> remote == c.local || (remote <= c.local && (out == PushOk || out == PushFails(true)))
    ensures Pushed(c, remote, out) == c.local || Pushed(c, remote, out) == remote
  {
  }

  /** Sync now goes on to push if and only if the remote's changes are in or there are none to take in; a
      pull never does. */
  lemma ManualGoesOn(c: Core, op: Op, remote: seq<Change>, out: Outcome)
    requires op.pc == ManualRebase
    ensures var e := StepOp(c, op, remote, out);
            && e.remote == remote && e.core == PullRebase(c, remote, out)
            && (e.op.pc == ManualPush <==> op.kind == SyncNow && (out.RebaseOk? || out.RebaseNoRef?))
            && (e.op.pc != ManualPush ==> e.op.pc == Finishing)
  {
  }

  /** The user's git tool can finish what is unfinished, and the app then goes on. */
  lemma ResolvedIsFinished(d: Device, local: seq<Change>, head: Content, disk: Content, remote: seq<Change>)
    requires d.core.unfinished && Ids(d.core.local) <= Ids(local)
    ensures var n := Act(d, UserResolves(local, head, disk), remote).0;
            !n.core.unfinished && n.core.local == local && n.core.staged == n.core.tree && Disk(n.core) == disk && n.ops == d.ops
  {
  }
}
