/** What every run of the sync protocol keeps, whatever the interleaving and whatever the user's own git
    tool does. */
module SyncSafety {
  import opened Text
  import opened SyncProtocol

  // ----- invariants -----

  function NotesOf(es: seq<Entry>): (ns: seq<Note>)
    ensures |ns| == |es|
  {
    seq(|es|, k requires 0 <= k < |es| => es[k].note)
  }

  /** The commit had that content; before the first commit only the empty vault counts. */
  predicate Holds(c: Core, commit: Option<Change>, content: Content) {
    match commit
    case None => content == EMPTY
    case Some(id) => id in c.held && content in c.held[id]
  }

  /** The entry names a commit that is in the local history and held its content. */
  predicate Backed(c: Core, e: Entry) {
    Holds(c, e.commit, e.tree) && (e.commit.Some? ==> e.commit.value in e.commits) && e.commits <= Ids(c.local)
  }

  /** The tree is what the tip of the history holds. */
  predicate TipInv(c: Core) {
    Holds(c, Tip(c.local), c.tree)
  }

  predicate QueueInv(c: Core) {
    && (c.hasPending <==> c.reasons != [])
    && c.accepted == NotesOf(c.consumed) + c.reasons
    && (forall k :: 0 <= k < |c.reasons| ==> c.reasons[k].at < |c.vault|)
    && (forall k :: 0 <= k < |c.consumed| ==> Backed(c, c.consumed[k]))
  }

  predicate HistoryInv(c: Core, remote: seq<Change>) {
    && c.mine <= Ids(c.local)
    && c.published <= |c.consumed|
    && forall k :: 0 <= k < c.published ==> c.consumed[k].commits <= Ids(remote)
  }

  predicate CoreInv(c: Core, remote: seq<Change>) {
    c.vault != [] && TipInv(c) && QueueInv(c) && HistoryInv(c, remote)
  }

  /** From the unfinished-operation check to the commit. */
  predicate InWindow(pc: Pc) {
    pc.Guarded? || pc.Staged? || pc.Committing?
  }

  predicate BeforeClear(pc: Pc) {
    pc.Ready? || InWindow(pc) || pc.Clear?
  }

  predicate Counts(op: Op) {
    match op.pc
    case Push1 => op.pushes == 0 && op.rebases == 0
    case Rebasing => op.pushes == 1 && op.rebases == 0
    case Push2 => op.pushes == 1 && op.rebases == 1
    case SetFlag(_) => op.pushes <= 2 && op.rebases <= 1
    case Report(_) => op.pushes <= 2 && op.rebases <= 1
    case Finishing => op.pushes <= 2 && op.rebases <= 1
    case Done => op.pushes <= 2 && op.rebases <= 1
    case _ => op.pushes == 0 && op.rebases == 0
  }

  predicate OpInv(op: Op, c: Core) {
    && Counts(op)
    && (op.pc.Start? || op.pc.Held? ==> op.snap == [])
    && (op.snap != [] ==> IsAuto(op))
    && (BeforeClear(op.pc) ==> op.snap <= c.reasons)
    && (op.pc.Clear? ==>
          Holds(c, op.commit, op.tree) && (op.commit.Some? ==> op.commit.value in op.commits) && op.commits <= Ids(c.local))
    && (op.pc.SetFlag? ==> c.attempt == Some(op.pc.st))
  }

  predicate Active(op: Op) {
    !op.pc.Start? && !op.pc.Done?
  }

  /** Exclusion: only the thread that holds the lock is past its entry. */
  predicate LockInv(d: Device) {
    && (forall t :: t in d.ops && Active(d.ops[t]) ==> d.lock == Some(t))
    && (d.lock.Some? ==> d.lock.value in d.ops && Active(d.ops[d.lock.value]))
  }

  /** A set flag stands for a failed push, except while the next attempt is about to write it. */
  predicate FlagInv(d: Device) {
    d.core.needsPush ==> d.core.attempt == Some(PushFailed) || exists t :: t in d.ops && d.ops[t].pc.SetFlag?
  }

  ghost predicate DeviceInv(d: Device, remote: seq<Change>) {
    && CoreInv(d.core, remote) && LockInv(d) && FlagInv(d)
    && forall t :: t in d.ops ==> OpInv(d.ops[t], d.core)
  }

  // ----- histories -----

  lemma IdsAppend(a: seq<Change>, b: seq<Change>)
    ensures Ids(a + b) == Ids(a) + Ids(b)
  {
    forall x ensures x in Ids(a + b) <==> x in Ids(a) + Ids(b) {
      if x in Ids(a) {
        var k :| 0 <= k < |a| && a[k] == x;
        assert (a + b)[k] == x;
      }
      if x in Ids(b) {
        var k :| 0 <= k < |b| && b[k] == x;
        assert (a + b)[|a| + k] == x;
      }
    }
  }

  lemma PrefixIds(a: seq<Change>, b: seq<Change>)
    requires a <= b
    ensures Ids(a) <= Ids(b)
  {
    assert b == a + b[|a|..];
    IdsAppend(a, b[|a|..]);
  }

  lemma {:induction false} UnpublishedKeeps(local: seq<Change>, remote: seq<Change>)
    ensures Ids(local) <= Ids(remote) + Ids(Unpublished(local, remote))
  {
    if local != [] {
      UnpublishedKeeps(local[1..], remote);
      assert local == [local[0]] + local[1..];
      IdsAppend([local[0]], local[1..]);
      var head := if local[0] in remote then [] else [local[0]];
      IdsAppend(head, Unpublished(local[1..], remote));
      if local[0] in remote {
        var k :| 0 <= k < |remote| && remote[k] == local[0];
        assert remote[k] in Ids(remote);
      } else {
        assert [local[0]][0] in Ids([local[0]]);
      }
    }
  }

  /** A rebase keeps every local change and puts it on top of the remote. */
  lemma RebaseKeeps(local: seq<Change>, remote: seq<Change>)
    ensures Ids(local) <= Ids(Rebased(local, remote)) && remote <= Rebased(local, remote)
  {
    UnpublishedKeeps(local, remote);
    IdsAppend(remote, Unpublished(local, remote));
  }

  /** What a commit held is not forgotten. */
  predicate Remembers(c: Core, d: Core) {
    forall id :: id in c.held ==> id in d.held && c.held[id] <= d.held[id]
  }

  lemma AtRemembers(c: Core, local: seq<Change>, content: Content)
    ensures Remembers(c, At(c, local, content)) && TipInv(At(c, local, content))
  {
  }

  /** `d` is `c` after steps that only extend the vault and keep every local change. */
  predicate Grows(c: Core, d: Core) {
    && c.vault <= d.vault && Ids(c.local) <= Ids(d.local) && Remembers(c, d) && TipInv(d)
    && d.reasons == c.reasons && d.hasPending == c.hasPending && d.accepted == c.accepted && d.consumed == c.consumed
    && c.mine <= d.mine <= Ids(d.local)
    && c.published <= d.published
  }

  lemma GrowthKeepsQueue(c: Core, d: Core)
    requires QueueInv(c) && Grows(c, d)
    ensures QueueInv(d)
  {
    assert forall k :: 0 <= k < |c.consumed| ==> Backed(c, c.consumed[k]);
  }

  lemma GitGrows(c: Core, remote: seq<Change>, out: Outcome, id: Change)
    requires c.mine <= Ids(c.local) && TipInv(c)
    ensures Grows(c, PullRebase(c, remote, out)) && Grows(c, CommitStaged(c, id))
  {
    if out.RebaseOk? {
      AtRemembers(c, Rebased(c.local, remote), out.head);
    }
    AtRemembers(c, c.local + [id], c.staged);
    RebaseKeeps(c.local, remote);
    IdsAppend(c.local, [id]);
    assert [id][0] in Ids([id]);
  }

  lemma GrowthKeepsCore(c: Core, d: Core, remote: seq<Change>, next: seq<Change>)
    requires CoreInv(c, remote) && Grows(c, d) && remote <= next
    requires d.published == c.published || (d.published == |d.consumed| && next == d.local)
    ensures CoreInv(d, next)
  {
    GrowthKeepsQueue(c, d);
    PrefixIds(remote, next);
    assert forall k :: 0 <= k < |d.consumed| ==> Backed(d, d.consumed[k]);
  }

  // ----- one step of the operation that holds the lock -----

  /** Clearing takes exactly the snapshot off the front of the queue. */
  lemma ClearTakesSnapshot(c: Core, op: Op)
    requires op.snap <= c.reasons
    ensures c.reasons == op.snap + ClearPending(c, op).reasons
    ensures NotesOf(ClearPending(c, op).consumed) == NotesOf(c.consumed) + op.snap
  {
  }

  lemma ClearBacked(c: Core, op: Op, k: nat)
    requires op.pc.Clear? && OpInv(op, c) && k < |ClearPending(c, op).consumed|
    requires forall j :: 0 <= j < |c.consumed| ==> Backed(c, c.consumed[j])
    ensures Backed(ClearPending(c, op), ClearPending(c, op).consumed[k])
  {
    var d := ClearPending(c, op);
    if k < |c.consumed| {
      assert Backed(c, c.consumed[k]) && d.consumed[k] == c.consumed[k];
    } else {
      assert d.consumed[k].tree == op.tree && d.consumed[k].commit == op.commit && d.consumed[k].commits == op.commits;
    }
  }

  lemma ClearKeepsQueue(c: Core, op: Op)
    requires QueueInv(c) && OpInv(op, c) && op.pc.Clear?
    ensures QueueInv(ClearPending(c, op))
  {
    var d := ClearPending(c, op);
    ClearTakesSnapshot(c, op);
    assert d.accepted == NotesOf(d.consumed) + d.reasons;
    forall k | 0 <= k < |d.consumed| ensures Backed(d, d.consumed[k]) {
      ClearBacked(c, op, k);
    }
  }

  lemma ClearKeeps(c: Core, op: Op, remote: seq<Change>)
    requires CoreInv(c, remote) && OpInv(op, c) && op.pc.Clear?
    ensures CoreInv(ClearPending(c, op), remote)
  {
    ClearKeepsQueue(c, op);
    assert forall k :: 0 <= k < |c.consumed| ==> ClearPending(c, op).consumed[k] == c.consumed[k];
  }

  lemma PushKeeps(c: Core, op: Op, remote: seq<Change>, out: Outcome)
    requires CoreInv(c, remote)
    ensures var e := StepPush(c, op, remote, out); CoreInv(e.core, e.remote) && remote <= e.remote
  {
    PushGrows(c, op, remote, out);
    var e := StepPush(c, op, remote, out);
    GrowthKeepsCore(c, e.core, remote, e.remote);
  }

  lemma PushGrows(c: Core, op: Op, remote: seq<Change>, out: Outcome)
    requires TipInv(c) && c.mine <= Ids(c.local) && c.published <= |c.consumed|
    ensures var e := StepPush(c, op, remote, out);
            && Grows(c, e.core) && remote <= e.remote
            && (e.core.published == c.published || (e.core.published == |e.core.consumed| && e.remote == e.core.local))
  {
    EndedGrows(c, op, remote, Synced);
    EndedGrows(c, op, remote, PushFailed);
  }

  lemma EndedGrows(c: Core, op: Op, remote: seq<Change>, st: Status)
    requires TipInv(c) && c.mine <= Ids(c.local) && c.published <= |c.consumed|
    ensures Grows(c, c) && Grows(c, Ended(c, op, remote, st).core)
  {
  }

  lemma RebaseStepKeeps(c: Core, op: Op, remote: seq<Change>, out: Outcome)
    requires CoreInv(c, remote)
    ensures var e := StepRebase(c, op, remote, out); CoreInv(e.core, e.remote) && e.remote == remote
  {
    GitGrows(c, remote, out, 0);
    GrowthKeepsCore(c, StepRebase(c, op, remote, out).core, remote, remote);
  }

  lemma ManualKeeps(c: Core, op: Op, remote: seq<Change>, out: Outcome)
    requires CoreInv(c, remote)
    ensures var e := StepManual(c, op, remote, out); CoreInv(e.core, e.remote) && remote <= e.remote
  {
    var e := StepManual(c, op, remote, out);
    GitGrows(c, remote, out, 0);
    GrowthKeepsCore(c, e.core, remote, e.remote);
  }

  lemma CommitKeeps(c: Core, op: Op, remote: seq<Change>, out: Outcome)
    requires CoreInv(c, remote)
    ensures var e := StepCommit(c, op, remote, out); CoreInv(e.core, e.remote) && e.remote == remote
  {
    var e := StepCommit(c, op, remote, out);
    GitGrows(c, remote, out, if out.CommitOk? || out.CommitFails? then out.id else 0);
    GrowthKeepsCore(c, e.core, remote, remote);
  }

  /** The steps that touch neither history nor queue. */
  predicate IsQuiet(pc: Pc) {
    !pc.Committing? && !pc.Clear? && !pc.Push1? && !pc.Push2? && !pc.Rebasing? && !pc.ManualRebase? && !pc.ManualPush?
  }

  lemma QuietStep(c: Core, op: Op, remote: seq<Change>, out: Outcome)
    requires IsQuiet(op.pc)
    ensures var e := StepOp(c, op, remote, out);
            && e.remote == remote
            && e.core == c.(staged := e.core.staged, needsPush := e.core.needsPush)
  {
  }

  lemma QuietKeeps(c: Core, op: Op, remote: seq<Change>, out: Outcome)
    requires CoreInv(c, remote) && IsQuiet(op.pc)
    ensures var e := StepOp(c, op, remote, out); CoreInv(e.core, e.remote) && remote <= e.remote
  {
    QuietStep(c, op, remote, out);
    GrowthKeepsCore(c, StepOp(c, op, remote, out).core, remote, remote);
  }

  /** Whatever an operation does keeps the queue's account and the histories, and the remote grows
      only at its end. */
  lemma StepKeepsCore(c: Core, op: Op, remote: seq<Change>, out: Outcome)
    requires CoreInv(c, remote) && OpInv(op, c)
    ensures var e := StepOp(c, op, remote, out); CoreInv(e.core, e.remote) && remote <= e.remote
  {
    if IsQuiet(op.pc) {
      QuietKeeps(c, op, remote, out);
    } else {
      match op.pc {
        case Committing => CommitKeeps(c, op, remote, out);
        case Clear(_) => ClearKeeps(c, op, remote);
        case Push1 => PushKeeps(c, op, remote, out);
        case Push2 => PushKeeps(c, op, remote, out);
        case Rebasing => RebaseStepKeeps(c, op, remote, out);
        case _ => ManualKeeps(c, op, remote, out);
      }
    }
  }

  lemma CommitOpInv(c: Core, op: Op, remote: seq<Change>, out: Outcome)
    requires CoreInv(c, remote) && OpInv(op, c) && op.pc.Committing?
    ensures var e := StepCommit(c, op, remote, out); OpInv(e.op, e.core)
  {
  }

  lemma BegunOpInv(c: Core, op: Op, remote: seq<Change>, out: Outcome)
    requires OpInv(op, c) && op.pc.Held?
    ensures var e := StepOp(c, op, remote, out); OpInv(e.op, e.core)
  {
  }

  lemma CheckedOpInv(c: Core, op: Op, remote: seq<Change>, out: Outcome)
    requires OpInv(op, c) && (op.pc.Ready? || op.pc.Guarded?)
    ensures var e := StepOp(c, op, remote, out); OpInv(e.op, e.core)
  {
  }

  lemma EarlyOpInv(c: Core, op: Op, remote: seq<Change>, out: Outcome)
    requires CoreInv(c, remote) && OpInv(op, c)
    requires op.pc.Held? || op.pc.Ready? || op.pc.Guarded? || op.pc.Staged?
    ensures var e := StepOp(c, op, remote, out); OpInv(e.op, e.core)
  {
    if op.pc.Held? {
      BegunOpInv(c, op, remote, out);
    } else if !op.pc.Staged? {
      CheckedOpInv(c, op, remote, out);
    }
  }

  predicate IsEarly(pc: Pc) {
    pc.Held? || pc.Ready? || pc.Guarded? || pc.Staged? || pc.Committing?
  }

  lemma LateStays(c: Core, op: Op, remote: seq<Change>, out: Outcome)
    requires !IsEarly(op.pc) && Active(op)
    ensures var pc := StepOp(c, op, remote, out).op.pc; !IsEarly(pc) && !pc.Start? && !pc.Clear?
  {
  }

  predicate IsAttempt(pc: Pc) {
    pc.Push1? || pc.Push2? || pc.Rebasing?
  }

  /** The push / rebase / push sequence moves on, so it makes at most two pushes and one rebase. */
  lemma PushCounts(c: Core, op: Op, remote: seq<Change>, out: Outcome)
    requires Counts(op) && (op.pc.Push1? || op.pc.Push2?)
    ensures var e := StepPush(c, op, remote, out);
            Counts(e.op) && (e.op.pc.SetFlag? ==> e.core.attempt == Some(e.op.pc.st))
  {
  }

  lemma RebaseCounts(c: Core, op: Op, remote: seq<Change>, out: Outcome)
    requires Counts(op) && op.pc.Rebasing?
    ensures var e := StepRebase(c, op, remote, out);
            Counts(e.op) && (e.op.pc.SetFlag? ==> e.core.attempt == Some(e.op.pc.st))
  {
  }

  lemma AttemptCounts(c: Core, op: Op, remote: seq<Change>, out: Outcome)
    requires Counts(op) && IsAttempt(op.pc)
    ensures var e := StepOp(c, op, remote, out);
            Counts(e.op) && (e.op.pc.SetFlag? ==> e.core.attempt == Some(e.op.pc.st))
  {
    if op.pc.Rebasing? {
      RebaseCounts(c, op, remote, out);
    } else {
      PushCounts(c, op, remote, out);
    }
  }

  lemma LateCounts(c: Core, op: Op, remote: seq<Change>, out: Outcome)
    requires Counts(op) && !IsEarly(op.pc) && Active(op) && !IsAttempt(op.pc)
    ensures var e := StepOp(c, op, remote, out); Counts(e.op) && !e.op.pc.SetFlag?
  {
  }

  lemma LateNotes(c: Core, op: Op, remote: seq<Change>, out: Outcome)
    requires !IsEarly(op.pc) && Active(op)
    ensures var e := StepOp(c, op, remote, out); e.op.snap == op.snap && e.op.kind == op.kind
  {
  }

  lemma LateSuffices(op: Op, c: Core)
    requires Counts(op) && !IsEarly(op.pc) && !op.pc.Start? && !op.pc.Clear? && (op.snap != [] ==> IsAuto(op))
    requires op.pc.SetFlag? ==> c.attempt == Some(op.pc.st)
    ensures OpInv(op, c)
  {
  }

  lemma LateOpInv(c: Core, op: Op, remote: seq<Change>, out: Outcome)
    requires OpInv(op, c) && !IsEarly(op.pc) && Active(op)
    ensures var e := StepOp(c, op, remote, out); OpInv(e.op, e.core)
  {
    var e := StepOp(c, op, remote, out);
    LateStays(c, op, remote, out);
    LateNotes(c, op, remote, out);
    if IsAttempt(op.pc) {
      AttemptCounts(c, op, remote, out);
    } else {
      LateCounts(c, op, remote, out);
    }
    LateSuffices(e.op, e.core);
  }

  lemma StepKeepsOp(c: Core, op: Op, remote: seq<Change>, out: Outcome)
    requires CoreInv(c, remote) && OpInv(op, c) && Active(op)
    ensures var e := StepOp(c, op, remote, out); OpInv(e.op, e.core)
  {
    if op.pc.Committing? {
      CommitOpInv(c, op, remote, out);
    } else if IsEarly(op.pc) {
      EarlyOpInv(c, op, remote, out);
    } else {
      LateOpInv(c, op, remote, out);
    }
  }

  // ----- devices and worlds -----

  /** What any action may do to the state an operation relies on. */
  lemma OpFrame(op: Op, c: Core, d: Core)
    requires OpInv(op, c) && c.vault <= d.vault && c.reasons <= d.reasons && Ids(c.local) <= Ids(d.local) && Remembers(c, d)
    requires d.attempt == c.attempt || !op.pc.SetFlag?
    ensures OpInv(op, d)
  {
  }

  lemma EditKeeps(d: Device, c: Core, remote: seq<Change>)
    requires DeviceInv(d, remote) && Grows(d.core, c) && c.published == d.core.published
    requires c.needsPush == d.core.needsPush && c.attempt == d.core.attempt
    ensures DeviceInv(d.(core := c), remote)
  {
    GrowthKeepsCore(d.core, c, remote, remote);
    forall t | t in d.ops ensures OpInv(d.ops[t], c) {
      OpFrame(d.ops[t], d.core, c);
    }
  }

  lemma NotifyKeeps(d: Device, reason: string, remote: seq<Change>)
    requires DeviceInv(d, remote)
    ensures DeviceInv(d.(core := Notify(d.core, reason)), remote)
  {
    var c := Notify(d.core, reason);
    assert c.accepted == NotesOf(c.consumed) + c.reasons;
    assert forall k :: 0 <= k < |c.consumed| ==> Backed(d.core, d.core.consumed[k]);
    forall t | t in d.ops ensures OpInv(d.ops[t], c) {
      OpFrame(d.ops[t], d.core, c);
    }
  }

  /** The other threads of a device have not entered or have left. */
  lemma ThreadKeeps(d: Device, t: Thread, remote: seq<Change>, out: Outcome)
    requires DeviceInv(d, remote) && t in d.ops && Active(d.ops[t]) && !d.ops[t].pc.Finishing?
    ensures var e := StepOp(d.core, d.ops[t], remote, out);
            && DeviceInv(d.(core := e.core, ops := d.ops[t := e.op]), e.remote) && remote <= e.remote
  {
    var op := d.ops[t];
    var e := StepOp(d.core, op, remote, out);
    StepKeepsCore(d.core, op, remote, out);
    StepKeepsOp(d.core, op, remote, out);
    StaysActive(d.core, op, remote, out);
    FlagStep(d.core, op, remote, out);
    var n := d.(core := e.core, ops := d.ops[t := e.op]);
    assert LockInv(n);
    forall u | u in n.ops ensures OpInv(n.ops[u], n.core) {
      if u != t {
        assert !Active(d.ops[u]);
      }
    }
    assert FlagInv(n) by {
      assert n.ops[t] == e.op;
      assert forall u :: u in d.ops && d.ops[u].pc.SetFlag? ==> u == t;
    }
  }

  lemma StaysActive(c: Core, op: Op, remote: seq<Change>, out: Outcome)
    requires Active(op) && !op.pc.Finishing?
    ensures Active(StepOp(c, op, remote, out).op)
  {
  }

  /** Only an attempt ends in writing the flag, and only writing it changes it. */
  predicate FlagUntouched(c: Core, e: Effect) {
    e.core.needsPush == c.needsPush && (e.op.pc.SetFlag? || e.core.attempt == c.attempt)
  }

  lemma PushUntouched(c: Core, op: Op, remote: seq<Change>, out: Outcome)
    ensures FlagUntouched(c, StepPush(c, op, remote, out))
  {
  }

  lemma RebaseUntouched(c: Core, op: Op, remote: seq<Change>, out: Outcome)
    ensures FlagUntouched(c, StepRebase(c, op, remote, out))
  {
  }

  lemma ManualUntouched(c: Core, op: Op, remote: seq<Change>, out: Outcome)
    ensures FlagUntouched(c, StepManual(c, op, remote, out))
  {
  }

  lemma CommitUntouched(c: Core, op: Op, remote: seq<Change>, out: Outcome)
    ensures FlagUntouched(c, StepCommit(c, op, remote, out))
  {
  }

  lemma LoudUntouched(c: Core, op: Op, remote: seq<Change>, out: Outcome)
    requires !IsQuiet(op.pc)
    ensures FlagUntouched(c, StepOp(c, op, remote, out))
  {
    match op.pc {
      case Committing => CommitUntouched(c, op, remote, out);
      case Push1 => PushUntouched(c, op, remote, out);
      case Push2 => PushUntouched(c, op, remote, out);
      case Rebasing => RebaseUntouched(c, op, remote, out);
      case ManualRebase => ManualUntouched(c, op, remote, out);
      case ManualPush => ManualUntouched(c, op, remote, out);
      case Clear(_) =>
    }
  }

  predicate FlagBacked(c: Core, op: Op) {
    c.needsPush ==> c.attempt == Some(PushFailed) || op.pc.SetFlag?
  }

  lemma QuietFlag(c: Core, op: Op, remote: seq<Change>, out: Outcome)
    requires IsQuiet(op.pc) && FlagBacked(c, op) && (op.pc.SetFlag? ==> c.attempt == Some(op.pc.st))
    ensures var e := StepOp(c, op, remote, out); FlagBacked(e.core, e.op)
  {
  }

  lemma FlagStep(c: Core, op: Op, remote: seq<Change>, out: Outcome)
    requires FlagBacked(c, op) && (op.pc.SetFlag? ==> c.attempt == Some(op.pc.st))
    ensures var e := StepOp(c, op, remote, out); FlagBacked(e.core, e.op)
  {
    if IsQuiet(op.pc) {
      QuietFlag(c, op, remote, out);
    } else {
      LoudUntouched(c, op, remote, out);
    }
  }

  lemma EnterLeaveFlag(d: Device, t: Thread, remote: seq<Change>, out: Outcome)
    requires FlagInv(d) && t in d.ops && (!Active(d.ops[t]) || d.ops[t].pc.Finishing?)
    ensures var n := StepThread(d, t, remote, out).0; n.core == d.core && FlagInv(n)
  {
    if u :| u in d.ops && d.ops[u].pc.SetFlag? {
      assert u != t && StepThread(d, t, remote, out).0.ops[u] == d.ops[u];
    }
  }

  lemma EnterLeaveLock(d: Device, t: Thread, remote: seq<Change>, out: Outcome)
    requires LockInv(d) && t in d.ops && (!Active(d.ops[t]) || d.ops[t].pc.Finishing?)
    ensures LockInv(StepThread(d, t, remote, out).0)
  {
  }

  lemma EnterLeaveKeeps(d: Device, t: Thread, remote: seq<Change>, out: Outcome)
    requires DeviceInv(d, remote) && t in d.ops && (!Active(d.ops[t]) || d.ops[t].pc.Finishing?)
    ensures var n := StepThread(d, t, remote, out); DeviceInv(n.0, remote) && n.1 == remote
  {
    var n := StepThread(d, t, remote, out).0;
    EnterLeaveFlag(d, t, remote, out);
    EnterLeaveLock(d, t, remote, out);
    forall u | u in n.ops ensures OpInv(n.ops[u], n.core) {
      EnterLeaveOp(d, t, remote, out, u);
    }
  }

  lemma EnterLeaveOp(d: Device, t: Thread, remote: seq<Change>, out: Outcome, u: Thread)
    requires t in d.ops && (!Active(d.ops[t]) || d.ops[t].pc.Finishing?) && u in d.ops && OpInv(d.ops[u], d.core)
    ensures var n := StepThread(d, t, remote, out).0; u in n.ops && OpInv(n.ops[u], n.core)
  {
  }

  lemma InvokeKeeps(d: Device, t: Thread, kind: Kind, remote: seq<Change>)
    requires DeviceInv(d, remote)
    ensures DeviceInv(Act(d, Invoke(t, kind), remote).0, remote)
  {
    var n := Act(d, Invoke(t, kind), remote).0;
    if t !in d.ops {
      assert FlagInv(n) by {
        if u :| u in d.ops && d.ops[u].pc.SetFlag? {
          assert n.ops[u] == d.ops[u];
        }
      }
    }
  }

  lemma ResolveKeeps(d: Device, local: seq<Change>, head: Content, disk: Content, remote: seq<Change>)
    requires DeviceInv(d, remote)
    ensures DeviceInv(Act(d, UserResolves(local, head, disk), remote).0, remote)
  {
    if d.core.unfinished && Ids(d.core.local) <= Ids(local) {
      AtRemembers(d.core, local, head);
      EditKeeps(d, Act(d, UserResolves(local, head, disk), remote).0.core, remote);
    }
  }

  /** Every action of a device keeps its invariant, and grows the remote at most at its end. */
  lemma ActKeeps(d: Device, a: Action, remote: seq<Change>)
    requires DeviceInv(d, remote)
    ensures var n := Act(d, a, remote); DeviceInv(n.0, n.1) && remote <= n.1
  {
    match a {
      case Edit(content) => EditKeeps(d, Act(d, a, remote).0.core, remote);
      case NotifyChange(reason) => NotifyKeeps(d, reason, remote);
      case Invoke(t, kind) => InvokeKeeps(d, t, kind, remote);
      case Step(t, out) =>
        if t in d.ops {
          if !Active(d.ops[t]) || d.ops[t].pc.Finishing? {
            EnterLeaveKeeps(d, t, remote, out);
          } else {
            ThreadKeeps(d, t, remote, out);
          }
        }
      case UserBegins(_) => EditKeeps(d, Act(d, a, remote).0.core, remote);
      case UserResolves(local, head, disk) => ResolveKeeps(d, local, head, disk, remote);
    }
  }

  // ----- many devices, one remote -----

  type DeviceId = nat
  datatype World = World(devices: map<DeviceId, Device>, remote: seq<Change>)
  datatype Event = Event(who: DeviceId, what: Action)

  ghost predicate WorldInv(w: World) {
    forall i :: i in w.devices ==> DeviceInv(w.devices[i], w.remote)
  }

  function Next(w: World, e: Event): World {
    if e.who !in w.devices then w
    else
      var (d, remote) := Act(w.devices[e.who], e.what, w.remote);
      World(w.devices[e.who := d], remote)
  }

  lemma RemoteGrowthKeeps(d: Device, remote: seq<Change>, next: seq<Change>)
    requires DeviceInv(d, remote) && remote <= next
    ensures DeviceInv(d, next)
  {
    PrefixIds(remote, next);
  }

  lemma NextKeeps(w: World, e: Event)
    requires WorldInv(w)
    ensures WorldInv(Next(w, e)) && w.remote <= Next(w, e).remote
  {
    if e.who in w.devices {
      var n := Next(w, e);
      ActKeeps(w.devices[e.who], e.what, w.remote);
      forall i | i in n.devices ensures DeviceInv(n.devices[i], n.remote) {
        if i != e.who {
          RemoteGrowthKeeps(w.devices[i], w.remote, n.remote);
        }
      }
    }
  }
}
