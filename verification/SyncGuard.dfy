/** The limit of the check for an unfinished merge (internal/git/sync_manager.go,
    internal/system/service.go): what happens when the user's own git tool starts one. */
module SyncGuard {
  import opened SyncProtocol
  import opened SyncSafety
  import opened SyncRuns

  /** The action makes a commit of the app land. */
  predicate Commits(d: Device, a: Action) {
    a.Step? && a.t in d.ops && d.ops[a.t].pc == Committing && (a.out.CommitOk? || (a.out.CommitFails? && a.out.landed))
  }

  /** Somewhere along the actions a commit lands while a merge or rebase is unfinished. */
  predicate CommitsUnfinished(d: Device, acts: seq<Action>, remote: seq<Change>)
    decreases acts
  {
    acts != [] &&
    ((Commits(d, acts[0]) && d.core.unfinished && Act(d, acts[0], remote).0.core.unfinished)
     || var (n, next) := Act(d, acts[0], remote); CommitsUnfinished(n, acts[1..], next))
  }

  /** Such an action does put a commit on the history. */
  lemma CommitLands(d: Device, a: Action, remote: seq<Change>)
    requires Commits(d, a)
    ensures Act(d, a, remote).0.core.local == d.core.local + [a.out.id]
    ensures Act(d, a, remote).0.core.unfinished == d.core.unfinished
  {
  }

  // ----- outside the window nothing happens -----

  /** A merge is unfinished and no operation has passed its check. */
  predicate Barred(d: Device) {
    d.core.unfinished && forall t :: t in d.ops ==> !InWindow(d.ops[t].pc)
  }

  predicate StillBarred(e: Effect) {
    e.core.unfinished && !InWindow(e.op.pc)
  }

  lemma PushBarred(c: Core, op: Op, remote: seq<Change>, out: Outcome)
    requires c.unfinished
    ensures StillBarred(StepPush(c, op, remote, out))
  {
  }

  lemma RebaseBarred(c: Core, op: Op, remote: seq<Change>, out: Outcome)
    requires c.unfinished
    ensures StillBarred(StepRebase(c, op, remote, out)) && StillBarred(StepManual(c, op, remote, out))
  {
  }

  lemma QuietBarred(c: Core, op: Op, remote: seq<Change>, out: Outcome)
    requires c.unfinished && !InWindow(op.pc) && IsQuiet(op.pc)
    ensures !InWindow(StepOp(c, op, remote, out).op.pc)
  {
  }

  lemma StepBarred(c: Core, op: Op, remote: seq<Change>, out: Outcome)
    requires c.unfinished && !InWindow(op.pc)
    ensures StillBarred(StepOp(c, op, remote, out))
  {
    if IsQuiet(op.pc) {
      QuietStep(c, op, remote, out);
      QuietBarred(c, op, remote, out);
    } else if op.pc.Push1? || op.pc.Push2? {
      PushBarred(c, op, remote, out);
    } else if !op.pc.Clear? {
      RebaseBarred(c, op, remote, out);
    }
  }

  lemma ActBarred(d: Device, a: Action, remote: seq<Change>)
    requires Barred(d) && OwnAction(a)
    ensures Barred(Act(d, a, remote).0) && !Commits(d, a)
  {
    if a.Step? && a.t in d.ops {
      StepBarred(d.core, d.ops[a.t], remote, a.out);
    }
  }

  lemma {:induction false} NoneCommits(d: Device, acts: seq<Action>, remote: seq<Change>)
    requires Barred(d) && OwnActions(acts)
    ensures !CommitsUnfinished(d, acts, remote)
    decreases acts
  {
    if acts != [] {
      ActBarred(d, acts[0], remote);
      var (n, next) := Act(d, acts[0], remote);
      NoneCommits(n, acts[1..], next);
    }
  }

  // ----- inside the window the commit goes through -----

  lemma FromCommitting(d: Device, t: Thread, remote: seq<Change>)
    requires d.core.unfinished && t in d.ops && d.ops[t].pc == Committing
    ensures CommitsUnfinished(d, [Step(t, CommitOk(0))], remote)
  {
    CommitLands(d, Step(t, CommitOk(0)), remote);
  }

  lemma FromStaged(d: Device, t: Thread, remote: seq<Change>)
    requires d.core.unfinished && t in d.ops && d.ops[t].pc == Staged
    ensures CommitsUnfinished(d, [Step(t, StatusDirty), Step(t, CommitOk(0))], remote)
  {
    var acts := [Step(t, StatusDirty), Step(t, CommitOk(0))];
    assert acts[1..] == [Step(t, CommitOk(0))];
    var (n, next) := Act(d, acts[0], remote);
    FromCommitting(n, t, next);
  }

  lemma FromGuarded(d: Device, t: Thread, remote: seq<Change>)
    requires d.core.unfinished && t in d.ops && d.ops[t].pc == Guarded
    ensures CommitsUnfinished(d, [Step(t, Succeeds(true)), Step(t, StatusDirty), Step(t, CommitOk(0))], remote)
  {
    var acts := [Step(t, Succeeds(true)), Step(t, StatusDirty), Step(t, CommitOk(0))];
    assert acts[1..] == [Step(t, StatusDirty), Step(t, CommitOk(0))];
    var (n, next) := Act(d, acts[0], remote);
    FromStaged(n, t, next);
  }

  lemma WindowCommits(d: Device, t: Thread, remote: seq<Change>) returns (acts: seq<Action>)
    requires d.core.unfinished && t in d.ops && InWindow(d.ops[t].pc)
    ensures CommitsUnfinished(d, acts, remote) && OwnActions(acts)
  {
    match d.ops[t].pc {
      case Committing =>
        acts := [Step(t, CommitOk(0))];
        FromCommitting(d, t, remote);
      case Staged =>
        acts := [Step(t, StatusDirty), Step(t, CommitOk(0))];
        FromStaged(d, t, remote);
      case Guarded =>
        acts := [Step(t, Succeeds(true)), Step(t, StatusDirty), Step(t, CommitOk(0))];
        FromGuarded(d, t, remote);
    }
  }

  /** When the user's git tool starts a merge, some way the app may go on from there lands a commit in
      the middle of it if and only if an operation was between its check and its commit. */
  lemma GuardNeedsQuiet(d: Device, remote: seq<Change>, disk: Content)
    ensures (exists acts: seq<Action> :: (OwnActions(acts))
                && CommitsUnfinished(Act(d, UserBegins(disk), remote).0, acts, remote))
       <==> exists t :: t in d.ops && InWindow(d.ops[t].pc)
  {
    var n := Act(d, UserBegins(disk), remote).0;
    if t :| t in d.ops && InWindow(d.ops[t].pc) {
      var acts := WindowCommits(n, t, remote);
    } else {
      forall acts: seq<Action> | OwnActions(acts)
        ensures !CommitsUnfinished(n, acts, remote)
      {
        NoneCommits(n, acts, remote);
      }
    }
  }

  // ----- such a run from the start -----

  /** From a fresh start: a note, an automatic cycle past its check, a merge begun by hand; the next
      step commits in the middle of it. */
  lemma UnguardedCommit() returns (w: World, es: seq<Event>, d: Device)
    ensures Initial(w) && Run(w, es) == OneDevice(d)
    ensures d.core.unfinished && Commits(d, Step(0, CommitOk(1)))
    ensures Act(d, Step(0, CommitOk(1)), []).0.core.local == [1] && Act(d, Step(0, CommitOk(1)), []).0.core.unfinished
  {
    w, es := MergeInWindow();
    d := Middle().0[4];
    CommitLands(d, Step(0, CommitOk(1)), []);
  }

  // ----- without one, the guard holds -----

  /** The user's own git tool starts something only while no operation is between its check and its
      commit. */
  predicate Undisturbed(d: Device, a: Action) {
    a.UserBegins? ==> forall t :: t in d.ops ==> !InWindow(d.ops[t].pc)
  }

  predicate GuardInv(d: Device) {
    forall t :: t in d.ops && InWindow(d.ops[t].pc) ==> !d.core.unfinished
  }

  lemma WindowStep(c: Core, op: Op, remote: seq<Change>, out: Outcome)
    requires InWindow(op.pc) && !c.unfinished
    ensures !StepOp(c, op, remote, out).core.unfinished
  {
  }

  lemma EntersClean(c: Core, op: Op, remote: seq<Change>, out: Outcome)
    requires !InWindow(op.pc)
    ensures var e := StepOp(c, op, remote, out); InWindow(e.op.pc) ==> op.pc.Ready? && !e.core.unfinished
  {
    if c.unfinished {
      StepBarred(c, op, remote, out);
    } else if !IsQuiet(op.pc) {
      LoudLeaves(c, op, remote, out);
    }
  }

  lemma LoudLeaves(c: Core, op: Op, remote: seq<Change>, out: Outcome)
    requires !IsQuiet(op.pc)
    ensures !InWindow(StepOp(c, op, remote, out).op.pc)
  {
  }

  lemma ThreadGuards(d: Device, t: Thread, remote: seq<Change>, out: Outcome)
    requires DeviceInv(d, remote) && GuardInv(d) && t in d.ops
    ensures GuardInv(StepThread(d, t, remote, out).0)
  {
    var op, n := d.ops[t], StepThread(d, t, remote, out).0;
    if Active(op) && !op.pc.Finishing? {
      if InWindow(op.pc) {
        WindowStep(d.core, op, remote, out);
      } else {
        EntersClean(d.core, op, remote, out);
      }
      forall u | u in n.ops && InWindow(n.ops[u].pc) ensures !n.core.unfinished {
        assert u != t ==> !Active(d.ops[u]);
      }
    }
  }

  lemma ActGuards(d: Device, a: Action, remote: seq<Change>)
    requires DeviceInv(d, remote) && GuardInv(d) && Undisturbed(d, a)
    ensures GuardInv(Act(d, a, remote).0)
  {
    if a.Step? && a.t in d.ops {
      ThreadGuards(d, a.t, remote, a.out);
    }
  }

  ghost predicate WorldGuarded(w: World) {
    forall i :: i in w.devices ==> GuardInv(w.devices[i])
  }

  /** No user starts a merge or rebase by hand inside an operation's check-to-commit window. */
  predicate QuietRun(w: World, es: seq<Event>)
    decreases es
  {
    es == [] ||
    ((es[0].who in w.devices ==> Undisturbed(w.devices[es[0].who], es[0].what)) && QuietRun(Next(w, es[0]), es[1..]))
  }

  lemma {:induction false} RunGuards(w: World, es: seq<Event>)
    requires WorldInv(w) && WorldGuarded(w) && QuietRun(w, es)
    ensures WorldGuarded(Run(w, es))
    decreases es
  {
    if es != [] {
      if es[0].who in w.devices {
        ActGuards(w.devices[es[0].who], es[0].what, w.remote);
      }
      NextKeeps(w, es[0]);
      RunGuards(Next(w, es[0]), es[1..]);
    }
  }

  /** No commit fires while a merge or rebase is unfinished, rebases left behind by a timeout or a
      failed abort included: an operation about to commit always finds none. */
  lemma NoCommitWhileUnfinished(w: World, es: seq<Event>, i: DeviceId, t: Thread)
    requires Initial(w) && QuietRun(w, es) && i in Run(w, es).devices
    requires t in Run(w, es).devices[i].ops && Run(w, es).devices[i].ops[t].pc == Committing
    ensures !Run(w, es).devices[i].core.unfinished
  {
    InitialInv(w);
    RunGuards(w, es);
  }
}
