/** The main results about the sync protocol, over every run of any number of devices. */
module SyncTheorems {
  import opened Text
  import opened SyncProtocol
  import opened SyncSafety
  import opened SyncRuns

  // ----- the queue -----

  /** Over every run, the notes accepted are the notes consumed followed by those still queued, in
      order; and each consumed note names a commit that is in the local history and holds the content it
      was consumed for. `SyncCover.NoChangeDropped` says that this content is new enough. */
  lemma NotesAccounted(w: World, es: seq<Event>, i: DeviceId)
    requires Initial(w) && i in Run(w, es).devices
    ensures var c := Run(w, es).devices[i].core;
            && c.accepted == NotesOf(c.consumed) + c.reasons
            && (c.hasPending <==> c.reasons != [])
            && forall k :: 0 <= k < |c.consumed| ==> Backed(c, c.consumed[k])
  {
    Reachable(w, es);
  }

  /** A step that leaves the queue alone, keeps every local change and grows the remote at its end. */
  predicate Keeps(c: Core, remote: seq<Change>, e: Effect) {
    && e.core.reasons == c.reasons && e.core.consumed == c.consumed
    && Ids(c.local) <= Ids(e.core.local) && remote <= e.remote
  }

  lemma CommitHistory(c: Core, op: Op, remote: seq<Change>, out: Outcome)
    ensures Keeps(c, remote, StepCommit(c, op, remote, out))
  {
    if out.CommitOk? || out.CommitFails? {
      IdsAppend(c.local, [out.id]);
    }
  }

  lemma PushHistory(c: Core, op: Op, remote: seq<Change>, out: Outcome)
    ensures Keeps(c, remote, StepPush(c, op, remote, out))
  {
  }

  lemma RebaseHistory(c: Core, op: Op, remote: seq<Change>, out: Outcome)
    ensures Keeps(c, remote, StepRebase(c, op, remote, out))
    ensures Keeps(c, remote, StepManual(c, op, remote, out))
  {
    RebaseKeeps(c.local, remote);
  }

  lemma GitHistory(c: Core, op: Op, remote: seq<Change>, out: Outcome)
    requires !IsQuiet(op.pc) && !op.pc.Clear?
    ensures Keeps(c, remote, StepOp(c, op, remote, out))
  {
    if op.pc.Committing? {
      CommitHistory(c, op, remote, out);
    } else if op.pc.Push1? || op.pc.Push2? {
      PushHistory(c, op, remote, out);
    } else {
      RebaseHistory(c, op, remote, out);
    }
  }

  lemma StepHistory(c: Core, op: Op, remote: seq<Change>, out: Outcome)
    requires !op.pc.Clear?
    ensures Keeps(c, remote, StepOp(c, op, remote, out))
  {
    if IsQuiet(op.pc) {
      QuietStep(c, op, remote, out);
    } else {
      GitHistory(c, op, remote, out);
    }
  }

  /** Notes leave the queue only in the step after a commit was made or found unnecessary; that step
      removes exactly the notes the cycle started from, and a cycle that failed earlier never gets there. */
  lemma OnlyClearingConsumes(c: Core, op: Op, remote: seq<Change>, out: Outcome)
    requires OpInv(op, c)
    ensures var e := StepOp(c, op, remote, out);
            if op.pc.Clear?
            then c.reasons == op.snap + e.core.reasons && NotesOf(e.core.consumed) == NotesOf(c.consumed) + op.snap
            else e.core.reasons == c.reasons && e.core.consumed == c.consumed
  {
    if op.pc.Clear? {
      ClearTakesSnapshot(c, op);
      assert StepOp(c, op, remote, out).core == ClearPending(c, op);
    } else {
      StepHistory(c, op, remote, out);
    }
  }

  /** Reaching that step took a commit of the staged content, or finding it already committed: it is what
      the tip of the history holds. */
  lemma ClearingNeedsCommit(c: Core, op: Op, remote: seq<Change>, out: Outcome)
    requires CoreInv(c, remote) && OpInv(op, c) && Active(op) && !op.pc.Clear?
    ensures var e := StepOp(c, op, remote, out);
            e.op.pc.Clear? ==>
              && (op.pc.Staged? || op.pc.Committing?)
              && e.op.commit == Tip(e.core.local) && e.op.commits == Ids(e.core.local)
              && Holds(e.core, e.op.commit, e.op.tree) && (op.pc.Committing? ==> e.op.tree == c.staged)
              && (op.pc.Staged? ==> e.op.tree == Disk(c))
  {
    ClearReached(c, op, remote, out);
    StepKeepsOp(c, op, remote, out);
  }

  lemma CommitReached(c: Core, op: Op, remote: seq<Change>, out: Outcome)
    ensures var e := StepCommit(c, op, remote, out);
            e.op.pc.Clear? && !op.pc.Clear? ==>
              e.op.commit == Tip(e.core.local) && e.op.commits == Ids(e.core.local) && e.op.tree == c.staged
  {
  }

  lemma ClearReached(c: Core, op: Op, remote: seq<Change>, out: Outcome)
    requires Active(op) && !op.pc.Clear?
    ensures var e := StepOp(c, op, remote, out);
            e.op.pc.Clear? ==>
              && (op.pc.Staged? || op.pc.Committing?)
              && e.op.commit == Tip(e.core.local) && e.op.commits == Ids(e.core.local)
              && e.op.tree == if op.pc.Committing? then c.staged else Disk(c)
  {
    if op.pc.Committing? {
      CommitReached(c, op, remote, out);
    } else if !IsEarly(op.pc) {
      LateStays(c, op, remote, out);
    }
  }

  // ----- histories -----

  lemma LocalStep(d: Device, a: Action, remote: seq<Change>)
    ensures Ids(d.core.local) <= Ids(Act(d, a, remote).0.core.local)
    ensures remote <= Act(d, a, remote).1
  {
    if a.Step? && a.t in d.ops {
      var op := d.ops[a.t];
      if op.pc != Start && op.pc != Finishing && !op.pc.Clear? {
        StepHistory(d.core, op, remote, a.out);
      }
    }
  }

  /** Across any interleaving of devices, the remote history grows only by a suffix, and no change
      that was ever in a device's history leaves it: not by a push, a rebase or an aborted rebase. */
  lemma {:induction false} HistoriesOnlyGrow(w: World, es: seq<Event>)
    ensures w.remote <= Run(w, es).remote
    ensures forall i :: i in w.devices ==>
              i in Run(w, es).devices && Ids(w.devices[i].core.local) <= Ids(Run(w, es).devices[i].core.local)
    decreases es
  {
    if es != [] {
      var n := Next(w, es[0]);
      if es[0].who in w.devices {
        LocalStep(w.devices[es[0].who], es[0].what, w.remote);
      }
      HistoriesOnlyGrow(n, es[1..]);
      forall i | i in w.devices
        ensures i in Run(w, es).devices && Ids(w.devices[i].core.local) <= Ids(Run(w, es).devices[i].core.local)
      {
        assert i in n.devices && Ids(w.devices[i].core.local) <= Ids(n.devices[i].core.local);
      }
    }
  }

  /** Every commit the app made on a device is in that device's history for good. */
  lemma CommitsStay(w: World, es: seq<Event>, i: DeviceId)
    requires Initial(w) && i in Run(w, es).devices
    ensures Run(w, es).devices[i].core.mine <= Ids(Run(w, es).devices[i].core.local)
  {
    Reachable(w, es);
  }

  /** "Synced" from the automatic path means the remote equals the local history at that push, so
      every note consumed so far is published. */
  lemma SyncedMeansEqual(c: Core, op: Op, remote: seq<Change>, out: Outcome)
    requires !op.pc.SetFlag?
    ensures var e := StepOp(c, op, remote, out);
            e.op.pc == SetFlag(Synced) ==> e.remote == e.core.local && e.core.published == |e.core.consumed|
  {
    if !IsAttempt(op.pc) {
      OnlyAttemptsEnd(c, op, remote, out);
    }
  }

  lemma OnlyAttemptsEnd(c: Core, op: Op, remote: seq<Change>, out: Outcome)
    requires !op.pc.SetFlag? && !IsAttempt(op.pc)
    ensures !StepOp(c, op, remote, out).op.pc.SetFlag?
  {
    if IsQuiet(op.pc) {
      QuietEnds(c, op, remote, out);
    }
  }

  lemma QuietEnds(c: Core, op: Op, remote: seq<Change>, out: Outcome)
    requires !op.pc.SetFlag? && IsQuiet(op.pc)
    ensures !StepOp(c, op, remote, out).op.pc.SetFlag?
  {
  }

  /** The step makes a commit, whether or not git says so. */
  predicate MakesCommit(d: Device, a: Action, id: Change) {
    a.Step? && a.t in d.ops && d.ops[a.t].pc == Committing && (a.out == CommitOk(id) || a.out == CommitFails(true, id))
  }

  lemma CommitIsMine(d: Device, a: Action, remote: seq<Change>, id: Change)
    requires MakesCommit(d, a, id)
    ensures var c := Act(d, a, remote).0.core; id in c.mine && id in Ids(c.local)
  {
    assert (d.core.local + [id])[|d.core.local|] == id;
  }

  /** Whatever commit the app makes at some point of a run is in that device's history at every later point. */
  lemma CommitNeverLost(w: World, before: seq<Event>, e: Event, after: seq<Event>, id: Change)
    requires e.who in Run(w, before).devices && MakesCommit(Run(w, before).devices[e.who], e.what, id)
    ensures var x := Run(w, before + [e] + after); e.who in x.devices && id in Ids(x.devices[e.who].core.local)
  {
    var y := Run(w, before);
    CommitIsMine(y.devices[e.who], e.what, y.remote, id);
    RunAppend(w, before + [e], after);
    RunAppend(w, before, [e]);
    assert [e][1..] == [];
    HistoriesOnlyGrow(Next(y, e), after);
  }

  /** What was published once stays on the remote, through whatever the other devices do: the commit
      that holds the note's content, and the history up to it. */
  lemma PublishedStays(w: World, es: seq<Event>, i: DeviceId)
    requires Initial(w) && i in Run(w, es).devices
    ensures var c := Run(w, es).devices[i].core;
            && c.published <= |c.consumed|
            && forall k :: 0 <= k < c.published ==>
                 var e := c.consumed[k];
                 && Backed(c, e) && e.commits <= Ids(Run(w, es).remote)
                 && (e.commit.Some? ==> e.commit.value in Ids(Run(w, es).remote))
  {
    Reachable(w, es);
    var c := Run(w, es).devices[i].core;
    assert forall k :: 0 <= k < |c.consumed| ==> Backed(c, c.consumed[k]);
  }

  // ----- exclusion -----

  /** At most one operation of a device is past its entry, and it makes at most two pushes and one
      rebase. */
  lemma OneOperationAtATime(w: World, es: seq<Event>, i: DeviceId, t: Thread, u: Thread)
    requires Initial(w) && i in Run(w, es).devices
    requires t in Run(w, es).devices[i].ops && u in Run(w, es).devices[i].ops
    ensures var ops := Run(w, es).devices[i].ops;
            && (Active(ops[t]) && Active(ops[u]) ==> t == u)
            && ops[t].pushes <= 2 && ops[t].rebases <= 1
  {
    Reachable(w, es);
    assert OpInv(Run(w, es).devices[i].ops[t], Run(w, es).devices[i].core);
  }

  // ----- failed pushes are remembered -----

  /** In every reachable state a set flag means the latest automatic push attempt failed, unless the
      next attempt has just ended and is about to write the flag. */
  lemma FlagMeansFailedPush(w: World, es: seq<Event>, i: DeviceId)
    requires Initial(w) && i in Run(w, es).devices
    ensures var d := Run(w, es).devices[i];
            d.core.needsPush && (forall t :: t in d.ops ==> !d.ops[t].pc.SetFlag?) ==> d.core.attempt == Some(PushFailed)
  {
    Reachable(w, es);
  }

  /** The flag is cleared only by an attempt that ended otherwise, or by a cycle that found nothing
      to publish. */
  lemma FlagClearedOnly(d: Device, a: Action, remote: seq<Change>)
    ensures d.core.needsPush && !Act(d, a, remote).0.core.needsPush ==>
              a.Step? && a.t in d.ops && (d.ops[a.t].pc == FlagOff || (d.ops[a.t].pc.SetFlag? && d.ops[a.t].pc.st != PushFailed))
  {
    if a.Step? && a.t in d.ops && d.ops[a.t].pc != FlagOff && !d.ops[a.t].pc.SetFlag? {
      FlagKept(d.core, d.ops[a.t], remote, a.out);
    }
  }

  /** "Nothing to publish" is what the check of that very cycle answered: no repository, or not all of
      auto-push, a remote and unpushed commits. */
  lemma FlagOffNeedsCheck(c: Core, op: Op, remote: seq<Change>, out: Outcome)
    requires op.pc != FlagOff && StepOp(c, op, remote, out).op.pc == FlagOff
    ensures (op.pc == Publishing && out != Gate(true)) || (op.pc == Retry && out != Succeeds(true))
  {
  }

  lemma FlagKept(c: Core, op: Op, remote: seq<Change>, out: Outcome)
    requires op.pc != FlagOff && !op.pc.SetFlag?
    ensures StepOp(c, op, remote, out).core.needsPush == c.needsPush
  {
    if !IsQuiet(op.pc) {
      LoudUntouched(c, op, remote, out);
    }
  }

  /** The flag belongs to the automatic path: a manual push leaves it as it was, whatever comes of the
      push, and so it stays set even when that push publishes everything. */
  lemma ManualPushLeavesFlag(c: Core, op: Op, remote: seq<Change>, out: Outcome)
    requires op.pc == ManualPush
    ensures var e := StepOp(c, op, remote, out);
            && e.core.needsPush == c.needsPush && e.core.attempt == c.attempt
            && (e.remote == c.local <==> remote == c.local || (Accepted(c, remote, out) && remote <= c.local))
  {
  }
}
