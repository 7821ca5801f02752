/** Failed pushes are remembered (internal/git/sync_manager.go): the flag is set exactly while the last
    push attempt of the automatic path stands failed, and a cycle that finds it set pushes again. */
module SyncFlag {
  import opened Text
  import opened SyncProtocol
  import opened SyncSafety
  import opened SyncRuns

  // ----- what happened -----

  /** How an attempt ends with this answer of git, if it does: a push that gets through, a push that does
      not and is not answered by a rebase, a rebase that does not go through. */
  function AttemptEnd(c: Core, op: Op, remote: seq<Change>, out: Outcome): Option<Status> {
    var pushing, fits := op.pc == Push1 || op.pc == Push2, remote <= c.local;
    if pushing && out.PushOk? && fits then Some(Synced)
    else if pushing && !(op.pc == Push1 && out.PushRejected? && !fits) then Some(PushFailed)
    else if op.pc == Rebasing && out.RebaseConflict? then Some(Conflict)
    else if op.pc == Rebasing && !out.RebaseOk? then Some(PushFailed)
    else None
  }

  /** What a step of a device does for the flag: the end of an attempt, or finding nothing to publish. */
  datatype News = Nothing | Ended(st: Status) | NoneToPublish

  function NewsOf(d: Device, a: Action, remote: seq<Change>): News {
    if !(a.Step? && a.t in d.ops) then Nothing
    else if d.ops[a.t].pc == FlagOff then NoneToPublish
    else match AttemptEnd(d.core, d.ops[a.t], remote, a.out)
      case None => Nothing
      case Some(st) => Ended(st)
  }

  function NewsAt(w: World, e: Event, i: DeviceId): News {
    if e.who == i && i in w.devices then NewsOf(w.devices[i], e.what, w.remote) else Nothing
  }

  /** A failed push stands: an attempt of the device ended so, and no attempt ended and no cycle found
      nothing to publish since. */
  ghost predicate Stands(w: World, es: seq<Event>, i: DeviceId) {
    exists k :: 0 <= k < |es| && FailedAt(w, es, i, k) && forall j :: k < j < |es| ==> QuietAt(w, es, i, j)
  }

  predicate FailedAt(w: World, es: seq<Event>, i: DeviceId, k: nat)
    requires k < |es|
  {
    NewsAt(Run(w, es[..k]), es[k], i) == Ended(PushFailed)
  }

  predicate QuietAt(w: World, es: seq<Event>, i: DeviceId, k: nat)
    requires k < |es|
  {
    NewsAt(Run(w, es[..k]), es[k], i) == Nothing
  }

  /** One more event changes nothing about the ones before it. */
  lemma NewsBefore(w: World, es: seq<Event>, e: Event, i: DeviceId, k: nat)
    requires k < |es|
    ensures FailedAt(w, es + [e], i, k) == FailedAt(w, es, i, k) && QuietAt(w, es + [e], i, k) == QuietAt(w, es, i, k)
  {
    assert (es + [e])[..k] == es[..k] && (es + [e])[k] == es[k];
  }

  lemma NewsLast(w: World, es: seq<Event>, e: Event, i: DeviceId)
    ensures FailedAt(w, es + [e], i, |es|) <==> NewsAt(Run(w, es), e, i) == Ended(PushFailed)
    ensures QuietAt(w, es + [e], i, |es|) <==> NewsAt(Run(w, es), e, i) == Nothing
  {
    assert (es + [e])[..|es|] == es && (es + [e])[|es|] == e;
  }

  lemma StandsOn(w: World, es: seq<Event>, e: Event, i: DeviceId)
    requires NewsAt(Run(w, es), e, i) == Nothing && Stands(w, es, i)
    ensures Stands(w, es + [e], i)
  {
    var all := es + [e];
    var k :| 0 <= k < |es| && FailedAt(w, es, i, k) && forall j :: k < j < |es| ==> QuietAt(w, es, i, j);
    NewsBefore(w, es, e, i, k);
    forall j | k < j < |all| ensures QuietAt(w, all, i, j) {
      if j < |es| {
        NewsBefore(w, es, e, i, j);
      } else {
        NewsLast(w, es, e, i);
      }
    }
  }

  lemma StoodBefore(w: World, es: seq<Event>, e: Event, i: DeviceId)
    requires Stands(w, es + [e], i) && NewsAt(Run(w, es), e, i) != Ended(PushFailed)
    ensures NewsAt(Run(w, es), e, i) == Nothing && Stands(w, es, i)
  {
    var all := es + [e];
    var k :| 0 <= k < |all| && FailedAt(w, all, i, k) && forall j :: k < j < |all| ==> QuietAt(w, all, i, j);
    NewsLast(w, es, e, i);
    assert k != |es|;
    NewsBefore(w, es, e, i, k);
    assert QuietAt(w, all, i, |es|);
    forall j | k < j < |es| ensures QuietAt(w, es, i, j) {
      assert QuietAt(w, all, i, j);
      NewsBefore(w, es, e, i, j);
    }
  }

  lemma StandsSnoc(w: World, es: seq<Event>, e: Event, i: DeviceId)
    ensures var news := NewsAt(Run(w, es), e, i);
            Stands(w, es + [e], i) <==> if news == Nothing then Stands(w, es, i) else news == Ended(PushFailed)
  {
    var news := NewsAt(Run(w, es), e, i);
    if news == Ended(PushFailed) {
      NewsLast(w, es, e, i);
      assert FailedAt(w, es + [e], i, |es|);
    } else if Stands(w, es + [e], i) {
      StoodBefore(w, es, e, i);
    } else if news == Nothing && Stands(w, es, i) {
      StandsOn(w, es, e, i);
    }
  }

  // ----- the flag follows -----

  /** The flag says whether a failed push stands, or is about to be told by the operation that knows. */
  predicate Tells(c: Core, op: Op, stands: bool) {
    if op.pc.SetFlag? then stands <==> op.pc.st == PushFailed else c.needsPush <==> stands
  }

  predicate FlagSays(d: Device, stands: bool) {
    (forall t :: t in d.ops && d.ops[t].pc.SetFlag? ==> Tells(d.core, d.ops[t], stands))
    && ((forall t :: t in d.ops ==> !d.ops[t].pc.SetFlag?) ==> (d.core.needsPush <==> stands))
  }

  function StandsAfter(stands: bool, news: News): bool {
    if news == Nothing then stands else news == Ended(PushFailed)
  }

  function StepNews(c: Core, op: Op, remote: seq<Change>, out: Outcome): News {
    if op.pc == FlagOff then NoneToPublish
    else match AttemptEnd(c, op, remote, out)
      case None => Nothing
      case Some(st) => Ended(st)
  }

  lemma PushTells(c: Core, op: Op, remote: seq<Change>, out: Outcome, stands: bool)
    requires (op.pc == Push1 || op.pc == Push2) && Tells(c, op, stands)
    ensures var e := StepPush(c, op, remote, out);
            Tells(e.core, e.op, StandsAfter(stands, StepNews(c, op, remote, out)))
  {
  }

  lemma RebaseTells(c: Core, op: Op, remote: seq<Change>, out: Outcome, stands: bool)
    requires op.pc == Rebasing && Tells(c, op, stands)
    ensures var e := StepRebase(c, op, remote, out);
            Tells(e.core, e.op, StandsAfter(stands, StepNews(c, op, remote, out)))
  {
  }

  lemma OtherLoudTells(c: Core, op: Op, remote: seq<Change>, out: Outcome, stands: bool)
    requires !IsQuiet(op.pc) && !IsAttempt(op.pc) && Tells(c, op, stands)
    ensures var e := StepOp(c, op, remote, out); Tells(e.core, e.op, stands)
  {
    LoudUntouched(c, op, remote, out);
    match op.pc
    case Committing =>
    case Clear(_) =>
    case _ =>
  }

  lemma QuietTells(c: Core, op: Op, remote: seq<Change>, out: Outcome, stands: bool)
    requires IsQuiet(op.pc) && Tells(c, op, stands)
    ensures var e := StepOp(c, op, remote, out);
            Tells(e.core, e.op, StandsAfter(stands, StepNews(c, op, remote, out)))
  {
  }

  lemma StepTells(c: Core, op: Op, remote: seq<Change>, out: Outcome, stands: bool)
    requires Tells(c, op, stands)
    ensures var e := StepOp(c, op, remote, out);
            Tells(e.core, e.op, StandsAfter(stands, StepNews(c, op, remote, out)))
  {
    if IsQuiet(op.pc) {
      QuietTells(c, op, remote, out, stands);
    } else if op.pc == Rebasing {
      RebaseTells(c, op, remote, out, stands);
    } else if IsAttempt(op.pc) {
      PushTells(c, op, remote, out, stands);
    } else {
      OtherLoudTells(c, op, remote, out, stands);
    }
  }

  lemma ThreadTells(d: Device, t: Thread, remote: seq<Change>, out: Outcome, stands: bool)
    requires LockInv(d) && FlagSays(d, stands) && t in d.ops && Active(d.ops[t]) && !d.ops[t].pc.Finishing?
    ensures FlagSays(StepThread(d, t, remote, out).0, StandsAfter(stands, NewsOf(d, Step(t, out), remote)))
  {
    var op, n := d.ops[t], StepThread(d, t, remote, out).0;
    assert forall u :: u in d.ops && d.ops[u].pc.SetFlag? ==> u == t;
    StepTells(d.core, op, remote, out, stands);
    assert n.ops[t] == StepOp(d.core, op, remote, out).op;
    assert forall u :: u in n.ops && u != t ==> n.ops[u] == d.ops[u];
  }

  /** The operations about to write the flag, and the flag, are the same in both. */
  predicate SameWriters(d: Device, n: Device) {
    && n.core.needsPush == d.core.needsPush
    && (forall u :: u in d.ops && d.ops[u].pc.SetFlag? ==> u in n.ops && n.ops[u] == d.ops[u])
    && (forall u :: u in n.ops && n.ops[u].pc.SetFlag? ==> u in d.ops && n.ops[u] == d.ops[u])
  }

  lemma SameWritersTell(d: Device, n: Device, stands: bool)
    requires FlagSays(d, stands) && SameWriters(d, n)
    ensures FlagSays(n, stands)
  {
  }

  lemma EnterLeaveWriters(d: Device, t: Thread, remote: seq<Change>, out: Outcome)
    requires t in d.ops && (!Active(d.ops[t]) || d.ops[t].pc.Finishing?)
    ensures SameWriters(d, StepThread(d, t, remote, out).0)
  {
    EnterLeavePc(d, t, remote, out);
  }

  lemma EnterLeavePc(d: Device, t: Thread, remote: seq<Change>, out: Outcome)
    requires t in d.ops && (!Active(d.ops[t]) || d.ops[t].pc.Finishing?)
    ensures var n := StepThread(d, t, remote, out).0;
            && n.core == d.core && t in n.ops && !d.ops[t].pc.SetFlag? && !n.ops[t].pc.SetFlag?
            && n.ops.Keys == d.ops.Keys && forall u :: u in d.ops && u != t ==> n.ops[u] == d.ops[u]
  {
  }

  lemma RestTells(d: Device, a: Action, remote: seq<Change>, stands: bool)
    requires FlagSays(d, stands)
    requires a.Step? && a.t in d.ops ==> !Active(d.ops[a.t]) || d.ops[a.t].pc.Finishing?
    ensures FlagSays(Act(d, a, remote).0, stands) && NewsOf(d, a, remote) == Nothing
  {
    var n := Act(d, a, remote).0;
    if a.Step? && a.t in d.ops {
      EnterLeaveWriters(d, a.t, remote, a.out);
    } else {
      assert SameWriters(d, n);
    }
    SameWritersTell(d, n, stands);
  }

  lemma ActTells(d: Device, a: Action, remote: seq<Change>, stands: bool)
    requires DeviceInv(d, remote) && FlagSays(d, stands)
    ensures FlagSays(Act(d, a, remote).0, StandsAfter(stands, NewsOf(d, a, remote)))
  {
    if a.Step? && a.t in d.ops && Active(d.ops[a.t]) && !d.ops[a.t].pc.Finishing? {
      ThreadTells(d, a.t, remote, a.out, stands);
    } else {
      RestTells(d, a, remote, stands);
    }
  }

  lemma {:induction false} RunTells(w: World, es: seq<Event>, i: DeviceId)
    requires Initial(w) && i in w.devices
    ensures i in Run(w, es).devices && FlagSays(Run(w, es).devices[i], Stands(w, es, i))
    decreases |es|
  {
    if es != [] {
      var before, e := es[..|es| - 1], es[|es| - 1];
      var x := Run(w, before);
      assert es == before + [e];
      RunTells(w, before, i);
      RunAppend(w, before, [e]);
      assert [e][1..] == [];
      StandsSnoc(w, before, e, i);
      Reachable(w, before);
      if e.who == i {
        ActTells(x.devices[i], e.what, x.remote, Stands(w, before, i));
      }
    }
  }

  lemma {:induction false} SameDevices(w: World, es: seq<Event>)
    ensures Run(w, es).devices.Keys == w.devices.Keys
    decreases es
  {
    if es != [] {
      SameDevices(Next(w, es[0]), es[1..]);
    }
  }

  /** In every reachable state with no operation about to write it, the flag is set if and only if the
      last attempt of the automatic path that ended was a failed push, and no cycle since has found
      nothing to publish. */
  lemma FailedPushRemembered(w: World, es: seq<Event>, i: DeviceId)
    requires Initial(w) && i in Run(w, es).devices
    ensures var d := Run(w, es).devices[i];
            (forall t :: t in d.ops ==> !d.ops[t].pc.SetFlag?) ==> (d.core.needsPush <==> Stands(w, es, i))
  {
    SameDevices(w, es);
    RunTells(w, es, i);
  }
}
