/** The sync manager in its own form: the fields it guards, the straight-line cycle, and the toasts.
    The cycle is proved to be one path of the step machine of `SyncProtocol`; what every path keeps is
    proved there. */
module SyncManagerModel {
  import opened SyncProtocol

  // ----- toasts -----

  datatype SyncResult = SyncResult(status: Status, message: string)
  datatype ToastKind = Success | Warning | Failure
  datatype Toast = Toast(kind: ToastKind, message: string)

  /** Healthy outcomes map to the empty key; hard errors include their message. */
  function FailureKey(r: SyncResult): string {
    match r.status
    case Conflict => "conflict"
    case PushFailed => "push_failed"
    case Error => "error:" + r.message
    case _ => ""
  }

  function ToastFor(r: SyncResult): Toast {
    if FailureKey(r) == "" then Toast(Success, "Auto-sync recovered")
    else match r.status
      case Conflict => Toast(Failure, "a merge conflict needs manual resolution")
      case PushFailed => Toast(Warning, "committed locally but couldn't be pushed")
      case _ => Toast(Failure, if r.message == "" then "Auto-sync failed" else r.message)
  }

  /** Two results count as the same failure exactly when they have the same failing status and, for a hard
      error, the same message; all healthy ones are alike. */
  lemma SameFailureIff(a: SyncResult, b: SyncResult)
    ensures FailureKey(a) == FailureKey(b) <==>
              (Healthy(a) && Healthy(b))
              || (!Healthy(a) && a.status == b.status && (a.status == Error ==> a.message == b.message))
    ensures FailureKey(a) == "" <==> Healthy(a)
  {
    var ka, kb := FailureKey(a), FailureKey(b);
    assert "error:"[0] == 'e' && "conflict"[0] == 'c' && "push_failed"[0] == 'p';
    if a.status == Error && b.status == Error {
      assert ka[6..] == a.message && kb[6..] == b.message;
    }
  }

  predicate Healthy(r: SyncResult) {
    r.status == NoChanges || r.status == Committed || r.status == Synced
  }

  /** A failed push is a warning, for the notes are committed; a conflict or a hard error is a failure, and
      a hard error shows its message. */
  lemma ToastKinds(r: SyncResult)
    ensures var t := ToastFor(r);
            && (t.kind == Success <==> Healthy(r)) && (t.kind == Warning <==> r.status == PushFailed)
            && (r.status == Error && r.message != "" ==> t.message == r.message)
  {
    SameFailureIff(r, r);
  }

  /** The toasts a stream of results gives rise to, from the last key seen. */
  function Toasts(prev: string, rs: seq<SyncResult>): seq<Toast>
    decreases rs
  {
    if rs == [] then []
    else (if FailureKey(rs[0]) == prev then [] else [ToastFor(rs[0])]) + Toasts(FailureKey(rs[0]), rs[1..])
  }

  /** The keys with repeats removed. */
  function Changes(prev: string, rs: seq<SyncResult>): seq<string>
    decreases rs
  {
    if rs == [] then []
    else (if FailureKey(rs[0]) == prev then [] else [FailureKey(rs[0])]) + Changes(FailureKey(rs[0]), rs[1..])
  }

  lemma {:induction false} ChangesDiffer(prev: string, rs: seq<SyncResult>)
    ensures var ks := Changes(prev, rs); (ks != [] ==> ks[0] != prev) && forall k :: 0 <= k < |ks| - 1 ==> ks[k] != ks[k + 1]
    decreases rs
  {
    if rs != [] {
      var key := FailureKey(rs[0]);
      var rest := Changes(key, rs[1..]);
      ChangesDiffer(key, rs[1..]);
      if key != prev {
        assert Changes(prev, rs) == [key] + rest;
      }
    }
  }

  lemma {:induction false} ToastsMatch(prev: string, rs: seq<SyncResult>)
    ensures var ts, ks := Toasts(prev, rs), Changes(prev, rs);
            |ts| == |ks| && forall k :: 0 <= k < |ts| ==> (ts[k].kind == Success <==> ks[k] == "")
    decreases rs
  {
    if rs != [] {
      ToastsMatch(FailureKey(rs[0]), rs[1..]);
    }
  }

  /** The toast stream is the stream of failure keys with repeats removed: one toast a change, a
      success exactly when the key becomes empty. No two neighbours are alike, so a success is always
      preceded by a failure when the stream starts healthy. */
  lemma ToastsAreChanges(prev: string, rs: seq<SyncResult>)
    ensures var ts, ks := Toasts(prev, rs), Changes(prev, rs);
      && |ts| == |ks|
      && (forall k :: 0 <= k < |ts| ==> (ts[k].kind == Success <==> ks[k] == ""))
      && (ks != [] ==> ks[0] != prev)
      && (forall k :: 0 <= k < |ks| - 1 ==> ks[k] != ks[k + 1])
  {
    ToastsMatch(prev, rs);
    ChangesDiffer(prev, rs);
  }

  /** Starting healthy, a success toast only ever follows a failure toast. */
  lemma SuccessOnlyAfterFailure(rs: seq<SyncResult>)
    ensures var ts := Toasts("", rs);
      && (ts != [] ==> ts[0].kind != Success)
      && (forall k :: 0 <= k < |ts| - 1 ==> ts[k].kind == Success ==> ts[k + 1].kind != Success)
  {
    ToastsAreChanges("", rs);
  }

  lemma ToastsCons(prev: string, r: SyncResult, rs: seq<SyncResult>)
    ensures Toasts(prev, [r] + rs) == (if FailureKey(r) == prev then [] else [ToastFor(r)]) + Toasts(FailureKey(r), rs)
  {
    assert ([r] + rs)[1..] == rs;
  }

  lemma {:induction false} ToastsAppend(prev: string, rs: seq<SyncResult>, r: SyncResult)
    ensures var last := if rs == [] then prev else FailureKey(rs[|rs| - 1]);
            Toasts(prev, rs + [r]) == Toasts(prev, rs) + (if FailureKey(r) == last then [] else [ToastFor(r)])
    decreases rs
  {
    if rs == [] {
      ToastsCons(prev, r, []);
      assert rs + [r] == [r] + [];
    } else {
      var rest := rs[1..];
      assert rs == [rs[0]] + rest && rs + [r] == [rs[0]] + (rest + [r]);
      ToastsCons(prev, rs[0], rest);
      ToastsCons(prev, rs[0], rest + [r]);
      ToastsAppend(FailureKey(rs[0]), rest, r);
    }
  }

  // ----- the manager's fields -----

  function Min(a: nat, b: nat): nat {
    if a < b then a else b
  }

  class SyncManager {
    var reasons: seq<Note>
    var hasPending: bool
    var needsPush: bool
    var lastCommitTime: int
    var lastFailureKey: string
    var closed: bool
    var toasts: seq<Toast>
    const hasEmitter: bool
    ghost var results: seq<SyncResult>

    ghost predicate Valid()
      reads this
    {
      && (hasPending <==> reasons != [])
      && lastFailureKey == (if results == [] then "" else FailureKey(results[|results| - 1]))
      && toasts == (if hasEmitter then Toasts("", results) else [])
    }

    /** The queue is that of a state of the step machine. */
    ghost predicate Queues(c: Core)
      reads this
    {
      reasons == c.reasons && hasPending == c.hasPending
    }

    constructor (hasEmitter: bool)
      ensures Valid() && reasons == [] && results == [] && !closed && this.hasEmitter == hasEmitter
    {
      reasons, hasPending, needsPush, lastCommitTime := [], false, false, 0;
      lastFailureKey, closed, toasts, results := "", false, [], [];
      this.hasEmitter := hasEmitter;
    }

    /** Queues a note unless the manager is closed or auto-commit is off. */
    method NotifyChange(note: Note, enabled: bool)
      requires Valid()
      modifies this`reasons, this`hasPending
      ensures Valid()
      ensures reasons == if closed || !enabled then old(reasons) else old(reasons) + [note]
      ensures forall c: Core, reason: string ::
                !closed && enabled && c.reasons == old(reasons) && note == Note(reason, Version(c)) ==>
                  Queues(SyncProtocol.Notify(c, reason))
    {
      if closed || !enabled {
        return;
      }
      reasons := reasons + [note];
      hasPending := true;
    }

    /** Drops the notes a cycle consumed from the front; what arrived meanwhile stays. */
    method ClearPendingState(consumed: nat, updateCommitTime: bool, now: int)
      requires Valid()
      modifies this`reasons, this`hasPending, this`lastCommitTime
      ensures Valid()
      ensures reasons == old(reasons)[Min(consumed, |old(reasons)|)..]
      ensures forall c: Core, op: Op ::
                c.reasons == old(reasons) && |op.snap| == consumed ==> Queues(ClearPending(c, op))
      ensures lastCommitTime == if updateCommitTime then now else old(lastCommitTime)
    {
      if consumed >= |reasons| {
        reasons := [];
      } else {
        reasons := reasons[consumed..];
      }
      hasPending := |reasons| > 0;
      if updateCommitTime {
        lastCommitTime := now;
      }
    }

    /** Surfaces an outcome, but only when the failure state changes. */
    method Notify(result: SyncResult)
      requires Valid()
      modifies this`lastFailureKey, this`toasts, this`results
      ensures Valid() && results == old(results) + [result]
    {
      var key := FailureKey(result);
      var prev := lastFailureKey;
      ToastsAppend("", results, result);
      lastFailureKey := key;
      results := results + [result];
      if hasEmitter && key != prev {
        toasts := toasts + [ToastFor(result)];
      }
    }
  }

  // ----- publishing -----

  /** The step machine's rebase and second push, and the whole attempt, with nothing in between. */
  function RebaseChain(c: Core, op: Op, remote: seq<Change>, rebase: Outcome, push2: Outcome): Effect {
    var e := StepRebase(c, op, remote, rebase);
    if e.op.pc != Push2 then e else StepPush(e.core, e.op, e.remote, push2)
  }

  function PushChain(c: Core, op: Op, remote: seq<Change>, push1: Outcome, rebase: Outcome, push2: Outcome): Effect {
    var e := StepPush(c, op, remote, push1);
    if e.op.pc != Rebasing then e else RebaseChain(e.core, e.op, e.remote, rebase, push2)
  }

  predicate Reached(e: Effect, st: Status, c: Core, remote: seq<Change>) {
    e.op.pc == SetFlag(st) && e.remote == remote && SameRepository(e.core, c)
  }

  /** The parts of a device's state that git commands change. */
  predicate SameRepository(c: Core, d: Core) {
    c.local == d.local && c.tree == d.tree && c.staged == d.staged && c.vault == d.vault && c.unfinished == d.unfinished
  }

  datatype PushAnswer = Landed | NonFastForward | Failed

  class Repository {
    var core: Core
    var remote: seq<Change>

    method GitPush(out: Outcome) returns (r: PushAnswer)
      modifies this`remote
      ensures remote == Pushed(core, old(remote), out)
      ensures r == Landed <==> out.PushOk? && old(remote) <= core.local
      ensures r == NonFastForward <==> out.PushRejected? && !(old(remote) <= core.local)
    {
      var fits := remote <= core.local;
      r := if fits && out.PushOk? then Landed else if !fits && out.PushRejected? then NonFastForward else Failed;
      if fits && (out.PushOk? || (out.PushFails? && out.landed)) {
        remote := core.local;
      }
    }

    method RebaseAndPush(ghost op: Op, rebase: Outcome, push2: Outcome) returns (st: Status)
      requires op.pc == Rebasing
      modifies this
      ensures st == Synced ==> remote == core.local
      ensures old(remote) <= remote
      ensures Reached(RebaseChain(old(core), op, old(remote), rebase, push2), st, core, remote)
    {
      core := PullRebase(core, remote, rebase);
      if rebase.RebaseOk? {
        var r := GitPush(push2);
        st := if r == Landed then Synced else PushFailed;
      } else {
        st := if rebase.RebaseConflict? then Conflict else PushFailed;
      }
    }

    /** Pushes and, when the remote is ahead, rebases and pushes exactly once more. */
    method PushWithRebaseRetry(ghost op: Op, push1: Outcome, rebase: Outcome, push2: Outcome) returns (st: Status)
      requires op.pc == Push1
      modifies this
      ensures st == Synced ==> remote == core.local
      ensures old(remote) <= remote
      ensures Reached(PushChain(old(core), op, old(remote), push1, rebase, push2), st, core, remote)
    {
      ghost var e := StepPush(core, op, remote, push1);
      var r := GitPush(push1);
      if r == NonFastForward {
        assert e == Effect(core, e.op, remote);
        st := RebaseAndPush(e.op, rebase, push2);
      } else {
        st := if r == Landed then Synced else PushFailed;
      }
    }
  }
}
