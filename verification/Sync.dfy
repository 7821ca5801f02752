/** The git sync protocol as atomic steps (internal/git/sync_manager.go, internal/system/service.go):
    a queue of change notes that keeps growing while a cycle runs, a shared non-blocking lock, and
    the stage / commit / push / rebase / push sequence against one remote. Every operation runs one
    step at a time; anything may happen between two steps. What a command can do, it says through
    the `Outcome` of the step. */
module SyncProtocol {
  import opened Text

  /** The whole content of the vault at one moment, identified abstractly. */
  type Content = nat
  /** The identity of a committed change; a rebase keeps it. */
  type Change = nat
  type Thread = nat

  datatype Note = Note(reason: string, at: nat)

  /** The vault with nothing in it to sync: what a repository without commits stands for. */
  const EMPTY: Content := 0

  /** A note taken off the queue, with what was said to justify it: the commit `commit` (`None` before
      the first one) held `tree`, and `commits` was the history up to that commit. */
  datatype Entry = Entry(note: Note, tree: Content, commits: set<Change>, commit: Option<Change>)

  datatype Status = NoChanges | Committed | Synced | PushFailed | Conflict | Error

  /** One device's vault, repository and sync manager. `vault` lists every content the vault had;
      the last one is on disk. `held` has, for each commit, every content it was the tip with: its own
      when it was made, and others when a rebase put it on top. `accepted`, `consumed`, `mine`,
      `published` and `attempt` only record what happened. */
  datatype Core = Core(
    vault: seq<Content>, staged: Content, tree: Content, local: seq<Change>, held: map<Change, set<Content>>, unfinished: bool,
    reasons: seq<Note>, hasPending: bool, needsPush: bool,
    accepted: seq<Note>, consumed: seq<Entry>, mine: set<Change>, published: nat, attempt: Option<Status>)

  datatype Kind = Auto | Force | SyncNow | Pull | Push

  datatype AfterClear = ToPublish | ToCommitted | ToNothing

  datatype Pc =
    | Start | Held | Ready | Guarded | Staged | Committing | Clear(next: AfterClear)
    | Publishing | AfterCommit | Retry | Push1 | Rebasing | Push2
    | ManualRebase | ManualPush
    | SetFlag(st: Status) | FlagOff | Report(st: Status) | Finishing | Done

  datatype Op = Op(
    kind: Kind, pc: Pc, snap: seq<Note>, tree: Content, commits: set<Change>, commit: Option<Change>, pushes: nat, rebases: nat)

  datatype Outcome =
    | Gate(go: bool)
    | Succeeds(ok: bool)
    | StatusClean | StatusDirty
    | CommitOk(id: Change) | CommitNothing | CommitFails(landed: bool, id: Change)
    | PushOk | PushRejected | PushFails(landed: bool)
    | RebaseOk(head: Content, disk: Content) | RebaseConflict(aborted: bool, disk: Content)
    | RebaseFails(left: bool, disk: Content) | RebaseNoRef

  datatype Effect = Effect(core: Core, op: Op, remote: seq<Change>)

  function Ids(h: seq<Change>): (s: set<Change>)
  {
    set k | 0 <= k < |h| :: h[k]
  }

  /** The current version of the vault, and its content on disk. */
  function Version(c: Core): nat {
    if c.vault == [] then 0 else |c.vault| - 1
  }

  function Disk(c: Core): Content {
    if c.vault == [] then 0 else c.vault[Version(c)]
  }

  predicate IsAuto(op: Op) {
    op.kind == Auto || op.kind == Force
  }

  /** How an operation ends early: the automatic path reports, the manual one returns. */
  function Give(op: Op, st: Status): Op {
    op.(pc := if IsAuto(op) then Report(st) else Finishing)
  }

  // ----- git -----

  /** The last commit of a history. */
  function Tip(local: seq<Change>): Option<Change> {
    if local == [] then None else Some(local[|local| - 1])
  }

  /** Content now committed at the tip. */
  function Record(held: map<Change, set<Content>>, local: seq<Change>, content: Content): map<Change, set<Content>> {
    match Tip(local)
    case None => held
    case Some(id) => held[id := (if id in held then held[id] else {}) + {content}]
  }

  /** The repository at a new tip; without commits it can only be empty. */
  function At(c: Core, local: seq<Change>, content: Content): Core {
    var tree := if local == [] then EMPTY else content;
    c.(local := local, tree := tree, held := Record(c.held, local, tree))
  }

  /** The local changes the remote does not have, in order. */
  function Unpublished(local: seq<Change>, remote: seq<Change>): seq<Change> {
    if local == [] then []
    else (if local[0] in remote then [] else [local[0]]) + Unpublished(local[1..], remote)
  }

  function Rebased(local: seq<Change>, remote: seq<Change>): seq<Change> {
    remote + Unpublished(local, remote)
  }

  /** `git pull --rebase`. A conflict is aborted, but the abort itself may fail; a timeout may leave
      the rebase unfinished. In all failing cases the branch keeps its commits. */
  function PullRebase(c: Core, remote: seq<Change>, out: Outcome): Core {
    match out
    case RebaseOk(head, disk) =>
      var d := At(c, Rebased(c.local, remote), head);
      d.(staged := d.tree, vault := c.vault + [disk])
    case RebaseConflict(aborted, disk) =>
      if aborted then c else c.(unfinished := true, vault := c.vault + [disk])
    case RebaseFails(left, disk) =>
      if left then c.(unfinished := true, vault := c.vault + [disk]) else c
    case _ => c
  }

  /** `git push`: the remote only accepts a history that extends its own. */
  predicate Accepted(c: Core, remote: seq<Change>, out: Outcome) {
    (out.PushOk? || (out.PushFails? && out.landed)) && remote <= c.local
  }

  function Pushed(c: Core, remote: seq<Change>, out: Outcome): seq<Change> {
    if Accepted(c, remote, out) then c.local else remote
  }

  function CommitStaged(c: Core, id: Change): Core {
    At(c, c.local + [id], c.staged).(mine := c.mine + {id})
  }

  // ----- the sync manager's fields -----

  function ClearPending(c: Core, op: Op): Core {
    var n := if |op.snap| >= |c.reasons| then |c.reasons| else |op.snap|;
    var gone := seq(n, k requires 0 <= k < n => Entry(c.reasons[k], op.tree, op.commits, op.commit));
    c.(reasons := c.reasons[n..], hasPending := |c.reasons| > n, consumed := c.consumed + gone)
  }

  function Notify(c: Core, reason: string): Core {
    var note := Note(reason, Version(c));
    c.(reasons := c.reasons + [note], hasPending := true, accepted := c.accepted + [note])
  }

  // ----- one step of an operation -----

  function Begun(c: Core, op: Op, go: bool): Op {
    if !go && op.kind != Force then op.(pc := Finishing)
    else match op.kind
      case Auto =>
        if c.hasPending then op.(pc := Ready, snap := c.reasons)
        else op.(pc := if c.needsPush then Retry else Finishing)
      case Force => if c.reasons != [] then op.(pc := Ready, snap := c.reasons) else op.(pc := Finishing)
      case SyncNow => op.(pc := Ready)
      case Pull => op.(pc := ManualRebase)
      case Push => op.(pc := ManualPush)
  }

  /** The content now in a local commit, remembered for the notes about to be cleared. */
  function Recorded(op: Op, c: Core, next: AfterClear): Op {
    op.(pc := if IsAuto(op) then Clear(next) else ManualRebase, tree := c.tree, commits := Ids(c.local), commit := Tip(c.local))
  }

  function StepStatus(c: Core, op: Op, out: Outcome): Op {
    if out.StatusClean? && c.staged == c.tree == Disk(c) then Recorded(op, c, ToPublish)
    else if out.StatusDirty? || out.StatusClean? then op.(pc := Committing)
    else Give(op, Error)
  }

  function StepCommit(c: Core, op: Op, remote: seq<Change>, out: Outcome): Effect {
    match out
    case CommitOk(id) =>
      var d := CommitStaged(c, id);
      Effect(d, Recorded(op, d, ToCommitted), remote)
    case CommitFails(landed, id) => Effect(if landed then CommitStaged(c, id) else c, Give(op, Error), remote)
    case CommitNothing =>
      Effect(c, if c.staged == c.tree then Recorded(op, c, ToNothing) else Give(op, Error), remote)
    case _ => Effect(c, Give(op, Error), remote)
  }

  /** The end of a push attempt of the automatic path. */
  function Ended(c: Core, op: Op, remote: seq<Change>, st: Status): Effect {
    Effect(c.(attempt := Some(st), published := if st == Synced then |c.consumed| else c.published), op.(pc := SetFlag(st)), remote)
  }

  function StepPush(c: Core, op: Op, remote: seq<Change>, out: Outcome): Effect {
    var o := op.(pushes := op.pushes + 1);
    if out.PushOk? && remote <= c.local then Ended(c, o, c.local, Synced)
    else if out.PushRejected? && op.pc == Push1 && !(remote <= c.local) then Effect(c, o.(pc := Rebasing), remote)
    else Ended(c, o, Pushed(c, remote, out), PushFailed)
  }

  function StepRebase(c: Core, op: Op, remote: seq<Change>, out: Outcome): Effect {
    var d := PullRebase(c, remote, out);
    var o := op.(rebases := op.rebases + 1);
    if out.RebaseOk? then Effect(d, o.(pc := Push2), remote)
    else Ended(d, o, remote, if out.RebaseConflict? then Conflict else PushFailed)
  }

  function StepManual(c: Core, op: Op, remote: seq<Change>, out: Outcome): Effect {
    if op.pc == ManualPush then Effect(c, op.(pc := Finishing), Pushed(c, remote, out))
    else
      var more := op.kind == SyncNow && (out.RebaseOk? || out.RebaseNoRef?);
      Effect(PullRebase(c, remote, out), op.(pc := if more then ManualPush else Finishing), remote)
  }

  function StepOp(c: Core, op: Op, remote: seq<Change>, out: Outcome): Effect {
    match op.pc
    case Held => Effect(c, Begun(c, op, out != Gate(false)), remote)
    case Ready =>
      Effect(c, if out != Succeeds(true) then Give(op, Error) else if c.unfinished then Give(op, Conflict) else op.(pc := Guarded), remote)
    case Guarded =>
      if out != Succeeds(true) then Effect(c, Give(op, Error), remote)
      else Effect(c.(staged := Disk(c)), op.(pc := Staged), remote)
    case Staged => Effect(c, StepStatus(c, op, out), remote)
    case Committing => StepCommit(c, op, remote, out)
    case Clear(next) =>
      var pc := match next case ToPublish => Publishing case ToCommitted => AfterCommit case ToNothing => Report(NoChanges);
      Effect(ClearPending(c, op), op.(pc := pc), remote)
    case Publishing => Effect(c, op.(pc := if out == Gate(true) then Push1 else FlagOff), remote)
    case AfterCommit => Effect(c, op.(pc := if out == Gate(true) then Push1 else Report(Committed)), remote)
    case Retry =>
      Effect(c, if out != Succeeds(true) then op.(pc := FlagOff) else if c.unfinished then Give(op, Conflict) else op.(pc := Publishing), remote)
    case Push1 => StepPush(c, op, remote, out)
    case Rebasing => StepRebase(c, op, remote, out)
    case Push2 => StepPush(c, op, remote, out)
    case ManualRebase => StepManual(c, op, remote, out)
    case ManualPush => StepManual(c, op, remote, out)
    case SetFlag(st) => Effect(c.(needsPush := st == PushFailed), op.(pc := Report(st)), remote)
    case FlagOff => Effect(c.(needsPush := false), op.(pc := Report(NoChanges)), remote)
    case Report(_) => Effect(c, op.(pc := Finishing), remote)
    case _ => Effect(c, op, remote)
  }

  // ----- devices -----

  datatype Device = Device(core: Core, lock: Option<Thread>, ops: map<Thread, Op>)

  datatype Action =
    | Edit(content: Content)
    | NotifyChange(reason: string)
    | Invoke(t: Thread, kind: Kind)
    | Step(t: Thread, out: Outcome)
    | UserBegins(disk: Content)
    | UserResolves(local: seq<Change>, head: Content, disk: Content)

  /** An operation enters by taking the lock, or gives up; it leaves by releasing it. */
  function StepThread(d: Device, t: Thread, remote: seq<Change>, out: Outcome): (Device, seq<Change>)
    requires t in d.ops
  {
    var op := d.ops[t];
    if op.pc == Start then
      if d.lock == None then (d.(lock := Some(t), ops := d.ops[t := op.(pc := Held)]), remote)
      else (d.(ops := d.ops[t := op.(pc := Done)]), remote)
    else if op.pc == Finishing then (d.(lock := None, ops := d.ops[t := op.(pc := Done)]), remote)
    else
      var e := StepOp(d.core, op, remote, out);
      (d.(core := e.core, ops := d.ops[t := e.op]), e.remote)
  }

  function Act(d: Device, a: Action, remote: seq<Change>): (Device, seq<Change>) {
    match a
    case Edit(content) => (d.(core := d.core.(vault := d.core.vault + [content])), remote)
    case NotifyChange(reason) => (d.(core := Notify(d.core, reason)), remote)
    case Invoke(t, kind) =>
      if t in d.ops then (d, remote)
      else (d.(ops := d.ops[t := Op(kind, Start, [], EMPTY, {}, None, 0, 0)]), remote)
    case Step(t, out) => if t in d.ops then StepThread(d, t, remote, out) else (d, remote)
    case UserBegins(disk) => (d.(core := d.core.(unfinished := true, vault := d.core.vault + [disk])), remote)
    case UserResolves(local, head, disk) =>
      if d.core.unfinished && Ids(d.core.local) <= Ids(local)
      then
        var c := At(d.core, local, head);
        (d.(core := c.(unfinished := false, staged := c.tree, vault := c.vault + [disk])), remote)
      else (d, remote)
  }
}
