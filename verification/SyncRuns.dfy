/** Runs of the sync protocol: any number of devices from the start on, and one device on its own. */
module SyncRuns {
  import opened Text
  import opened SyncProtocol
  import opened SyncSafety

  function Run(w: World, es: seq<Event>): World
    decreases es
  {
    if es == [] then w else Run(Next(w, es[0]), es[1..])
  }

  /** Before the app starts: any vault and history, perhaps an unfinished rebase, an empty queue. */
  predicate Initial(w: World) {
    forall i :: i in w.devices ==>
      var d, c := w.devices[i], w.devices[i].core;
      && d.lock == None && d.ops == map[] && c.vault != [] && TipInv(c)
      && c.reasons == [] && c.accepted == [] && c.consumed == [] && c.mine == {} && c.published == 0
      && !c.hasPending && !c.needsPush && c.attempt == None
  }

  lemma InitialInv(w: World)
    requires Initial(w)
    ensures WorldInv(w)
  {
  }

  lemma {:induction false} RunKeeps(w: World, es: seq<Event>)
    requires WorldInv(w)
    ensures WorldInv(Run(w, es))
    decreases es
  {
    if es != [] {
      NextKeeps(w, es[0]);
      RunKeeps(Next(w, es[0]), es[1..]);
    }
  }

  lemma Reachable(w: World, es: seq<Event>)
    requires Initial(w)
    ensures WorldInv(Run(w, es))
  {
    InitialInv(w);
    RunKeeps(w, es);
  }

  lemma {:induction false} RunAppend(w: World, a: seq<Event>, b: seq<Event>)
    ensures Run(w, a + b) == Run(Run(w, a), b)
    decreases a
  {
    if a == [] {
      assert a + b == b;
    } else {
      assert (a + b)[1..] == a[1..] + b;
      RunAppend(Next(w, a[0]), a[1..], b);
    }
  }

  // ----- one device -----

  /** Everything the app and its user's editor do; the user's git tool stays away. */
  predicate OwnAction(a: Action) {
    a.Edit? || a.NotifyChange? || a.Invoke? || a.Step?
  }

  predicate OwnActions(acts: seq<Action>) {
    forall k :: 0 <= k < |acts| ==> OwnAction(acts[k])
  }

  function After(d: Device, acts: seq<Action>, remote: seq<Change>): (Device, seq<Change>)
    decreases acts
  {
    if acts == [] then (d, remote)
    else
      var (n, next) := Act(d, acts[0], remote);
      After(n, acts[1..], next)
  }

  lemma AfterCons(d: Device, a: Action, acts: seq<Action>, remote: seq<Change>)
    ensures var (n, next) := Act(d, a, remote); After(d, [a] + acts, remote) == After(n, acts, next)
  {
    assert ([a] + acts)[1..] == acts;
  }

  // ----- concrete runs of a single device -----

  function OneDevice(d: Device): World {
    World(map[0 := d], [])
  }

  lemma Alone(d: Device, a: Action, n: Device)
    requires Act(d, a, []) == (n, [])
    ensures Next(OneDevice(d), Event(0, a)) == OneDevice(n)
  {
  }

  ghost predicate Follows(ds: seq<Device>, acts: seq<Action>) {
    |ds| == |acts| + 1 && forall k :: 0 <= k < |acts| ==> Act(ds[k], acts[k], []) == (ds[k + 1], [])
  }

  function Events(acts: seq<Action>): seq<Event> {
    if acts == [] then [] else [Event(0, acts[0])] + Events(acts[1..])
  }

  lemma {:induction false} RunFollows(ds: seq<Device>, acts: seq<Action>)
    requires Follows(ds, acts)
    ensures Run(OneDevice(ds[0]), Events(acts)) == OneDevice(ds[|acts|])
    decreases acts
  {
    if acts != [] {
      assert Act(ds[0], acts[0], []) == (ds[0 + 1], []);
      Alone(ds[0], acts[0], ds[1]);
      forall k | 0 <= k < |acts[1..]| ensures Act(ds[1..][k], acts[1..][k], []) == (ds[1..][k + 1], []) {
        assert Act(ds[k + 1], acts[k + 1], []) == (ds[k + 1 + 1], []);
      }
      RunFollows(ds[1..], acts[1..]);
      assert Events(acts)[1..] == Events(acts[1..]);
    }
  }

  const NOTE := Note("edited", 0)
  const IDLE := Core([5], EMPTY, EMPTY, [], map[], false, [], false, false, [], [], {}, 0, None)
  const NOTED := IDLE.(reasons := [NOTE], hasPending := true, accepted := [NOTE])
  const STAGED := NOTED.(staged := 5)
  const CYCLE := Op(Auto, Start, [], EMPTY, {}, None, 0, 0)

  /** The automatic cycle that picked up the note, at one point. */
  function CycleAt(pc: Pc): Op {
    CYCLE.(pc := pc, snap := [NOTE])
  }

  /** The device while that cycle holds the lock. */
  function InCycle(c: Core, op: Op): Device {
    Device(c, Some(0), map[0 := op])
  }

  lemma InCycleStep(c: Core, op: Op, out: Outcome, e: Effect)
    requires op.pc != Start && op.pc != Finishing && StepOp(c, op, [], out) == e && e.remote == []
    ensures Act(InCycle(c, op), Step(0, out), []) == (InCycle(e.core, e.op), [])
  {
    assert map[0 := op][0 := e.op] == map[0 := e.op];
  }

  function Opening(): (seq<Device>, seq<Action>) {
    ([Device(IDLE, None, map[]), Device(NOTED, None, map[]), Device(NOTED, None, map[0 := CYCLE]),
      InCycle(NOTED, CYCLE.(pc := Held)), InCycle(NOTED, CycleAt(Ready))],
     [NotifyChange("edited"), Invoke(0, Auto), Step(0, Gate(true)), Step(0, Gate(true))])
  }

  lemma OpeningFollows()
    ensures Follows(Opening().0, Opening().1)
  {
    var (ds, acts) := Opening();
    assert [] + [NOTE] == [NOTE];
    assert Act(ds[0], acts[0], []) == (ds[1], []);
    assert map[][0 := CYCLE] == map[0 := CYCLE];
    assert Act(ds[1], acts[1], []) == (ds[2], []);
    assert map[0 := CYCLE][0 := CYCLE.(pc := Held)] == map[0 := CYCLE.(pc := Held)];
    assert Act(ds[2], acts[2], []) == (ds[3], []);
    InCycleStep(NOTED, CYCLE.(pc := Held), Gate(true), Effect(NOTED, CycleAt(Ready), []));
    assert Act(ds[3], acts[3], []) == (ds[4], []);
  }

  function Middle(): (seq<Device>, seq<Action>) {
    ([InCycle(NOTED, CycleAt(Ready)), InCycle(NOTED, CycleAt(Guarded)), InCycle(STAGED, CycleAt(Staged)),
      InCycle(STAGED, CycleAt(Committing)), InCycle(STAGED.(unfinished := true, vault := [5, 6]), CycleAt(Committing))],
     [Step(0, Succeeds(true)), Step(0, Succeeds(true)), Step(0, StatusDirty), UserBegins(6)])
  }

  lemma MiddleFollows()
    ensures Follows(Middle().0, Middle().1)
  {
    var (ds, acts) := Middle();
    InCycleStep(NOTED, CycleAt(Ready), Succeeds(true), Effect(NOTED, CycleAt(Guarded), []));
    assert Act(ds[0], acts[0], []) == (ds[1], []);
    InCycleStep(NOTED, CycleAt(Guarded), Succeeds(true), Effect(STAGED, CycleAt(Staged), []));
    assert Act(ds[1], acts[1], []) == (ds[2], []);
    InCycleStep(STAGED, CycleAt(Staged), StatusDirty, Effect(STAGED, CycleAt(Committing), []));
    assert Act(ds[2], acts[2], []) == (ds[3], []);
    assert STAGED.vault + [6] == [5, 6];
    assert Act(ds[3], acts[3], []) == (ds[4], []);
  }

  /** From a fresh start: a note, an automatic cycle past its check and its staging, a merge begun by hand. */
  lemma MergeInWindow() returns (w: World, es: seq<Event>)
    ensures Initial(w) && Run(w, es) == OneDevice(Middle().0[4])
  {
    w := OneDevice(Device(IDLE, None, map[]));
    es := Events(Opening().1) + Events(Middle().1);
    OpeningFollows();
    RunFollows(Opening().0, Opening().1);
    MiddleFollows();
    RunFollows(Middle().0, Middle().1);
    RunAppend(w, Events(Opening().1), Events(Middle().1));
  }
}
