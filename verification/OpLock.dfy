/** The lock all git operations share (internal/git/oplock.go). Acquiring hands out a release
    function that works once; a ticket stands for it here. */
module OpLock {

  /** The state behind one release function: whether it has run (its `sync.Once`). */
  class Ticket {
    var released: bool

    constructor ()
      ensures !released
    {
      released := false;
    }
  }

  class OperationLock {
    var inFlight: bool
    var holder: string
    /** Every ticket ever handed out, and the one that now holds the lock. */
    ghost var issued: set<Ticket>
    ghost var live: Ticket?

    /** The lock is held exactly when there is a ticket not yet released, and there is at most one. */
    ghost predicate Valid()
      reads this, issued
    {
      && (inFlight <==> live != null)
      && (live != null ==> live in issued && !live.released)
      && (forall t :: t in issued && t != live ==> t.released)
      && (!inFlight ==> holder == "")
    }

    constructor ()
      ensures Valid() && issued == {} && !inFlight
    {
      inFlight, holder := false, "";
      issued, live := {}, null;
    }

    /** Never waits: a second caller learns who holds the lock. */
    method TryAcquire(name: string) returns (ticket: Ticket?, current: string, ok: bool)
      requires Valid()
      modifies this
      ensures Valid() && ok == !old(inFlight)
      ensures ok ==> ticket != null && fresh(ticket) && live == ticket && issued == old(issued) + {ticket} && holder == name
      ensures !ok ==> ticket == null && current == holder && unchanged(this)
    {
      if inFlight {
        return null, holder, false;
      }
      ticket := new Ticket();
      inFlight, holder := true, name;
      issued, live := issued + {ticket}, ticket;
      return ticket, "", true;
    }

    /** Late or repeated calls of an old release function change nothing, whoever holds the lock. */
    method Release(t: Ticket)
      requires Valid() && t in issued
      modifies this, t
      ensures Valid() && t.released && issued == old(issued)
      ensures old(t.released) ==> live == old(live) && inFlight == old(inFlight) && holder == old(holder)
      ensures !old(t.released) ==> old(live) == t && !inFlight
    {
      if !t.released {
        t.released := true;
        inFlight, holder := false, "";
        live := null;
      }
    }

    /** The state of the lock is a fact about the tickets alone. */
    lemma HeldIffUnreleased()
      requires Valid()
      ensures inFlight <==> exists t :: t in issued && !t.released
      ensures forall t, u :: t in issued && u in issued && !t.released && !u.released ==> t == u
    {
      assert inFlight ==> live in issued && !live.released;
    }
  }
}
