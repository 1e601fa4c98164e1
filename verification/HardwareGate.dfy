/**
 The instance-side half of the hardware protocol: a fresh orchestrator arms its gate at boot,
 every acquisition waits at it, and the main process's clear message opens it once.
 */
module HardwareGate {

  datatype Gate = Gate(armed: bool, cleared: bool, waiters: nat)

  const DISARMED := Gate(false, false, 0)

  function Arm(g: Gate): Gate {
    if g.armed then g else g.(armed := true, cleared := false)
  }

  function Signal(g: Gate): Gate {
    g.(cleared := true)
  }

  predicate IsOpen(g: Gate) {
    !g.armed || g.cleared
  }

  predicate IsWaiting(g: Gate) {
    g.armed && !g.cleared && g.waiters > 0
  }

  /** The gate of one process, with the waiting flags it published. */
  class HardwareGate {
    var armed: bool
    var cleared: bool
    var waiters: nat
    var published: seq<bool>

    function State(): Gate
      reads this
    {
      Gate(armed, cleared, waiters)
    }

    /** An overlay that shows the last published flag shows whether an acquisition is blocked. */
    ghost predicate Valid()
      reads this
    {
      && (!armed && !cleared ==> waiters == 0)
      && (if published == [] then !IsWaiting(State()) else published[|published| - 1] == IsWaiting(State()))
    }

    constructor ()
      ensures Valid() && State() == DISARMED && published == []
    {
      armed, cleared, waiters, published := false, false, 0, [];
    }

    method NotifyWaiting()
      modifies this`published
      ensures published == old(published) + [IsWaiting(State())]
    {
      published := published + [armed && !cleared && waiters > 0];
    }

    method ArmGate()
      requires Valid() && (armed || waiters == 0)
      modifies this
      ensures Valid() && State() == Arm(old(State())) && published == old(published)
    {
      if armed {
        return;
      }
      armed, cleared := true, false;
    }

    method SignalClear()
      requires Valid()
      modifies this
      ensures Valid() && State() == Signal(old(State())) && IsOpen(State())
      ensures old(cleared) ==> published == old(published)
    {
      if cleared {
        return;
      }
      cleared := true;
      NotifyWaiting();
    }

    /** An acquisition arrives: it passes at once exactly when the gate is open, otherwise it
        joins the waiters. */
    method Arrive() returns (passed: bool)
      requires Valid()
      modifies this
      ensures Valid() && passed == old(IsOpen(State()))
      ensures State() == if passed then old(State()) else old(State()).(waiters := old(waiters) + 1)
      ensures !passed ==> IsWaiting(State())
    {
      if !armed || cleared {
        return true;
      }
      waiters := waiters + 1;
      NotifyWaiting();
      return false;
    }

    /** The clear promise has resolved and one blocked acquisition goes on. */
    method Resume()
      requires Valid() && cleared && waiters > 0
      modifies this
      ensures Valid() && State() == old(State()).(waiters := old(waiters) - 1) && IsOpen(State())
    {
      waiters := waiters - 1;
      NotifyWaiting();
    }
  }
}
