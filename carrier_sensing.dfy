/**
 * The clear-channel assessment state of a radio: idle, busy because another
 * station is heard, or busy because this station is transmitting, together
 * with the simulation time at which the current state was entered.
 *
 * Simulation time is a fixed-point integer and arrives as the parameter
 * `now`.  The ghost field `clock` is the latest time passed to SetState;
 * simulation time never runs backwards, so every later call is given a
 * `now` no earlier than it.
 */
module Mac {
  import opened Wrappers

  datatype State = Idle | BusyPhysical | BusySelf

  class CarrierSensing {
    var state: State
    var since: int
    ghost var clock: int

    /** The current state was entered no later than the latest time seen. */
    ghost predicate Valid()
      reads this
    {
      since <= clock
    }

    /** A new carrier sense starts idle, with the default (zero) timestamp. */
    constructor ()
      ensures Valid()
      ensures state == Idle && since == 0 && clock == 0
    {
      state := Idle;
      since := 0;
      clock := 0;
    }

    predicate IsIdle()
      reads this
    {
      state == Idle
    }

    function StateSince(): int
      reads this
    {
      since
    }

    /**
     * Enter state s at time now.  Entering the current state again is a
     * no-op: the timestamp keeps the time the state was first entered.
     */
    method SetState(s: State, now: int)
      requires Valid() && clock <= now
      modifies this
      ensures Valid() && clock == now
      ensures s == old(state) ==> state == old(state) && since == old(since)
      ensures s != old(state) ==> state == s && since == now
    {
      clock := now;
      if s == state {
        return;
      }
      match s
      case Idle =>
        since := now;
        state := s;
      case BusyPhysical =>
        since := now;
        state := s;
      case BusySelf =>
        since := now;
        state := s;
    }

    /** How long the channel has been idle at time now; None while it is busy. */
    function IdleDuration(now: int): (d: Option<int>)
      reads this
      requires Valid() && clock <= now
      ensures d.Some? <==> IsIdle()
      ensures d.Some? ==> d.value >= 0 && StateSince() + d.value == now
    {
      if IsIdle() then Some(now - StateSince()) else None
    }
  }
}
