/** The runtime's interval timers, reduced to which intervals are registered:
    `setInterval` registers one under a fresh id, `clearInterval` removes it.
    When an interval fires is not modelled; a callback may only run while its
    interval is registered. */
module Timers {

  class IntervalTimers {
    /** Registered intervals: id to period in milliseconds. */
    var live: map<nat, real>
    var nextId: nat

    ghost predicate Valid()
      reads this
    {
      nextId >= 1 && forall id :: id in live ==> 1 <= id < nextId
    }

    constructor()
      ensures Valid() && live == map[]
    {
      live := map[];
      nextId := 1;
    }

    method SetInterval(period: real) returns (id: nat)
      requires Valid()
      modifies this
      ensures Valid()
      ensures id >= 1 && id !in old(live)
      ensures live == old(live)[id := period]
    {
      id := nextId;
      live := live[id := period];
      nextId := nextId + 1;
    }

    /** Clearing an id that is not registered does nothing. */
    method ClearInterval(id: nat)
      requires Valid()
      modifies this
      ensures Valid()
      ensures live == old(live) - {id}
    {
      live := live - {id};
    }
  }

  /** Registering a fresh id and then clearing it restores the registrations. */
  lemma ClearAfterSet(live: map<nat, real>, id: nat, period: real)
    requires id !in live
    ensures live[id := period] - {id} == live
  {
  }
}
