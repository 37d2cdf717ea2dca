/** The counting semaphores that bound concurrent mints and concurrent hypervisor work. */
module Permits {

  /** A buffered channel: `used` of its `capacity` slots hold a token. */
  class Limiter {
    const capacity: nat
    var used: nat

    ghost predicate Valid()
      reads this
    {
      used <= capacity
    }

    constructor (capacity: nat)
      ensures Valid() && this.capacity == capacity && used == 0
    {
      this.capacity := capacity;
      used := 0;
    }

    /** The select of the program: it blocks until a slot is free or the context is cancelled, and when
        both are the case it may take either branch, as `prefersSlot` says. */
    method Acquire(cancelled: bool, prefersSlot: bool) returns (ok: bool)
      requires Valid() && (used < capacity || cancelled)
      modifies this
      ensures Valid() && used == old(used) + (if ok then 1 else 0)
      ensures ok <==> old(used) < capacity && (!cancelled || prefersSlot)
    {
      ok := used < capacity && (!cancelled || prefersSlot);
      if ok {
        used := used + 1;
      }
    }

    /** Taking a token out of an empty channel would block. */
    method Release()
      requires Valid() && used > 0
      modifies this
      ensures Valid() && used == old(used) - 1
    {
      used := used - 1;
    }
  }
}
