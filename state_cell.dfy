/**
 * The persistent state cell the runtime hands to a stage on every (re)start. The
 * first lock materialises the default state; every later lock yields the same
 * object, with whatever the previous invocations left in it.
 */
module StateCells {
  import opened Wrappers

  class StateCell<T(==)> {
    /** The contained state, once materialised. */
    var slot: Option<T>

    constructor ()
      ensures slot == None
    {
      slot := None;
    }

    /** The objects the cell currently holds. */
    function Held(): set<T>
      reads this
    {
      if slot.Some? then {slot.value} else {}
    }

    /** Exclusive access to the state; `fallback` is the default used on the very first lock. */
    method Lock(fallback: T) returns (state: T)
      modifies this
      ensures old(slot).Some? ==> state == old(slot).value
      ensures old(slot).None? ==> state == fallback
      ensures slot == Some(state)
    {
      if slot.None? {
        slot := Some(fallback);
      }
      state := slot.value;
    }
  }
}
