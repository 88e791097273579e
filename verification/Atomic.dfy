/** The exchange cell under the waitlist's slots and under a buffer of capacity 1. */
module Atomic {
  import opened Base

  class AtomicOption<T> {
    var value: Option<T>

    constructor ()
      ensures value == None
    {
      value := None;
    }

    method Take() returns (r: Option<T>)
      modifies this
      ensures r == old(value) && value == None
    {
      r := value;
      value := None;
    }

    method Swap(item: T) returns (r: Option<T>)
      modifies this
      ensures r == old(value) && value == Some(item)
    {
      r := value;
      value := Some(item);
    }

    /** Consumes the cell. */
    method IntoInner() returns (r: Option<T>)
      ensures r == value
    {
      r := value;
    }
  }
}
