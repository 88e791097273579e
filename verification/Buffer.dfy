/** The ring buffer: one bounded overwriting queue with two representations. */
module Buffer {
  import opened Base
  import opened Atomic
  import Fifo

  /** The bounded queue of the crossbeam library, as it is documented. */
  class ArrayQueue<T> {
    const capacity: nat
    var items: seq<T>

    constructor (capacity: nat)
      requires 0 < capacity
      ensures this.capacity == capacity && items == []
    {
      this.capacity := capacity;
      items := [];
    }

    method ForcePush(value: T) returns (r: Option<T>)
      requires 0 < capacity
      modifies this
      ensures (items, r) == Fifo.Push(capacity, old(items), value)
    {
      if |items| < capacity {
        r := None;
        items := items + [value];
      } else {
        r := Some(items[0]);
        items := items[1..] + [value];
      }
    }

    method Pop() returns (r: Option<T>)
      modifies this
      ensures (items, r) == Fifo.Pop(old(items))
    {
      if items == [] {
        r := None;
      } else {
        r := Some(items[0]);
        items := items[1..];
      }
    }
  }

  datatype Representation<T> = Cell(cell: AtomicOption<T>) | Queue(queue: ArrayQueue<T>)

  class RingBuffer<T> {
    const repr: Representation<T>

    /** The cell or queue behind the buffer. */
    ghost function Store(): object {
      match repr
      case Cell(c) => c
      case Queue(q) => q
    }

    function Capacity(): nat {
      match repr
      case Cell(_) => 1
      case Queue(q) => q.capacity
    }

    /** The messages in the buffer, oldest first. */
    ghost function Contents(): seq<T>
      reads Store()
    {
      match repr
      case Cell(c) => if c.value.Some? then [c.value.value] else []
      case Queue(q) => q.items
    }

    ghost predicate Valid()
      reads Store()
    {
      0 < Capacity() && |Contents()| <= Capacity()
    }

    /** A buffer of capacity 1 is a cell, any other a queue. */
    constructor (capacity: nat)
      requires 0 < capacity
      ensures Valid() && fresh(Store())
      ensures Capacity() == capacity && Contents() == []
      ensures repr.Cell? <==> capacity == 1
    {
      if capacity == 1 {
        var cell := new AtomicOption<T>();
        repr := Cell(cell);
      } else {
        var queue := new ArrayQueue<T>(capacity);
        repr := Queue(queue);
      }
    }

    /** Whatever the representation, a push is a push into the bounded overwriting queue. */
    method Push(value: T) returns (r: Option<T>)
      requires Valid()
      modifies Store()
      ensures Valid()
      ensures (Contents(), r) == Fifo.Push(Capacity(), old(Contents()), value)
    {
      match repr {
        case Cell(c) =>
          r := c.Swap(value);
          assert Contents() == Fifo.Push(1, old(Contents()), value).0;
        case Queue(q) => r := q.ForcePush(value);
      }
    }

    method Pop() returns (r: Option<T>)
      requires Valid()
      modifies Store()
      ensures Valid()
      ensures (Contents(), r) == Fifo.Pop(old(Contents()))
    {
      match repr {
        case Cell(c) => r := c.Take();
        case Queue(q) => r := q.Pop();
      }
    }
  }
}
