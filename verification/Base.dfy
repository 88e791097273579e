/** Types shared by every part of the model. */
module Base {

  datatype Option<+T> = None | Some(value: T)

  /** Messages are opaque to the channel: it moves them and never looks inside. */
  type Msg(==, !new)

  // Identities.  Each stands for an unbounded supply of names.
  type Tid = nat    // a thread
  type Hid = nat    // a sender or a receiver handle
  type Slot = nat   // a key of the waitlist's slot map
  type Waker = nat  // one clone of a task's waker, stored by one poll

  /** What `try_recv` returns. */
  datatype RecvResult = Got(msg: Msg) | Empty | Disconnected
}
