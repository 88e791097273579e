/** The sequential reference: a lossy bounded FIFO with disconnection, given as the set of legal
    histories.  A history lists, in the order in which they take effect, the operations that a
    client of the channel can observe.  Nothing here knows about threads' program counters, slots
    or wakers. */
module History {
  import opened Base
  import Fifo

  datatype Event =
    | Loaded(who: Tid)                            // a call starts by reading the counter of its peers
    | Refused(who: Tid, msg: Msg)                 // send fails and hands its message back
    | Pushed(who: Tid, msg: Msg, overwritten: Option<Msg>, since: nat)
    | Popped(who: Tid, result: RecvResult, since: nat)
    | SenderAdded | SenderGone
    | ReceiverAdded | ReceiverGone

  type Log = seq<Event>

  function Drop1<T>(s: seq<T>): seq<T>
    requires s != []
  {
    s[..|s| - 1]
  }

  function Last<T>(s: seq<T>): T
    requires s != []
  {
    s[|s| - 1]
  }

  // ---------- the abstract state after a history ----------

  /** A channel starts with one sender and one receiver; clones and drops are counted as they happen. */
  function Senders(log: Log): int {
    if log == [] then 1
    else Senders(Drop1(log)) + (if Last(log) == SenderAdded then 1 else if Last(log) == SenderGone then -1 else 0)
  }

  function Receivers(log: Log): int {
    if log == [] then 1
    else Receivers(Drop1(log)) + (if Last(log) == ReceiverAdded then 1 else if Last(log) == ReceiverGone then -1 else 0)
  }

  /** The queue after one more operation. */
  function QueueAfter(cap: nat, q: seq<Msg>, e: Event): seq<Msg>
    requires 0 < cap
  {
    if e.Pushed? then Fifo.Push(cap, q, e.msg).0
    else if e.Popped? && e.result.Got? then Fifo.Pop(q).0
    else q
  }

  function Queue(cap: nat, log: Log): seq<Msg>
    requires 0 < cap
  {
    if log == [] then [] else QueueAfter(cap, Queue(cap, Drop1(log)), Last(log))
  }

  // ---------- legality ----------

  ghost predicate By(e: Event, t: Tid) {
    (e.Loaded? || e.Refused? || e.Pushed? || e.Popped?) && e.who == t
  }

  /** Position `since` is the load that the current call of `t` made: `t` did nothing after it. */
  ghost predicate SameCall(log: Log, t: Tid, since: nat) {
    && since < |log|
    && log[since] == Loaded(t)
    && forall i :: since < i < |log| ==> !By(log[i], t)
  }

  /** May `e` be the next operation after `log`?
      - A push needs a live sender, overwrites exactly when the queue is full, and needs a receiver to have
        existed at the load its own call made.
      - `Got` takes the oldest message; `Disconnected` needs an empty queue and no sender now;
        `Empty` needs an empty queue and a sender at the load its own call made. */
  ghost predicate LegalNext(cap: nat, log: Log, e: Event)
    requires 0 < cap
  {
    match e
    case Loaded(_) => true
    case Refused(_, _) => Receivers(log) == 0
    case Pushed(t, m, overwritten, since) =>
      && 0 < Senders(log)
      && SameCall(log, t, since)
      && 0 < Receivers(log[..since])
      && overwritten == Fifo.Push(cap, Queue(cap, log), m).1
    case Popped(t, result, since) =>
      && SameCall(log, t, since)
      && (match result
          case Got(m) => Queue(cap, log) != [] && m == Queue(cap, log)[0]
          case Empty => Queue(cap, log) == [] && 0 < Senders(log[..since])
          case Disconnected => Queue(cap, log) == [] && Senders(log) == 0)
    case SenderAdded => 0 < Senders(log)
    case SenderGone => 0 < Senders(log)
    case ReceiverAdded => 0 < Receivers(log)
    case ReceiverGone => 0 < Receivers(log)
  }

  ghost predicate Legal(cap: nat, log: Log)
    requires 0 < cap
  {
    forall k :: 0 <= k < |log| ==> LegalNext(cap, log[..k], log[k])
  }

  // ---------- appending one operation ----------

  lemma Snoc(cap: nat, log: Log, e: Event)
    requires 0 < cap
    ensures Drop1(log + [e]) == log && Last(log + [e]) == e
    ensures Senders(log + [e]) == Senders(log) + (if e == SenderAdded then 1 else if e == SenderGone then -1 else 0)
    ensures Receivers(log + [e]) == Receivers(log) + (if e == ReceiverAdded then 1 else if e == ReceiverGone then -1 else 0)
    ensures Queue(cap, log + [e]) == QueueAfter(cap, Queue(cap, log), e)
    ensures Legal(cap, log) && LegalNext(cap, log, e) ==> Legal(cap, log + [e])
    ensures forall i :: 0 <= i <= |log| ==> (log + [e])[..i] == log[..i]
  {
    assert Drop1(log + [e]) == log;
    assert log[..|log|] == log;
    forall i | 0 <= i <= |log| ensures (log + [e])[..i] == log[..i] {}
  }

  lemma LegalPrefix(cap: nat, log: Log, k: nat)
    requires 0 < cap && Legal(cap, log) && k <= |log|
    ensures Legal(cap, log[..k])
  {
    forall i | 0 <= i < k ensures LegalNext(cap, log[..k][..i], log[..k][i]) {
      assert log[..k][..i] == log[..i];
    }
  }

  /** The last operation of a legal history was legal after the others, which are themselves legal. */
  lemma LegalUnsnoc(cap: nat, log: Log)
    requires 0 < cap && Legal(cap, log) && log != []
    ensures Legal(cap, Drop1(log)) && LegalNext(cap, Drop1(log), Last(log))
  {
    LegalPrefix(cap, log, |log| - 1);
  }

  // ---------- counters ----------

  lemma {:induction false} CountersNeverNegative(cap: nat, log: Log)
    requires 0 < cap && Legal(cap, log)
    ensures 0 <= Senders(log) && 0 <= Receivers(log)
  {
    if log != [] {
      LegalUnsnoc(cap, log);
      CountersNeverNegative(cap, Drop1(log));
    }
  }

  /** Zero is absorbing for both counters. */
  lemma {:induction false} ZeroIsAbsorbing(cap: nat, log: Log, i: nat)
    requires 0 < cap && Legal(cap, log) && i <= |log|
    ensures Senders(log[..i]) == 0 ==> Senders(log) == 0
    ensures Receivers(log[..i]) == 0 ==> Receivers(log) == 0
    decreases |log|
  {
    if i == |log| {
      assert log[..i] == log;
    } else {
      LegalUnsnoc(cap, log);
      ZeroIsAbsorbing(cap, Drop1(log), i);
      assert Drop1(log)[..i] == log[..i];
    }
  }

  lemma ZeroIsAbsorbingBetween(cap: nat, log: Log, i: nat, j: nat)
    requires 0 < cap && Legal(cap, log) && i <= j <= |log|
    ensures Senders(log[..i]) == 0 ==> Senders(log[..j]) == 0
    ensures Receivers(log[..i]) == 0 ==> Receivers(log[..j]) == 0
  {
    LegalPrefix(cap, log, j);
    ZeroIsAbsorbing(cap, log[..j], i);
    assert log[..j][..i] == log[..i];
  }

  // ---------- FIFO accounting ----------

  /** Every message pushed, in order. */
  function Sent(log: Log): seq<Msg> {
    if log == [] then []
    else Sent(Drop1(log)) + Put(Last(log))
  }

  /** What one operation puts into the queue. */
  function Put(e: Event): seq<Msg> {
    if e.Pushed? then [e.msg] else []
  }

  /** What one operation takes off the front of the queue. */
  function Out(e: Event): seq<Msg> {
    if e.Pushed? then HandedBack(e) else Handed(e)
  }

  /** What one operation hands to a receiver. */
  function Handed(e: Event): seq<Msg> {
    if e.Popped? && e.result.Got? then [e.result.msg] else []
  }

  /** What one operation hands back to a sender as overwritten. */
  function HandedBack(e: Event): seq<Msg> {
    if e.Pushed? && e.overwritten.Some? then [e.overwritten.value] else []
  }

  /** The messages handed to receivers, in order. */
  function Received(log: Log): seq<Msg> {
    if log == [] then [] else Received(Drop1(log)) + Handed(Last(log))
  }

  /** The messages handed back to senders as overwritten, in order. */
  function Overwritten(log: Log): seq<Msg> {
    if log == [] then [] else Overwritten(Drop1(log)) + HandedBack(Last(log))
  }

  /** Every message that left the front of the queue, received or overwritten, in order of removal. */
  function Removed(log: Log): seq<Msg> {
    if log == [] then [] else Removed(Drop1(log)) + Out(Last(log))
  }

  lemma OneStepAccounting(cap: nat, log: Log, e: Event)
    requires 0 < cap && LegalNext(cap, log, e)
    ensures Out(e) + QueueAfter(cap, Queue(cap, log), e) == Queue(cap, log) + Put(e)
  {
    var q := Queue(cap, log);
    if e.Popped? && e.result.Got? {
      assert [q[0]] + q[1..] == q;
    }
  }

  /** What was sent is exactly what was removed followed by what is still queued: no message is lost,
      duplicated or reordered, and the queue is always the newest part. */
  lemma {:induction false} FifoAccounting(cap: nat, log: Log)
    requires 0 < cap && Legal(cap, log)
    ensures Sent(log) == Removed(log) + Queue(cap, log)
    ensures |Queue(cap, log)| <= cap
  {
    if log != [] {
      var l, e := Drop1(log), Last(log);
      LegalUnsnoc(cap, log);
      FifoAccounting(cap, l);
      OneStepAccounting(cap, l, e);
      var r, q, q' := Removed(l), Queue(cap, l), Queue(cap, log);
      assert (r + q) + Put(e) == r + (q + Put(e));
      assert r + (Out(e) + q') == (r + Out(e)) + q';
    }
  }

  /** `a` can be obtained from `b` by leaving elements out. */
  ghost predicate Subsequence<T(!new)>(a: seq<T>, b: seq<T>) {
    if a == [] then true
    else if b == [] then false
    else (Last(a) == Last(b) && Subsequence(Drop1(a), Drop1(b))) || Subsequence(a, Drop1(b))
  }

  lemma {:induction false} SubsequenceOfLonger<T(!new)>(a: seq<T>, b: seq<T>, c: seq<T>)
    requires Subsequence(a, b)
    ensures Subsequence(a, b + c)
    decreases |c|
  {
    if c == [] {
      assert b + c == b;
    } else {
      SubsequenceOfLonger(a, b, Drop1(c));
      assert Drop1(b + c) == b + Drop1(c);
    }
  }

  /** Receivers see messages in the order they were sent, each at most once. */
  lemma ReceivedInOrder(cap: nat, log: Log)
    requires 0 < cap && Legal(cap, log)
    ensures Subsequence(Received(log), Sent(log))
    ensures Subsequence(Overwritten(log), Sent(log))
  {
    FifoAccounting(cap, log);
    ReceivedWithinRemoved(log);
    SubsequenceOfLonger(Received(log), Removed(log), Queue(cap, log));
    SubsequenceOfLonger(Overwritten(log), Removed(log), Queue(cap, log));
  }

  lemma {:induction false} ReceivedWithinRemoved(log: Log)
    ensures Subsequence(Received(log), Removed(log))
    ensures Subsequence(Overwritten(log), Removed(log))
    ensures multiset(Removed(log)) == multiset(Received(log)) + multiset(Overwritten(log))
  {
    if log != [] {
      var l, e := Drop1(log), Last(log);
      ReceivedWithinRemoved(l);
      AppendBoth(Received(l), Removed(l), Handed(e), Out(e));
      AppendBoth(Overwritten(l), Removed(l), HandedBack(e), Out(e));
    }
  }

  lemma AppendBoth<T(!new)>(a: seq<T>, b: seq<T>, x: seq<T>, y: seq<T>)
    requires Subsequence(a, b) && |y| <= 1 && (x == y || x == [])
    ensures Subsequence(a + x, b + y)
  {
    if x == [] {
      assert a + x == a;
      SubsequenceOfLonger(a, b, y);
    } else {
      assert Drop1(a + x) == a && Drop1(b + y) == b;
    }
  }

  // ---------- disconnection ----------

  /** Once a receiver was told `Disconnected`, nothing is pushed any more, the queue stays empty, and every
      receive whose call starts afterwards is told `Disconnected` too. */
  lemma DisconnectedIsFinal(cap: nat, log: Log, i: nat, k: nat)
    requires 0 < cap && Legal(cap, log)
    requires i < k < |log|
    requires log[i].Popped? && log[i].result == Disconnected
    ensures !log[k].Pushed? && !log[k].SenderAdded?
    ensures Queue(cap, log[..k]) == []
    ensures log[k].Popped? && i < log[k].since ==> log[k].result == Disconnected
  {
    assert LegalNext(cap, log[..i], log[i]);
    assert LegalNext(cap, log[..k], log[k]);
    ZeroIsAbsorbingBetween(cap, log, i, k);
    StaysEmptyBetween(cap, log, i, k);
    if log[k].Popped? && i < log[k].since {
      ZeroIsAbsorbingBetween(cap, log, i, log[k].since);
      assert log[..k][..log[k].since] == log[..log[k].since];
    }
  }

  /** By then every message ever sent has been received or handed back. */
  lemma DisconnectedLosesNothing(cap: nat, log: Log, i: nat)
    requires 0 < cap && Legal(cap, log)
    requires i < |log| && log[i].Popped? && log[i].result == Disconnected
    ensures Sent(log) == Removed(log)
    ensures multiset(Sent(log)) == multiset(Received(log)) + multiset(Overwritten(log))
  {
    assert LegalNext(cap, log[..i], log[i]);
    StaysEmpty(cap, log, i);
    FifoAccounting(cap, log);
    ReceivedWithinRemoved(log);
  }

  /** With no sender left an empty queue stays empty. */
  lemma {:induction false} StaysEmpty(cap: nat, log: Log, i: nat)
    requires 0 < cap && Legal(cap, log) && i <= |log|
    requires Queue(cap, log[..i]) == [] && Senders(log[..i]) == 0
    ensures Queue(cap, log) == []
    decreases |log|
  {
    if i == |log| {
      assert log[..i] == log;
    } else {
      LegalUnsnoc(cap, log);
      assert Drop1(log)[..i] == log[..i];
      StaysEmpty(cap, Drop1(log), i);
      ZeroIsAbsorbing(cap, Drop1(log), i);
    }
  }

  lemma StaysEmptyBetween(cap: nat, log: Log, i: nat, k: nat)
    requires 0 < cap && Legal(cap, log) && i <= k <= |log|
    requires Queue(cap, log[..i]) == [] && Senders(log[..i]) == 0
    ensures Queue(cap, log[..k]) == []
  {
    LegalPrefix(cap, log, k);
    assert log[..k][..i] == log[..i];
    StaysEmpty(cap, log[..k], i);
  }

  /** Once one send was refused, every send whose call starts afterwards is refused: a later push can only
      belong to a call that had made its load before. */
  lemma RefusedIsFinal(cap: nat, log: Log, i: nat, k: nat)
    requires 0 < cap && Legal(cap, log)
    requires i < k < |log|
    requires log[i].Refused?
    ensures !log[k].ReceiverAdded?
    ensures log[k].Pushed? ==> log[k].since < i
  {
    assert LegalNext(cap, log[..i], log[i]);
    assert LegalNext(cap, log[..k], log[k]);
    ZeroIsAbsorbingBetween(cap, log, i, k);
    if log[k].Pushed? {
      var since := log[k].since;
      assert log[..k][..since] == log[..since];
      if i <= since {
        ZeroIsAbsorbingBetween(cap, log, i, since);
      }
    }
  }

  // ---------- large buffers lose nothing ----------

  /** As long as no more than `cap` messages were sent, none was overwritten. */
  lemma {:induction false} NothingOverwritten(cap: nat, log: Log)
    requires 0 < cap && Legal(cap, log)
    requires |Sent(log)| <= cap
    ensures Overwritten(log) == [] && Received(log) == Removed(log)
  {
    if log != [] {
      var l := Drop1(log);
      LegalUnsnoc(cap, log);
      NothingOverwritten(cap, l);
      FifoAccounting(cap, l);
    }
  }

  /** If at most `cap` messages were sent in all and some receiver was told `Disconnected`, then what the
      receivers got, all together and in order, is exactly what the senders sent. */
  lemma LosslessWhenLargeEnough(cap: nat, log: Log, i: nat)
    requires 0 < cap && Legal(cap, log)
    requires |Sent(log)| <= cap
    requires i < |log| && log[i].Popped? && log[i].result == Disconnected
    ensures Received(log) == Sent(log)
  {
    assert LegalNext(cap, log[..i], log[i]);
    StaysEmpty(cap, log, i);
    NothingOverwritten(cap, log);
    FifoAccounting(cap, log);
  }
}
