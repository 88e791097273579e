/** The main results about reachable states. */
module Safety {
  import opened Base
  import opened History
  import opened Protocol
  import opened Invariant
  import opened Frames
  import opened Keep
  import KeepLife

  // ---------- nothing goes wrong ----------

  /** No run panics, wraps a counter around, fails an assertion of the free or touches the block after it;
      and the next step will not either. */
  lemma NeverFaults(s: State)
    requires Reachable(s)
    ensures !s.fault
    ensures forall a :: Enabled(s, a) ==> !Crashes(s, a)
  {
    ReachableInv(s);
    forall a | Enabled(s, a) ensures !Crashes(s, a) {
      ActorIsOk(s, a);
      KeepLife.NoCrash(s, a);
    }
  }

  /** A live receiver's slot is always registered, distinct receivers have distinct slots, every slot has a
      receiver, and there are never more slots than `receivers` says. */
  lemma SlotDiscipline(s: State)
    requires Reachable(s)
    ensures forall h :: LiveReceiver(s, h) ==> s.rcv[h].slot in s.slots
    ensures forall h, i :: LiveReceiver(s, h) && LiveReceiver(s, i) && s.rcv[h].slot == s.rcv[i].slot ==> h == i
    ensures forall k :: k in s.slots ==> exists h :: LiveReceiver(s, h) && s.rcv[h].slot == k
    ensures |s.slots| <= s.receivers
  {
    ReachableInv(s);
    SubsetSize(LiveHandles(s.rcv), s.rcv.Keys);
    assert |s.slots| == |s.slots.Keys|;
  }

  lemma {:induction false} SubsetSize<T>(a: set<T>, b: set<T>)
    requires a <= b
    ensures |a| <= |b|
  {
    if a != {} {
      var x :| x in a;
      SubsetSize(a - {x}, b - {x});
    }
  }

  /** The counters are the numbers of handles. */
  lemma CountersTrackHandles(s: State)
    requires Reachable(s)
    ensures s.senders == |s.snd| && s.receivers == |s.rcv.Keys|
    ensures s.senders == Senders(s.log) && s.receivers == Receivers(s.log)
  {
    ReachableInv(s);
  }

  // ---------- the free ----------

  /** The block is freed at most once, and then `connected` is false, both counters are 0, no handle exists, no
      thread is inside an operation, and nothing can happen any more. */
  lemma FreedAtMostOnce(s: State)
    requires Reachable(s)
    ensures s.frees <= 1
    ensures 0 < s.frees ==>
      && !s.connected && s.senders == 0 && s.receivers == 0
      && s.snd == {} && s.rcv == map[] && s.ops == map[]
      && forall a :: !Enabled(s, a)
  {
    ReachableInv(s);
    if 0 < s.frees { FreedIsFinal(s); }
  }

  /** Once no endpoint is in use and no thread is inside an operation, that is, every drop has finished, the
      block has been freed exactly once. */
  lemma FreedExactlyOnce(s: State)
    requires Reachable(s)
    requires s.snd == {} && s.ops == map[] && forall h :: !LiveReceiver(s, h)
    ensures s.frees == 1
  {
    ReachableInv(s);
    IdleReceiversAreLive(s);
    assert s.rcv.Keys == {};
  }

  /** When all threads are idle, no receiver is half constructed or half dropped. */
  lemma IdleReceiversAreLive(s: State)
    requires Tended(s) && s.ops == map[]
    ensures forall h :: h in s.rcv ==> LiveReceiver(s, h)
  {
  }

  // ---------- no deadlock ----------

  /** Thread `t` has an action to make. */
  ghost predicate CanMove(s: State, t: Tid) {
    exists a :: Enabled(s, a) && a.t == t
  }

  /** What a thread that does not wait for the write lock does next. */
  ghost function Onward(t: Tid, pc: Pc): Action
    requires !pc.CloneRegister?
  {
    match pc
    case SendPush(_, _, _) => DoPush(t)
    case ScanLock(_) => AcquireRead(t)
    case Scan(_, left) => if left == {} then ScanEmpty(t) else Visit(t, (var k :| k in left; k))
    case Unlock(_, _) => ReleaseRead(t)
    case WakeUp(_, _) => DoWake(t)
    case SwapConnected(_) => DoSwap(t)
    case FreeBlock => DoFree(t)
    case RecvPop(_, _, _, _) => DoPop(t)
    case PollInsert(_, _, _) => DoInsert(t)
    case RecvReload(_, _, _) => DoReload(t)
    case PollRemove(_, _) => DoRemove(t)
    case ReceiverDec(_) => DoReceiverDec(t)
  }

  lemma {:induction false} UnusedKey(keys: set<Slot>) returns (k: Slot)
    ensures forall x :: x in keys ==> x < k
  {
    k := 0;
    if keys != {} {
      var x :| x in keys;
      var j := UnusedKey(keys - {x});
      k := if j <= x then x + 1 else j;
      forall y | y in keys && y != x ensures y < k {
        assert y in keys - {x};
      }
    }
  }

  lemma ThreadMoves(s: State, t: Tid)
    requires t in s.ops && !s.ops[t].CloneRegister?
    ensures CanMove(s, t)
  {
    assert Enabled(s, Onward(t, s.ops[t]));
  }

  lemma CloneMoves(s: State, t: Tid)
    requires t in s.ops && s.ops[t].CloneRegister? && s.readers == {}
    ensures CanMove(s, t)
  {
    var k := UnusedKey(s.slots.Keys);
    assert Enabled(s, DoRegister(t, k));
  }

  lemma ReadersScan(s: State)
    requires Reachable(s)
    ensures Lock(s)
  {
    ReachableInv(s);
  }

  /** A thread that holds the read lock is not kept waiting. */
  lemma ReadersMove(s: State)
    requires Reachable(s)
    ensures forall u :: u in s.readers ==> u in s.ops && CanMove(s, u)
  {
    ReadersScan(s);
    forall u | u in s.readers ensures u in s.ops && CanMove(s, u) {
      ThreadMoves(s, u);
    }
  }

  /** A thread inside an operation can move, unless it is cloning a receiver and waits for the write lock; then
      every thread that keeps it waiting can move.  (The drop of a receiver begins here once the lock is granted.) */
  lemma OnlyCloneWaits(s: State, t: Tid)
    requires Reachable(s) && t in s.ops
    ensures CanMove(s, t) || (s.ops[t].CloneRegister? && s.readers != {})
    ensures forall u :: u in s.readers ==> u in s.ops && CanMove(s, u)
  {
    if !s.ops[t].CloneRegister? {
      ThreadMoves(s, t);
    } else if s.readers == {} {
      CloneMoves(s, t);
    }
    ReadersMove(s);
  }

  /** Likewise the drop of a receiver that nobody else uses can begin, or readers that can move keep it waiting. */
  lemma DropWaits(s: State, t: Tid, h: Hid)
    requires Reachable(s) && t !in s.ops && LiveReceiver(s, h) && NoRole(s, BorrowsReceiver(h))
    ensures Enabled(s, DropReceiver(t, h)) || s.readers != {}
    ensures forall u :: u in s.readers ==> u in s.ops && CanMove(s, u)
  {
    ReadersMove(s);
  }

  /** No deadlock: while some thread is inside an operation, some such thread can move. */
  lemma NoDeadlock(s: State)
    requires Reachable(s) && s.ops != map[]
    ensures exists t :: t in s.ops && CanMove(s, t)
  {
    var t :| t in s.ops;
    OnlyCloneWaits(s, t);
    if !CanMove(s, t) {
      var u :| u in s.readers;
      assert u in s.ops && CanMove(s, u);
    }
  }

  // ---------- no stuck message ----------

  /** A receiver in use that is inside `poll` or has no waker in its slot. */
  ghost predicate Awake(s: State, h: Hid) {
    && LiveReceiver(s, h) && s.rcv[h].slot in s.slots
    && (s.slots[s.rcv[h].slot] == None || exists t :: t in s.ops && PollSlot(s.ops[t]) == Some(s.rcv[h].slot))
  }

  /** While a message waits and a receiver's slot is registered, some thread is responsible for the message: a
      sender whose push overwrote nothing or a dropping receiver that has yet to look at its first slot, or a
      receiver. */
  lemma NoStuckMessage(s: State)
    requires Reachable(s) && s.buf != [] && s.slots != map[]
    ensures (exists t :: AboutToScan(s, t)) || (exists h :: Awake(s, h))
  {
    ReachableInv(s);
    if k :| Attended(s, k) {
      var h :| LiveReceiver(s, h) && s.rcv[h].slot == k;
      assert Awake(s, h);
    }
  }

  /** The last poll on `h` did not return Pending, or its waker has been woken since. */
  ghost predicate NotAsleep(s: State, h: Hid)
    requires LiveReceiver(s, h)
  {
    s.rcv[h].parked == None || (s.rcv[h].parked.value in s.fate && s.fate[s.rcv[h].parked.value] == Woken)
  }

  /** When all threads are idle, a message waits and some receiver is in use, then some receiver has not parked
      since its last poll, or its waker has been woken: no message waits with everybody asleep. */
  lemma SomebodyIsAwake(s: State)
    requires Reachable(s) && s.ops == map[] && s.buf != [] && s.rcv != map[]
    ensures exists h :: LiveReceiver(s, h) && NotAsleep(s, h)
  {
    ReachableInv(s);
    IdleReceiversAreLive(s);
    var h0 :| h0 in s.rcv;
    assert LiveReceiver(s, h0) && s.rcv[h0].slot in s.slots;
    NoStuckMessage(s);
    var h :| Awake(s, h);
    if s.rcv[h].parked.Some? {
      WakeDelivery(s, h);
    }
  }

  // ---------- wake delivery ----------

  /** A receiver whose last poll returned Pending and whose waker is no longer in its slot has been woken, or
      its waker is in the hands of exactly one thread, whose next actions are to release the lock and to wake it. */
  lemma WakeDelivery(s: State, h: Hid)
    requires Reachable(s) && LiveReceiver(s, h) && s.rcv[h].parked.Some?
    ensures var w, k := s.rcv[h].parked.value, s.rcv[h].slot;
      && k in s.slots && w in s.fate
      && (s.slots[k] != Some(w) ==> s.fate[w] == Woken || (exists t :: t in s.ops && HeldBy(s.ops[t]) == Some(w)))
      && (s.slots[k] == None || s.slots[k] == Some(w))
      && forall t, u :: t in s.ops && u in s.ops && HeldBy(s.ops[t]) == Some(w) == HeldBy(s.ops[u]) ==> t == u
  {
    ReachableInv(s);
    var w, k := s.rcv[h].parked.value, s.rcv[h].slot;
    assert OnItsWay(s, w, k);
  }

  // ---------- no receiver left behind ----------

  /** Once the last sender's drain loop has seen `None`, a slot holds a waker only while its own poll is past
      the insert and bound to take the waker out again; so no receiver is, or becomes, Pending with its
      waker still stored. */
  lemma NoneLeftBehind(s: State, h: Hid)
    requires Reachable(s) && Drained(s) && LiveReceiver(s, h)
    ensures s.rcv[h].slot in s.slots
    ensures s.slots[s.rcv[h].slot].Some? ==> exists t :: t in s.ops && Settles(s.ops[t], s.rcv[h].slot)
    ensures NoPoll(s, h) ==> s.slots[s.rcv[h].slot] == None
    ensures NoPoll(s, h) && s.rcv[h].parked.Some? ==>
      var w := s.rcv[h].parked.value;
      w in s.fate && (s.fate[w] == Woken || (exists t :: t in s.ops && HeldBy(s.ops[t]) == Some(w)))
  {
    ReachableInv(s);
    OnlyItsOwnPollSettles(s, h);
    if s.rcv[h].parked.Some? {
      WakeDelivery(s, h);
    }
  }

  /** Once the drain has seen `None`, a full slot has a poll of its own receiver to empty it. */
  lemma OnlyItsOwnPollSettles(s: State, h: Hid)
    requires Slots(s) && Polls(s) && Draining(s) && Drained(s) && LiveReceiver(s, h)
    ensures s.rcv[h].slot in s.slots
    ensures s.slots[s.rcv[h].slot].Some? ==>
      (exists t :: t in s.ops && Settles(s.ops[t], s.rcv[h].slot)) && !NoPoll(s, h)
  {
    var k := s.rcv[h].slot;
    assert Cleared(s, k);
    if s.slots[k].Some? {
      var t :| t in s.ops && Settles(s.ops[t], k);
      assert PollSlot(s.ops[t]) == Some(k);
      assert LiveReceiver(s, RoleOf(s.ops[t]).r) && RoleOf(s.ops[t]).r == h;
    }
  }

  /** A `pop` took the waker; it has been woken or is about to be. */
  ghost predicate TakenAway(s: State, w: Waker) {
    w in s.fate && (s.fate[w] == Taken || s.fate[w] == Woken)
  }

  /** A poll that read `senders` as positive before its second look, and makes that look after the drain has
      seen `None`, has lost its waker to the drain already: if it returns Pending, its slot is empty. */
  lemma LateSecondLook(s: State, t: Tid)
    requires Reachable(s) && Drained(s)
    requires t in s.ops && s.ops[t].RecvPop? && s.ops[t].mode.Second? && s.ops[t].senders
    ensures s.ops[t].mode.slot in s.slots && s.slots[s.ops[t].mode.slot] == None
    ensures TakenAway(s, s.ops[t].mode.waker)
  {
    ReachableInv(s);
    SecondLookAfterDrain(s, t);
  }

  lemma SecondLookAfterDrain(s: State, t: Tid)
    requires Slots(s) && Polls(s) && Stores(s) && Draining(s) && Parked(s) && Drained(s)
    requires t in s.ops && s.ops[t].RecvPop? && s.ops[t].mode.Second? && s.ops[t].senders
    ensures s.ops[t].mode.slot in s.slots && s.slots[s.ops[t].mode.slot] == None
    ensures TakenAway(s, s.ops[t].mode.waker)
  {
    var k, w := s.ops[t].mode.slot, s.ops[t].mode.waker;
    assert PollSlot(s.ops[t]) == Some(k) && StoredBy(s.ops[t]) == Some(w);
    assert LiveReceiver(s, RoleOf(s.ops[t]).r);
    assert Cleared(s, k) && OnItsWay(s, w, k);
    forall u | u in s.ops ensures !Settles(s.ops[u], k) {
      if PollSlot(s.ops[u]) == Some(k) { assert u == t; }
    }
  }

  /** Only such a poll can return Pending once the drain has seen `None`. */
  lemma PendingAfterDrain(s: State, t: Tid)
    requires Reachable(s) && Drained(s)
    requires t in s.ops && s.ops[t].RecvPop? && s.ops[t].mode.Second?
    requires PopResult(s.buf, s.ops[t].senders) == Empty
    ensures s.ops[t].mode.slot in s.slots && s.slots[s.ops[t].mode.slot] == None
  {
    LateSecondLook(s, t);
  }

  /** When all threads are idle and no sender is left, every parked receiver has been woken. */
  lemma DisconnectWakesEverybody(s: State)
    requires Reachable(s) && s.ops == map[] && s.senders == 0
    ensures forall h :: LiveReceiver(s, h) && s.rcv[h].parked.Some? ==>
      s.rcv[h].parked.value in s.fate && s.fate[s.rcv[h].parked.value] == Woken
  {
    ReachableInv(s);
    forall h | LiveReceiver(s, h) && s.rcv[h].parked.Some?
      ensures s.rcv[h].parked.value in s.fate && s.fate[s.rcv[h].parked.value] == Woken
    {
      NoneLeftBehind(s, h);
    }
  }
}
