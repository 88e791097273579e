/** Steps keep the slots, the read lock and the account of wakers. */
module KeepWaitlist {
  import opened Base
  import opened Protocol
  import opened Invariant
  import opened Frames

  // ---------- the lock ----------

  /** The actions that take or release the read lock, or need it free. */
  predicate UsesLock(a: Action) {
    a.AcquireRead? || a.Visit? || a.ScanEmpty? || a.ReleaseRead? || Reshapes(a)
  }

  lemma LockWhenUsed(s: State, a: Action, s': State)
    requires Lock(s) && Does(s, a, s') && UsesLock(a)
    ensures Lock(s')
  {
  }

  predicate InLock(pc: Pc) {
    pc.Scan? || pc.Unlock?
  }

  lemma OtherStepsAvoidTheLock(s: State, a: Action, s': State)
    requires Does(s, a, s') && !UsesLock(a)
    ensures s'.readers == s.readers && s'.slots.Keys == s.slots.Keys
    ensures a.t in s.ops ==> !InLock(s.ops[a.t])
    ensures a.t in s'.ops && InLock(s'.ops[a.t]) ==> a.t in s.ops && s'.ops[a.t] == s.ops[a.t]
  {
  }

  lemma KeepLock(s: State, a: Action, s': State)
    requires Lock(s) && Does(s, a, s')
    ensures Lock(s')
  {
    if UsesLock(a) {
      LockWhenUsed(s, a, s');
    } else {
      OnlyActorMoves(s, a, s');
      OtherStepsAvoidTheLock(s, a, s');
    }
  }

  // ---------- slots ----------

  /** The same handles are in use, with the same slots, and the same slots are registered. */
  ghost predicate SameShape(s: State, s': State) {
    && s'.slots.Keys == s.slots.Keys
    && forall h :: (LiveReceiver(s, h) <==> LiveReceiver(s', h)) && (LiveReceiver(s, h) ==> s'.rcv[h].slot == s.rcv[h].slot)
  }

  lemma SameKeys(s: State, a: Action, s': State)
    requires Does(s, a, s') && !Reshapes(a)
    ensures s'.slots.Keys == s.slots.Keys
  {
  }

  lemma StepsKeepTheShape(s: State, a: Action, s': State)
    requires ActorOk(s, a) && Does(s, a, s') && !Reshapes(a)
    ensures SameShape(s, s')
  {
    SameKeys(s, a, s');
  }

  lemma SlotsFrame(s: State, s': State)
    requires Slots(s) && SameShape(s, s')
    ensures Slots(s')
  {
    forall k | k in s'.slots ensures exists h :: LiveReceiver(s', h) && s'.rcv[h].slot == k {
      var h :| LiveReceiver(s, h) && s.rcv[h].slot == k;
      assert LiveReceiver(s', h);
    }
  }

  lemma SlotsRegister(s: State, t: Tid, k: Slot, s': State)
    requires Slots(s)
    requires Enabled(s, DoRegister(t, k)) && Register(s, s', t, s.ops[t], k)
    requires s.ops[t].new' in s.rcv && s.rcv[s.ops[t].new'] == Building
    ensures Slots(s')
  {
    var n := s.ops[t].new';
    assert LiveReceiver(s', n) && s'.rcv[n].slot == k;
    forall j | j in s'.slots && j != k ensures exists h :: LiveReceiver(s', h) && s'.rcv[h].slot == j {
      var h :| LiveReceiver(s, h) && s.rcv[h].slot == j;
      assert LiveReceiver(s', h);
    }
  }

  lemma SlotsDropReceiver(s: State, t: Tid, h: Hid, s': State)
    requires Slots(s)
    requires Enabled(s, DropReceiver(t, h)) && s.rcv[h].slot in s.slots && ReceiverDrop(s, s', t, h)
    ensures Slots(s')
  {
    SlotsWithout(s, h, s');
  }

  lemma SlotsWithout(s: State, h: Hid, s': State)
    requires Slots(s) && LiveReceiver(s, h)
    requires s'.slots == s.slots - {s.rcv[h].slot} && s'.rcv == s.rcv[h := Leaving]
    ensures Slots(s')
  {
    OthersStayLive(s, h, s');
    forall j | j in s'.slots ensures exists i :: LiveReceiver(s', i) && s'.rcv[i].slot == j {
      var i :| LiveReceiver(s, i) && s.rcv[i].slot == j;
      assert LiveReceiver(s', i);
    }
  }

  lemma OthersStayLive(s: State, h: Hid, s': State)
    requires s'.rcv == s.rcv[h := Leaving]
    ensures forall i :: LiveReceiver(s', i) <==> LiveReceiver(s, i) && i != h
    ensures forall i :: LiveReceiver(s', i) ==> s'.rcv[i] == s.rcv[i]
  {
  }

  lemma KeepSlots(s: State, a: Action, s': State)
    requires Slots(s) && ActorOk(s, a) && Does(s, a, s')
    ensures Slots(s')
  {
    if a.DoRegister? {
      SlotsRegister(s, a.t, a.k, s');
    } else if a.DropReceiver? {
      SlotsDropReceiver(s, a.t, a.h, s');
    } else {
      StepsKeepTheShape(s, a, s');
      SlotsFrame(s, s');
    }
  }

  lemma OneMoreKey<T>(m: map<Slot, T>, k: Slot, x: T)
    requires k !in m
    ensures |m[k := x].Keys| == |m.Keys| + 1
  {
    assert m[k := x].Keys == m.Keys + {k};
  }

  lemma OneKeyLess<T>(m: map<Slot, T>, k: Slot)
    requires k in m
    ensures |(m - {k}).Keys| == |m.Keys| - 1
  {
    assert (m - {k}).Keys == m.Keys - {k};
  }

  lemma CountAfterRegister(s: State, t: Tid, k: Slot, s': State)
    requires SlotsCounted(s)
    requires Enabled(s, DoRegister(t, k)) && Register(s, s', t, s.ops[t], k)
    requires s.ops[t].new' in s.rcv && s.rcv[s.ops[t].new'] == Building
    ensures SlotsCounted(s')
  {
    LiveHandlesAfter(s.rcv, s.ops[t].new', Live(k, None));
    OneMoreKey(s.slots, k, None);
  }

  lemma CountAfterDropReceiver(s: State, t: Tid, h: Hid, s': State)
    requires SlotsCounted(s)
    requires Enabled(s, DropReceiver(t, h)) && s.rcv[h].slot in s.slots && ReceiverDrop(s, s', t, h)
    ensures SlotsCounted(s')
  {
    LiveHandlesAfter(s.rcv, h, Leaving);
    OneKeyLess(s.slots, s.rcv[h].slot);
  }

  lemma KeepSlotsCounted(s: State, a: Action, s': State)
    requires SlotsCounted(s) && ActorOk(s, a) && Does(s, a, s')
    ensures SlotsCounted(s')
  {
    if a.DoRegister? {
      CountAfterRegister(s, a.t, a.k, s');
    } else if a.DropReceiver? {
      CountAfterDropReceiver(s, a.t, a.h, s');
    } else {
      StepsKeepTheShape(s, a, s');
      assert LiveHandles(s'.rcv) == LiveHandles(s.rcv);
    }
  }

  // ---------- polls ----------

  /** The handle and the slot that a thread polls stay what they are. */
  ghost predicate KeepsPolled(s: State, s': State) {
    forall u :: u in s.ops && PollSlot(s.ops[u]).Some? && RoleOf(s.ops[u]).BorrowsReceiver? ==>
      var h := RoleOf(s.ops[u]).r;
      LiveReceiver(s, h) ==> LiveReceiver(s', h) && s'.rcv[h].slot == s.rcv[h].slot
  }

  /** Thread `t` starts the only poll on its handle. */
  ghost predicate PollStarts(s: State, s': State, t: Tid, h: Hid) {
    && t !in s.ops && t in s'.ops
    && RoleOf(s'.ops[t]) == BorrowsReceiver(h)
    && LiveReceiver(s, h) && NoPoll(s, h) && PollSlot(s'.ops[t]) == Some(s.rcv[h].slot)
    && LiveReceiver(s', h) && s'.rcv[h].slot == s.rcv[h].slot
  }

  lemma PollsFrame(s: State, s': State, t: Tid)
    requires Polls(s) && OnlyMoves(s, s', t) && KeepsPolled(s, s') && PollContinues(s, s', t)
    ensures Polls(s')
  {
  }

  lemma PollsStart(s: State, s': State, t: Tid, h: Hid)
    requires Polls(s) && Slots(s) && OnlyMoves(s, s', t) && KeepsPolled(s, s') && PollStarts(s, s', t, h)
    ensures Polls(s')
  {
    forall u | u in s.ops && PollSlot(s.ops[u]).Some? ensures PollSlot(s.ops[u]) != PollSlot(s'.ops[t]) {
      assert LiveReceiver(s, RoleOf(s.ops[u]).r) && RoleOf(s.ops[u]).r != h;
    }
  }

  lemma StepsKeepPolled(s: State, a: Action, s': State)
    requires ActorOk(s, a) && Does(s, a, s')
    ensures KeepsPolled(s, s')
  {
    if a.DropReceiver? {
    } else if a.DoRegister? {
    } else {
      StepsKeepTheShape(s, a, s');
    }
  }

  lemma KeepPolls(s: State, a: Action, s': State)
    requires Slots(s) && Polls(s) && ActorOk(s, a) && Does(s, a, s')
    ensures Polls(s')
  {
    OnlyActorMoves(s, a, s');
    StepsKeepPolled(s, a, s');
    if a.StartPoll? {
      PollsStart(s, s', a.t, a.h);
    } else {
      OnlyStartPollStarts(s, a, s');
      PollsFrame(s, s', a.t);
    }
  }

  // ---------- stored wakers ----------

  /** The actions that move a waker into or out of a slot. */
  predicate MovesStored(a: Action) {
    a.Visit? || a.DoInsert? || a.DoRemove? || a.DropReceiver?
  }

  lemma StoresWhenMoved(s: State, a: Action, s': State)
    requires Stores(s) && ActorOk(s, a) && Does(s, a, s') && MovesStored(a)
    ensures Stores(s')
  {
  }

  lemma StoresOtherwise(s: State, a: Action, s': State)
    requires Stores(s) && ActorOk(s, a) && Does(s, a, s') && !MovesStored(a)
    ensures Stores(s')
  {
  }

  lemma KeepStores(s: State, a: Action, s': State)
    requires Stores(s) && ActorOk(s, a) && Does(s, a, s')
    ensures Stores(s')
  {
    if MovesStored(a) {
      StoresWhenMoved(s, a, s');
    } else {
      StoresOtherwise(s, a, s');
    }
  }

  // ---------- wakers in hand ----------

  /** A poll keeps the waker it was offered, or stops needing it; only `StartPoll` offers one. */
  lemma OnlyStartPollOffers(s: State, a: Action, s': State)
    requires Does(s, a, s') && !a.StartPoll?
    ensures a.t in s'.ops && OfferedBy(s'.ops[a.t]).Some? ==>
      a.t in s.ops && OfferedBy(s'.ops[a.t]) == OfferedBy(s.ops[a.t])
  {
  }

  /** No waker that is offered changes its fate, except the one that is stored. */
  lemma OfferedStays(s: State, a: Action, s': State)
    requires Stores(s) && ActorOk(s, a) && Does(s, a, s')
    ensures forall w :: w in s.fate && s.fate[w] == Offered ==>
      w in s'.fate && (s'.fate[w] == Offered || (a.DoInsert? && w == s.ops[a.t].waker))
  {
  }

  lemma KeepOffers(s: State, a: Action, s': State)
    requires Stores(s) && Offers(s) && ActorOk(s, a) && Does(s, a, s')
    ensures Offers(s')
  {
    OnlyActorMoves(s, a, s');
    OfferedStays(s, a, s');
    if a.StartPoll? {
      assert OfferedBy(s'.ops[a.t]) == Some(a.w);
    } else {
      OnlyStartPollOffers(s, a, s');
      OffersFrame(s, a, s');
    }
  }

  lemma OffersFrame(s: State, a: Action, s': State)
    requires Offers(s) && OnlyMoves(s, s', a.t)
    requires a.DoInsert? ==> a.t in s.ops && s.ops[a.t].PollInsert? && (a.t in s'.ops ==> OfferedBy(s'.ops[a.t]) == None)
    requires forall w :: w in s.fate && s.fate[w] == Offered ==>
      w in s'.fate && (s'.fate[w] == Offered || (a.DoInsert? && w == s.ops[a.t].waker))
    requires a.t in s'.ops && OfferedBy(s'.ops[a.t]).Some? ==>
      a.t in s.ops && OfferedBy(s'.ops[a.t]) == OfferedBy(s.ops[a.t])
    ensures Offers(s')
  {
    if a.DoInsert? { assert OfferedBy(s.ops[a.t]) == Some(s.ops[a.t].waker); }
  }

  /** A waker in hand stays in hand until it is woken; only a successful visit takes one. */
  lemma OnlyVisitTakes(s: State, a: Action, s': State)
    requires Does(s, a, s')
    ensures a.t in s'.ops && HeldBy(s'.ops[a.t]).Some? ==>
      || (a.t in s.ops && HeldBy(s'.ops[a.t]) == HeldBy(s.ops[a.t]))
      || (a.Visit? && HeldBy(s'.ops[a.t]) == s.slots[a.k])
    ensures a.t in s.ops && HeldBy(s.ops[a.t]).Some? && !a.DoWake? ==>
      a.t in s'.ops && HeldBy(s'.ops[a.t]) == HeldBy(s.ops[a.t])
    ensures a.DoWake? && a.t in s'.ops ==> HeldBy(s'.ops[a.t]) == None
  {
  }

  /** A waker stops being taken only by its wake. */
  lemma TakenStays(s: State, a: Action, s': State)
    requires Stores(s) && ActorOk(s, a) && Does(s, a, s')
    ensures forall w :: w in s.fate && s.fate[w] == Taken ==>
      w in s'.fate && (s'.fate[w] == Taken || (a.DoWake? && w == s.ops[a.t].waker))
  {
  }

  /** A waker becomes taken by a visit that finds it. */
  lemma OnlyFindsAreTaken(s: State, a: Action, s': State)
    requires Does(s, a, s')
    ensures forall w :: w in s'.fate && s'.fate[w] == Taken ==>
      (w in s.fate && s.fate[w] == Taken && !(a.DoWake? && w == s.ops[a.t].waker)) || (a.Visit? && s.slots[a.k] == Some(w))
  {
  }

  lemma KeepHolds(s: State, a: Action, s': State)
    requires Stores(s) && Holds(s) && ActorOk(s, a) && Does(s, a, s')
    ensures Holds(s')
  {
    OnlyActorMoves(s, a, s');
    if a.Visit? {
      HoldsAfterVisit(s, a.t, a.k, s');
    } else {
      OnlyVisitTakes(s, a, s');
      TakenStays(s, a, s');
      OnlyFindsAreTaken(s, a, s');
      HoldsFrame(s, s', a.t, if a.DoWake? then Some(s.ops[a.t].waker) else None);
    }
  }

  /** Only thread `t` moves, and keeps what it holds unless that is the waker `w0`, now no longer taken. */
  lemma HoldsFrame(s: State, s': State, t: Tid, w0: Option<Waker>)
    requires Holds(s) && OnlyMoves(s, s', t)
    requires w0.Some? ==> t in s.ops && HeldBy(s.ops[t]) == w0 && (t in s'.ops ==> HeldBy(s'.ops[t]) == None)
    requires forall w :: (w in s'.fate && s'.fate[w] == Taken) <==> (w in s.fate && s.fate[w] == Taken && Some(w) != w0)
    requires w0 == None && t in s'.ops && HeldBy(s'.ops[t]).Some? ==> t in s.ops && HeldBy(s'.ops[t]) == HeldBy(s.ops[t])
    requires w0 == None && t in s.ops && HeldBy(s.ops[t]).Some? ==> t in s'.ops && HeldBy(s'.ops[t]) == HeldBy(s.ops[t])
    ensures Holds(s')
  {
    forall w | w in s'.fate && s'.fate[w] == Taken ensures exists u :: u in s'.ops && HeldBy(s'.ops[u]) == Some(w) {
      var u :| u in s.ops && HeldBy(s.ops[u]) == Some(w);
      assert u in s'.ops;
    }
  }

  lemma HoldsAfterVisit(s: State, t: Tid, k: Slot, s': State)
    requires Holds(s) && Stores(s)
    requires Enabled(s, Visit(t, k)) && k in s.slots && VisitSlot(s, s', t, s.ops[t], k)
    ensures Holds(s')
  {
    forall w | w in s'.fate && s'.fate[w] == Taken ensures exists u :: u in s'.ops && HeldBy(s'.ops[u]) == Some(w) {
      if s.slots[k] == Some(w) {
        assert HeldBy(s'.ops[t]) == Some(w);
      } else {
        var u :| u in s.ops && HeldBy(s.ops[u]) == Some(w);
        assert u in s'.ops;
      }
    }
  }

  // ---------- parked receivers ----------

  /** A waker on its way stays so, unless its own poll or the drop of its receiver takes it out of the slot. */
  lemma OnItsWayStays(s: State, a: Action, s': State, w: Waker, k: Slot)
    requires Stores(s) && ActorOk(s, a) && Does(s, a, s') && OnItsWay(s, w, k)
    requires a.DoInsert? || a.DoRemove? ==> s.ops[a.t].slot != k
    requires a.DropReceiver? ==> s.rcv[a.h].slot != k
    ensures OnItsWay(s', w, k)
  {
  }

  /** What a poll that has stored its waker turns into. */
  lemma OnlyInsertStores(s: State, a: Action, s': State)
    requires Does(s, a, s')
    ensures a.t in s'.ops && StoredBy(s'.ops[a.t]).Some? ==>
      && a.t in s.ops
      && PollSlot(s'.ops[a.t]) == PollSlot(s.ops[a.t])
      && (StoredBy(s'.ops[a.t]) == StoredBy(s.ops[a.t])
          || (a.DoInsert? && OnItsWay(s', StoredBy(s'.ops[a.t]).value, PollSlot(s'.ops[a.t]).value)))
  {
  }

  lemma StoredBefore(s: State, a: Action, s': State, u: Tid)
    requires Does(s, a, s')
    requires u in s'.ops && StoredBy(s'.ops[u]).Some? && PollSlot(s'.ops[u]).Some?
    ensures
      || (u in s.ops && StoredBy(s'.ops[u]) == StoredBy(s.ops[u]) && PollSlot(s'.ops[u]) == PollSlot(s.ops[u]))
      || OnItsWay(s', StoredBy(s'.ops[u]).value, PollSlot(s'.ops[u]).value)
  {
    OnlyActorMoves(s, a, s');
    if u == a.t { OnlyInsertStores(s, a, s'); }
  }

  lemma KeepStoredByPolls(s: State, a: Action, s': State, u: Tid)
    requires Stores(s) && Slots(s) && Polls(s) && Parked(s) && ActorOk(s, a) && Does(s, a, s')
    requires u in s'.ops && StoredBy(s'.ops[u]).Some? && PollSlot(s'.ops[u]).Some?
    ensures OnItsWay(s', StoredBy(s'.ops[u]).value, PollSlot(s'.ops[u]).value)
  {
    StoredBefore(s, a, s', u);
    if u in s.ops && StoredBy(s'.ops[u]) == StoredBy(s.ops[u]) && PollSlot(s'.ops[u]) == PollSlot(s.ops[u]) {
      StoredStays(s, a, s', u, StoredBy(s'.ops[u]).value, PollSlot(s'.ops[u]).value);
    }
  }

  lemma StoredStays(s: State, a: Action, s': State, u: Tid, w: Waker, k: Slot)
    requires Stores(s) && Slots(s) && Polls(s) && Parked(s) && ActorOk(s, a) && Does(s, a, s')
    requires u in s.ops && StoredBy(s.ops[u]) == Some(w) && PollSlot(s.ops[u]) == Some(k)
    ensures OnItsWay(s', w, k)
  {
    if a.DropReceiver? {
      var r := RoleOf(s.ops[u]).r;
      assert LiveReceiver(s, r) && s.rcv[r].slot == k && r != a.h;
    }
    if a.DoInsert? || a.DoRemove? {
      assert PollSlot(s.ops[a.t]) == Some(s.ops[a.t].slot);
    }
    OnItsWayStays(s, a, s', w, k);
  }

  /** Only a second look that finds the channel empty parks a receiver; starting a poll unparks it. */
  lemma OnlyEmptyParks(s: State, a: Action, s': State, h: Hid)
    requires ActorOk(s, a) && Does(s, a, s')
    requires LiveReceiver(s', h) && s'.rcv[h].parked.Some?
    ensures
      || (LiveReceiver(s, h) && s'.rcv[h] == s.rcv[h] && !(a.StartPoll? && a.h == h) && !(a.DropReceiver? && a.h == h))
      || (a.DoPop? && s.ops[a.t].mode.Second? && s.ops[a.t].receiver == h && a.t !in s'.ops
          && s'.rcv[h] == Live(s.ops[a.t].mode.slot, Some(s.ops[a.t].mode.waker)))
  {
  }

  lemma KeepParkedHandle(s: State, a: Action, s': State, h: Hid)
    requires Slots(s) && Polls(s) && Stores(s) && Parked(s) && ActorOk(s, a) && Does(s, a, s')
    requires LiveReceiver(s', h) && s'.rcv[h].parked.Some?
    ensures OnItsWay(s', s'.rcv[h].parked.value, s'.rcv[h].slot)
  {
    OnlyEmptyParks(s, a, s', h);
    if LiveReceiver(s, h) && s'.rcv[h] == s.rcv[h] && s.rcv[h].parked.Some? {
      ParkedStays(s, a, s', h);
    } else {
      var w, k := s.ops[a.t].mode.waker, s.ops[a.t].mode.slot;
      assert StoredBy(s.ops[a.t]) == Some(w) && PollSlot(s.ops[a.t]) == Some(k);
      OnItsWayStays(s, a, s', w, k);
    }
  }

  lemma ParkedStays(s: State, a: Action, s': State, h: Hid)
    requires Slots(s) && Stores(s) && Parked(s) && ActorOk(s, a) && Does(s, a, s')
    requires LiveReceiver(s, h) && s.rcv[h].parked.Some? && !(a.DropReceiver? && a.h == h)
    ensures OnItsWay(s', s.rcv[h].parked.value, s.rcv[h].slot)
  {
    if a.DoInsert? || a.DoRemove? {
      assert PollSlot(s.ops[a.t]) == Some(s.ops[a.t].slot);
      assert LiveReceiver(s, RoleOf(s.ops[a.t]).r);
    }
    OnItsWayStays(s, a, s', s.rcv[h].parked.value, s.rcv[h].slot);
  }

  lemma KeepUnpolled(s: State, a: Action, s': State, h: Hid)
    requires Polls(s) && Parked(s) && ActorOk(s, a) && Does(s, a, s')
    requires LiveReceiver(s', h) && s'.rcv[h].parked.Some?
    ensures NoPoll(s', h)
  {
    OnlyEmptyParks(s, a, s', h);
    OnlyActorMoves(s, a, s');
    if a.DoPop? && s.ops[a.t].mode.Second? && s.ops[a.t].receiver == h && a.t !in s'.ops {
      OtherPollsElsewhere(s, a.t, h);
    } else if a.StartPoll? {
      UnpolledAfterStart(s, s', a.t, h, a.h);
    } else {
      OnlyStartPollStarts(s, a, s');
      UnpolledFrame(s, s', a.t, h);
    }
  }

  lemma UnpolledFrame(s: State, s': State, t: Tid, h: Hid)
    requires NoPoll(s, h) && OnlyMoves(s, s', t) && PollContinues(s, s', t)
    ensures NoPoll(s', h)
  {
  }

  lemma UnpolledAfterStart(s: State, s': State, t: Tid, h: Hid, i: Hid)
    requires NoPoll(s, h) && OnlyMoves(s, s', t) && h != i
    requires t in s'.ops && RoleOf(s'.ops[t]) == BorrowsReceiver(i)
    ensures NoPoll(s', h)
  {
  }

  /** While one thread polls `h`, no other does. */
  lemma OtherPollsElsewhere(s: State, t: Tid, h: Hid)
    requires Polls(s) && t in s.ops && RoleOf(s.ops[t]) == BorrowsReceiver(h) && PollSlot(s.ops[t]).Some?
    ensures forall u :: u in s.ops && u != t && RoleOf(s.ops[u]) == BorrowsReceiver(h) ==> PollSlot(s.ops[u]) == None
  {
  }

  lemma KeepParked(s: State, a: Action, s': State)
    requires Slots(s) && Polls(s) && Stores(s) && Parked(s) && ActorOk(s, a) && Does(s, a, s')
    ensures Parked(s')
  {
    forall h | LiveReceiver(s', h) && s'.rcv[h].parked.Some?
      ensures OnItsWay(s', s'.rcv[h].parked.value, s'.rcv[h].slot) && NoPoll(s', h)
    {
      KeepParkedHandle(s, a, s', h);
      KeepUnpolled(s, a, s', h);
    }
    forall u | u in s'.ops && StoredBy(s'.ops[u]).Some? && PollSlot(s'.ops[u]).Some?
      ensures OnItsWay(s', StoredBy(s'.ops[u]).value, PollSlot(s'.ops[u]).value)
    {
      KeepStoredByPolls(s, a, s', u);
    }
  }
}
