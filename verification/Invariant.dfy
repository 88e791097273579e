/** What holds in every reachable state of the step machine, in groups that are proved one at a time. */
module Invariant {
  import opened Base
  import opened History
  import opened Protocol

  // ---------- handles, threads and counters ----------

  ghost predicate RoleOk(s: State, t: Tid, r: Role) {
    match r
    case BorrowsSender(h) => h in s.snd
    case BorrowsReceiver(h) => LiveReceiver(s, h)
    case DropsReceiver(h) => h in s.rcv && s.rcv[h] == Leaving
    case LastSender => s.sPhase == Closing(t)
    case LastReceiver => s.rPhase == Closing(t)
    case Frees => s.sPhase == Closed && s.rPhase == Closed && s.frees == 0
  }

  /** A role that at most one thread can have at a time. */
  predicate Exclusive(r: Role) {
    !r.BorrowsSender? && !r.BorrowsReceiver?
  }

  /** Each counter equals the number of handles of its kind that exist. */
  ghost predicate Counted(s: State) {
    && 0 < s.cap
    && s.senders == |s.snd|
    && s.receivers == |s.rcv.Keys|
  }

  /** Every thread inside an operation has the handle it works on. */
  ghost predicate Roles(s: State) {
    && (forall t :: t in s.ops ==> RoleOk(s, t, RoleOf(s.ops[t])))
    && (forall t, u :: t in s.ops && u in s.ops && t != u && Exclusive(RoleOf(s.ops[t])) ==>
          RoleOf(s.ops[t]) != RoleOf(s.ops[u]))
  }

  /** Every receiver under construction has the thread that constructs it to itself. */
  ghost predicate Builders(s: State) {
    && (forall t :: t in s.ops && s.ops[t].CloneRegister? ==>
          s.ops[t].new' in s.rcv && s.rcv[s.ops[t].new'] == Building)
    && (forall t, u :: t in s.ops && u in s.ops && t != u && s.ops[t].CloneRegister? && s.ops[u].CloneRegister? ==>
          s.ops[t].new' != s.ops[u].new')
  }

  /** A receiver that is being constructed or dropped has a thread that does so. */
  ghost predicate Tended(s: State) {
    && (forall h :: h in s.rcv && s.rcv[h] == Building ==>
          exists t :: t in s.ops && s.ops[t].CloneRegister? && s.ops[t].new' == h)
    && (forall h :: h in s.rcv && s.rcv[h] == Leaving ==>
          exists t :: t in s.ops && RoleOf(s.ops[t]) == DropsReceiver(h))
  }

  // ---------- slots ----------

  function LiveHandles(rcv: map<Hid, Receiver>): set<Hid> {
    set h | h in rcv && rcv[h].Live?
  }

  lemma LiveHandlesAfter(rcv: map<Hid, Receiver>, h: Hid, x: Receiver)
    ensures LiveHandles(rcv[h := x]) == if x.Live? then LiveHandles(rcv) + {h} else LiveHandles(rcv) - {h}
  {
  }

  /** Handles in use and registered slots correspond one to one. */
  ghost predicate Slots(s: State) {
    && (forall h :: LiveReceiver(s, h) ==> s.rcv[h].slot in s.slots)
    && (forall h, i :: LiveReceiver(s, h) && LiveReceiver(s, i) && h != i ==> s.rcv[h].slot != s.rcv[i].slot)
    && (forall k :: k in s.slots ==> exists h :: LiveReceiver(s, h) && s.rcv[h].slot == k)
  }

  ghost predicate SlotsCounted(s: State) {
    |s.slots.Keys| == |LiveHandles(s.rcv)|
  }

  /** A poll works on the slot of its handle, and no two polls work on the same slot. */
  ghost predicate Polls(s: State) {
    && (forall t :: t in s.ops && PollSlot(s.ops[t]).Some? ==>
          && RoleOf(s.ops[t]).BorrowsReceiver?
          && LiveReceiver(s, RoleOf(s.ops[t]).r)
          && s.rcv[RoleOf(s.ops[t]).r].slot == PollSlot(s.ops[t]).value)
    && (forall t, u :: t in s.ops && u in s.ops && t != u && PollSlot(s.ops[t]).Some? ==>
          PollSlot(s.ops[t]) != PollSlot(s.ops[u]))
  }

  /** The read lock is held by exactly the threads inside a scan; while it is held the set of slots stands still. */
  ghost predicate Lock(s: State) {
    && (forall t :: t in s.readers <==> t in s.ops && (s.ops[t].Scan? || s.ops[t].Unlock?))
    && (forall t :: t in s.ops && s.ops[t].Scan? ==> s.ops[t].left <= s.slots.Keys)
  }

  // ---------- the end of the channel ----------

  /** The two last endpoints meet at `connected`: the first to swap it leaves, the second frees the block. */
  ghost predicate Ending(s: State) {
    && (s.sPhase == Open <==> 0 < s.senders)
    && (s.rPhase == Open <==> 0 < s.receivers)
    && (s.sPhase.Closing? ==> s.sPhase.who in s.ops && RoleOf(s.ops[s.sPhase.who]) == LastSender)
    && (s.rPhase.Closing? ==> s.rPhase.who in s.ops && RoleOf(s.ops[s.rPhase.who]) == LastReceiver)
    && (s.connected <==> s.sPhase != Closed && s.rPhase != Closed)
    && s.frees <= 1
    && (s.frees == 1 ==> s.sPhase == Closed && s.rPhase == Closed)
    && (s.sPhase == Closed && s.rPhase == Closed && s.frees == 0 ==> exists t :: t in s.ops && s.ops[t] == FreeBlock)
  }

  // ---------- the history ----------

  /** A thread that has loaded a counter carries the position of that load, and what it may rely on. */
  ghost predicate LoadOk(s: State, t: Tid, pc: Pc) {
    && (pc.SendPush? ==> SameCall(s.log, t, pc.since) && 0 < Receivers(s.log[..pc.since]))
    && (pc.RecvPop? ==>
          && SameCall(s.log, t, pc.since)
          && pc.senders == (0 < Senders(s.log[..pc.since]))
          && (pc.senders || s.senders == 0))
  }

  /** The history so far is a legal sequential one, and the shared state is what it says. */
  ghost predicate Recorded(s: State) {
    && 0 < s.cap
    && Legal(s.cap, s.log)
    && Queue(s.cap, s.log) == s.buf
    && Senders(s.log) == s.senders
    && Receivers(s.log) == s.receivers
    && (forall t :: t in s.ops ==> LoadOk(s, t, s.ops[t]))
  }

  // ---------- wakers ----------

  /** The waker a poll was given and has not stored yet. */
  function OfferedBy(pc: Pc): Option<Waker> {
    match pc
    case RecvPop(_, First(_, w), _, _) => Some(w)
    case PollInsert(_, _, w) => Some(w)
    case _ => None
  }

  /** The waker a poll has stored and is still answerable for. */
  function StoredBy(pc: Pc): Option<Waker> {
    match pc
    case RecvPop(_, Second(_, w), _, _) => Some(w)
    case RecvReload(_, _, w) => Some(w)
    case _ => None
  }

  /** The waker a thread took out of a slot and has yet to wake. */
  function HeldBy(pc: Pc): Option<Waker> {
    match pc
    case Unlock(_, w) => Some(w)
    case WakeUp(_, w) => Some(w)
    case _ => None
  }

  /** `w` is in slot `k`, or was taken from it by a `pop` whose caller wakes it; nothing else is in the slot. */
  ghost predicate OnItsWay(s: State, w: Waker, k: Slot) {
    && w in s.fate && (s.fate[w] == Stored(k) || s.fate[w] == Taken || s.fate[w] == Woken)
    && (k in s.slots && s.slots[k].Some? ==> s.slots[k] == Some(w))
  }

  /** The wakers recorded as stored are exactly those in the slots, each in one slot. */
  ghost predicate Stores(s: State) {
    && (forall w, k :: w in s.fate && s.fate[w] == Stored(k) ==> k in s.slots && s.slots[k] == Some(w))
    && (forall k :: k in s.slots && s.slots[k].Some? ==>
          s.slots[k].value in s.fate && s.fate[s.slots[k].value] == Stored(k))
  }

  /** Each poll was given a waker of its own. */
  ghost predicate Offers(s: State) {
    && (forall t :: t in s.ops && OfferedBy(s.ops[t]).Some? ==>
          OfferedBy(s.ops[t]).value in s.fate && s.fate[OfferedBy(s.ops[t]).value] == Offered)
    && (forall t, u :: t in s.ops && u in s.ops && t != u && OfferedBy(s.ops[t]).Some? ==>
          OfferedBy(s.ops[t]) != OfferedBy(s.ops[u]))
  }

  /** The wakers recorded as taken are exactly those that some thread is about to wake, each by one thread. */
  ghost predicate Holds(s: State) {
    && (forall t :: t in s.ops && HeldBy(s.ops[t]).Some? ==>
          HeldBy(s.ops[t]).value in s.fate && s.fate[HeldBy(s.ops[t]).value] == Taken)
    && (forall t, u :: t in s.ops && u in s.ops && t != u && HeldBy(s.ops[t]).Some? ==>
          HeldBy(s.ops[t]) != HeldBy(s.ops[u]))
    && (forall w :: w in s.fate && s.fate[w] == Taken ==> exists t :: t in s.ops && HeldBy(s.ops[t]) == Some(w))
  }

  /** The waker of a receiver whose last poll returned Pending is still stored, or will be woken, or was. */
  ghost predicate Parked(s: State) {
    && (forall h :: LiveReceiver(s, h) && s.rcv[h].parked.Some? ==>
          OnItsWay(s, s.rcv[h].parked.value, s.rcv[h].slot) && NoPoll(s, h))
    && (forall t :: t in s.ops && StoredBy(s.ops[t]).Some? && PollSlot(s.ops[t]).Some? ==>
          OnItsWay(s, StoredBy(s.ops[t]).value, PollSlot(s.ops[t]).value))
  }

  // ---------- no message without someone to fetch it ----------

  /** Slot `k` is empty, or its receiver is inside `poll`. */
  ghost predicate Attended(s: State, k: Slot) {
    && k in s.slots
    && (s.slots[k] == None || exists t :: t in s.ops && PollSlot(s.ops[t]) == Some(k))
  }

  /** `t` is going to scan for a waker on behalf of a message and has not looked at any slot yet. */
  ghost predicate AboutToScan(s: State, t: Tid) {
    && t in s.ops
    && (s.ops[t].ScanLock? || (s.ops[t].Scan? && s.slots.Keys <= s.ops[t].left))
    && s.ops[t].why != ForLastSender
  }

  /** While a message waits and a receiver exists, some slot is attended or a scan is about to start. */
  ghost predicate NotStuck(s: State) {
    s.buf != [] && s.slots != map[] ==>
      (exists k :: Attended(s, k)) || (exists t :: AboutToScan(s, t))
  }

  // ---------- no waker left behind by the last sender ----------

  /** The poll working on `k` cannot return Pending any more: it is past its insert, and has seen or will see
      that there is no sender. */
  predicate Settles(pc: Pc, k: Slot) {
    match pc
    case RecvReload(_, j, _) => j == k
    case RecvPop(_, Second(j, _), senders, _) => j == k && !senders
    case PollRemove(_, j) => j == k
    case _ => false
  }

  /** Slot `k` is empty, or its poll is about to empty it. */
  ghost predicate Cleared(s: State, k: Slot) {
    k in s.slots && s.slots[k].Some? ==> exists t :: t in s.ops && Settles(s.ops[t], k)
  }

  /** The last sender's drain loop has seen `None`. */
  ghost predicate Drained(s: State) {
    match s.sPhase
    case Open => false
    case Closing(t) => t in s.ops && s.ops[t].SwapConnected?
    case Closed => true
  }

  /** What the last sender has scanned without finding a waker stays clear, though others keep inserting. */
  ghost predicate Draining(s: State) {
    && (forall t, k :: t in s.ops && s.ops[t].Scan? && s.ops[t].why == ForLastSender && k !in s.ops[t].left ==> Cleared(s, k))
    && (Drained(s) ==> forall k :: Cleared(s, k))
  }

  // ---------- all together ----------

  ghost predicate LifeInv(s: State) {
    Counted(s) && Roles(s) && Builders(s) && Tended(s) && Ending(s)
  }

  ghost predicate WaitlistInv(s: State) {
    Slots(s) && SlotsCounted(s) && Polls(s) && Lock(s)
  }

  ghost predicate WakerInv(s: State) {
    Stores(s) && Offers(s) && Holds(s) && Parked(s)
  }

  ghost predicate Inv(s: State) {
    && LifeInv(s)
    && WaitlistInv(s)
    && WakerInv(s)
    && Recorded(s)
    && NotStuck(s)
    && Draining(s)
    && !s.fault
  }

  /** Nobody can have a role once both sides are closed, the block is freed and no handle exists. */
  lemma NoRoleIsLeft(s: State, t: Tid, r: Role)
    requires s.snd == {} && s.rcv == map[] && s.sPhase == Closed && s.rPhase == Closed && 0 < s.frees
    ensures !RoleOk(s, t, r)
  {
  }

  /** A freed block has no user left: no handle and no thread inside an operation. */
  lemma FreedIsFinal(s: State)
    requires Counted(s) && Roles(s) && Ending(s) && 0 < s.frees
    ensures s.snd == {} && s.rcv == map[] && s.ops == map[]
  {
    assert s.rcv.Keys == {};
    forall t ensures t !in s.ops {
      if t in s.ops { NoRoleIsLeft(s, t, RoleOf(s.ops[t])); }
    }
  }
}
