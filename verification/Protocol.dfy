/** The channel as a step machine.  A state holds the shared control block, the handles in existence and
    one program counter per thread that is inside an operation.  An action is one step of one thread and
    makes at most one access to shared memory; actions of different threads interleave freely. */
module Protocol {
  import opened Base
  import opened History
  import Fifo
  import SlotMap

  /** A receiver handle: counted but not yet given a slot, in use, or past the removal of its slot.
      `parked` is the waker of the last poll if that poll returned Pending and no poll started since. */
  datatype Receiver = Building | Live(slot: Slot, parked: Option<Waker>) | Leaving

  /** The three call sites of `Waitlist::pop`. */
  datatype Why = ForSend(sender: Hid) | ForLastSender | ForReceiverDrop(receiver: Hid)

  /** On whose behalf a `try_recv` runs: a plain call, or the first or the second look of a `poll`. */
  datatype Mode = Plain | First(slot: Slot, waker: Waker) | Second(slot: Slot, waker: Waker)

  /** Where a thread inside an operation stands: what it does next. */
  datatype Pc =
    | SendPush(sender: Hid, msg: Msg, since: nat)            // has read receivers > 0
    | ScanLock(why: Why)                                     // take the waitlist's read lock
    | Scan(why: Why, left: set<Slot>)                        // slots not visited yet
    | Unlock(why: Why, waker: Waker)                         // found a waker, still holds the lock
    | WakeUp(why: Why, waker: Waker)
    | SwapConnected(bySender: bool)
    | FreeBlock
    | RecvPop(receiver: Hid, mode: Mode, senders: bool, since: nat)  // has read `senders > 0` as `senders`
    | PollInsert(receiver: Hid, slot: Slot, waker: Waker)
    | RecvReload(receiver: Hid, slot: Slot, waker: Waker)    // read senders again, for the second look
    | PollRemove(receiver: Hid, slot: Slot)
    | CloneRegister(receiver: Hid, new': Hid)
    | ReceiverDec(receiver: Hid)

  /** What has become of a waker. */
  datatype Fate = Offered | Stored(slot: Slot) | Taken | Woken | Withdrawn | Replaced | Returned

  /** How far the last endpoint of a kind has got with its drop. */
  datatype Phase = Open | Closing(who: Tid) | Closed

  datatype State = State(
    // the control block
    senders: nat, receivers: nat, connected: bool,
    cap: nat, buf: seq<Msg>,
    slots: map<Slot, Option<Waker>>, readers: set<Tid>,
    frees: nat,                      // how often the block was freed
    // handles and threads
    snd: set<Hid>, rcv: map<Hid, Receiver>,
    ops: map<Tid, Pc>,
    // history
    log: Log,
    fate: map<Waker, Fate>,
    sPhase: Phase, rPhase: Phase,
    fault: bool)                     // a panic, an underflow, a failed assertion or an access after the free

  /** What `ring_channel(cap)` returns: one sender, and one receiver with a registered slot. */
  function Init(cap: nat): State {
    State(1, 1, true, cap, [], map[0 := None], {}, 0, {0}, map[0 := Live(0, None)], map[], [], map[], Open, Open, false)
  }

  datatype Action =
    | StartSend(t: Tid, h: Hid, m: Msg)
    | DoPush(t: Tid)
    | AcquireRead(t: Tid)
    | Visit(t: Tid, k: Slot)
    | ScanEmpty(t: Tid)
    | ReleaseRead(t: Tid)
    | DoWake(t: Tid)
    | CloneSender(t: Tid, h: Hid, n: Hid)
    | DropSender(t: Tid, h: Hid)
    | DoSwap(t: Tid)
    | DoFree(t: Tid)
    | StartTryRecv(t: Tid, h: Hid)
    | StartPoll(t: Tid, h: Hid, w: Waker)
    | DoPop(t: Tid)
    | DoInsert(t: Tid)
    | DoReload(t: Tid)
    | DoRemove(t: Tid)
    | CloneReceiver(t: Tid, h: Hid, n: Hid)
    | DoRegister(t: Tid, k: Slot)
    | DropReceiver(t: Tid, h: Hid)
    | DoReceiverDec(t: Tid)

  // ---------- who uses what ----------

  /** What a program counter entitles its thread to: a borrowed handle, a handle it is dropping, or the duties
      of the last endpoint. */
  datatype Role = BorrowsSender(s: Hid) | BorrowsReceiver(r: Hid) | DropsReceiver(d: Hid) | LastSender | LastReceiver | Frees

  function RoleOfScan(why: Why): Role {
    match why
    case ForSend(h) => BorrowsSender(h)
    case ForLastSender => LastSender
    case ForReceiverDrop(h) => DropsReceiver(h)
  }

  function RoleOf(pc: Pc): Role {
    match pc
    case SendPush(h, _, _) => BorrowsSender(h)
    case ScanLock(why) => RoleOfScan(why)
    case Scan(why, _) => RoleOfScan(why)
    case Unlock(why, _) => RoleOfScan(why)
    case WakeUp(why, _) => RoleOfScan(why)
    case SwapConnected(bySender) => if bySender then LastSender else LastReceiver
    case FreeBlock => Frees
    case RecvPop(h, _, _, _) => BorrowsReceiver(h)
    case PollInsert(h, _, _) => BorrowsReceiver(h)
    case RecvReload(h, _, _) => BorrowsReceiver(h)
    case PollRemove(h, _) => BorrowsReceiver(h)
    case CloneRegister(h, _) => BorrowsReceiver(h)
    case ReceiverDec(h) => DropsReceiver(h)
  }

  /** The slot that a thread inside `poll` works on. */
  function PollSlot(pc: Pc): Option<Slot> {
    match pc
    case RecvPop(_, First(k, _), _, _) => Some(k)
    case RecvPop(_, Second(k, _), _, _) => Some(k)
    case PollInsert(_, k, _) => Some(k)
    case RecvReload(_, k, _) => Some(k)
    case PollRemove(_, k) => Some(k)
    case _ => None
  }

  ghost predicate NoRole(s: State, r: Role) {
    forall t :: t in s.ops ==> RoleOf(s.ops[t]) != r
  }

  /** No poll on `h` is under way. */
  ghost predicate NoPoll(s: State, h: Hid) {
    forall t :: t in s.ops && RoleOf(s.ops[t]) == BorrowsReceiver(h) ==> PollSlot(s.ops[t]) == None
  }

  ghost predicate LiveReceiver(s: State, h: Hid) {
    h in s.rcv && s.rcv[h].Live?
  }

  /** When an action may happen.  A thread starts an operation only when it is in none, on a handle that
      exists; a drop needs the handle for itself; a receiver handle serves one poll at a time; taking the
      waitlist's write lock needs it to have no readers. */
  ghost predicate Enabled(s: State, a: Action) {
    match a
    case StartSend(t, h, _) => t !in s.ops && h in s.snd
    case DoPush(t) => t in s.ops && s.ops[t].SendPush?
    case AcquireRead(t) => t in s.ops && s.ops[t].ScanLock?
    case Visit(t, k) => t in s.ops && s.ops[t].Scan? && k in s.ops[t].left
    case ScanEmpty(t) => t in s.ops && s.ops[t].Scan? && s.ops[t].left == {}
    case ReleaseRead(t) => t in s.ops && s.ops[t].Unlock?
    case DoWake(t) => t in s.ops && s.ops[t].WakeUp?
    case CloneSender(t, h, n) => t !in s.ops && h in s.snd && n !in s.snd
    case DropSender(t, h) => t !in s.ops && h in s.snd && NoRole(s, BorrowsSender(h))
    case DoSwap(t) => t in s.ops && s.ops[t].SwapConnected?
    case DoFree(t) => t in s.ops && s.ops[t].FreeBlock?
    case StartTryRecv(t, h) => t !in s.ops && LiveReceiver(s, h)
    case StartPoll(t, h, w) => t !in s.ops && LiveReceiver(s, h) && NoPoll(s, h) && w !in s.fate
    case DoPop(t) => t in s.ops && s.ops[t].RecvPop?
    case DoInsert(t) => t in s.ops && s.ops[t].PollInsert?
    case DoReload(t) => t in s.ops && s.ops[t].RecvReload?
    case DoRemove(t) => t in s.ops && s.ops[t].PollRemove?
    case CloneReceiver(t, h, n) => t !in s.ops && LiveReceiver(s, h) && n !in s.rcv
    case DoRegister(t, k) => t in s.ops && s.ops[t].CloneRegister? && s.readers == {} && k !in s.slots
    case DropReceiver(t, h) => t !in s.ops && LiveReceiver(s, h) && NoRole(s, BorrowsReceiver(h)) && s.readers == {}
    case DoReceiverDec(t) => t in s.ops && s.ops[t].ReceiverDec?
  }

  // ---------- what would go wrong ----------

  /** The action panics, makes a counter wrap around, fails an assertion of the free, or touches the control
      block after it was freed.  Only the call of `wake` leaves the control block alone. */
  ghost predicate Crashes(s: State, a: Action)
    requires Enabled(s, a)
  {
    || (0 < s.frees && !a.DoWake?)
    || (match a
        case Visit(t, k) => k !in s.slots
        case DropSender(t, h) => s.senders == 0
        case DoFree(t) => s.connected || s.senders != 0 || s.receivers != 0
        case DoInsert(t) => s.ops[t].slot !in s.slots
        case DoRemove(t) => s.ops[t].slot !in s.slots
        case DropReceiver(t, h) => s.rcv[h].slot !in s.slots
        case DoReceiverDec(t) => s.receivers == 0
        case _ => false)
  }

  // ---------- the parts of the state that a step leaves alone ----------

  ghost predicate SameEnds(s: State, s': State) {
    && s'.senders == s.senders && s'.receivers == s.receivers && s'.snd == s.snd
    && SamePhases(s, s')
  }

  ghost predicate SamePhases(s: State, s': State) {
    && s'.connected == s.connected && s'.frees == s.frees
    && s'.sPhase == s.sPhase && s'.rPhase == s.rPhase
  }

  ghost predicate SameQueue(s: State, s': State) {
    s'.buf == s.buf && s'.log == s.log
  }

  ghost predicate SameWaitlist(s: State, s': State) {
    s'.slots == s.slots && s'.readers == s.readers && s'.fate == s.fate
  }

  ghost predicate Goes(s: State, s': State, t: Tid, pc: Pc) {
    s'.ops == s.ops[t := pc]
  }

  /** The operation of `t` is over. */
  ghost predicate Returns(s: State, s': State, t: Tid) {
    s'.ops == s.ops - {t}
  }

  ghost predicate Notes(s: State, s': State, e: Event) {
    s'.log == s.log + [e]
  }

  /** A waker that left its slot, if there was one, meets fate `f`. */
  function Disposed(fate: map<Waker, Fate>, w: Option<Waker>, f: Fate): map<Waker, Fate> {
    if w.Some? then fate[w.value := f] else fate
  }

  // ---------- the steps ----------

  /** `send` reads `receivers`. */
  ghost predicate SendStart(s: State, s': State, t: Tid, h: Hid, m: Msg) {
    && SameEnds(s, s') && SameWaitlist(s, s') && s'.rcv == s.rcv && s'.buf == s.buf
    && if 0 < s.receivers then Notes(s, s', Loaded(t)) && Goes(s, s', t, SendPush(h, m, |s.log|))
       else Notes(s, s', Refused(t, m)) && s'.ops == s.ops
  }

  /** The push, which decides whether `send` goes on to look for a waker. */
  ghost predicate Push(s: State, s': State, t: Tid, pc: Pc)
    requires pc.SendPush? && 0 < s.cap
  {
    var (q, overwritten) := Fifo.Push(s.cap, s.buf, pc.msg);
    && SameEnds(s, s') && SameWaitlist(s, s') && s'.rcv == s.rcv
    && s'.buf == q
    && Notes(s, s', Pushed(t, pc.msg, overwritten, pc.since))
    && if overwritten.None? then Goes(s, s', t, ScanLock(ForSend(pc.sender))) else Returns(s, s', t)
  }

  ghost predicate LockWaitlist(s: State, s': State, t: Tid, pc: Pc)
    requires pc.ScanLock?
  {
    && SameEnds(s, s') && SameQueue(s, s') && s'.rcv == s.rcv && s'.slots == s.slots && s'.fate == s.fate
    && s'.readers == s.readers + {t}
    && Goes(s, s', t, Scan(pc.why, s.slots.Keys))
  }

  /** The scan takes what is in slot `k` and stops if there was something. */
  ghost predicate VisitSlot(s: State, s': State, t: Tid, pc: Pc, k: Slot)
    requires pc.Scan? && k in s.slots
  {
    var (slots, found) := SlotMap.Take(s.slots, k);
    && SameEnds(s, s') && SameQueue(s, s') && s'.rcv == s.rcv && s'.readers == s.readers
    && s'.slots == slots
    && s'.fate == Disposed(s.fate, found, Taken)
    && Goes(s, s', t, if found.Some? then Unlock(pc.why, found.value) else Scan(pc.why, pc.left - {k}))
  }

  /** What follows a `pop` that found nothing, or the wake after one that found something. */
  ghost predicate AfterPop(s: State, s': State, t: Tid, why: Why, found: bool) {
    match why
    case ForSend(_) => Returns(s, s', t)
    case ForLastSender => Goes(s, s', t, if found then ScanLock(ForLastSender) else SwapConnected(true))
    case ForReceiverDrop(h) => Goes(s, s', t, ReceiverDec(h))
  }

  ghost predicate FoundNothing(s: State, s': State, t: Tid, pc: Pc)
    requires pc.Scan?
  {
    && SameEnds(s, s') && SameQueue(s, s') && s'.rcv == s.rcv && s'.slots == s.slots && s'.fate == s.fate
    && s'.readers == s.readers - {t}
    && AfterPop(s, s', t, pc.why, false)
  }

  ghost predicate UnlockWaitlist(s: State, s': State, t: Tid, pc: Pc)
    requires pc.Unlock?
  {
    && SameEnds(s, s') && SameQueue(s, s') && s'.rcv == s.rcv && s'.slots == s.slots && s'.fate == s.fate
    && s'.readers == s.readers - {t}
    && Goes(s, s', t, WakeUp(pc.why, pc.waker))
  }

  ghost predicate Wake(s: State, s': State, t: Tid, pc: Pc)
    requires pc.WakeUp?
  {
    && SameEnds(s, s') && SameQueue(s, s') && s'.rcv == s.rcv && s'.slots == s.slots && s'.readers == s.readers
    && s'.fate == s.fate[pc.waker := Woken]
    && AfterPop(s, s', t, pc.why, true)
  }

  ghost predicate SenderClone(s: State, s': State, n: Hid) {
    && SamePhases(s, s') && SameWaitlist(s, s') && s'.rcv == s.rcv && s'.buf == s.buf && s'.ops == s.ops
    && s'.senders == s.senders + 1 && s'.receivers == s.receivers && s'.snd == s.snd + {n}
    && Notes(s, s', SenderAdded)
  }

  /** The decrement of `senders`; the last sender goes on to drain the waitlist. */
  ghost predicate SenderDrop(s: State, s': State, t: Tid, h: Hid)
    requires 0 < s.senders
  {
    && SameWaitlist(s, s') && s'.rcv == s.rcv && s'.buf == s.buf
    && s'.connected == s.connected && s'.frees == s.frees && s'.rPhase == s.rPhase
    && s'.senders == s.senders - 1 && s'.receivers == s.receivers && s'.snd == s.snd - {h}
    && Notes(s, s', SenderGone)
    && if s.senders == 1 then s'.sPhase == Closing(t) && Goes(s, s', t, ScanLock(ForLastSender))
       else s'.sPhase == s.sPhase && s'.ops == s.ops
  }

  /** `connected.swap(false)`: whoever comes second frees the block. */
  ghost predicate Swap(s: State, s': State, t: Tid, bySender: bool) {
    && SameQueue(s, s') && SameWaitlist(s, s') && s'.rcv == s.rcv
    && s'.senders == s.senders && s'.receivers == s.receivers && s'.snd == s.snd && s'.frees == s.frees
    && s'.connected == false
    && s'.sPhase == (if bySender then Closed else s.sPhase)
    && s'.rPhase == (if bySender then s.rPhase else Closed)
    && if s.connected then Returns(s, s', t) else Goes(s, s', t, FreeBlock)
  }

  ghost predicate Free(s: State, s': State, t: Tid) {
    && SameQueue(s, s') && SameWaitlist(s, s') && s'.rcv == s.rcv
    && s'.senders == s.senders && s'.receivers == s.receivers && s'.snd == s.snd
    && s'.connected == s.connected && s'.sPhase == s.sPhase && s'.rPhase == s.rPhase
    && s'.frees == s.frees + 1
    && Returns(s, s', t)
  }

  /** The load of `senders` with which every `try_recv` begins. */
  ghost predicate LoadSenders(s: State, s': State, t: Tid, h: Hid, mode: Mode) {
    && SameEnds(s, s') && s'.buf == s.buf && s'.slots == s.slots && s'.readers == s.readers
    && Notes(s, s', Loaded(t))
    && Goes(s, s', t, RecvPop(h, mode, 0 < s.senders, |s.log|))
  }

  /** The result of a `try_recv` that read `0 < senders` as `senders`. */
  function PopResult(buf: seq<Msg>, senders: bool): RecvResult {
    match Fifo.Pop(buf).1
    case Some(m) => Got(m)
    case None => if senders then Empty else Disconnected
  }

  /** The pop of a `try_recv`, and what its caller does with the result. */
  ghost predicate Pop(s: State, s': State, t: Tid, pc: Pc)
    requires pc.RecvPop?
  {
    var r := PopResult(s.buf, pc.senders);
    && SameEnds(s, s') && SameWaitlist(s, s')
    && s'.buf == Fifo.Pop(s.buf).0
    && Notes(s, s', Popped(t, r, pc.since))
    && (match pc.mode
        case Plain => s'.rcv == s.rcv && Returns(s, s', t)
        case First(k, w) =>
          && s'.rcv == s.rcv
          && Goes(s, s', t, if r == Empty then PollInsert(pc.receiver, k, w) else PollRemove(pc.receiver, k))
        case Second(k, w) =>
          if r == Empty then s'.rcv == s.rcv[pc.receiver := Live(k, Some(w))] && Returns(s, s', t)
          else s'.rcv == s.rcv && Goes(s, s', t, PollRemove(pc.receiver, k)))
  }

  ghost predicate Insert(s: State, s': State, t: Tid, pc: Pc)
    requires pc.PollInsert? && pc.slot in s.slots
  {
    var (slots, before) := SlotMap.Swap(s.slots, pc.slot, pc.waker);
    && SameEnds(s, s') && SameQueue(s, s') && s'.rcv == s.rcv && s'.readers == s.readers
    && s'.slots == slots
    && s'.fate == Disposed(s.fate, before, Replaced)[pc.waker := Stored(pc.slot)]
    && Goes(s, s', t, RecvReload(pc.receiver, pc.slot, pc.waker))
  }

  ghost predicate Remove(s: State, s': State, t: Tid, pc: Pc)
    requires pc.PollRemove? && pc.slot in s.slots
  {
    var (slots, before) := SlotMap.Take(s.slots, pc.slot);
    && SameEnds(s, s') && SameQueue(s, s') && s'.rcv == s.rcv && s'.readers == s.readers
    && s'.slots == slots
    && s'.fate == Disposed(s.fate, before, Withdrawn)
    && Returns(s, s', t)
  }

  ghost predicate ReceiverClone(s: State, s': State, t: Tid, h: Hid, n: Hid) {
    && SamePhases(s, s') && SameWaitlist(s, s') && s'.buf == s.buf
    && s'.senders == s.senders && s'.receivers == s.receivers + 1 && s'.snd == s.snd
    && s'.rcv == s.rcv[n := Building]
    && Notes(s, s', ReceiverAdded)
    && Goes(s, s', t, CloneRegister(h, n))
  }

  ghost predicate Register(s: State, s': State, t: Tid, pc: Pc, k: Slot)
    requires pc.CloneRegister?
  {
    && SameEnds(s, s') && SameQueue(s, s') && s'.readers == s.readers && s'.fate == s.fate
    && s'.slots == SlotMap.Register(s.slots, k)
    && s'.rcv == s.rcv[pc.new' := Live(k, None)]
    && Returns(s, s', t)
  }

  /** The deregistration with which the drop of a receiver begins; if the slot was empty, the receiver may
      have been woken for a message and passes the wake on. */
  ghost predicate ReceiverDrop(s: State, s': State, t: Tid, h: Hid)
    requires LiveReceiver(s, h) && s.rcv[h].slot in s.slots
  {
    var (slots, before) := SlotMap.Deregister(s.slots, s.rcv[h].slot);
    && SameEnds(s, s') && SameQueue(s, s') && s'.readers == s.readers
    && s'.slots == slots
    && s'.rcv == s.rcv[h := Leaving]
    && s'.fate == Disposed(s.fate, before, Returned)
    && Goes(s, s', t, if before.None? then ScanLock(ForReceiverDrop(h)) else ReceiverDec(h))
  }

  ghost predicate DecReceivers(s: State, s': State, t: Tid, pc: Pc)
    requires pc.ReceiverDec? && 0 < s.receivers
  {
    && SameWaitlist(s, s') && s'.buf == s.buf
    && s'.connected == s.connected && s'.frees == s.frees && s'.sPhase == s.sPhase
    && s'.senders == s.senders && s'.receivers == s.receivers - 1 && s'.snd == s.snd
    && s'.rcv == s.rcv - {pc.receiver}
    && Notes(s, s', ReceiverGone)
    && if s.receivers == 1 then s'.rPhase == Closing(t) && Goes(s, s', t, SwapConnected(false))
       else s'.rPhase == s.rPhase && Returns(s, s', t)
  }

  ghost predicate Effect(s: State, a: Action, s': State)
    requires 0 < s.cap && Enabled(s, a) && !Crashes(s, a)
  {
    && s'.cap == s.cap && s'.fault == s.fault
    && match a
      case StartSend(t, h, m) => SendStart(s, s', t, h, m)
      case DoPush(t) => Push(s, s', t, s.ops[t])
      case AcquireRead(t) => LockWaitlist(s, s', t, s.ops[t])
      case Visit(t, k) => VisitSlot(s, s', t, s.ops[t], k)
      case ScanEmpty(t) => FoundNothing(s, s', t, s.ops[t])
      case ReleaseRead(t) => UnlockWaitlist(s, s', t, s.ops[t])
      case DoWake(t) => Wake(s, s', t, s.ops[t])
      case CloneSender(t, h, n) => SenderClone(s, s', n)
      case DropSender(t, h) => SenderDrop(s, s', t, h)
      case DoSwap(t) => Swap(s, s', t, s.ops[t].bySender)
      case DoFree(t) => Free(s, s', t)
      case StartTryRecv(t, h) => LoadSenders(s, s', t, h, Plain) && s'.rcv == s.rcv && s'.fate == s.fate
      case StartPoll(t, h, w) =>
        && LoadSenders(s, s', t, h, First(s.rcv[h].slot, w))
        && s'.rcv == s.rcv[h := Live(s.rcv[h].slot, None)] && s'.fate == s.fate[w := Offered]
      case DoPop(t) => Pop(s, s', t, s.ops[t])
      case DoInsert(t) => Insert(s, s', t, s.ops[t])
      case DoReload(t) =>
        && LoadSenders(s, s', t, s.ops[t].receiver, Second(s.ops[t].slot, s.ops[t].waker))
        && s'.rcv == s.rcv && s'.fate == s.fate
      case DoRemove(t) => Remove(s, s', t, s.ops[t])
      case CloneReceiver(t, h, n) => ReceiverClone(s, s', t, h, n)
      case DoRegister(t, k) => Register(s, s', t, s.ops[t], k)
      case DropReceiver(t, h) => ReceiverDrop(s, s', t, h)
      case DoReceiverDec(t) => DecReceivers(s, s', t, s.ops[t])
  }

  ghost predicate Step(s: State, a: Action, s': State) {
    && 0 < s.cap
    && Enabled(s, a)
    && if Crashes(s, a) then s' == s.(fault := true) else Effect(s, a, s')
  }

  // ---------- runs ----------

  /** `states` is a run that makes the actions `acts`. */
  ghost predicate Run(states: seq<State>, acts: seq<Action>) {
    && |states| == |acts| + 1
    && forall i {:trigger acts[i]} :: 0 <= i < |acts| ==> Step(states[i], acts[i], states[i + 1])
  }

  /** `states` starts with a fresh channel of capacity `cap`. */
  ghost predicate RunFrom(cap: nat, states: seq<State>, acts: seq<Action>) {
    0 < cap && Run(states, acts) && states[0] == Init(cap)
  }

  ghost predicate Reachable(s: State) {
    exists cap, states, acts :: RunFrom(cap, states, acts) && states[|acts|] == s
  }

  /** A run in which thread `t` does not act. */
  ghost predicate OthersRun(states: seq<State>, acts: seq<Action>, t: Tid) {
    Run(states, acts) && forall a :: a in acts ==> a.t != t
  }

  /** The other threads may take `s` to `s'`: by any run in which `t` does not act. */
  ghost predicate Others(s: State, s': State, t: Tid) {
    exists states, acts :: OthersRun(states, acts, t) && states[0] == s && states[|acts|] == s'
  }

  /** Some run leads from `s` to `s'`. */
  ghost predicate Leads(s: State, s': State) {
    exists states, acts :: Run(states, acts) && states[0] == s && states[|acts|] == s'
  }
}
