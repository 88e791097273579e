/** The step machine as a program: the state that an action leads to, computed; and what a thread can rely
    on while the others run. */
module Execution {
  import opened Base
  import opened History
  import opened Protocol
  import opened Frames
  import Fifo
  import SlotMap

  function Goto(s: State, t: Tid, pc: Pc): State {
    s.(ops := s.ops[t := pc])
  }

  function Return(s: State, t: Tid): State {
    s.(ops := s.ops - {t})
  }

  function Continue(s: State, t: Tid, why: Why, found: bool): State {
    match why
    case ForSend(_) => Return(s, t)
    case ForLastSender => Goto(s, t, if found then ScanLock(ForLastSender) else SwapConnected(true))
    case ForReceiverDrop(h) => Goto(s, t, ReceiverDec(h))
  }

  function Load(s: State, t: Tid, h: Hid, mode: Mode): State {
    Goto(s.(log := s.log + [Loaded(t)]), t, RecvPop(h, mode, 0 < s.senders, |s.log|))
  }

  function NextOfSend(s: State, a: Action): State
    requires 0 < s.cap && Enabled(s, a) && !Crashes(s, a)
    requires a.StartSend? || a.DoPush? || a.CloneSender? || a.DropSender? || a.DoSwap? || a.DoFree?
  {
    match a
    case StartSend(t, h, m) =>
      if 0 < s.receivers then Goto(s.(log := s.log + [Loaded(t)]), t, SendPush(h, m, |s.log|))
      else s.(log := s.log + [Refused(t, m)])
    case DoPush(t) =>
      var pc := s.ops[t];
      var (q, overwritten) := Fifo.Push(s.cap, s.buf, pc.msg);
      var s1 := s.(buf := q, log := s.log + [Pushed(t, pc.msg, overwritten, pc.since)]);
      if overwritten.None? then Goto(s1, t, ScanLock(ForSend(pc.sender))) else Return(s1, t)
    case CloneSender(_, _, n) => s.(senders := s.senders + 1, snd := s.snd + {n}, log := s.log + [SenderAdded])
    case DropSender(t, h) =>
      var s1 := s.(senders := s.senders - 1, snd := s.snd - {h}, log := s.log + [SenderGone]);
      if s.senders == 1 then Goto(s1.(sPhase := Closing(t)), t, ScanLock(ForLastSender)) else s1
    case DoSwap(t) =>
      var s1 := if s.ops[t].bySender then s.(connected := false, sPhase := Closed)
                else s.(connected := false, rPhase := Closed);
      if s.connected then Return(s1, t) else Goto(s1, t, FreeBlock)
    case DoFree(t) => Return(s.(frees := s.frees + 1), t)
  }

  function NextOfScan(s: State, a: Action): State
    requires 0 < s.cap && Enabled(s, a) && !Crashes(s, a)
    requires a.AcquireRead? || a.Visit? || a.ScanEmpty? || a.ReleaseRead? || a.DoWake?
  {
    var pc := s.ops[a.t];
    match a
    case AcquireRead(t) => Goto(s.(readers := s.readers + {t}), t, Scan(pc.why, s.slots.Keys))
    case Visit(t, k) =>
      var (slots, found) := SlotMap.Take(s.slots, k);
      Goto(s.(slots := slots, fate := Disposed(s.fate, found, Taken)), t,
           if found.Some? then Unlock(pc.why, found.value) else Scan(pc.why, pc.left - {k}))
    case ScanEmpty(t) => Continue(s.(readers := s.readers - {t}), t, pc.why, false)
    case ReleaseRead(t) => Goto(s.(readers := s.readers - {t}), t, WakeUp(pc.why, pc.waker))
    case DoWake(t) => Continue(s.(fate := s.fate[pc.waker := Woken]), t, pc.why, true)
  }

  function NextOfReceive(s: State, a: Action): State
    requires 0 < s.cap && Enabled(s, a) && !Crashes(s, a)
    requires a.StartTryRecv? || a.StartPoll? || a.DoPop? || a.DoInsert? || a.DoReload? || a.DoRemove?
  {
    match a
    case StartTryRecv(t, h) => Load(s, t, h, Plain)
    case StartPoll(t, h, w) =>
      var k := s.rcv[h].slot;
      Load(s.(rcv := s.rcv[h := Live(k, None)], fate := s.fate[w := Offered]), t, h, First(k, w))
    case DoPop(t) =>
      var pc := s.ops[t];
      var r := PopResult(s.buf, pc.senders);
      var s1 := s.(buf := Fifo.Pop(s.buf).0, log := s.log + [Popped(t, r, pc.since)]);
      (match pc.mode
       case Plain => Return(s1, t)
       case First(k, w) => Goto(s1, t, if r == Empty then PollInsert(pc.receiver, k, w) else PollRemove(pc.receiver, k))
       case Second(k, w) =>
         if r == Empty then Return(s1.(rcv := s.rcv[pc.receiver := Live(k, Some(w))]), t)
         else Goto(s1, t, PollRemove(pc.receiver, k)))
    case DoInsert(t) =>
      var pc := s.ops[t];
      var (slots, before) := SlotMap.Swap(s.slots, pc.slot, pc.waker);
      Goto(s.(slots := slots, fate := Disposed(s.fate, before, Replaced)[pc.waker := Stored(pc.slot)]), t,
           RecvReload(pc.receiver, pc.slot, pc.waker))
    case DoReload(t) => Load(s, t, s.ops[t].receiver, Second(s.ops[t].slot, s.ops[t].waker))
    case DoRemove(t) =>
      var (slots, before) := SlotMap.Take(s.slots, s.ops[t].slot);
      Return(s.(slots := slots, fate := Disposed(s.fate, before, Withdrawn)), t)
  }

  function NextOfReceiver(s: State, a: Action): State
    requires 0 < s.cap && Enabled(s, a) && !Crashes(s, a)
    requires a.CloneReceiver? || a.DoRegister? || a.DropReceiver? || a.DoReceiverDec?
  {
    match a
    case CloneReceiver(t, h, n) =>
      Goto(s.(receivers := s.receivers + 1, rcv := s.rcv[n := Building], log := s.log + [ReceiverAdded]), t, CloneRegister(h, n))
    case DoRegister(t, k) =>
      Return(s.(slots := SlotMap.Register(s.slots, k), rcv := s.rcv[s.ops[t].new' := Live(k, None)]), t)
    case DropReceiver(t, h) =>
      var (slots, before) := SlotMap.Deregister(s.slots, s.rcv[h].slot);
      Goto(s.(slots := slots, rcv := s.rcv[h := Leaving], fate := Disposed(s.fate, before, Returned)), t,
           if before.None? then ScanLock(ForReceiverDrop(h)) else ReceiverDec(h))
    case DoReceiverDec(t) =>
      var s1 := s.(receivers := s.receivers - 1, rcv := s.rcv - {s.ops[t].receiver}, log := s.log + [ReceiverGone]);
      if s.receivers == 1 then Goto(s1.(rPhase := Closing(t)), t, SwapConnected(false)) else Return(s1, t)
  }

  /** The state after an action. */
  function Next(s: State, a: Action): State
    requires 0 < s.cap && Enabled(s, a) && !Crashes(s, a)
  {
    if a.StartSend? || a.DoPush? || a.CloneSender? || a.DropSender? || a.DoSwap? || a.DoFree? then NextOfSend(s, a)
    else if a.AcquireRead? || a.Visit? || a.ScanEmpty? || a.ReleaseRead? || a.DoWake? then NextOfScan(s, a)
    else if a.StartTryRecv? || a.StartPoll? || a.DoPop? || a.DoInsert? || a.DoReload? || a.DoRemove? then NextOfReceive(s, a)
    else NextOfReceiver(s, a)
  }

  /** The relation that defines a step has exactly one solution, and `Next` computes it. */
  lemma NextDoes(s: State, a: Action, s': State)
    requires 0 < s.cap && Enabled(s, a) && !Crashes(s, a)
    ensures Does(s, a, s') <==> s' == Next(s, a)
  {
    if a.StartSend? { SendingDoes(s, a); }
    else if a.DoPush? { PushingDoes(s, a); }
    else if a.CloneSender? { SenderCloneDoes(s, a); }
    else if a.DropSender? { SenderDropDoes(s, a); }
    else if a.DoSwap? || a.DoFree? { EndingDoes(s, a); }
    else if a.AcquireRead? || a.Visit? { VisitingDoes(s, a); }
    else if a.ScanEmpty? { GivingUpDoes(s, a); }
    else if a.ReleaseRead? { UnlockingDoes(s, a); }
    else if a.DoWake? { WakingDoes(s, a); }
    else if a.StartTryRecv? || a.StartPoll? || a.DoReload? { LoadingDoes(s, a); }
    else if a.DoPop? && s.ops[a.t].mode.Second? { SecondPopDoes(s, a); }
    else if a.DoPop? { PoppingDoes(s, a); }
    else if a.DoInsert? || a.DoRemove? { PollingDoes(s, a); }
    else if a.CloneReceiver? || a.DoRegister? { ReceiverCloneDoes(s, a); }
    else if a.DropReceiver? { ReceiverDropDoes(s, a); }
    else { DecrementDoes(s, a); }
    if Does(s, a, s') { EffectIsUnique(s, a, s', Next(s, a)); }
  }

  lemma EffectIsUnique(s: State, a: Action, s1: State, s2: State)
    requires Does(s, a, s1) && Does(s, a, s2)
    ensures s1 == s2
  {
  }

  lemma SendingDoes(s: State, a: Action)
    requires 0 < s.cap && Enabled(s, a) && !Crashes(s, a)
    requires a.StartSend?
    ensures Effect(s, a, NextOfSend(s, a))
  {
  }

  lemma PushingDoes(s: State, a: Action)
    requires 0 < s.cap && Enabled(s, a) && !Crashes(s, a)
    requires a.DoPush?
    ensures Effect(s, a, NextOfSend(s, a))
  {
  }

  lemma SenderCloneDoes(s: State, a: Action)
    requires 0 < s.cap && Enabled(s, a) && !Crashes(s, a)
    requires a.CloneSender?
    ensures Effect(s, a, NextOfSend(s, a))
  {
  }

  lemma SenderDropDoes(s: State, a: Action)
    requires 0 < s.cap && Enabled(s, a) && !Crashes(s, a)
    requires a.DropSender?
    ensures Effect(s, a, NextOfSend(s, a))
  {
  }

  lemma EndingDoes(s: State, a: Action)
    requires 0 < s.cap && Enabled(s, a) && !Crashes(s, a)
    requires a.DoSwap? || a.DoFree?
    ensures Effect(s, a, NextOfSend(s, a))
  {
  }

  lemma VisitingDoes(s: State, a: Action)
    requires 0 < s.cap && Enabled(s, a) && !Crashes(s, a)
    requires a.AcquireRead? || a.Visit?
    ensures Effect(s, a, NextOfScan(s, a))
  {
  }

  lemma GivingUpDoes(s: State, a: Action)
    requires 0 < s.cap && Enabled(s, a) && !Crashes(s, a)
    requires a.ScanEmpty?
    ensures Effect(s, a, NextOfScan(s, a))
  {
  }

  lemma UnlockingDoes(s: State, a: Action)
    requires 0 < s.cap && Enabled(s, a) && !Crashes(s, a)
    requires a.ReleaseRead?
    ensures Effect(s, a, NextOfScan(s, a))
  {
  }

  lemma WakingDoes(s: State, a: Action)
    requires 0 < s.cap && Enabled(s, a) && !Crashes(s, a)
    requires a.DoWake?
    ensures Effect(s, a, NextOfScan(s, a))
  {
  }

  lemma LoadingDoes(s: State, a: Action)
    requires 0 < s.cap && Enabled(s, a) && !Crashes(s, a)
    requires a.StartTryRecv? || a.StartPoll? || a.DoReload?
    ensures Effect(s, a, NextOfReceive(s, a))
  {
  }

  lemma PoppingDoes(s: State, a: Action)
    requires 0 < s.cap && Enabled(s, a) && !Crashes(s, a)
    requires a.DoPop? && !s.ops[a.t].mode.Second?
    ensures Effect(s, a, NextOfReceive(s, a))
  {
  }

  lemma SecondPopDoes(s: State, a: Action)
    requires 0 < s.cap && Enabled(s, a) && !Crashes(s, a)
    requires a.DoPop? && s.ops[a.t].mode.Second?
    ensures Effect(s, a, NextOfReceive(s, a))
  {
  }

  lemma PollingDoes(s: State, a: Action)
    requires 0 < s.cap && Enabled(s, a) && !Crashes(s, a)
    requires a.DoInsert? || a.DoRemove?
    ensures Effect(s, a, NextOfReceive(s, a))
  {
  }

  lemma ReceiverCloneDoes(s: State, a: Action)
    requires 0 < s.cap && Enabled(s, a) && !Crashes(s, a)
    requires a.CloneReceiver? || a.DoRegister?
    ensures Effect(s, a, NextOfReceiver(s, a))
  {
  }

  lemma ReceiverDropDoes(s: State, a: Action)
    requires 0 < s.cap && Enabled(s, a) && !Crashes(s, a)
    requires a.DropReceiver?
    ensures Effect(s, a, NextOfReceiver(s, a))
  {
  }

  lemma DecrementDoes(s: State, a: Action)
    requires 0 < s.cap && Enabled(s, a) && !Crashes(s, a)
    requires a.DoReceiverDec?
    ensures Effect(s, a, NextOfReceiver(s, a))
  {
  }
}
