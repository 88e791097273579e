/** Steps append legal operations to the history, and the shared state stays what the history says. */
module KeepHistory {
  import opened Base
  import opened History
  import opened Protocol
  import opened Invariant
  import opened Frames
  import Fifo

  /** The operation that an action makes visible, if any. */
  function Label(s: State, a: Action): Option<Event>
    requires 0 < s.cap
  {
    match a
    case StartSend(t, _, m) => Some(if 0 < s.receivers then Loaded(t) else Refused(t, m))
    case DoPush(t) =>
      if t in s.ops && s.ops[t].SendPush? then
        Some(Pushed(t, s.ops[t].msg, Fifo.Push(s.cap, s.buf, s.ops[t].msg).1, s.ops[t].since))
      else None
    case CloneSender(_, _, _) => Some(SenderAdded)
    case DropSender(_, _) => Some(SenderGone)
    case StartTryRecv(t, _) => Some(Loaded(t))
    case StartPoll(t, _, _) => Some(Loaded(t))
    case DoReload(t) => Some(Loaded(t))
    case DoPop(t) =>
      if t in s.ops && s.ops[t].RecvPop? then Some(Popped(t, PopResult(s.buf, s.ops[t].senders), s.ops[t].since))
      else None
    case CloneReceiver(_, _, _) => Some(ReceiverAdded)
    case DoReceiverDec(_) => Some(ReceiverGone)
    case _ => None
  }

  /** A step changes the queue and the counters as its label says. */
  lemma StepsFollowTheirLabel(s: State, a: Action, s': State)
    requires Does(s, a, s')
    ensures s'.cap == s.cap
    ensures match Label(s, a)
      case None => s'.log == s.log && s'.buf == s.buf && s'.senders == s.senders && s'.receivers == s.receivers
      case Some(e) =>
        && s'.log == s.log + [e]
        && s'.buf == QueueAfter(s.cap, s.buf, e)
        && s'.senders == s.senders + (if e == SenderAdded then 1 else if e == SenderGone then -1 else 0)
        && s'.receivers == s.receivers + (if e == ReceiverAdded then 1 else if e == ReceiverGone then -1 else 0)
  {
  }

  /** The label of a step is a legal continuation of the history. */
  lemma LabelsAreLegal(s: State, a: Action)
    requires Recorded(s) && ActorOk(s, a) && Enabled(s, a) && Label(s, a).Some?
    requires !Crashes(s, a)
    ensures LegalNext(s.cap, s.log, Label(s, a).value)
  {
    match a {
      case DoPush(t) =>
        assert LoadOk(s, t, s.ops[t]);
      case DoPop(t) =>
        assert LoadOk(s, t, s.ops[t]);
      case _ =>
    }
  }

  /** What a load leaves with its thread. */
  lemma OnlyLoadsLoad(s: State, a: Action, s': State)
    requires Does(s, a, s')
    ensures a.t in s'.ops && s'.ops[a.t].SendPush? && !(a.t in s.ops && s'.ops[a.t] == s.ops[a.t]) ==>
      Label(s, a) == Some(Loaded(a.t)) && s'.ops[a.t].since == |s.log| && 0 < s.receivers
    ensures a.t in s'.ops && s'.ops[a.t].RecvPop? && !(a.t in s.ops && s'.ops[a.t] == s.ops[a.t]) ==>
      Label(s, a) == Some(Loaded(a.t)) && s'.ops[a.t].since == |s.log| && s'.ops[a.t].senders == (0 < s.senders)
    ensures a.t in s.ops && (s.ops[a.t].SendPush? || s.ops[a.t].RecvPop?) && Label(s, a).Some? && By(Label(s, a).value, a.t) ==>
      !(a.t in s'.ops && s'.ops[a.t] == s.ops[a.t])
    ensures Label(s, a).Some? ==> forall u :: By(Label(s, a).value, u) ==> u == a.t
  {
  }

  /** A thread that has just loaded may rely on what it saw. */
  lemma FreshLoad(s: State, s': State, t: Tid)
    requires Recorded(s) && t in s'.ops && (s'.ops[t].SendPush? || s'.ops[t].RecvPop?)
    requires s'.log == s.log + [Loaded(t)] && s'.ops[t].since == |s.log| && s'.senders == s.senders
    requires s'.ops[t].SendPush? ==> 0 < s.receivers
    requires s'.ops[t].RecvPop? ==> s'.ops[t].senders == (0 < s.senders)
    ensures LoadOk(s', t, s'.ops[t])
  {
    assert s'.log[..|s.log|] == s.log;
  }

  /** What a thread may rely on is not affected by what other threads do. */
  lemma LoadStays(s: State, s': State, u: Tid, e: Event)
    requires Recorded(s) && u in s.ops && u in s'.ops && s'.ops[u] == s.ops[u]
    requires s'.log == s.log + [e] && !By(e, u)
    requires s.senders == 0 ==> s'.senders == 0
    ensures LoadOk(s', u, s'.ops[u])
  {
    assert LoadOk(s, u, s.ops[u]);
    Snoc(s.cap, s.log, e);
  }

  lemma KeepRecorded(s: State, a: Action, s': State)
    requires Recorded(s) && ActorOk(s, a) && Does(s, a, s')
    ensures Recorded(s')
  {
    StepsFollowTheirLabel(s, a, s');
    if Label(s, a).Some? {
      LabelsAreLegal(s, a);
      Snoc(s.cap, s.log, Label(s, a).value);
      assert Legal(s.cap, s'.log);
    }
    forall u | u in s'.ops ensures LoadOk(s', u, s'.ops[u]) {
      KeepLoads(s, a, s', u);
    }
  }

  lemma KeepLoads(s: State, a: Action, s': State, u: Tid)
    requires Recorded(s) && ActorOk(s, a) && Does(s, a, s') && u in s'.ops
    ensures LoadOk(s', u, s'.ops[u])
  {
    StepsFollowTheirLabel(s, a, s');
    OnlyActorMoves(s, a, s');
    OnlyLoadsLoad(s, a, s');
    if s'.ops[u].SendPush? || s'.ops[u].RecvPop? {
      if u in s.ops && s'.ops[u] == s.ops[u] {
        assert LoadOk(s, u, s.ops[u]);
        if s.senders == 0 { NoSenderStays(s, a, s'); }
        if Label(s, a).Some? {
          LoadStays(s, s', u, Label(s, a).value);
        }
      } else {
        FreshLoad(s, s', u);
      }
    }
  }

  /** Without senders no sender appears. */
  lemma NoSenderStays(s: State, a: Action, s': State)
    requires ActorOk(s, a) && Does(s, a, s') && s.senders == 0
    ensures s'.senders == 0
  {
  }
}
