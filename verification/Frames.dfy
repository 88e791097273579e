/** What all steps, or large classes of them, have in common. */
module Frames {
  import opened Base
  import opened Protocol
  import opened Invariant

  /** A step that does not crash. */
  ghost predicate Does(s: State, a: Action, s': State) {
    0 < s.cap && Enabled(s, a) && !Crashes(s, a) && Effect(s, a, s')
  }

  /** No thread but `t` moves. */
  ghost predicate OnlyMoves(s: State, s': State, t: Tid) {
    s'.ops == s.ops || Returns(s, s', t) || (t in s'.ops && Goes(s, s', t, s'.ops[t]))
  }

  lemma OnlyActorMoves(s: State, a: Action, s': State)
    requires Does(s, a, s')
    ensures OnlyMoves(s, s', a.t)
  {
  }

  /** The actions that end the use of a handle or change a phase. */
  predicate Ends(a: Action) {
    a.DropSender? || a.DoSwap? || a.DoFree? || a.DropReceiver? || a.DoReceiverDec?
  }

  /** The actions that change which slots are registered. */
  predicate Reshapes(a: Action) {
    a.DoRegister? || a.DropReceiver?
  }

  /** A thread that continues a poll stays in the same poll; only `StartPoll` starts one. */
  ghost predicate PollContinues(s: State, s': State, t: Tid) {
    t in s'.ops && PollSlot(s'.ops[t]).Some? ==>
      t in s.ops && PollSlot(s.ops[t]) == PollSlot(s'.ops[t]) && RoleOf(s.ops[t]) == RoleOf(s'.ops[t])
  }

  lemma OnlyStartPollStarts(s: State, a: Action, s': State)
    requires Does(s, a, s') && !a.StartPoll?
    ensures PollContinues(s, s', a.t)
  {
  }

  // ---------- the acting thread ----------

  ghost predicate PollOk(s: State, pc: Pc) {
    PollSlot(pc).Some? ==>
      && RoleOf(pc).BorrowsReceiver?
      && LiveReceiver(s, RoleOf(pc).r)
      && s.rcv[RoleOf(pc).r].slot == PollSlot(pc).value
  }

  ghost predicate InHandOk(s: State, pc: Pc) {
    && (OfferedBy(pc).Some? ==> OfferedBy(pc).value in s.fate && s.fate[OfferedBy(pc).value] == Offered)
    && (HeldBy(pc).Some? ==> HeldBy(pc).value in s.fate && s.fate[HeldBy(pc).value] == Taken)
  }

  /** What the invariant says of the thread that acts and of the handle it starts from. */
  ghost predicate ActorOk(s: State, a: Action) {
    && (a.t in s.ops ==>
          var pc := s.ops[a.t];
          && RoleOk(s, a.t, RoleOf(pc))
          && PollOk(s, pc)
          && InHandOk(s, pc)
          && (pc.CloneRegister? ==> pc.new' in s.rcv && s.rcv[pc.new'] == Building)
          && (pc.SendPush? ==> 0 < s.senders)
          && (pc.ReceiverDec? ==> 0 < s.receivers))
    && (a.StartSend? || a.CloneSender? || a.DropSender? ==> 0 < s.senders)
    && (a.CloneReceiver? ==> 0 < s.receivers)
  }

  lemma ActorIsOk(s: State, a: Action)
    requires LifeInv(s) && Polls(s) && Offers(s) && Holds(s) && Enabled(s, a)
    ensures ActorOk(s, a)
  {
    if a.StartSend? || a.CloneSender? || a.DropSender? { assert a.h in s.snd; }
    if a.CloneReceiver? { assert a.h in s.rcv.Keys; }
    if a.t in s.ops && s.ops[a.t].ReceiverDec? {
      assert RoleOk(s, a.t, RoleOf(s.ops[a.t]));
      assert s.ops[a.t].receiver in s.rcv.Keys;
    }
    if a.t in s.ops && s.ops[a.t].SendPush? {
      assert RoleOk(s, a.t, RoleOf(s.ops[a.t]));
    }
  }
}
