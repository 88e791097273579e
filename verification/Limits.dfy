/** Where the channel promises less than a reader might expect: for each such point a run that shows it, and
    the exact condition under which the stronger promise holds. */
module Limits {
  import opened Base
  import opened History
  import opened Protocol
  import opened Invariant
  import opened Frames
  import opened Keep
  import opened Execution
  import opened Scanning

  /** A step of a run that witnesses something. */
  lemma Go(s: State, a: Action) returns (s': State)
    requires Reachable(s) && 0 < s.cap && Enabled(s, a) && !Crashes(s, a)
    ensures Does(s, a, s') && Reachable(s')
  {
    s' := Next(s, a);
    NextDoes(s, a, s');
    ReachableStep(s, a, s');
  }

  // ---------- a counter read at the start of a call is out of date at its end ----------

  /** The last receiver went after position `since` of the history. */
  ghost predicate LastReceiverLeft(log: Log, since: nat) {
    exists p :: since <= p < |log| && log[p] == ReceiverGone && Receivers(log[..p]) == 1
  }

  ghost predicate LastSenderLeft(log: Log, since: nat) {
    exists p :: since <= p < |log| && log[p] == SenderGone && Senders(log[..p]) == 1
  }

  lemma LeftUnsnoc(log: Log, since: nat)
    requires since < |log|
    ensures LastReceiverLeft(log, since) <==>
      LastReceiverLeft(Drop1(log), since) || (Last(log) == ReceiverGone && Receivers(Drop1(log)) == 1)
    ensures LastSenderLeft(log, since) <==>
      LastSenderLeft(Drop1(log), since) || (Last(log) == SenderGone && Senders(Drop1(log)) == 1)
  {
    var l, n := Drop1(log), |log| - 1;
    assert log[..n] == l;
    forall p | 0 <= p < n ensures l[p] == log[p] && l[..p] == log[..p] {}
  }

  /** A counter that was positive is 0 now if and only if its last endpoint left in between. */
  lemma {:induction false} ZeroSince(cap: nat, log: Log, since: nat)
    requires 0 < cap && Legal(cap, log) && since <= |log|
    ensures 0 < Senders(log[..since]) ==> (Senders(log) == 0 <==> LastSenderLeft(log, since))
    ensures 0 < Receivers(log[..since]) ==> (Receivers(log) == 0 <==> LastReceiverLeft(log, since))
    decreases |log|
  {
    if since == |log| {
      assert log[..since] == log;
    } else {
      LegalUnsnoc(cap, log);
      CountersNeverNegative(cap, Drop1(log));
      ZeroSince(cap, Drop1(log), since);
      LeftUnsnoc(log, since);
      assert Drop1(log)[..since] == log[..since];
    }
  }

  /** A push happens although no receiver is left if and only if the last receiver went between the load of
      its call and the push. */
  lemma PushedToNobodyIff(s: State, t: Tid)
    requires Reachable(s) && t in s.ops && s.ops[t].SendPush?
    ensures s.receivers == 0 <==> LastReceiverLeft(s.log, s.ops[t].since)
  {
    ReachableInv(s);
    ZeroSince(s.cap, s.log, s.ops[t].since);
  }

  /** A `send` that ends after the last receiver went, and succeeds all the same. */
  lemma PushedToNobody(cap: nat, m: Msg)
    requires 0 < cap
    ensures exists s, t, s' :: Reachable(s) && s.receivers == 0 && Step(s, DoPush(t), s') && s'.buf == s.buf + [m]
  {
    var s := LastReceiverScans(cap, m);
    s := Go(s, ScanEmpty(2));
    s := Go(s, DoReceiverDec(2));
    var s' := Go(s, DoPush(1));
    assert s'.buf == s.buf + [m];
  }

  /** A sender is about to push when the last receiver has removed its slot. */
  lemma LastReceiverScans(cap: nat, m: Msg) returns (s: State)
    requires 0 < cap
    ensures Reachable(s) && s.cap == cap && s.frees == 0 && s.receivers == 1 && s.buf == []
    ensures s.ops.Keys == {1, 2} && s.ops[1].SendPush? && s.ops[1].msg == m && s.ops[2] == Scan(ForReceiverDrop(0), {})
  {
    ReachableInit(cap);
    s := Go(Init(cap), StartSend(1, 0, m));
    s := Go(s, DropReceiver(2, 0));
    s := Go(s, AcquireRead(2));
  }

  /** Where there was no sender, no last sender can leave later. */
  lemma NoSenderAfterNone(cap: nat, log: Log, since: nat)
    requires 0 < cap && Legal(cap, log) && since <= |log|
    ensures Senders(log[..since]) <= 0 ==> Senders(log[..since]) == 0 && !LastSenderLeft(log, since)
  {
    LegalPrefix(cap, log, since);
    CountersNeverNegative(cap, log[..since]);
    forall p | since <= p < |log| && Senders(log[..since]) == 0 ensures Senders(log[..p]) == 0 {
      ZeroIsAbsorbingBetween(cap, log, since, p);
    }
  }

  /** A `try_recv` that finds no message says `Disconnected` exactly if its load saw no sender.  It says `Empty`
      on a channel without senders if and only if the last sender went between its load and its pop. */
  lemma EmptyWithoutSendersIff(s: State, t: Tid)
    requires Reachable(s) && t in s.ops && s.ops[t].RecvPop?
    ensures var r, since := PopResult(s.buf, s.ops[t].senders), s.ops[t].since;
      && since < |s.log|
      && (r == Disconnected <==> s.buf == [] && Senders(s.log[..since]) == 0)
      && (r == Empty && s.senders == 0 <==> s.buf == [] && LastSenderLeft(s.log, since))
  {
    ReachableInv(s);
    assert LoadOk(s, t, s.ops[t]);
    ZeroSince(s.cap, s.log, s.ops[t].since);
    NoSenderAfterNone(s.cap, s.log, s.ops[t].since);
  }

  /** A `try_recv` that returns `Empty` when the channel is disconnected and empty. */
  lemma EmptyWithoutSenders(cap: nat)
    requires 0 < cap
    ensures exists s, t ::
      Reachable(s) && s.senders == 0 && t in s.ops && s.ops[t].RecvPop? && PopResult(s.buf, s.ops[t].senders) == Empty
  {
    ReachableInit(cap);
    var s := Go(Init(cap), StartTryRecv(1, 0));
    s := Go(s, DropSender(2, 0));
    assert s.ops[1].RecvPop?;
  }

  // ---------- a scan that finds nothing ----------

  ghost predicate SomeSlotFull(s: State) {
    exists k :: k in s.slots && s.slots[k].Some?
  }

  /** A scan by `t` so far, with some slot full in each of its states. */
  ghost predicate Misses(states: seq<State>, acts: seq<Action>, t: Tid) {
    Scans(states, acts, t) && forall n :: 0 <= n < |states| ==> SomeSlotFull(states[n])
  }

  /** One more step, after which slot `k` is full. */
  lemma StillMisses(states: seq<State>, acts: seq<Action>, t: Tid, a: Action, s': State, k: Slot)
    returns (states': seq<State>, acts': seq<Action>)
    requires Misses(states, acts, t) && Step(states[|acts|], a, s')
    requires k in s'.slots && s'.slots[k].Some? && t in s'.ops && s'.ops[t].Scan?
    ensures Misses(states', acts', t) && s' == states'[|acts'|]
  {
    states', acts' := states + [s'], acts + [a];
    ScanGoesOn(states, acts, t, a, s');
  }

  /** A scan that finds nothing although some slot is full all the time: receiver 1 parks in a slot already
      visited, then receiver 0 leaves the one not visited yet.  `Scanning.NoneIsSnapshotIff` says when a scan that
      finds nothing has seen the waitlist as it is. */
  lemma NoneIsNotASnapshot(cap: nat, m: Msg)
    requires 0 < cap
    ensures exists states, acts, t :: Misses(states, acts, t) && Enabled(states[|acts|], ScanEmpty(t))
  {
    var states, acts, s := BothParked(cap, m);
    var s1, s2 := FirstLeaves(s);
    states, acts := StillMisses(states, acts, 1, DoRemove(2), s1, 1);
    states, acts := StillMisses(states, acts, 1, Visit(1, 0), s2, 1);
  }

  lemma FirstLeaves(s: State) returns (s1: State, s2: State)
    requires Reachable(s) && 0 < s.cap && s.frees == 0
    requires s.slots == map[0 := Some(0), 1 := Some(1)]
    requires s.ops == map[1 := Scan(ForSend(0), {0}), 2 := PollRemove(0, 0), 3 := RecvReload(1, 1, 1)]
    ensures Step(s, DoRemove(2), s1) && Step(s1, Visit(1, 0), s2)
    ensures 1 in s1.slots && s1.slots[1] == Some(1) && 1 in s1.ops && s1.ops[1].Scan?
    ensures 1 in s2.slots && s2.slots[1] == Some(1) && 1 in s2.ops && s2.ops[1].Scan? && s2.ops[1].left == {}
  {
    s1 := Go(s, DoRemove(2));
    s2 := Go(s1, Visit(1, 0));
  }

  /** The scan has passed slot 1 when receiver 1 parks there. */
  lemma BothParked(cap: nat, m: Msg) returns (states: seq<State>, acts: seq<Action>, s: State)
    requires 0 < cap
    ensures Misses(states, acts, 1) && s == states[|acts|]
    ensures Reachable(s) && 0 < s.cap && s.frees == 0
    ensures s.slots == map[0 := Some(0), 1 := Some(1)]
    ensures s.ops == map[1 := Scan(ForSend(0), {0}), 2 := PollRemove(0, 0), 3 := RecvReload(1, 1, 1)]
  {
    states, acts, s := ScanStarts(cap, m);
    var s1, s2 := SecondParks(s);
    states, acts := StillMisses(states, acts, 1, Visit(1, 1), s1, 0);
    states, acts := StillMisses(states, acts, 1, DoInsert(3), s2, 0);
    s := s2;
  }

  lemma SecondParks(s: State) returns (s1: State, s2: State)
    requires Reachable(s) && 0 < s.cap && s.frees == 0
    requires s.slots == map[0 := Some(0), 1 := None]
    requires s.ops == map[1 := Scan(ForSend(0), {0, 1}), 2 := PollRemove(0, 0), 3 := PollInsert(1, 1, 1)]
    ensures Step(s, Visit(1, 1), s1) && Step(s1, DoInsert(3), s2)
    ensures 0 in s1.slots && s1.slots[0] == Some(0) && 1 in s1.ops && s1.ops[1].Scan?
    ensures Reachable(s2) && 0 < s2.cap && s2.frees == 0
    ensures s2.slots == map[0 := Some(0), 1 := Some(1)]
    ensures s2.ops == map[1 := Scan(ForSend(0), {0}), 2 := PollRemove(0, 0), 3 := RecvReload(1, 1, 1)]
  {
    s1 := Go(s, Visit(1, 1));
    s2 := Go(s1, DoInsert(3));
    assert s2.ops[1] == Scan(ForSend(0), {0});
  }

  lemma ScanStarts(cap: nat, m: Msg) returns (states: seq<State>, acts: seq<Action>, s: State)
    requires 0 < cap
    ensures Misses(states, acts, 1) && s == states[|acts|]
    ensures Reachable(s) && 0 < s.cap && s.frees == 0
    ensures s.slots == map[0 := Some(0), 1 := None]
    ensures s.ops == map[1 := Scan(ForSend(0), {0, 1}), 2 := PollRemove(0, 0), 3 := PollInsert(1, 1, 1)]
  {
    var s0 := FirstLeaving(cap, m);
    s := Go(s0, AcquireRead(1));
    states, acts := [s0, s], [AcquireRead(1)];
    assert s0.slots[0].Some? && s.slots[0].Some?;
    assert s.slots.Keys == {0, 1};
  }

  /** Receiver 0 has found the message at its second look. */
  lemma FirstLeaving(cap: nat, m: Msg) returns (s: State)
    requires 0 < cap
    ensures Reachable(s) && 0 < s.cap && s.frees == 0
    ensures s.slots == map[0 := Some(0), 1 := None]
    ensures s.ops == map[1 := ScanLock(ForSend(0)), 2 := PollRemove(0, 0), 3 := PollInsert(1, 1, 1)]
  {
    s := BothPolling(cap, m);
    s := Go(s, DoReload(2));
    s := Go(s, DoPop(2));
  }

  /** Receiver 0 has stored its waker and receiver 1 is about to; a message was pushed. */
  lemma BothPolling(cap: nat, m: Msg) returns (s: State)
    requires 0 < cap
    ensures Reachable(s) && 0 < s.cap && s.frees == 0 && s.buf == [m]
    ensures s.slots == map[0 := Some(0), 1 := None]
    ensures s.ops == map[1 := ScanLock(ForSend(0)), 2 := RecvReload(0, 0, 0), 3 := PollInsert(1, 1, 1)]
  {
    s := SecondLooks(cap);
    s := Go(s, StartSend(1, 0, m));
    s := Go(s, DoPush(1));
  }

  lemma SecondLooks(cap: nat) returns (s: State)
    requires 0 < cap
    ensures Reachable(s) && 0 < s.cap && s.frees == 0 && s.buf == []
    ensures 0 < s.receivers && s.snd == {0}
    ensures s.slots == map[0 := Some(0), 1 := None]
    ensures s.ops == map[2 := RecvReload(0, 0, 0), 3 := PollInsert(1, 1, 1)]
  {
    s := FirstParked(cap);
    s := Go(s, StartPoll(3, 1, 1));
    s := Go(s, DoPop(3));
  }

  lemma FirstParked(cap: nat) returns (s: State)
    requires 0 < cap
    ensures Reachable(s) && 0 < s.cap && s.frees == 0 && s.buf == []
    ensures 0 < s.senders && 0 < s.receivers && s.snd == {0} && s.fate.Keys == {0}
    ensures 1 in s.rcv && s.rcv[1] == Live(1, None)
    ensures s.slots == map[0 := Some(0), 1 := None]
    ensures s.ops == map[2 := RecvReload(0, 0, 0)]
  {
    s := FirstLooks(cap);
    s := Go(s, DoPop(2));
    s := Go(s, DoInsert(2));
  }

  lemma FirstLooks(cap: nat) returns (s: State)
    requires 0 < cap
    ensures Reachable(s) && 0 < s.cap && s.frees == 0 && s.buf == []
    ensures 0 < s.senders && 0 < s.receivers && s.snd == {0} && s.fate.Keys == {0}
    ensures 1 in s.rcv && s.rcv[1] == Live(1, None)
    ensures s.slots == map[0 := None, 1 := None]
    ensures s.ops.Keys == {2} && s.ops[2].RecvPop? && s.ops[2].senders
    ensures s.ops[2].receiver == 0 && s.ops[2].mode == First(0, 0)
  {
    s := TwoReceivers(cap);
    s := Go(s, StartPoll(2, 0, 0));
  }

  lemma TwoReceivers(cap: nat) returns (s: State)
    requires 0 < cap
    ensures Reachable(s) && 0 < s.cap && s.frees == 0 && s.buf == []
    ensures 0 < s.senders && 0 < s.receivers && s.snd == {0} && s.fate == map[]
    ensures s.rcv == map[0 := Live(0, None), 1 := Live(1, None)]
    ensures s.slots == map[0 := None, 1 := None] && s.ops == map[]
  {
    ReachableInit(cap);
    s := Go(Init(cap), CloneReceiver(3, 0, 1));
    s := Go(s, DoRegister(3, 1));
  }
}
