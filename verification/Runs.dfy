/** The main results about whole runs. */
module Runs {
  import opened Base
  import opened History
  import opened Protocol
  import opened Invariant
  import opened Frames
  import opened Keep
  import KeepHistory
  import KeepProgress
  import Safety
  import KeepLife

  /** In a run from the start, each step does what its action says. */
  lemma RunDoes(cap: nat, states: seq<State>, acts: seq<Action>, k: nat)
    requires RunFrom(cap, states, acts) && k < |acts|
    ensures Does(states[k], acts[k], states[k + 1])
    ensures ActorOk(states[k], acts[k])
  {
    RunInv(cap, states, acts, k);
    RunStep(states, acts, k);
    ActorIsOk(states[k], acts[k]);
    KeepLife.NoCrash(states[k], acts[k]);
  }

  // ---------- refinement ----------

  /** Every step of the machine is a step of the sequential channel: it adds at most one legal operation to the
      history, and the queue and the counters change as that operation says.  All other steps are invisible. */
  lemma StepRefines(s: State, a: Action, s': State)
    requires Inv(s) && Step(s, a, s')
    ensures s'.log == s.log || exists e :: s'.log == s.log + [e] && LegalNext(s.cap, s.log, e)
    ensures s'.cap == s.cap && Queue(s.cap, s'.log) == s'.buf
    ensures Senders(s'.log) == s'.senders && Receivers(s'.log) == s'.receivers
  {
    KeepInv(s, a, s');
    ActorIsOk(s, a);
    KeepHistory.StepsFollowTheirLabel(s, a, s');
    if KeepHistory.Label(s, a).Some? {
      KeepHistory.LabelsAreLegal(s, a);
      assert LegalNext(s.cap, s.log, KeepHistory.Label(s, a).value);
    }
  }

  /** Every run refines the sequential channel. */
  lemma RunRefines(cap: nat, states: seq<State>, acts: seq<Action>, i: nat)
    requires RunFrom(cap, states, acts) && i <= |acts|
    ensures states[i].cap == cap
    ensures Legal(cap, states[i].log)
    ensures Queue(cap, states[i].log) == states[i].buf
    ensures Senders(states[i].log) == states[i].senders
    ensures Receivers(states[i].log) == states[i].receivers
  {
    RunInv(cap, states, acts, i);
    SameCap(cap, states, acts, i);
  }

  lemma {:induction false} SameCap(cap: nat, states: seq<State>, acts: seq<Action>, i: nat)
    requires RunFrom(cap, states, acts) && i <= |acts|
    ensures states[i].cap == cap
  {
    if 0 < i {
      var j := i - 1;
      SameCap(cap, states, acts, j);
      RunStep(states, acts, j);
      CapStays(states[j], acts[j], states[i]);
    }
  }

  lemma CapStays(s: State, a: Action, s': State)
    requires Step(s, a, s')
    ensures s'.cap == s.cap
  {
  }

  lemma LogStep(states: seq<State>, acts: seq<Action>, k: nat)
    requires Run(states, acts) && k < |acts|
    ensures states[k].log <= states[k + 1].log
  {
    RunStep(states, acts, k);
    if Does(states[k], acts[k], states[k + 1]) {
      KeepHistory.StepsFollowTheirLabel(states[k], acts[k], states[k + 1]);
    }
  }

  /** The history only grows. */
  lemma {:induction false} LogGrows(states: seq<State>, acts: seq<Action>, i: nat, j: nat)
    requires Run(states, acts) && i <= j <= |acts|
    ensures states[i].log <= states[j].log
    decreases j
  {
    if i < j {
      LogGrows(states, acts, i, j - 1);
      LogStep(states, acts, j - 1);
    }
  }

  // ---------- first in, first out ----------

  /** In every reachable state: what was pushed is what left the buffer at the front, in order, followed by what
      is in it now; receivers got a subsequence; and the buffer holds at most `cap` messages. */
  lemma FirstInFirstOut(cap: nat, states: seq<State>, acts: seq<Action>, i: nat)
    requires RunFrom(cap, states, acts) && i <= |acts|
    ensures var s := states[i];
      && Sent(s.log) == Removed(s.log) + s.buf
      && |s.buf| <= cap
      && Subsequence(Received(s.log), Sent(s.log))
      && multiset(Removed(s.log)) == multiset(Received(s.log)) + multiset(Overwritten(s.log))
  {
    RunRefines(cap, states, acts, i);
    FifoAccounting(cap, states[i].log);
    ReceivedInOrder(cap, states[i].log);
    ReceivedWithinRemoved(states[i].log);
  }

  /** If at most `cap` messages were pushed, none was overwritten: what was pushed is what receivers got, in
      order, followed by what is in the buffer. */
  lemma NothingLost(cap: nat, states: seq<State>, acts: seq<Action>, i: nat)
    requires RunFrom(cap, states, acts) && i <= |acts|
    requires |Sent(states[i].log)| <= cap
    ensures Overwritten(states[i].log) == []
    ensures Sent(states[i].log) == Received(states[i].log) + states[i].buf
  {
    RunRefines(cap, states, acts, i);
    NothingOverwritten(cap, states[i].log);
    FifoAccounting(cap, states[i].log);
  }

  /** If at most `cap` messages were pushed and a receiver was told `Disconnected`, the receivers together got
      exactly what was pushed, in order. */
  lemma LosslessRun(cap: nat, states: seq<State>, acts: seq<Action>, i: nat, p: nat)
    requires RunFrom(cap, states, acts) && i <= |acts|
    requires |Sent(states[i].log)| <= cap
    requires p < |states[i].log| && states[i].log[p].Popped? && states[i].log[p].result == Disconnected
    ensures Received(states[i].log) == Sent(states[i].log)
    ensures Overwritten(states[i].log) == []
  {
    RunRefines(cap, states, acts, i);
    LosslessWhenLargeEnough(cap, states[i].log, p);
    NothingOverwritten(cap, states[i].log);
  }

  // ---------- disconnection ----------

  /** The step from `states[i]` is a pop that returns `Disconnected`. */
  ghost predicate ReportsDisconnected(states: seq<State>, acts: seq<Action>, i: nat)
    requires Run(states, acts) && i < |acts|
  {
    var s, t := states[i], acts[i].t;
    acts[i].DoPop? && t in s.ops && s.ops[t].RecvPop? && PopResult(s.buf, s.ops[t].senders) == Disconnected
  }

  /** When a `try_recv` returns `Disconnected`: from then on there is no sender and no push in flight, the buffer
      is empty, and every message ever pushed was received or handed back to a sender. */
  lemma DisconnectedForGood(cap: nat, states: seq<State>, acts: seq<Action>, i: nat, j: nat)
    requires RunFrom(cap, states, acts) && i < j <= |acts|
    requires ReportsDisconnected(states, acts, i)
    ensures var s := states[j];
      && s.senders == 0 && s.snd == {} && s.buf == []
      && (forall t :: t in s.ops ==> !s.ops[t].SendPush?)
      && multiset(Sent(s.log)) == multiset(Received(s.log)) + multiset(Overwritten(s.log))
  {
    ReportMeansEmpty(cap, states, acts, i);
    StaysDisconnected(cap, states, acts, i, j);
    FirstInFirstOut(cap, states, acts, j);
    RunInv(cap, states, acts, j);
    NoSenderNoPush(states[j]);
    assert Removed(states[j].log) + [] == Removed(states[j].log);
  }

  /** `Disconnected` is reported at a moment when there is no message and no sender. */
  lemma ReportMeansEmpty(cap: nat, states: seq<State>, acts: seq<Action>, i: nat)
    requires RunFrom(cap, states, acts) && i < |acts|
    requires ReportsDisconnected(states, acts, i)
    ensures states[i].senders == 0 && states[i].buf == []
  {
    LoadsAreSound(cap, states, acts, i, acts[i].t);
  }

  lemma NoSenderNoPush(s: State)
    requires Counted(s) && Roles(s) && s.senders == 0
    ensures s.snd == {} && forall t :: t in s.ops ==> !s.ops[t].SendPush?
  {
    forall t | t in s.ops ensures !s.ops[t].SendPush? {
      assert RoleOk(s, t, RoleOf(s.ops[t]));
    }
  }

  /** No sender and no message: so it stays. */
  lemma {:induction false} StaysDisconnected(cap: nat, states: seq<State>, acts: seq<Action>, i: nat, j: nat)
    requires RunFrom(cap, states, acts) && i <= j <= |acts|
    requires states[i].senders == 0 && states[i].buf == []
    ensures states[j].senders == 0 && states[j].buf == []
    decreases j
  {
    if i < j {
      StaysDisconnected(cap, states, acts, i, j - 1);
      RunDoes(cap, states, acts, j - 1);
      EmptyStaysEmpty(states[j - 1], acts[j - 1], states[j]);
    }
  }

  lemma EmptyStaysEmpty(s: State, a: Action, s': State)
    requires ActorOk(s, a) && Does(s, a, s') && s.senders == 0 && s.buf == []
    ensures s'.senders == 0 && s'.buf == []
  {
  }

  /** Every `try_recv` whose load comes after that returns `Disconnected` as well. */
  lemma DisconnectedForEverybody(cap: nat, states: seq<State>, acts: seq<Action>, i: nat, j: nat)
    requires RunFrom(cap, states, acts) && i < j < |acts|
    requires ReportsDisconnected(states, acts, i)
    requires acts[j].DoPop? && acts[j].t in states[j].ops && states[j].ops[acts[j].t].RecvPop?
    requires |states[i + 1].log| <= states[j].ops[acts[j].t].since
    ensures ReportsDisconnected(states, acts, j)
  {
    var t := acts[j].t;
    var since := states[j].ops[t].since;
    ReportMeansEmpty(cap, states, acts, i);
    StaysDisconnected(cap, states, acts, i, j);
    StaysDisconnected(cap, states, acts, i, i + 1);
    LoadsAreSound(cap, states, acts, j, t);
    NoPeerLater(cap, states, acts, i + 1, j, since);
  }

  /** What `LoadOk` says of a thread, in every reachable state. */
  lemma LoadsAreSound(cap: nat, states: seq<State>, acts: seq<Action>, j: nat, t: Tid)
    requires RunFrom(cap, states, acts) && j <= |acts| && t in states[j].ops
    ensures LoadOk(states[j], t, states[j].ops[t])
  {
    RunInv(cap, states, acts, j);
  }

  /** A counter that was 0 is 0 at every later moment of the history. */
  lemma NoPeerLater(cap: nat, states: seq<State>, acts: seq<Action>, i: nat, j: nat, since: nat)
    requires RunFrom(cap, states, acts) && i <= j <= |acts|
    requires |states[i].log| <= since <= |states[j].log|
    ensures states[i].senders == 0 ==> Senders(states[j].log[..since]) == 0
    ensures states[i].receivers == 0 ==> Receivers(states[j].log[..since]) == 0
  {
    RunRefines(cap, states, acts, i);
    RunRefines(cap, states, acts, j);
    LogGrows(states, acts, i, j);
    var n := |states[i].log|;
    assert states[j].log[..n] == states[i].log;
    ZeroIsAbsorbingBetween(cap, states[j].log, n, since);
  }

  /** A counter that reaches 0 stays 0. */
  lemma ZeroStaysZero(cap: nat, states: seq<State>, acts: seq<Action>, i: nat, j: nat)
    requires RunFrom(cap, states, acts) && i <= j <= |acts|
    ensures states[i].senders == 0 ==> states[j].senders == 0
    ensures states[i].receivers == 0 ==> states[j].receivers == 0
  {
    LogGrows(states, acts, i, j);
    NoPeerLater(cap, states, acts, i, j, |states[j].log|);
    RunRefines(cap, states, acts, j);
    assert states[j].log[..|states[j].log|] == states[j].log;
  }

  /** Once a `send` has been refused, every `send` whose load comes later is refused with its message; a push
      that still happens belongs to a call that made its load before. */
  lemma RefusedForEverybody(cap: nat, states: seq<State>, acts: seq<Action>, i: nat, j: nat)
    requires RunFrom(cap, states, acts) && i < j < |acts|
    requires acts[i].StartSend? && states[i].receivers == 0
    ensures states[j].receivers == 0
    ensures acts[j].StartSend? ==>
      && acts[j].t !in states[j + 1].ops
      && states[j + 1].log == states[j].log + [Refused(acts[j].t, acts[j].m)]
      && states[j + 1].buf == states[j].buf
    ensures acts[j].DoPush? && acts[j].t in states[j].ops && states[j].ops[acts[j].t].SendPush? ==>
      states[j].ops[acts[j].t].since < |states[i].log|
  {
    var t := acts[j].t;
    ZeroStaysZero(cap, states, acts, i, j);
    if acts[j].DoPush? && t in states[j].ops && states[j].ops[t].SendPush? {
      LoadsAreSound(cap, states, acts, j, t);
      var since := states[j].ops[t].since;
      if |states[i].log| <= since { NoPeerLater(cap, states, acts, i, j, since); }
    }
    if acts[j].StartSend? {
      RunDoes(cap, states, acts, j);
      RefusedNow(states[j], acts[j], states[j + 1]);
    }
  }

  lemma RefusedNow(s: State, a: Action, s': State)
    requires Does(s, a, s') && a.StartSend? && s.receivers == 0
    ensures a.t !in s'.ops && s'.log == s.log + [Refused(a.t, a.m)] && s'.buf == s.buf
  {
  }

  // ---------- the last sender's drain ----------

  /** The last sender's scan ends without a waker. */
  ghost predicate EndsDrain(s: State, a: Action) {
    a.ScanEmpty? && Enabled(s, a) && s.ops[a.t].why == ForLastSender
  }

  lemma RunReaches(cap: nat, states: seq<State>, acts: seq<Action>, j: nat)
    requires RunFrom(cap, states, acts) && j <= |acts|
    ensures Reachable(states[j])
  {
    var states0, acts0 := states[..j + 1], acts[..j];
    forall n {:trigger acts0[n]} | 0 <= n < |acts0| ensures Step(states0[n], acts0[n], states0[n + 1]) {
      RunStep(states, acts, n);
    }
    assert RunFrom(cap, states0, acts0) && states0[|acts0|] == states[j];
  }

  lemma DrainStep(s: State, a: Action, s': State)
    requires Roles(s) && Ending(s) && ActorOk(s, a) && Does(s, a, s')
    ensures Drained(s') <==> Drained(s) || EndsDrain(s, a)
  {
    if Drained(s) {
      KeepProgress.DrainedStays(s, a, s');
    } else if EndsDrain(s, a) {
      KeepProgress.DrainEnding(s, a, s');
    } else if Drained(s') {
      KeepProgress.DrainEnds(s, a, s');
    }
  }

  lemma DrainRunStep(cap: nat, states: seq<State>, acts: seq<Action>, k: nat)
    requires RunFrom(cap, states, acts) && k < |acts|
    ensures Drained(states[k + 1]) <==> Drained(states[k]) || EndsDrain(states[k], acts[k])
  {
    RunInv(cap, states, acts, k);
    RunDoes(cap, states, acts, k);
    DrainStep(states[k], acts[k], states[k + 1]);
  }

  /** The last sender's scan has ended without a waker before state `j`. */
  ghost predicate DrainEnded(states: seq<State>, acts: seq<Action>, j: nat)
    requires j <= |acts| < |states|
  {
    exists i :: 0 <= i < j && EndsDrain(states[i], acts[i])
  }

  lemma DrainEndedUnsnoc(states: seq<State>, acts: seq<Action>, k: nat)
    requires k < |acts| < |states|
    ensures DrainEnded(states, acts, k + 1) <==> DrainEnded(states, acts, k) || EndsDrain(states[k], acts[k])
  {
  }

  /** In every run: the drain is over from the moment the last sender's scan has ended without a waker, for good. */
  lemma {:induction false} DrainedIff(cap: nat, states: seq<State>, acts: seq<Action>, j: nat)
    requires RunFrom(cap, states, acts) && j <= |acts|
    ensures Drained(states[j]) <==> DrainEnded(states, acts, j)
  {
    if 0 < j {
      DrainedIff(cap, states, acts, j - 1);
      DrainRunStep(cap, states, acts, j - 1);
      DrainEndedUnsnoc(states, acts, j - 1);
    }
  }

  /** In every run: at any time after the last sender's scan has ended without a waker, a receiver without a poll
      under way has an empty slot, and if its last poll returned Pending, before or after that, its waker has been
      woken or is in the hands of a thread that is to wake it. */
  lemma NobodyLeftBehind(cap: nat, states: seq<State>, acts: seq<Action>, i: nat, j: nat, h: Hid)
    requires RunFrom(cap, states, acts) && i < j <= |acts| && EndsDrain(states[i], acts[i])
    requires LiveReceiver(states[j], h) && NoPoll(states[j], h)
    ensures var s := states[j];
      && s.rcv[h].slot in s.slots && s.slots[s.rcv[h].slot] == None
      && (s.rcv[h].parked.Some? ==>
            var w := s.rcv[h].parked.value;
            w in s.fate && (s.fate[w] == Woken || (exists t :: t in s.ops && HeldBy(s.ops[t]) == Some(w))))
  {
    DrainedIff(cap, states, acts, j);
    RunReaches(cap, states, acts, j);
    Safety.NoneLeftBehind(states[j], h);
  }

  // ---------- wakers ----------

  /** The ways a waker's fate can go: it is offered, stored, and leaves its slot once, in one of four ways. */
  predicate FateMoves(before: Option<Fate>, after: Option<Fate>) {
    || before == after
    || (before == None && after == Some(Offered))
    || (before == Some(Offered) && after.Some? && after.value.Stored?)
    || (before.Some? && before.value.Stored? && after in {Some(Taken), Some(Withdrawn), Some(Replaced), Some(Returned)})
    || (before == Some(Taken) && after == Some(Woken))
  }

  function FateOf(s: State, w: Waker): Option<Fate> {
    if w in s.fate then Some(s.fate[w]) else None
  }

  lemma EachStepMovesFates(s: State, a: Action, s': State, w: Waker)
    requires Stores(s) && ActorOk(s, a) && Does(s, a, s')
    ensures FateMoves(FateOf(s, w), FateOf(s', w))
  {
  }

  /** The wakers in the slots. */
  function InSlots(s: State): set<Waker> {
    set k | k in s.slots && s.slots[k].Some? :: s.slots[k].value
  }

  /** The wakers in the hands of threads that will wake them. */
  function InFlight(s: State): set<Waker> {
    set t | t in s.ops && HeldBy(s.ops[t]).Some? :: HeldBy(s.ops[t]).value
  }

  function WithFate(s: State, fates: set<Fate>): set<Waker> {
    set w | w in s.fate && s.fate[w] in fates
  }

  /** The wakers ever stored: what has a fate beyond `Offered`. */
  function Inserted(s: State): set<Waker> {
    set w | w in s.fate && s.fate[w] != Offered
  }

  /** Conservation: the wakers ever inserted are those still in slots, those in flight, those woken, and those
      withdrawn, replaced or returned; no waker is in two of these places, in two slots, or in the hands of
      two threads. */
  lemma WakerConservation(s: State)
    requires Reachable(s)
    ensures Inserted(s) == InSlots(s) + InFlight(s) + WithFate(s, {Woken}) + WithFate(s, {Withdrawn, Replaced, Returned})
    ensures InSlots(s) !! InFlight(s)
    ensures InSlots(s) + InFlight(s) !! WithFate(s, {Woken, Withdrawn, Replaced, Returned})
    ensures forall j, k :: j in s.slots && k in s.slots && s.slots[j].Some? && s.slots[j] == s.slots[k] ==> j == k
    ensures forall t, u :: t in s.ops && u in s.ops && HeldBy(s.ops[t]).Some? && HeldBy(s.ops[t]) == HeldBy(s.ops[u]) ==> t == u
  {
    ReachableInv(s);
    SlotsHoldTheStored(s);
    FlightHoldsTheTaken(s);
    EverywhereOnce(s);
  }

  lemma EverywhereOnce(s: State)
    requires forall w :: w in InSlots(s) <==> w in s.fate && s.fate[w].Stored?
    requires forall w :: w in InFlight(s) <==> w in s.fate && s.fate[w] == Taken
    ensures Inserted(s) == InSlots(s) + InFlight(s) + WithFate(s, {Woken}) + WithFate(s, {Withdrawn, Replaced, Returned})
    ensures InSlots(s) !! InFlight(s)
    ensures InSlots(s) + InFlight(s) !! WithFate(s, {Woken, Withdrawn, Replaced, Returned})
  {
  }

  lemma SlotsHoldTheStored(s: State)
    requires Stores(s)
    ensures forall j, k :: j in s.slots && k in s.slots && s.slots[j].Some? && s.slots[j] == s.slots[k] ==> j == k
    ensures forall w :: w in InSlots(s) <==> w in s.fate && s.fate[w].Stored?
  {
    forall w | w in s.fate && s.fate[w].Stored? ensures w in InSlots(s) {
      assert s.slots[s.fate[w].slot] == Some(w);
    }
  }

  lemma FlightHoldsTheTaken(s: State)
    requires Holds(s)
    ensures forall w :: w in InFlight(s) <==> w in s.fate && s.fate[w] == Taken
  {
    forall w | w in s.fate && s.fate[w] == Taken ensures w in InFlight(s) {
      var t :| t in s.ops && HeldBy(s.ops[t]) == Some(w);
    }
  }

  lemma FatesMoveAlong(cap: nat, states: seq<State>, acts: seq<Action>, k: nat, w: Waker)
    requires RunFrom(cap, states, acts) && k < |acts|
    ensures FateMoves(FateOf(states[k], w), FateOf(states[k + 1], w))
  {
    RunInv(cap, states, acts, k);
    RunStep(states, acts, k);
    ActorIsOk(states[k], acts[k]);
    KeepLife.NoCrash(states[k], acts[k]);
    EachStepMovesFates(states[k], acts[k], states[k + 1], w);
  }

  /** A waker that has left its slot never comes back into one. */
  lemma {:induction false} LeavesItsSlotOnce(cap: nat, states: seq<State>, acts: seq<Action>, i: nat, j: nat, w: Waker)
    requires RunFrom(cap, states, acts) && i <= j <= |acts|
    requires w in states[i].fate && states[i].fate[w] != Offered && !states[i].fate[w].Stored?
    ensures w in states[j].fate
    ensures states[j].fate[w] == states[i].fate[w] || (states[i].fate[w] == Taken && states[j].fate[w] == Woken)
    decreases j
  {
    if i < j {
      LeavesItsSlotOnce(cap, states, acts, i, j - 1, w);
      FatesMoveAlong(cap, states, acts, j - 1, w);
    }
  }
}
