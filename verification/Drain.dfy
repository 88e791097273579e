/** The last sender's loop terminates, however receivers interfere: once no sender is left, only finitely
    many wakers can still be found. */
module Drain {
  import opened Base
  import opened Protocol
  import opened Invariant
  import opened Frames
  import opened Keep
  import KeepHistory
  import KeepLife

  /** The slots that hold a waker. */
  function Full(slots: map<Slot, Option<Waker>>): set<Slot> {
    set k | k in slots && slots[k].Some?
  }

  /** The thread read `senders` as positive in the first look of a poll and has not stored its waker yet. */
  predicate WillInsert(pc: Pc) {
    pc.PollInsert? || (pc.RecvPop? && pc.mode.First? && pc.senders)
  }

  function Late(ops: map<Tid, Pc>): set<Tid> {
    set t | t in ops && WillInsert(ops[t])
  }

  /** How many wakers can still be found. */
  function Measure(s: State): nat {
    |Full(s.slots)| + |Late(s.ops)|
  }

  /** The action takes a waker out of a slot on behalf of a `pop`. */
  ghost predicate TakesWaker(s: State, a: Action) {
    a.Visit? && a.k in s.slots && s.slots[a.k].Some?
  }

  lemma FullAfter(m: map<Slot, Option<Waker>>, k: Slot, x: Option<Waker>)
    ensures |Full(m[k := x])| == |Full(m)| + (if x.Some? then 1 else 0) - (if k in Full(m) then 1 else 0)
  {
    if x.Some? {
      assert Full(m[k := x]) == Full(m) + {k};
    } else {
      assert Full(m[k := x]) == Full(m) - {k};
    }
  }

  lemma FullWithout(m: map<Slot, Option<Waker>>, k: Slot)
    ensures |Full(m - {k})| <= |Full(m)|
  {
    assert Full(m - {k}) == Full(m) - {k};
  }

  lemma LateAfter(s: State, s': State, t: Tid)
    requires OnlyMoves(s, s', t)
    ensures |Late(s'.ops)| == |Late(s.ops)|
      + (if t in s'.ops && WillInsert(s'.ops[t]) then 1 else 0) - (if t in s.ops && WillInsert(s.ops[t]) then 1 else 0)
  {
    if t in s'.ops && WillInsert(s'.ops[t]) {
      assert Late(s'.ops) == Late(s.ops) + {t};
    } else {
      assert Late(s'.ops) == Late(s.ops) - {t};
    }
  }

  /** Without senders only an insert makes a slot full, and it was counted as one to come. */
  lemma OnlyInsertFills(s: State, a: Action, s': State)
    requires Does(s, a, s') && s.senders == 0
    ensures a.t in s'.ops && WillInsert(s'.ops[a.t]) ==> a.t in s.ops && WillInsert(s.ops[a.t])
    ensures a.DoInsert? ==> WillInsert(s.ops[a.t]) && !(a.t in s'.ops && WillInsert(s'.ops[a.t]))
    ensures match a
      case DoInsert(t) => s'.slots == s.slots[s.ops[t].slot := Some(s.ops[t].waker)]
      case Visit(_, k) => s'.slots == s.slots[k := None]
      case DoRemove(t) => s'.slots == s.slots[s.ops[t].slot := None]
      case DoRegister(_, k) => s'.slots == s.slots[k := None]
      case DropReceiver(_, h) => s'.slots == s.slots - {s.rcv[h].slot}
      case _ => s'.slots == s.slots
  {
  }

  /** Once no sender is left, no step raises the measure, and every waker found lowers it. */
  lemma MeasureStep(s: State, a: Action, s': State)
    requires Does(s, a, s') && s.senders == 0
    ensures Measure(s') + (if TakesWaker(s, a) then 1 else 0) <= Measure(s)
  {
    OnlyActorMoves(s, a, s');
    LateAfter(s, s', a.t);
    OnlyInsertFills(s, a, s');
    match a {
      case DoInsert(t) => FullAfter(s.slots, s.ops[t].slot, Some(s.ops[t].waker));
      case Visit(_, k) => FullAfter(s.slots, k, None);
      case DoRemove(t) => FullAfter(s.slots, s.ops[t].slot, None);
      case DoRegister(_, k) => FullAfter(s.slots, k, None);
      case DropReceiver(_, h) => FullWithout(s.slots, s.rcv[h].slot);
      case _ =>
    }
  }

  // ---------- rounds of the loop ----------

  /** The last sender enters another round of its loop. */
  ghost predicate NewRound(s: State, a: Action) {
    a.AcquireRead? && a.t in s.ops && s.ops[a.t].ScanLock? && s.ops[a.t].why == ForLastSender
  }

  /** A further round is certain: the last sender is at the head of its loop, or has found a waker. */
  ghost predicate RoundDue(s: State) {
    && s.sPhase.Closing? && s.sPhase.who in s.ops
    && (var pc := s.ops[s.sPhase.who]; pc.ScanLock? || pc.Unlock? || pc.WakeUp?)
  }

  /** How many rounds there can still be. */
  ghost function RoundsLeft(s: State): nat {
    Measure(s) + (if RoundDue(s) then 1 else 0)
  }

  lemma RoundBecomesDue(s: State, a: Action, s': State)
    requires Ending(s) && ActorOk(s, a) && Does(s, a, s') && s.senders == 0
    ensures NewRound(s, a) ==> RoundDue(s) && !RoundDue(s') && !TakesWaker(s, a)
    ensures RoundDue(s') ==> RoundDue(s) || TakesWaker(s, a)
  {
    OnlyActorMoves(s, a, s');
  }

  lemma RoundsStep(s: State, a: Action, s': State)
    requires Ending(s) && ActorOk(s, a) && Does(s, a, s') && s.senders == 0
    ensures RoundsLeft(s') + (if NewRound(s, a) then 1 else 0) <= RoundsLeft(s)
  {
    MeasureStep(s, a, s');
    RoundBecomesDue(s, a, s');
  }

  /** How many rounds the last sender enters between two points of a run. */
  ghost function Rounds(states: seq<State>, acts: seq<Action>, i: nat, j: nat): nat
    requires Run(states, acts) && i <= j <= |acts|
    decreases j
  {
    if i == j then 0
    else Rounds(states, acts, i, j - 1) + (if NewRound(states[j - 1], acts[j - 1]) then 1 else 0)
  }

  /** How many wakers are found by scans between two points of a run. */
  ghost function Found(states: seq<State>, acts: seq<Action>, i: nat, j: nat): nat
    requires Run(states, acts) && i <= j <= |acts|
    decreases j
  {
    if i == j then 0
    else Found(states, acts, i, j - 1) + (if TakesWaker(states[j - 1], acts[j - 1]) then 1 else 0)
  }

  lemma OneMore(cap: nat, states: seq<State>, acts: seq<Action>, k: nat)
    requires RunFrom(cap, states, acts) && k < |acts| && states[k].senders == 0
    ensures states[k + 1].senders == 0
    ensures RoundsLeft(states[k + 1]) + (if NewRound(states[k], acts[k]) then 1 else 0) <= RoundsLeft(states[k])
    ensures Measure(states[k + 1]) + (if TakesWaker(states[k], acts[k]) then 1 else 0) <= Measure(states[k])
  {
    RunInv(cap, states, acts, k);
    RunStep(states, acts, k);
    ActorIsOk(states[k], acts[k]);
    KeepLife.NoCrash(states[k], acts[k]);
    RoundsStep(states[k], acts[k], states[k + 1]);
    MeasureStep(states[k], acts[k], states[k + 1]);
    KeepHistory.NoSenderStays(states[k], acts[k], states[k + 1]);
  }

  /** In every run: from the moment no sender is left, however long the run goes on and whatever receivers do,
      the number of wakers found and the number of rounds of the last sender's loop stay below bounds that are
      fixed at that moment. */
  lemma {:induction false} DrainTerminates(cap: nat, states: seq<State>, acts: seq<Action>, i: nat, j: nat)
    requires RunFrom(cap, states, acts) && i <= j <= |acts| && states[i].senders == 0
    ensures states[j].senders == 0
    ensures Found(states, acts, i, j) + Measure(states[j]) <= Measure(states[i])
    ensures Rounds(states, acts, i, j) + RoundsLeft(states[j]) <= RoundsLeft(states[i])
    ensures RoundsLeft(states[i]) <= Measure(states[i]) + 1
    decreases j
  {
    if i < j {
      DrainTerminates(cap, states, acts, i, j - 1);
      OneMore(cap, states, acts, j - 1);
    }
  }
}
