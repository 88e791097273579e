/** What a scan of the waitlist sees while others insert and remove: the meaning of what `Waitlist::pop`
    returns, and when its `None` is a snapshot. */
module Scanning {
  import opened Base
  import opened Protocol
  import opened Invariant
  import opened Frames
  import opened Keep
  import Runs

  /** Thread `t` scans the waitlist: it takes the read lock in the first action and does nothing but visit
      slots up to the last state. */
  ghost predicate Scans(states: seq<State>, acts: seq<Action>, t: Tid) {
    && Run(states, acts) && acts != [] && Reachable(states[0])
    && acts[0] == AcquireRead(t)
    && forall n :: 0 < n < |states| ==> t in states[n].ops && states[n].ops[t].Scan?
  }

  ghost predicate EmptyAt(s: State, k: Slot) {
    k in s.slots && s.slots[k] == None
  }

  /** Slot `k` was empty at some moment of the scan, before state `j`. */
  ghost predicate WasEmpty(states: seq<State>, j: nat, k: Slot)
    requires j <= |states|
  {
    exists n :: 0 < n < j && EmptyAt(states[n], k)
  }

  /** Each slot was empty at some moment of the scan. */
  ghost predicate AllWereEmpty(states: seq<State>, acts: seq<Action>)
    requires |acts| < |states|
  {
    forall k :: k in states[0].slots ==> WasEmpty(states, |acts|, k)
  }

  /** The scan of `t` has looked at slot `k`. */
  ghost predicate Passed(s: State, t: Tid, k: Slot) {
    t in s.ops && s.ops[t].Scan? && k !in s.ops[t].left
  }

  // ---------- building scans ----------

  lemma StartScan(s: State, t: Tid, s': State)
    requires Reachable(s) && Step(s, AcquireRead(t), s') && t in s'.ops && s'.ops[t].Scan?
    ensures Scans([s, s'], [AcquireRead(t)], t)
  {
  }

  /** One more step of anybody. */
  lemma ScanGoesOn(states: seq<State>, acts: seq<Action>, t: Tid, a: Action, s': State)
    requires Scans(states, acts, t) && Step(states[|acts|], a, s')
    requires t in s'.ops && s'.ops[t].Scan?
    ensures Scans(states + [s'], acts + [a], t)
  {
    var states', acts' := states + [s'], acts + [a];
    forall n {:trigger acts'[n]} | 0 <= n < |acts'| ensures Step(states'[n], acts'[n], states'[n + 1]) {
      if n < |acts| { RunStep(states, acts, n); }
    }
  }

  // ---------- what a scan has seen ----------

  lemma ReachableDoes(s: State, a: Action, s': State)
    requires Reachable(s) && Step(s, a, s')
    ensures Does(s, a, s') && Lock(s) && Reachable(s')
  {
    ReachableInv(s);
    ReachableStep(s, a, s');
    KeepInv(s, a, s');
  }

  lemma {:induction false} RunGoesOn(states: seq<State>, acts: seq<Action>, j: nat)
    requires Run(states, acts) && Reachable(states[0]) && j <= |acts|
    ensures Reachable(states[j])
    ensures j < |acts| ==> Does(states[j], acts[j], states[j + 1]) && Lock(states[j])
  {
    if 0 < j {
      RunGoesOn(states, acts, j - 1);
      RunStep(states, acts, j - 1);
      ReachableStep(states[j - 1], acts[j - 1], states[j]);
    }
    if j < |acts| {
      RunStep(states, acts, j);
      ReachableDoes(states[j], acts[j], states[j + 1]);
    }
  }

  lemma OneStepOfScan(s: State, a: Action, s': State, t: Tid)
    requires t in s.readers && Does(s, a, s')
    requires t in s.ops && s.ops[t].Scan? && t in s'.ops && s'.ops[t].Scan?
    ensures s'.slots.Keys == s.slots.Keys
    ensures forall k :: k in s.ops[t].left && k !in s'.ops[t].left ==> EmptyAt(s, k) && Empties(s, a, k)
  {
  }

  /** No slot comes or goes during a scan, and each slot visited so far was empty at some moment of it. */
  lemma {:induction false} EachVisitedWasEmpty(states: seq<State>, acts: seq<Action>, t: Tid, j: nat)
    requires Scans(states, acts, t) && 0 < j <= |acts|
    ensures Reachable(states[j]) && states[j].slots.Keys == states[0].slots.Keys
    ensures forall k :: k in states[0].slots && k !in states[j].ops[t].left ==> WasEmpty(states, j, k)
  {
    var i := j - 1;
    RunGoesOn(states, acts, i);
    RunGoesOn(states, acts, j);
    if 0 < i {
      EachVisitedWasEmpty(states, acts, t, i);
      OneStepOfScan(states[i], acts[i], states[j], t);
      forall k | k in states[0].slots && k !in states[j].ops[t].left ensures WasEmpty(states, j, k) {
        if k in states[i].ops[t].left {
          assert EmptyAt(states[i], k);
        }
      }
    }
  }

  /** What `None` from `Waitlist::pop` means: each slot was empty at some moment of the scan.  Hence a slot that
      is full throughout is never passed over. */
  lemma NoneMeansEachWasEmpty(states: seq<State>, acts: seq<Action>, t: Tid)
    requires Scans(states, acts, t) && Enabled(states[|acts|], ScanEmpty(t))
    ensures states[|acts|].slots.Keys == states[0].slots.Keys && AllWereEmpty(states, acts)
  {
    EachVisitedWasEmpty(states, acts, t, |acts|);
  }

  // ---------- what a scan returns ----------

  /** A scan that `t` began in state `from` has led to state `to`. */
  ghost predicate ScanTo(from: State, t: Tid, to: State) {
    exists states, acts :: Scans(states, acts, t) && states[0] == from && states[|acts|] == to
  }

  /** The scan of `t` has slot `k` still to visit, and `w` is in it. */
  ghost predicate Meets(s: State, t: Tid, k: Slot, w: Waker) {
    && t in s.ops && s.ops[t].Scan? && k in s.ops[t].left
    && k in s.slots && s.slots[k] == Some(w)
  }

  /** A scan that `t` began in state `from` has just taken `w` out of a slot, and led to state `to`. */
  ghost predicate Takes(from: State, t: Tid, w: Waker, to: State) {
    exists s, k :: ScanTo(from, t, s) && Meets(s, t, k, w) && Step(s, Visit(t, k), to)
  }

  /** A whole `Waitlist::pop` of `t`, from state `from` to state `to`: a scan that takes the waker found, and after it
      the release of the lock; or a scan that ends with nothing, each slot having been empty at some moment of it. */
  ghost predicate Pops(from: State, t: Tid, found: Option<Waker>, to: State) {
    match found
    case Some(w) => exists s, s' :: Takes(from, t, w, s) && Others(s, s', t) && Step(s', ReleaseRead(t), to)
    case None =>
      exists states, acts ::
        ScansInVain(states, acts, t) && states[0] == from && Step(states[|acts|], ScanEmpty(t), to)
  }

  ghost predicate ScansInVain(states: seq<State>, acts: seq<Action>, t: Tid) {
    Scans(states, acts, t) && AllWereEmpty(states, acts)
  }

  lemma ScanBegins(s: State, t: Tid, s': State)
    requires Reachable(s) && Step(s, AcquireRead(t), s') && t in s'.ops && s'.ops[t].Scan?
    ensures ScanTo(s, t, s')
  {
    StartScan(s, t, s');
    var states, acts := [s, s'], [AcquireRead(t)];
    assert Scans(states, acts, t) && states[0] == s && states[|acts|] == s';
  }

  lemma ScanContinues(from: State, t: Tid, s: State, a: Action, s': State)
    requires ScanTo(from, t, s) && Step(s, a, s') && t in s'.ops && s'.ops[t].Scan?
    ensures ScanTo(from, t, s')
  {
    var states, acts :| Scans(states, acts, t) && states[0] == from && states[|acts|] == s;
    ScanGoesOn(states, acts, t, a, s');
    var states', acts' := states + [s'], acts + [a];
    assert Scans(states', acts', t) && states'[0] == from && states'[|acts'|] == s';
  }

  lemma ScanFindsNothing(from: State, t: Tid, s: State, s': State)
    requires ScanTo(from, t, s) && Step(s, ScanEmpty(t), s')
    ensures Pops(from, t, None, s')
  {
    var states, acts :| Scans(states, acts, t) && states[0] == from && states[|acts|] == s;
    NoneMeansEachWasEmpty(states, acts, t);
    assert ScansInVain(states, acts, t);
  }

  /** A `pop` and, if it found a waker, the wake that follows. */
  ghost predicate PopsAndWakes(from: State, t: Tid, found: Option<Waker>, to: State) {
    if found.None? then Pops(from, t, None, to)
    else exists s, s' :: Pops(from, t, found, s) && Others(s, s', t) && Step(s', DoWake(t), to)
  }

  // ---------- what becomes of the wakers that a scan might find ----------

  /** Waker `w` was stored and is in no slot any more. */
  ghost predicate HasLeft(s: State, w: Waker) {
    w in s.fate && s.fate[w] != Offered && !s.fate[w].Stored?
  }

  ghost predicate IsWoken(s: State, w: Waker) {
    w in s.fate && s.fate[w] == Woken
  }

  /** Every waker that is in a slot in state `from` has left it by state `to`. */
  ghost predicate AllLeft(from: State, to: State) {
    forall k, w :: k in from.slots && from.slots[k] == Some(w) ==> HasLeft(to, w)
  }

  ghost predicate StoredOrLeft(s: State, w: Waker, k: Slot) {
    HasLeft(s, w) || (w in s.fate && s.fate[w] == Stored(k))
  }

  lemma StoredOrLeftStays(s: State, a: Action, s': State, w: Waker, k: Slot)
    requires Reachable(s) && Step(s, a, s')
    ensures StoredOrLeft(s, w, k) ==> StoredOrLeft(s', w, k)
    ensures HasLeft(s, w) ==> HasLeft(s', w)
    ensures IsWoken(s, w) ==> IsWoken(s', w)
  {
    ReachableInv(s);
    KeepInv(s, a, s');
    ActorIsOk(s, a);
    FateStep(s, a, s', w, k);
  }

  lemma FateStep(s: State, a: Action, s': State, w: Waker, k: Slot)
    requires Stores(s) && ActorOk(s, a) && Does(s, a, s')
    ensures StoredOrLeft(s, w, k) ==> StoredOrLeft(s', w, k)
    ensures HasLeft(s, w) ==> HasLeft(s', w)
    ensures IsWoken(s, w) ==> IsWoken(s', w)
  {
    Runs.EachStepMovesFates(s, a, s', w);
    assert Runs.FateMoves(Runs.FateOf(s, w), Runs.FateOf(s', w));
  }

  /** Along a run a stored waker stays in its slot until it leaves, for good. */
  lemma {:induction false} WakersOnlyLeave(states: seq<State>, acts: seq<Action>, i: nat, j: nat, w: Waker, k: Slot)
    requires Run(states, acts) && Reachable(states[0]) && i <= j <= |acts|
    ensures StoredOrLeft(states[i], w, k) ==> StoredOrLeft(states[j], w, k)
    ensures HasLeft(states[i], w) ==> HasLeft(states[j], w)
    ensures IsWoken(states[i], w) ==> IsWoken(states[j], w)
    decreases j
  {
    if i < j {
      WakersOnlyLeave(states, acts, i, j - 1, w, k);
      RunGoesOn(states, acts, j - 1);
      RunStep(states, acts, j - 1);
      StoredOrLeftStays(states[j - 1], acts[j - 1], states[j], w, k);
    }
  }

  lemma EmptySlotHoldsNone(s: State, w: Waker, k: Slot)
    requires Reachable(s) && EmptyAt(s, k) && StoredOrLeft(s, w, k)
    ensures HasLeft(s, w)
  {
    if !HasLeft(s, w) { StoredIsInSlot(s, w, k); }
  }

  lemma FullSlotHolds(s: State, w: Waker, k: Slot)
    requires Reachable(s) && k in s.slots && s.slots[k] == Some(w)
    ensures StoredOrLeft(s, w, k)
  {
    SlotsAreRecorded(s);
  }

  /** When `pop` returns `None`, every waker that was in a slot when it began has left its slot. */
  lemma NoneMeansAllLeft(from: State, t: Tid, to: State)
    requires Pops(from, t, None, to)
    ensures AllLeft(from, to)
  {
    var states, acts :| ScansInVain(states, acts, t) && states[0] == from && Step(states[|acts|], ScanEmpty(t), to);
    forall k, w | k in from.slots && from.slots[k] == Some(w) ensures HasLeft(to, w) {
      var n :| 0 < n < |acts| && EmptyAt(states[n], k);
      FullSlotHolds(from, w, k);
      WakersOnlyLeave(states, acts, 0, n, w, k);
      RunGoesOn(states, acts, n);
      EmptySlotHoldsNone(states[n], w, k);
      WakersOnlyLeave(states, acts, n, |acts|, w, k);
      RunGoesOn(states, acts, |acts|);
      StoredOrLeftStays(states[|acts|], ScanEmpty(t), to, w, k);
    }
  }

  /** What happens before a `pop` that returns `None`, or after it, brings no waker back. */
  lemma NoneMeansAllLeftSince(before: State, from: State, t: Tid, to: State)
    requires Reachable(before) && Leads(before, from) && Pops(from, t, None, to)
    ensures AllLeft(before, to)
  {
    NoneMeansAllLeft(from, t, to);
    PopLeads(from, t, None, to);
    forall k, w | k in before.slots && before.slots[k] == Some(w) ensures HasLeft(to, w) {
      FullSlotHolds(before, w, k);
      WakersLeave(before, from, w, k);
      if HasLeft(from, w) {
        WakersLeave(from, to, w, k);
      } else {
        StoredIsInSlot(from, w, k);
      }
    }
  }

  lemma AllLeftStays(before: State, s: State, s': State)
    requires Reachable(s) && AllLeft(before, s) && Leads(s, s')
    ensures AllLeft(before, s')
  {
    forall k, w | k in before.slots && before.slots[k] == Some(w) ensures HasLeft(s', w) {
      WakersLeave(s, s', w, k);
    }
  }

  lemma WakersLeave(s: State, s': State, w: Waker, k: Slot)
    requires Reachable(s) && Leads(s, s')
    ensures Reachable(s')
    ensures StoredOrLeft(s, w, k) ==> StoredOrLeft(s', w, k)
    ensures HasLeft(s, w) ==> HasLeft(s', w)
    ensures IsWoken(s, w) ==> IsWoken(s', w)
  {
    var states, acts :| Run(states, acts) && states[0] == s && states[|acts|] == s';
    WakersOnlyLeave(states, acts, 0, |acts|, w, k);
    RunGoesOn(states, acts, |acts|);
  }

  lemma StoredIsInSlot(s: State, w: Waker, k: Slot)
    requires Reachable(s) && w in s.fate && s.fate[w] == Stored(k)
    ensures k in s.slots && s.slots[k] == Some(w)
  {
    SlotsAreRecorded(s);
  }

  lemma SlotsAreRecorded(s: State)
    requires Reachable(s)
    ensures Stores(s)
  {
    ReachableInv(s);
  }

  lemma ScanLeads(from: State, t: Tid, to: State)
    requires ScanTo(from, t, to)
    ensures Leads(from, to) && Reachable(from)
  {
  }

  lemma PopLeads(from: State, t: Tid, found: Option<Waker>, to: State)
    requires Pops(from, t, found, to)
    ensures Leads(from, to) && Reachable(from)
  {
    match found {
      case Some(w) =>
        var s, s' :| Takes(from, t, w, s) && Others(s, s', t) && Step(s', ReleaseRead(t), to);
        TakeLeads(from, t, w, s);
        LeadsByOthers(s, s', t);
        LeadsByStep(s', ReleaseRead(t), to);
        LeadsOn(from, s, s');
        LeadsOn(from, s', to);
      case None =>
        var states, acts :| ScansInVain(states, acts, t) && states[0] == from && Step(states[|acts|], ScanEmpty(t), to);
        assert ScanTo(from, t, states[|acts|]);
        ScanLeads(from, t, states[|acts|]);
        LeadsByStep(states[|acts|], ScanEmpty(t), to);
        LeadsOn(from, states[|acts|], to);
    }
  }

  lemma TakeLeads(from: State, t: Tid, w: Waker, to: State)
    requires Takes(from, t, w, to)
    ensures Leads(from, to) && Reachable(from)
  {
    var s, k :| ScanTo(from, t, s) && Meets(s, t, k, w) && Step(s, Visit(t, k), to);
    ScanLeads(from, t, s);
    LeadsByStep(s, Visit(t, k), to);
    LeadsOn(from, s, to);
  }

  lemma PopAndWakeLeads(from: State, t: Tid, found: Option<Waker>, to: State)
    requires PopsAndWakes(from, t, found, to)
    ensures Leads(from, to) && Reachable(from)
  {
    if found.Some? {
      var s, s' :| Pops(from, t, found, s) && Others(s, s', t) && Step(s', DoWake(t), to);
      PopLeads(from, t, found, s);
      LeadsByOthers(s, s', t);
      LeadsByStep(s', DoWake(t), to);
      LeadsOn(from, s, s');
      LeadsOn(from, s', to);
    } else {
      PopLeads(from, t, found, to);
    }
  }

  // ---------- when a scan is a snapshot ----------

  /** A poll stores its waker in slot `k`. */
  ghost predicate Inserts(s: State, a: Action, k: Slot) {
    a.DoInsert? && a.t in s.ops && s.ops[a.t].PollInsert? && s.ops[a.t].slot == k
  }

  /** A scan or the end of a poll takes out what is in slot `k`. */
  ghost predicate Empties(s: State, a: Action, k: Slot) {
    || (a.Visit? && a.k == k)
    || (a.DoRemove? && a.t in s.ops && s.ops[a.t].PollRemove? && s.ops[a.t].slot == k)
  }

  /** A poll stored its waker in slot `k` after the scan had looked there, and nobody has visited the slot or
      removed the waker since. */
  ghost predicate FilledLate(states: seq<State>, acts: seq<Action>, t: Tid, j: nat, k: Slot)
    requires j <= |acts| && |acts| < |states|
  {
    exists n :: 0 < n < j && Inserts(states[n], acts[n], k) && Passed(states[n], t, k)
      && forall m :: n < m < j ==> !Empties(states[m], acts[m], k)
  }

  lemma FilledLateUnsnoc(states: seq<State>, acts: seq<Action>, t: Tid, i: nat, k: Slot)
    requires 0 < i < |acts| && |acts| < |states|
    ensures FilledLate(states, acts, t, i + 1, k) <==>
      || (Inserts(states[i], acts[i], k) && Passed(states[i], t, k))
      || (FilledLate(states, acts, t, i, k) && !Empties(states[i], acts[i], k))
  {
    if FilledLate(states, acts, t, i, k) && !Empties(states[i], acts[i], k) {
      var n :| 0 < n < i && Inserts(states[n], acts[n], k) && Passed(states[n], t, k)
        && forall m :: n < m < i ==> !Empties(states[m], acts[m], k);
      assert forall m :: n < m < i + 1 ==> !Empties(states[m], acts[m], k);
    }
  }

  lemma SlotAfter(s: State, a: Action, s': State, k: Slot)
    requires Does(s, a, s') && k in s.slots && k in s'.slots
    ensures Inserts(s, a, k) ==> s'.slots[k].Some?
    ensures Empties(s, a, k) ==> s'.slots[k] == None
    ensures !Inserts(s, a, k) && !Empties(s, a, k) ==> s'.slots[k] == s.slots[k]
  {
  }

  /** At any point of a scan, a slot that it has passed is empty if and only if it was not filled late. */
  lemma {:induction false} PassedIsEmptyIff(states: seq<State>, acts: seq<Action>, t: Tid, j: nat, k: Slot)
    requires Scans(states, acts, t) && 0 < j <= |acts|
    requires k in states[0].slots && k !in states[j].ops[t].left
    ensures EmptyAt(states[j], k) <==> !FilledLate(states, acts, t, j, k)
  {
    var i := j - 1;
    RunGoesOn(states, acts, i);
    EachVisitedWasEmpty(states, acts, t, j);
    if 0 < i {
      EachVisitedWasEmpty(states, acts, t, i);
      OneStepOfScan(states[i], acts[i], states[j], t);
      SlotAfter(states[i], acts[i], states[j], k);
      FilledLateUnsnoc(states, acts, t, i, k);
      if k !in states[i].ops[t].left {
        PassedIsEmptyIff(states, acts, t, i, k);
      }
    }
  }

  /** Exactly when `None` from `Waitlist::pop` is a snapshot: all slots are empty together at the end of the scan
      if and only if none was filled after the scan had passed it and left full. */
  lemma NoneIsSnapshotIff(states: seq<State>, acts: seq<Action>, t: Tid)
    requires Scans(states, acts, t) && Enabled(states[|acts|], ScanEmpty(t))
    ensures (forall k :: k in states[|acts|].slots ==> EmptyAt(states[|acts|], k)) <==>
            (forall k :: k in states[|acts|].slots ==> !FilledLate(states, acts, t, |acts|, k))
  {
    NoneMeansEachWasEmpty(states, acts, t);
    forall k | k in states[|acts|].slots
      ensures EmptyAt(states[|acts|], k) <==> !FilledLate(states, acts, t, |acts|, k)
    {
      PassedIsEmptyIff(states, acts, t, |acts|, k);
    }
  }

  /** No poll stores its waker in a slot that the scan has passed. */
  ghost predicate Undisturbed(states: seq<State>, acts: seq<Action>, t: Tid)
    requires |acts| < |states|
  {
    forall n, k :: 0 < n < |acts| && Inserts(states[n], acts[n], k) ==> !Passed(states[n], t, k)
  }

  /** So a scan that finds nothing, and behind which nobody inserts, has found every slot empty at one moment. */
  lemma UndisturbedNoneIsSnapshot(states: seq<State>, acts: seq<Action>, t: Tid)
    requires Scans(states, acts, t) && Enabled(states[|acts|], ScanEmpty(t))
    requires Undisturbed(states, acts, t)
    ensures forall k :: k in states[|acts|].slots ==> EmptyAt(states[|acts|], k)
  {
    NoneIsSnapshotIff(states, acts, t);
  }
}
