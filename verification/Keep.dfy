/** The invariant holds at the start, every step keeps it, and so it holds in every reachable state. */
module Keep {
  import opened Base
  import opened Protocol
  import opened Invariant
  import opened Frames
  import KeepLife
  import KeepWaitlist
  import KeepHistory
  import KeepProgress

  lemma InitLife(cap: nat)
    requires 0 < cap
    ensures LifeInv(Init(cap))
  {
    assert Init(cap).rcv.Keys == {0};
  }

  lemma InitWaitlist(cap: nat)
    ensures WaitlistInv(Init(cap))
  {
    var s := Init(cap);
    assert LiveReceiver(s, 0);
    assert LiveHandles(s.rcv) == {0} && s.slots.Keys == {0};
  }

  lemma InitRest(cap: nat)
    requires 0 < cap
    ensures WakerInv(Init(cap)) && Recorded(Init(cap)) && NotStuck(Init(cap)) && Draining(Init(cap))
  {
  }

  lemma InitInv(cap: nat)
    requires 0 < cap
    ensures Inv(Init(cap))
  {
    InitLife(cap);
    InitWaitlist(cap);
    InitRest(cap);
  }

  lemma KeepLifeInv(s: State, a: Action, s': State)
    requires LifeInv(s) && ActorOk(s, a) && Does(s, a, s')
    ensures LifeInv(s')
  {
    KeepLife.KeepCounted(s, a, s');
    KeepLife.KeepRoles(s, a, s');
    KeepLife.KeepBuilders(s, a, s');
    KeepLife.KeepTended(s, a, s');
    KeepLife.KeepEnding(s, a, s');
  }

  lemma KeepWaitlistInv(s: State, a: Action, s': State)
    requires WaitlistInv(s) && ActorOk(s, a) && Does(s, a, s')
    ensures WaitlistInv(s')
  {
    KeepWaitlist.KeepSlots(s, a, s');
    KeepWaitlist.KeepSlotsCounted(s, a, s');
    KeepWaitlist.KeepPolls(s, a, s');
    KeepWaitlist.KeepLock(s, a, s');
  }

  lemma KeepWakerInv(s: State, a: Action, s': State)
    requires WaitlistInv(s) && WakerInv(s) && ActorOk(s, a) && Does(s, a, s')
    ensures WakerInv(s')
  {
    KeepWaitlist.KeepStores(s, a, s');
    KeepWaitlist.KeepOffers(s, a, s');
    KeepWaitlist.KeepHolds(s, a, s');
    KeepWaitlist.KeepParked(s, a, s');
  }

  /** No step from a good state crashes, and every step leads to a good state. */
  lemma KeepInv(s: State, a: Action, s': State)
    requires Inv(s) && Step(s, a, s')
    ensures Does(s, a, s')
    ensures Inv(s')
  {
    ActorIsOk(s, a);
    KeepLife.NoCrash(s, a);
    KeepLifeInv(s, a, s');
    KeepWaitlistInv(s, a, s');
    KeepWakerInv(s, a, s');
    KeepHistory.KeepRecorded(s, a, s');
    KeepProgress.KeepNotStuck(s, a, s');
    KeepProgress.KeepDraining(s, a, s');
  }

  lemma RunStep(states: seq<State>, acts: seq<Action>, i: nat)
    requires Run(states, acts) && i < |acts|
    ensures Step(states[i], acts[i], states[i + 1])
  {
  }

  lemma {:induction false} RunInv(cap: nat, states: seq<State>, acts: seq<Action>, i: nat)
    requires RunFrom(cap, states, acts) && i <= |acts|
    ensures Inv(states[i])
  {
    if i == 0 {
      InitInv(cap);
    } else {
      var j := i - 1;
      RunInv(cap, states, acts, j);
      RunStep(states, acts, j);
      KeepInv(states[j], acts[j], states[i]);
    }
  }

  lemma ReachableInv(s: State)
    requires Reachable(s)
    ensures Inv(s)
  {
    var cap, states, acts :| RunFrom(cap, states, acts) && states[|acts|] == s;
    RunInv(cap, states, acts, |acts|);
  }

  /** A step from a reachable state leads to a reachable state. */
  lemma ReachableStep(s: State, a: Action, s': State)
    requires Reachable(s) && Step(s, a, s')
    ensures Reachable(s')
  {
    var cap, states, acts :| RunFrom(cap, states, acts) && states[|acts|] == s;
    var states', acts' := states + [s'], acts + [a];
    forall i {:trigger acts'[i]} | 0 <= i < |acts'| ensures Step(states'[i], acts'[i], states'[i + 1]) {
      if i < |acts| { RunStep(states, acts, i); }
    }
    assert RunFrom(cap, states', acts') && states'[|acts'|] == s';
  }

  lemma ReachableInit(cap: nat)
    requires 0 < cap
    ensures Reachable(Init(cap))
  {
    assert RunFrom(cap, [Init(cap)], []);
  }

  // ---------- runs in sequence ----------

  lemma LeadsByStep(s: State, a: Action, s': State)
    requires Step(s, a, s')
    ensures Leads(s, s')
  {
    assert Run([s, s'], [a]);
  }

  lemma LeadsByOthers(s: State, s': State, t: Tid)
    requires Others(s, s', t)
    ensures Leads(s, s')
  {
  }

  lemma LeadsOn(s0: State, s1: State, s2: State)
    requires Leads(s0, s1) && Leads(s1, s2)
    ensures Leads(s0, s2)
  {
    var states1, acts1 :| Run(states1, acts1) && states1[0] == s0 && states1[|acts1|] == s1;
    var states2, acts2 :| Run(states2, acts2) && states2[0] == s1 && states2[|acts2|] == s2;
    JoinedRun(states1, acts1, states2, acts2);
    var states, acts := states1[..|acts1|] + states2, acts1 + acts2;
    assert states[0] == s0 && states[|acts|] == s2;
  }

  lemma JoinedRun(states1: seq<State>, acts1: seq<Action>, states2: seq<State>, acts2: seq<Action>)
    requires Run(states1, acts1) && Run(states2, acts2) && states1[|acts1|] == states2[0]
    ensures Run(states1[..|acts1|] + states2, acts1 + acts2)
  {
    var states, acts := states1[..|acts1|] + states2, acts1 + acts2;
    forall n {:trigger acts[n]} | 0 <= n < |acts| ensures Step(states[n], acts[n], states[n + 1]) {
      if n < |acts1| {
        RunStep(states1, acts1, n);
      } else {
        RunStep(states2, acts2, n - |acts1|);
      }
    }
  }
}
