/** Steps keep the counters, the roles of threads and the order of events at the end of the channel. */
module KeepLife {
  import opened Base
  import opened Protocol
  import opened Invariant
  import opened Frames

  lemma KeepCounted(s: State, a: Action, s': State)
    requires Counted(s) && ActorOk(s, a) && Does(s, a, s')
    ensures Counted(s')
  {
    CounterMoves(s, a, s');
    ReceiversMove(s, a, s');
    CountedFrame(s, a, s');
  }

  lemma CountedFrame(s: State, a: Action, s': State)
    requires Counted(s) && s'.cap == s.cap
    requires a.CloneSender? ==> a.n !in s.snd
    requires a.DropSender? ==> a.h in s.snd
    requires a.CloneReceiver? ==> a.n !in s.rcv.Keys
    requires a.DoReceiverDec? ==> a.t in s.ops && s.ops[a.t].ReceiverDec? && s.ops[a.t].receiver in s.rcv.Keys
    requires s'.snd == (if a.CloneSender? then s.snd + {a.n} else if a.DropSender? then s.snd - {a.h} else s.snd)
    requires s'.senders == s.senders + (if a.CloneSender? then 1 else if a.DropSender? then -1 else 0)
    requires s'.receivers == s.receivers + (if a.CloneReceiver? then 1 else if a.DoReceiverDec? then -1 else 0)
    requires s'.rcv.Keys == if a.CloneReceiver? then s.rcv.Keys + {a.n}
      else if a.DoReceiverDec? then s.rcv.Keys - {s.ops[a.t].receiver} else s.rcv.Keys
    ensures Counted(s')
  {
  }

  /** The counters and the set of senders change together. */
  lemma CounterMoves(s: State, a: Action, s': State)
    requires Does(s, a, s')
    ensures s'.cap == s.cap
    ensures s'.snd == (if a.CloneSender? then s.snd + {a.n} else if a.DropSender? then s.snd - {a.h} else s.snd)
    ensures s'.senders == s.senders + (if a.CloneSender? then 1 else if a.DropSender? then -1 else 0)
    ensures s'.receivers == s.receivers + (if a.CloneReceiver? then 1 else if a.DoReceiverDec? then -1 else 0)
  {
  }

  /** Only the last step of a drop takes a receiver away, and only a clone adds one. */
  lemma ReceiversMove(s: State, a: Action, s': State)
    requires ActorOk(s, a) && Does(s, a, s')
    ensures s'.rcv.Keys == if a.CloneReceiver? then s.rcv.Keys + {a.n}
      else if a.DoReceiverDec? then s.rcv.Keys - {s.ops[a.t].receiver} else s.rcv.Keys
  {
  }

  // ---------- receivers under construction ----------

  lemma KeepBuilders(s: State, a: Action, s': State)
    requires Builders(s) && ActorOk(s, a) && Does(s, a, s')
    ensures Builders(s')
  {
    OnlyActorMoves(s, a, s');
    OnlyCloneBuilds(s, a, s');
    BuildingStays(s, a, s');
    BuildersFrame(s, s', a.t);
  }

  /** A receiver stays under construction until its slot is registered. */
  lemma BuildingStays(s: State, a: Action, s': State)
    requires ActorOk(s, a) && Does(s, a, s')
    ensures forall h :: h in s.rcv && s.rcv[h] == Building && !(a.t in s.ops && s.ops[a.t].CloneRegister? && h == s.ops[a.t].new') ==>
      h in s'.rcv && s'.rcv[h] == Building
  {
  }

  lemma OnlyCloneBuilds(s: State, a: Action, s': State)
    requires Does(s, a, s')
    ensures a.t in s'.ops && s'.ops[a.t].CloneRegister? ==>
      && a.t !in s.ops
      && s'.ops[a.t].new' !in s.rcv
      && s'.ops[a.t].new' in s'.rcv && s'.rcv[s'.ops[a.t].new'] == Building
  {
  }

  lemma BuildersFrame(s: State, s': State, t: Tid)
    requires Builders(s) && OnlyMoves(s, s', t)
    requires t in s'.ops && s'.ops[t].CloneRegister? ==>
      && t !in s.ops
      && s'.ops[t].new' !in s.rcv
      && s'.ops[t].new' in s'.rcv && s'.rcv[s'.ops[t].new'] == Building
    requires forall h :: h in s.rcv && s.rcv[h] == Building && !(t in s.ops && s.ops[t].CloneRegister? && h == s.ops[t].new') ==>
      h in s'.rcv && s'.rcv[h] == Building
    ensures Builders(s')
  {
  }

  // ---------- receivers under construction or being dropped ----------

  /** Where a receiver under construction, or one being dropped, comes from. */
  lemma OnlyCloneAndDropBegin(s: State, a: Action, s': State, h: Hid)
    requires ActorOk(s, a) && Does(s, a, s') && h in s'.rcv
    ensures s'.rcv[h] == Building ==>
      || (h in s.rcv && s.rcv[h] == Building && !(a.DoRegister? && s.ops[a.t].new' == h))
      || (a.t in s'.ops && s'.ops[a.t].CloneRegister? && s'.ops[a.t].new' == h)
    ensures s'.rcv[h] == Leaving ==>
      || (h in s.rcv && s.rcv[h] == Leaving && !(a.DoReceiverDec? && s.ops[a.t].receiver == h))
      || (a.t in s'.ops && RoleOf(s'.ops[a.t]) == DropsReceiver(h))
  {
  }

  /** A thread constructs or drops a receiver until that is done. */
  lemma OnlyRegisterAndDecEnd(s: State, a: Action, s': State)
    requires Does(s, a, s') && a.t in s.ops
    ensures s.ops[a.t].CloneRegister? ==> a.DoRegister?
    ensures RoleOf(s.ops[a.t]).DropsReceiver? && !(a.DoReceiverDec? && s.ops[a.t].receiver == RoleOf(s.ops[a.t]).d) ==>
      a.t in s'.ops && RoleOf(s'.ops[a.t]) == RoleOf(s.ops[a.t])
  {
  }

  lemma KeepTendedBuilding(s: State, a: Action, s': State, h: Hid)
    requires Tended(s) && ActorOk(s, a) && Does(s, a, s') && h in s'.rcv && s'.rcv[h] == Building
    ensures exists t :: t in s'.ops && s'.ops[t].CloneRegister? && s'.ops[t].new' == h
  {
    OnlyActorMoves(s, a, s');
    OnlyCloneAndDropBegin(s, a, s', h);
    if !(a.t in s'.ops && s'.ops[a.t].CloneRegister? && s'.ops[a.t].new' == h) {
      var u :| u in s.ops && s.ops[u].CloneRegister? && s.ops[u].new' == h;
      if u == a.t { OnlyRegisterAndDecEnd(s, a, s'); }
      assert u in s'.ops && s'.ops[u] == s.ops[u];
    }
  }

  lemma KeepTendedLeaving(s: State, a: Action, s': State, h: Hid)
    requires Tended(s) && ActorOk(s, a) && Does(s, a, s') && h in s'.rcv && s'.rcv[h] == Leaving
    ensures exists t :: t in s'.ops && RoleOf(s'.ops[t]) == DropsReceiver(h)
  {
    OnlyActorMoves(s, a, s');
    OnlyCloneAndDropBegin(s, a, s', h);
    if !(a.t in s'.ops && RoleOf(s'.ops[a.t]) == DropsReceiver(h)) {
      var u :| u in s.ops && RoleOf(s.ops[u]) == DropsReceiver(h);
      if u == a.t { OnlyRegisterAndDecEnd(s, a, s'); }
      assert u in s'.ops && RoleOf(s'.ops[u]) == DropsReceiver(h);
    }
  }

  lemma KeepTended(s: State, a: Action, s': State)
    requires Tended(s) && ActorOk(s, a) && Does(s, a, s')
    ensures Tended(s')
  {
    forall h | h in s'.rcv && s'.rcv[h] == Building
      ensures exists t :: t in s'.ops && s'.ops[t].CloneRegister? && s'.ops[t].new' == h
    {
      KeepTendedBuilding(s, a, s', h);
    }
    forall h | h in s'.rcv && s'.rcv[h] == Leaving
      ensures exists t :: t in s'.ops && RoleOf(s'.ops[t]) == DropsReceiver(h)
    {
      KeepTendedLeaving(s, a, s', h);
    }
  }

  // ---------- roles ----------

  /** No handle in use disappears and no phase changes. */
  ghost predicate Steady(s: State, s': State) {
    && SamePhases(s, s')
    && s.snd <= s'.snd
    && forall h :: h in s.rcv && s.rcv[h] != Building ==>
         h in s'.rcv && (if s.rcv[h].Live? then s'.rcv[h].Live? else s'.rcv[h] == Leaving)
  }

  lemma StepsAreSteady(s: State, a: Action, s': State)
    requires ActorOk(s, a) && Does(s, a, s') && !Ends(a)
    ensures Steady(s, s')
  {
  }

  lemma StepsKeepTheirRole(s: State, a: Action, s': State)
    requires Does(s, a, s') && !Ends(a)
    ensures a.t in s'.ops ==>
      || (a.t in s.ops && RoleOf(s'.ops[a.t]) == RoleOf(s.ops[a.t]))
      || (!Exclusive(RoleOf(s'.ops[a.t])) && RoleOk(s', a.t, RoleOf(s'.ops[a.t])))
  {
  }

  lemma RolesFrame(s: State, s': State, t: Tid)
    requires Roles(s) && OnlyMoves(s, s', t) && Steady(s, s')
    requires t in s'.ops ==>
      || (t in s.ops && RoleOf(s'.ops[t]) == RoleOf(s.ops[t]))
      || (!Exclusive(RoleOf(s'.ops[t])) && RoleOk(s', t, RoleOf(s'.ops[t])))
    ensures Roles(s')
  {
  }

  lemma RolesDropSender(s: State, t: Tid, h: Hid, s': State)
    requires Roles(s) && Ending(s)
    requires Enabled(s, DropSender(t, h)) && 0 < s.senders && SenderDrop(s, s', t, h)
    ensures Roles(s')
  {
  }

  lemma RolesSwap(s: State, t: Tid, s': State)
    requires Roles(s) && Ending(s)
    requires Enabled(s, DoSwap(t)) && Swap(s, s', t, s.ops[t].bySender)
    ensures Roles(s')
  {
  }

  lemma RolesFree(s: State, t: Tid, s': State)
    requires Roles(s)
    requires Enabled(s, DoFree(t)) && Free(s, s', t)
    ensures Roles(s')
  {
  }

  lemma RolesDropReceiver(s: State, t: Tid, h: Hid, s': State)
    requires Roles(s)
    requires Enabled(s, DropReceiver(t, h)) && s.rcv[h].slot in s.slots && ReceiverDrop(s, s', t, h)
    ensures Roles(s')
  {
  }

  lemma RolesDecReceivers(s: State, t: Tid, s': State)
    requires Roles(s) && Ending(s)
    requires Enabled(s, DoReceiverDec(t)) && 0 < s.receivers && DecReceivers(s, s', t, s.ops[t])
    ensures Roles(s')
  {
    forall u | u in s'.ops && u != t
      ensures u in s.ops && s'.ops[u] == s.ops[u] && RoleOk(s', u, RoleOf(s.ops[u]))
    {
      assert RoleOk(s, u, RoleOf(s.ops[u]));
      assert RoleOf(s.ops[t]) != RoleOf(s.ops[u]);
    }
  }

  lemma RolesAtEnds(s: State, a: Action, s': State)
    requires Roles(s) && Ending(s) && Does(s, a, s') && Ends(a)
    ensures Roles(s')
  {
    match a {
      case DropSender(t, h) => RolesDropSender(s, t, h, s');
      case DoSwap(t) => RolesSwap(s, t, s');
      case DoFree(t) => RolesFree(s, t, s');
      case DropReceiver(t, h) => RolesDropReceiver(s, t, h, s');
      case DoReceiverDec(t) => RolesDecReceivers(s, t, s');
    }
  }

  lemma KeepRoles(s: State, a: Action, s': State)
    requires Roles(s) && Ending(s) && ActorOk(s, a) && Does(s, a, s')
    ensures Roles(s')
  {
    if Ends(a) {
      RolesAtEnds(s, a, s');
    } else {
      OnlyActorMoves(s, a, s');
      StepsAreSteady(s, a, s');
      StepsKeepTheirRole(s, a, s');
      RolesFrame(s, s', a.t);
    }
  }

  // ---------- the end of the channel ----------

  /** Both counters stay on their side of zero. */
  ghost predicate SameSide(s: State, s': State) {
    (0 < s.senders <==> 0 < s'.senders) && (0 < s.receivers <==> 0 < s'.receivers)
  }

  lemma StepsStayOnTheirSide(s: State, a: Action, s': State)
    requires ActorOk(s, a) && Does(s, a, s') && !Ends(a)
    ensures SamePhases(s, s') && SameSide(s, s')
    ensures a.t in s.ops && Exclusive(RoleOf(s.ops[a.t])) && !RoleOf(s.ops[a.t]).DropsReceiver? ==>
      && a.t in s'.ops && RoleOf(s'.ops[a.t]) == RoleOf(s.ops[a.t])
      && s.ops[a.t] != FreeBlock
  {
  }

  lemma EndingFrame(s: State, s': State, t: Tid)
    requires Ending(s) && OnlyMoves(s, s', t) && SamePhases(s, s') && SameSide(s, s')
    requires t in s.ops && Exclusive(RoleOf(s.ops[t])) && !RoleOf(s.ops[t]).DropsReceiver? ==>
      && t in s'.ops && RoleOf(s'.ops[t]) == RoleOf(s.ops[t])
      && s.ops[t] != FreeBlock
    ensures Ending(s')
  {
    FreerStays(s, s', t);
  }

  /** Whoever is about to free the block stays so until it acts. */
  lemma FreerStays(s: State, s': State, t: Tid)
    requires OnlyMoves(s, s', t) && (t in s.ops ==> s.ops[t] != FreeBlock)
    ensures (exists u :: u in s.ops && s.ops[u] == FreeBlock) ==> exists u :: u in s'.ops && s'.ops[u] == FreeBlock
  {
    if u :| u in s.ops && s.ops[u] == FreeBlock {
      assert u in s'.ops && s'.ops[u] == FreeBlock;
    }
  }

  lemma EndingDropSender(s: State, t: Tid, h: Hid, s': State)
    requires Ending(s)
    requires Enabled(s, DropSender(t, h)) && 0 < s.senders && SenderDrop(s, s', t, h)
    ensures Ending(s')
  {
  }

  lemma EndingSwap(s: State, t: Tid, s': State)
    requires Ending(s) && t in s.ops && RoleOk(s, t, RoleOf(s.ops[t]))
    requires Enabled(s, DoSwap(t)) && Swap(s, s', t, s.ops[t].bySender)
    ensures Ending(s')
  {
    if !s.connected {
      assert s'.ops[t] == FreeBlock;
    }
  }

  lemma EndingFree(s: State, t: Tid, s': State)
    requires Ending(s) && t in s.ops && RoleOk(s, t, RoleOf(s.ops[t]))
    requires Enabled(s, DoFree(t)) && Free(s, s', t)
    ensures Ending(s')
  {
  }

  lemma EndingDecReceivers(s: State, t: Tid, s': State)
    requires Ending(s)
    requires Enabled(s, DoReceiverDec(t)) && 0 < s.receivers && DecReceivers(s, s', t, s.ops[t])
    ensures Ending(s')
  {
  }

  lemma EndingDropReceiver(s: State, t: Tid, h: Hid, s': State)
    requires Ending(s)
    requires Enabled(s, DropReceiver(t, h)) && s.rcv[h].slot in s.slots && ReceiverDrop(s, s', t, h)
    ensures Ending(s')
  {
    EndingFrame(s, s', t);
  }

  lemma EndingAtEnds(s: State, a: Action, s': State)
    requires Ending(s) && ActorOk(s, a) && Does(s, a, s') && Ends(a)
    ensures Ending(s')
  {
    match a {
      case DropSender(t, h) => EndingDropSender(s, t, h, s');
      case DoSwap(t) => EndingSwap(s, t, s');
      case DoFree(t) => EndingFree(s, t, s');
      case DropReceiver(t, h) => EndingDropReceiver(s, t, h, s');
      case DoReceiverDec(t) => EndingDecReceivers(s, t, s');
    }
  }

  lemma KeepEnding(s: State, a: Action, s': State)
    requires Ending(s) && ActorOk(s, a) && Does(s, a, s')
    ensures Ending(s')
  {
    if Ends(a) {
      EndingAtEnds(s, a, s');
    } else {
      OnlyActorMoves(s, a, s');
      StepsStayOnTheirSide(s, a, s');
      EndingFrame(s, s', a.t);
    }
  }

  // ---------- nothing goes wrong ----------

  /** No step crashes: no slot is missing, no counter wraps around, the assertions of the free hold, and
      nothing is touched after the free. */
  lemma NoCrash(s: State, a: Action)
    requires Counted(s) && Roles(s) && Ending(s) && Slots(s) && Lock(s) && ActorOk(s, a) && Enabled(s, a)
    ensures s.frees == 0 && !Crashes(s, a)
  {
    if 0 < s.frees { FreedIsFinal(s); }
  }
}
