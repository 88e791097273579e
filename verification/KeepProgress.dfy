/** Steps leave no message and no receiver behind: some slot stays attended while a message waits, and what
    the last sender has scanned stays clear. */
module KeepProgress {
  import opened Base
  import opened Protocol
  import opened Invariant
  import opened Frames

  // ---------- messages ----------

  /** A thread whose slot is not attended once it is gone leaves no message. */
  lemma PollsEndWell(s: State, a: Action, s': State)
    requires Does(s, a, s')
    requires a.t in s.ops && PollSlot(s.ops[a.t]).Some?
    ensures
      || (a.t in s'.ops && PollSlot(s'.ops[a.t]) == PollSlot(s.ops[a.t]))
      || s'.buf == []
      || (PollSlot(s.ops[a.t]).value in s'.slots && s'.slots[PollSlot(s.ops[a.t]).value] == None)
  {
  }

  /** An attended slot stays attended, or the buffer is empty, or its receiver passes the duty on. */
  lemma AttendedStays(s: State, a: Action, s': State, k: Slot)
    requires Slots(s) && Polls(s) && Does(s, a, s') && Attended(s, k)
    ensures s'.buf == [] || Attended(s', k) || AboutToScan(s', a.t)
  {
    OnlyActorMoves(s, a, s');
    if s.slots[k] == None {
      EmptySlotStays(s, a, s', k);
    } else {
      var u :| u in s.ops && PollSlot(s.ops[u]) == Some(k);
      if a.DropReceiver? { PolledIsNotDropped(s, a, k, u); }
      PolledSlotStays(s, a, s', k, u);
    }
  }

  lemma EmptySlotStays(s: State, a: Action, s': State, k: Slot)
    requires Does(s, a, s') && k in s.slots && s.slots[k] == None
    ensures Attended(s', k) || AboutToScan(s', a.t)
  {
    if a.DoInsert? && s.ops[a.t].slot == k {
      assert PollSlot(s'.ops[a.t]) == Some(k);
    }
  }

  lemma PolledSlotStays(s: State, a: Action, s': State, k: Slot, u: Tid)
    requires Does(s, a, s') && OnlyMoves(s, s', a.t)
    requires k in s.slots && u in s.ops && PollSlot(s.ops[u]) == Some(k)
    requires a.DropReceiver? ==> s.rcv[a.h].slot != k
    ensures s'.buf == [] || Attended(s', k)
  {
    SlotStaysRegistered(s, a, s', k);
    if u == a.t {
      PollsEndWell(s, a, s');
    } else {
      assert PollSlot(s'.ops[u]) == Some(k);
    }
  }

  lemma SlotStaysRegistered(s: State, a: Action, s': State, k: Slot)
    requires Does(s, a, s') && k in s.slots
    requires a.DropReceiver? ==> s.rcv[a.h].slot != k
    ensures k in s'.slots
  {
  }

  /** A receiver is not dropped while it is polled. */
  lemma PolledIsNotDropped(s: State, a: Action, k: Slot, u: Tid)
    requires Slots(s) && Polls(s) && Enabled(s, a) && a.DropReceiver?
    requires u in s.ops && PollSlot(s.ops[u]) == Some(k)
    ensures s.rcv[a.h].slot != k
  {
    var r := RoleOf(s.ops[u]).r;
    assert LiveReceiver(s, r) && s.rcv[r].slot == k && r != a.h;
  }

  /** A thread about to scan stays so, or its first look leaves an attended slot behind. */
  lemma AboutToScanStays(s: State, a: Action, s': State, u: Tid)
    requires Does(s, a, s') && OnlyMoves(s, s', a.t) && AboutToScan(s, u)
    requires s.ops[u].Scan? ==> u in s.readers
    ensures s'.slots == map[] || AboutToScan(s', u) || (a.Visit? && Attended(s', a.k))
  {
    if s.ops[u].Scan? {
      if a.t != u {
        SameKeysUnlessReshaped(s, a, s');
      } else {
        FirstLook(s, a, s');
      }
    }
  }

  lemma FirstLook(s: State, a: Action, s': State)
    requires Does(s, a, s') && a.t in s.ops && s.ops[a.t].Scan? && s.slots.Keys <= s.ops[a.t].left
    ensures s'.slots == map[] || (a.Visit? && Attended(s', a.k))
  {
    if a.ScanEmpty? { assert s'.slots.Keys == {}; }
  }

  lemma SameKeysUnlessReshaped(s: State, a: Action, s': State)
    requires Does(s, a, s')
    ensures Reshapes(a) ==> s.readers == {}
    ensures !Reshapes(a) ==> s'.slots.Keys == s.slots.Keys
  {
  }

  /** A push into an empty buffer is followed by a scan. */
  lemma NewMessage(s: State, a: Action, s': State)
    requires Does(s, a, s') && s.buf == [] && s'.buf != []
    ensures AboutToScan(s', a.t)
  {
  }

  /** A slot registered while there was none starts out empty. */
  lemma FirstSlot(s: State, a: Action, s': State)
    requires Does(s, a, s') && s.slots == map[] && s'.slots != map[]
    ensures exists k :: Attended(s', k)
  {
    assert a.DoRegister? && Attended(s', a.k);
  }

  lemma KeepNotStuck(s: State, a: Action, s': State)
    requires Lock(s) && Slots(s) && Polls(s) && NotStuck(s) && Does(s, a, s')
    ensures NotStuck(s')
  {
    if s'.buf != [] && s'.slots != map[] {
      if s.buf == [] {
        NewMessage(s, a, s');
      } else if s.slots == map[] {
        FirstSlot(s, a, s');
      } else if k :| Attended(s, k) {
        AttendedStays(s, a, s', k);
      } else {
        var u :| AboutToScan(s, u);
        OnlyActorMoves(s, a, s');
        AboutToScanStays(s, a, s', u);
      }
    }
  }

  // ---------- the last sender's drain ----------

  /** Without senders a clear slot stays clear: whoever fills it will empty it again. */
  lemma ClearedStays(s: State, a: Action, s': State, k: Slot)
    requires Does(s, a, s') && s.senders == 0 && Cleared(s, k)
    ensures Cleared(s', k)
  {
    OnlyActorMoves(s, a, s');
    if k in s'.slots && s'.slots[k].Some? {
      if k in s.slots && s.slots[k].Some? {
        var u :| u in s.ops && Settles(s.ops[u], k);
        SettlerStays(s, a, s', k, u);
        assert u in s'.ops && Settles(s'.ops[u], k);
      } else {
        FillerSettles(s, a, s', k);
        assert Settles(s'.ops[a.t], k);
      }
    }
  }

  lemma SettlerStays(s: State, a: Action, s': State, k: Slot, u: Tid)
    requires Does(s, a, s') && OnlyMoves(s, s', a.t) && s.senders == 0
    requires u in s.ops && Settles(s.ops[u], k)
    requires k in s'.slots && s'.slots[k].Some?
    ensures u in s'.ops && Settles(s'.ops[u], k)
  {
  }

  lemma FillerSettles(s: State, a: Action, s': State, k: Slot)
    requires Does(s, a, s') && !(k in s.slots && s.slots[k].Some?) && k in s'.slots && s'.slots[k].Some?
    ensures a.t in s'.ops && Settles(s'.ops[a.t], k)
  {
  }

  /** What one step adds to the part that the drain has scanned was empty when it was looked at. */
  lemma ScannedGrows(s: State, a: Action, s': State, u: Tid, k: Slot)
    requires Does(s, a, s') && OnlyMoves(s, s', a.t)
    requires u in s'.ops && s'.ops[u].Scan? && k !in s'.ops[u].left
    ensures (u in s.ops && s.ops[u].Scan? && s'.ops[u].why == s.ops[u].why && k !in s.ops[u].left)
      || (k in s'.slots ==> s'.slots[k] == None)
  {
  }

  lemma KeepScanned(s: State, a: Action, s': State, u: Tid, k: Slot)
    requires Roles(s) && Ending(s) && Draining(s) && Does(s, a, s')
    requires u in s'.ops && s'.ops[u].Scan? && s'.ops[u].why == ForLastSender && k !in s'.ops[u].left
    ensures Cleared(s', k)
  {
    OnlyActorMoves(s, a, s');
    ScannedGrows(s, a, s', u, k);
    if u in s.ops && s.ops[u].Scan? && s'.ops[u].why == s.ops[u].why && k !in s.ops[u].left {
      assert RoleOk(s, u, RoleOf(s.ops[u]));
      ClearedStays(s, a, s', k);
    }
  }

  /** The drain is over when a scan of the last sender ends without a waker. */
  lemma DrainEnds(s: State, a: Action, s': State)
    requires Ending(s) && ActorOk(s, a) && Does(s, a, s') && Drained(s') && !Drained(s)
    ensures a.ScanEmpty? && s.ops[a.t].why == ForLastSender && s'.slots == s.slots
    ensures forall u :: u in s.ops && u != a.t ==> u in s'.ops && s'.ops[u] == s.ops[u]
  {
    OnlyActorMoves(s, a, s');
  }

  lemma ClosedStays(s: State, a: Action, s': State)
    requires Does(s, a, s') && s.sPhase == Closed && s.senders == 0
    ensures s'.sPhase == Closed
  {
  }

  lemma SwapEndsDrop(s: State, a: Action, s': State, u: Tid)
    requires Does(s, a, s') && s.sPhase == Closing(u) && s.senders == 0
    requires u in s.ops && s.ops[u] == SwapConnected(true)
    requires a.DoSwap? && s.ops[a.t].bySender ==> a.t == u
    ensures s'.sPhase == Closed || (s'.sPhase == Closing(u) && u in s'.ops && s'.ops[u] == SwapConnected(true))
  {
  }

  /** The drain stays over. */
  lemma DrainedStays(s: State, a: Action, s': State)
    requires Roles(s) && Ending(s) && Does(s, a, s') && Drained(s)
    ensures Drained(s')
  {
    if s.sPhase == Closed {
      ClosedStays(s, a, s');
    } else {
      var u := s.sPhase.who;
      assert RoleOf(s.ops[u]) == LastSender;
      if a.DoSwap? { assert RoleOk(s, a.t, RoleOf(s.ops[a.t])); }
      SwapEndsDrop(s, a, s', u);
    }
  }

  lemma DrainEnding(s: State, a: Action, s': State)
    requires Does(s, a, s') && a.ScanEmpty? && s.ops[a.t].why == ForLastSender && s.sPhase == Closing(a.t)
    ensures Drained(s')
  {
  }

  lemma KeepDraining(s: State, a: Action, s': State)
    requires Roles(s) && Ending(s) && Draining(s) && ActorOk(s, a) && Does(s, a, s')
    ensures Draining(s')
  {
    forall u, k | u in s'.ops && s'.ops[u].Scan? && s'.ops[u].why == ForLastSender && k !in s'.ops[u].left
      ensures Cleared(s', k)
    {
      KeepScanned(s, a, s', u, k);
    }
    if Drained(s') {
      forall k ensures Cleared(s', k) {
        if Drained(s) {
          ClearedStays(s, a, s', k);
        } else {
          DrainEnds(s, a, s');
          ClearedAtEnd(s, a, s', k);
        }
      }
    }
  }

  lemma ClearedAtEnd(s: State, a: Action, s': State, k: Slot)
    requires Draining(s) && a.ScanEmpty? && Does(s, a, s') && s.ops[a.t].why == ForLastSender
    ensures Cleared(s', k)
  {
    assert Cleared(s, k);
    if k in s'.slots && s'.slots[k].Some? {
      var u :| u in s.ops && Settles(s.ops[u], k);
      assert u in s'.ops && Settles(s'.ops[u], k);
    }
  }
}
