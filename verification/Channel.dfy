/** The operations of the channel as programs over the shared state.  Between any two of its accesses a thread
    lets the others run as they please; which accesses it makes, what it returns and what it leaves behind is proved
    for every such interleaving. */
module Channel {
  import opened Base
  import opened History
  import opened Protocol
  import opened Invariant
  import opened Frames
  import opened Keep
  import opened Execution
  import opened Interference
  import opened Scanning
  import opened Calls
  import Fifo
  import SlotMap
  import KeepHistory
  import KeepLife
  import Safety
  import Drain

  datatype SendResult = Accepted(overwritten: Option<Msg>) | Rejected(msg: Msg)
  datatype PollResult = Ready(msg: Option<Msg>) | Pending

  function Message(r: RecvResult): Option<Msg> {
    if r.Got? then Some(r.msg) else None
  }

  /** The history of a poll by `t` that returned `r`. */
  ghost predicate LooksOf(looks: Log, t: Tid, r: PollResult) {
    && (|looks| == 2 || |looks| == 4)
    && looks[0] == Loaded(t) && looks[1].Popped? && looks[1].who == t
    && (|looks| == 4 ==> looks[1].result == Empty && looks[2] == Loaded(t) && looks[3].Popped? && looks[3].who == t)
    && (var last := looks[|looks| - 1].result;
        match r
        case Ready(Some(m)) => last == Got(m)
        case Ready(None) => last == Disconnected
        case Pending => |looks| == 4 && last == Empty)
  }

  lemma LooksOnce(look: Log, t: Tid, r: PollResult)
    requires |look| == 2 && look[0] == Loaded(t) && look[1].Popped? && look[1].who == t && look[1].result != Empty
    requires r == Ready(Message(look[1].result))
    ensures LooksOf(look, t, r)
  {
  }

  lemma LooksTwice(look: Log, again: Log, t: Tid, r: PollResult)
    requires |look| == 2 && look[0] == Loaded(t) && look[1].Popped? && look[1].who == t && look[1].result == Empty
    requires |again| == 2 && again[0] == Loaded(t) && again[1].Popped? && again[1].who == t
    requires r == if again[1].result == Empty then Pending else Ready(Message(again[1].result))
    ensures LooksOf(look + again, t, r)
  {
  }

  /** How a last endpoint leaves the channel: its side is closed, and if the other side is closed too, the block
      has been freed. */
  ghost predicate LeftForGood(s: State, bySender: bool) {
    && (if bySender then s.sPhase == Closed else s.rPhase == Closed)
    && (s.sPhase == Closed && s.rPhase == Closed ==> s.frees == 1)
  }

  /** Where thread `t` stands after a `pop` and the wake that may follow it. */
  ghost predicate Went(s: State, t: Tid, why: Why, found: bool) {
    match why
    case ForSend(h) => t !in s.ops && h in s.snd
    case ForLastSender => t in s.ops && s.ops[t] == if found then ScanLock(ForLastSender) else SwapConnected(true)
    case ForReceiverDrop(h) => t in s.ops && s.ops[t] == ReceiverDec(h)
  }

  /** Where thread `t`, which stood at `pc`, stands after a pop that returned `r`. */
  ghost predicate WentOn(s: State, t: Tid, pc: Pc, r: RecvResult)
    requires pc.RecvPop?
  {
    match pc.mode
    case Plain => t !in s.ops
    case First(k, w) =>
      t in s.ops && s.ops[t] == if r == Empty then PollInsert(pc.receiver, k, w) else PollRemove(pc.receiver, k)
    case Second(k, w) =>
      if r == Empty then t !in s.ops && pc.receiver in s.rcv && s.rcv[pc.receiver] == Live(k, Some(w))
      else t in s.ops && s.ops[t] == PollRemove(pc.receiver, k)
  }

  lemma PopGoes(s: State, t: Tid, s': State)
    requires Does(s, DoPop(t), s')
    ensures var pc, r := s.ops[t], PopResult(s.buf, s.ops[t].senders);
      s'.log == s.log + [Popped(t, r, pc.since)] && WentOn(s', t, pc, r)
  {
  }

  /** A `send` of `m` by `t` that begins in state `from` has just pushed, and led to state `to`. */
  ghost predicate Pushes(from: State, t: Tid, h: Hid, m: Msg, to: State) {
    exists s, s' :: Step(from, StartSend(t, h, m), s) && Others(s, s', t) && Step(s', DoPush(t), to)
  }

  /** What the rest of a `send` does, from the push on: it scans the waitlist, and wakes the waker that it finds. */
  ghost predicate WakesOne(pushed: State, t: Tid, woken: Option<Waker>, to: State) {
    exists s :: Others(pushed, s, t) && PopsAndWakes(s, t, woken, to)
  }

  /** What the drop of a receiver with an empty slot does before its end: it removes the slot, scans the waitlist and
      wakes the waker that it finds. */
  ghost predicate PassesOn(from: State, t: Tid, h: Hid, woken: Option<Waker>, to: State) {
    exists s, s' :: Step(from, DropReceiver(t, h), s) && WakesOne(s, t, woken, s') && Leads(s', to)
  }

  lemma Assoc<T>(a: seq<T>, b: seq<T>, c: seq<T>)
    ensures (a + b) + c == a + (b + c)
  {
  }

  /** The accesses of a poll after its first look. */
  function AfterLookCalls(t: Tid, once: bool, ready: bool): seq<Action> {
    (if once then [] else [DoInsert(t), DoReload(t), DoPop(t)]) + (if ready then [DoRemove(t)] else [])
  }

  /** The accesses of a poll that looked once or twice. */
  function PollCalls(t: Tid, h: Hid, w: Waker, once: bool, ready: bool): seq<Action> {
    [StartPoll(t, h, w), DoPop(t)] + AfterLookCalls(t, once, ready)
  }

  lemma SwapFacts(s: State, t: Tid)
    requires Reachable(s) && t in s.ops && s.ops[t].SwapConnected?
    ensures s.frees == 0
    ensures s.connected <==> s.sPhase != Closed && s.rPhase != Closed
    ensures if s.ops[t].bySender then s.sPhase == Closing(t) else s.rPhase == Closing(t)
  {
    ReachableInv(s);
    assert RoleOk(s, t, RoleOf(s.ops[t]));
  }

  lemma FreeFacts(s: State, t: Tid)
    requires Reachable(s) && t in s.ops && s.ops[t].FreeBlock?
    ensures s.frees == 0 && s.sPhase == Closed && s.rPhase == Closed
  {
    ReachableInv(s);
    assert RoleOk(s, t, RoleOf(s.ops[t]));
  }

  lemma HeldIsTaken(s: State, t: Tid)
    requires Reachable(s) && t in s.ops && HeldBy(s.ops[t]).Some?
    ensures HeldBy(s.ops[t]).value in s.fate && s.fate[HeldBy(s.ops[t]).value] == Taken
  {
    ReachableInv(s);
  }

  lemma SenderIsThere(s: State, t: Tid)
    requires Reachable(s) && t in s.ops && RoleOf(s.ops[t]).BorrowsSender?
    ensures RoleOf(s.ops[t]).s in s.snd
  {
    ReachableInv(s);
    assert RoleOk(s, t, RoleOf(s.ops[t]));
  }

  lemma PushesBy(from: State, t: Tid, h: Hid, m: Msg, s: State, s': State, to: State)
    requires Step(from, StartSend(t, h, m), s) && Others(s, s', t) && Step(s', DoPush(t), to)
    ensures Pushes(from, t, h, m, to)
  {
  }

  /** The outcome of `WakeOne` lasts until the end of the drop of a receiver. */
  lemma PassedOn(from: State, t: Tid, h: Hid, s: State, woken: Option<Waker>, s': State, to: State)
    requires Step(from, DropReceiver(t, h), s) && WakesOne(s, t, woken, s') && Leads(s', to)
    requires LiveReceiver(from, h) && EmptyAt(from, from.rcv[h].slot) && s.slots == from.slots - {from.rcv[h].slot}
    requires Reachable(s') && if woken.Some? then IsWoken(s', woken.value) else AllLeft(s, s')
    ensures PassesOn(from, t, h, woken, to)
    ensures if woken.Some? then IsWoken(to, woken.value) else AllLeft(from, to)
  {
    if woken.Some? {
      WakersLeave(s', to, woken.value, 0);
    } else {
      AllLeftStays(s, s', to);
      forall k, w | k in from.slots && from.slots[k] == Some(w) ensures HasLeft(to, w) {
        assert k in s.slots && s.slots[k] == Some(w);
      }
    }
  }

  /** What a visit of slot `k` makes of a scan. */
  lemma VisitGoesOn(from: State, s: State, t: Tid, k: Slot, s': State)
    requires Reachable(s) && ScanTo(from, t, s) && 0 < s.cap && Enabled(s, Visit(t, k)) && !Crashes(s, Visit(t, k))
    requires s' == Next(s, Visit(t, k))
    ensures t in s'.ops && (s'.ops[t].Scan? || s'.ops[t].Unlock?) && s'.ops[t].why == s.ops[t].why && s'.log == s.log
    ensures s'.ops[t].Scan? ==> s'.ops[t].left < s.ops[t].left && ScanTo(from, t, s')
    ensures s'.ops[t].Unlock? ==> Takes(from, t, s'.ops[t].waker, s')
  {
    NextDoes(s, Visit(t, k), s');
    if s'.ops[t].Scan? {
      ScanContinues(from, t, s, Visit(t, k), s');
    } else {
      assert Meets(s, t, k, s'.ops[t].waker);
    }
  }

  /** Nobody has begun to use a receiver. */
  ghost predicate NoNewBorrower(s: State, s': State) {
    forall t :: t in s'.ops && RoleOf(s'.ops[t]).BorrowsReceiver? ==> t in s.ops && s.ops[t] == s'.ops[t]
  }

  /** The receiver `h` is in use, and nobody is inside an operation on it. */
  ghost predicate Owns(s: State, h: Hid) {
    LiveReceiver(s, h) && NoRole(s, BorrowsReceiver(h))
  }

  /** How many slots thread `t` still has to visit. */
  function Unvisited(s: State, t: Tid): nat {
    if t in s.ops && s.ops[t].Scan? then |s.ops[t].left| + 1 else 0
  }

  /** A step of a thread that holds the read lock: it comes closer to the release. */
  lemma ReaderStep(s: State, a: Action, s': State)
    requires Does(s, a, s') && (a.Visit? || a.ScanEmpty? || a.ReleaseRead?)
    ensures s'.rcv == s.rcv && NoNewBorrower(s, s')
    ensures s'.readers == if a.Visit? then s.readers else s.readers - {a.t}
    ensures a.Visit? ==> Unvisited(s', a.t) < Unvisited(s, a.t)
  {
  }

  /** The step that an access makes. */
  lemma ActStep(s: State, a: Action, s': State)
    requires 0 < s.cap && Enabled(s, a) && !Crashes(s, a) && s' == Next(s, a)
    ensures Step(s, a, s')
  {
    NextDoes(s, a, s');
  }

  /** A side that is closed has no handle left. */
  lemma ClosedSide(s: State)
    requires Reachable(s)
    ensures s.sPhase == Closed ==> s.snd == {}
    ensures s.rPhase == Closed ==> s.rcv == map[] && s.receivers == 0
    ensures s.sPhase != Closed && s.rPhase != Closed ==> s.connected
  {
    ReachableInv(s);
    assert s.receivers == 0 ==> s.rcv.Keys == {};
  }

  lemma LeavingGoes(s: State, t: Tid, h: Hid, s': State)
    requires Does(s, DropSender(t, h), s')
    ensures s'.senders == s.senders - 1 && h !in s'.snd && s'.log == s.log + [SenderGone]
    ensures if s.senders == 1 then t in s'.ops && s'.ops[t] == ScanLock(ForLastSender) else t !in s'.ops
  {
  }

  lemma DecrementGoes(s: State, t: Tid, s': State)
    requires Does(s, DoReceiverDec(t), s')
    ensures s'.receivers == s.receivers - 1 && s'.rcv == s.rcv - {s.ops[t].receiver} && s'.log == s.log + [ReceiverGone]
    ensures if s'.receivers == 0 then t in s'.ops && s'.ops[t] == SwapConnected(false) else t !in s'.ops
  {
  }

  class Channel {
    const cap: nat
    var s: State
    ghost var run: seq<Action>   // every access made so far, by any thread

    /** The state is reachable, by the accesses recorded. */
    ghost predicate Ok()
      reads this
    {
      0 < s.cap && Reachable(s) && Explains(cap, run, s)
    }

    /** `ring_channel(cap)`; the capacity must not be 0. */
    constructor (cap: nat)
      requires 0 < cap
      ensures this.cap == cap && s == Init(cap) && run == [] && Ok()
    {
      this.cap := cap;
      s := Init(cap);
      run := [];
      ReachableInit(cap);
      ExplainsInit(cap);
    }

    // ---------- interleaving ----------

    /** The others run. */
    method Interfere(ghost t: Tid)
      modifies this
      ensures OthersRan(old(s), old(run), s, run, t)
    {
      NobodyRan(s, run, t);
    }

    method Yield(ghost t: Tid)
      requires Ok()
      modifies this
      ensures Ok() && Others(old(s), s, t) && Meanwhile(old(s), s, t) && Did(old(run), run, t, [])
    {
      Interfere(t);
      OthersRanOn(cap, old(s), old(run), s, run, t);
      OthersKeep(old(s), s, t);
    }

    /** The others run while `t` is in no operation and has the sender `h` to itself: nobody else drops it. */
    method Idle(ghost t: Tid, ghost h: Hid)
      requires Ok() && t !in s.ops && h in s.snd
      modifies this
      ensures Ok() && Others(old(s), s, t) && Meanwhile(old(s), s, t) && h in s.snd && Did(old(run), run, t, [])
    {
      assert OthersRun([s], [], t);
      DidNone(run, t);
      OthersKeep(old(s), s, t);
    }

    /** Waits for the write lock of the waitlist: the others run until none of them holds the read lock.  Callers
        rely on the contract alone, which any such run meets; the body shows that there always is one, in which each
        reader ends its scan.  If `t` has the receiver `h` to itself, the others leave it alone. */
    method AwaitWriteLock(ghost t: Tid, ghost h: Hid)
      requires Ok() && t !in s.readers
      modifies this
      ensures Ok() && Others(old(s), s, t) && Meanwhile(old(s), s, t) && s.readers == {}
      ensures Owns(old(s), h) ==> Owns(s, h) && s.rcv[h] == old(s).rcv[h]
      ensures Did(old(run), run, t, [])
    {
      assert OthersRun([s], [], t);
      DidNone(run, t);
      while s.readers != {}
        invariant Ok() && t !in s.readers && Others(old(s), s, t) && Did(old(run), run, t, [])
        invariant s.rcv == old(s).rcv && NoNewBorrower(old(s), s)
        decreases s.readers
      {
        var u :| u in s.readers;
        ghost var before := run;
        FinishScan(u, t, old(s));
        DidAfter(old(run), before, run, t, []);
      }
      OthersKeep(old(s), s, t);
    }

    /** Thread `u` runs until it has released the read lock. */
    method FinishScan(u: Tid, ghost t: Tid, ghost start: State)
      requires Ok() && u in s.readers && u != t && Others(start, s, t)
      modifies this
      ensures Ok() && Others(start, s, t)
      ensures s.readers == old(s).readers - {u} && s.rcv == old(s).rcv && NoNewBorrower(old(s), s)
      ensures Did(old(run), run, t, [])
    {
      DidNone(run, t);
      while u in s.readers
        invariant Ok() && Others(start, s, t) && Did(old(run), run, t, [])
        invariant s.readers == old(s).readers || s.readers == old(s).readers - {u}
        invariant s.rcv == old(s).rcv && NoNewBorrower(old(s), s)
        decreases u in s.readers, Unvisited(s, u)
      {
        ghost var before := run;
        StepReader(u, t, start);
        DidAfter(old(run), before, run, t, []);
      }
    }

    method StepReader(u: Tid, ghost t: Tid, ghost start: State)
      requires Ok() && u in s.readers && u != t && Others(start, s, t)
      modifies this
      ensures Ok() && Others(start, s, t)
      ensures s.rcv == old(s).rcv && NoNewBorrower(old(s), s)
      ensures
        || s.readers == old(s).readers - {u}
        || (s.readers == old(s).readers && Unvisited(s, u) < Unvisited(old(s), u))
      ensures Did(old(run), run, t, [])
    {
      Safety.ReadersScan(s);
      var a := NextOfReader(u);
      ghost var before := s;
      Act(a);
      NextDoes(before, a, s);
      ReaderStep(before, a, s);
      OthersStep(start, before, a, s, t);
      DidOne(old(run), a);
    }

    method NextOfReader(u: Tid) returns (a: Action)
      requires u in s.ops && (s.ops[u].Scan? || s.ops[u].Unlock?)
      ensures Enabled(s, a) && a.t == u && (a.Visit? || a.ScanEmpty? || a.ReleaseRead?)
    {
      if s.ops[u].Unlock? {
        a := ReleaseRead(u);
      } else if s.ops[u].left == {} {
        a := ScanEmpty(u);
      } else {
        var k :| k in s.ops[u].left;
        a := Visit(u, k);
      }
    }

    /** One access to the shared state. */
    method Act(a: Action)
      requires Ok() && Enabled(s, a)
      modifies this
      ensures Ok() && !Crashes(old(s), a) && s == Next(old(s), a)
      ensures run == old(run) + [a] && Called(old(run), run, a.t, [a]) && Did(old(run), run, a.t, [a])
      ensures old(s).senders == 0 ==>
        && s.senders == 0
        && Drain.RoundsLeft(s) + (if Drain.NewRound(old(s), a) then 1 else 0) <= Drain.RoundsLeft(old(s))
    {
      ReachableInv(s);
      ActorIsOk(s, a);
      KeepLife.NoCrash(s, a);
      NextDoes(s, a, Next(s, a));
      ReachableStep(s, a, Next(s, a));
      ExplainsStep(cap, run, s, a, Next(s, a));
      DidOne(run, a);
      if s.senders == 0 {
        Drain.RoundsStep(s, a, Next(s, a));
        KeepHistory.NoSenderStays(s, a, Next(s, a));
      }
      s := Next(s, a);
      run := run + [a];
    }

    // ---------- the waitlist ----------

    /** The scan of `Waitlist::pop`: takes the read lock and visits the slots in any order until one of them
        holds a waker. */
    method ScanSlots(t: Tid) returns (ghost own: seq<Action>)
      requires Ok() && t in s.ops && s.ops[t].ScanLock?
      modifies this
      ensures Ok() && EventsOf(s.log, t) == EventsOf(old(s).log, t)
      ensures t in s.ops && (s.ops[t].Unlock? || (s.ops[t].Scan? && s.ops[t].left == {}))
      ensures s.ops[t].why == old(s).ops[t].why
      ensures if s.ops[t].Scan? then ScanTo(old(s), t, s) else Takes(old(s), t, s.ops[t].waker, s)
      ensures old(s).ops[t].why == ForLastSender && old(s).senders == 0 ==>
        s.senders == 0 && Drain.RoundsLeft(s) < Drain.RoundsLeft(old(s))
      ensures Did(old(run), run, t, own) && IsScan(own, t)
    {
      ghost var why := s.ops[t].why;
      BeginScan(t);
      own := [AcquireRead(t)];
      while s.ops[t].Scan? && s.ops[t].left != {}
        invariant Ok() && t in s.ops && (s.ops[t].Scan? || s.ops[t].Unlock?) && s.ops[t].why == why
        invariant EventsOf(s.log, t) == EventsOf(old(s).log, t)
        invariant if s.ops[t].Scan? then ScanTo(old(s), t, s) else Takes(old(s), t, s.ops[t].waker, s)
        invariant Did(old(run), run, t, own) && IsScan(own, t)
        invariant why == ForLastSender && old(s).senders == 0 ==>
          s.senders == 0 && Drain.RoundsLeft(s) < Drain.RoundsLeft(old(s))
        decreases s.ops[t].Scan?, if s.ops[t].Scan? then s.ops[t].left else {}
      {
        ghost var before := run;
        var k := VisitNext(t, old(s));
        DidOn(old(run), before, run, t, own, [Visit(t, k)]);
        MoreOfScan(own, t, k);
        own := own + [Visit(t, k)];
      }
    }

    /** Takes the read lock. */
    method BeginScan(t: Tid)
      requires Ok() && t in s.ops && s.ops[t].ScanLock?
      modifies this
      ensures Ok() && s.log == old(s).log
      ensures t in s.ops && s.ops[t] == Scan(old(s).ops[t].why, old(s).slots.Keys) && ScanTo(old(s), t, s)
      ensures old(s).ops[t].why == ForLastSender && old(s).senders == 0 ==>
        s.senders == 0 && Drain.RoundsLeft(s) < Drain.RoundsLeft(old(s))
      ensures Did(old(run), run, t, [AcquireRead(t)])
    {
      ghost var before := s;
      Act(AcquireRead(t));
      ActStep(before, AcquireRead(t), s);
      ScanBegins(before, t, s);
    }

    /** Looks at one more slot. */
    method VisitNext(t: Tid, ghost from: State) returns (k: Slot)
      requires Ok() && t in s.ops && s.ops[t].Scan? && s.ops[t].left != {} && ScanTo(from, t, s)
      modifies this
      ensures Ok() && t in s.ops && (s.ops[t].Scan? || s.ops[t].Unlock?) && s.ops[t].why == old(s).ops[t].why
      ensures EventsOf(s.log, t) == EventsOf(old(s).log, t)
      ensures s.ops[t].Scan? ==> s.ops[t].left < old(s).ops[t].left && ScanTo(from, t, s)
      ensures s.ops[t].Unlock? ==> Takes(from, t, s.ops[t].waker, s)
      ensures old(s).senders == 0 ==> s.senders == 0 && Drain.RoundsLeft(s) <= Drain.RoundsLeft(old(s))
      ensures Did(old(run), run, t, [Visit(t, k)])
    {
      Yield(t);
      OthersKeepScan(from, old(s), s, t);
      ghost var before, ran := s, run;
      k :| k in s.ops[t].left;
      Act(Visit(t, k));
      VisitGoesOn(from, before, t, k, s);
      DidAfter(old(run), ran, run, t, [Visit(t, k)]);
    }

    /** `Waitlist::pop`, at one of its three call sites. */
    method PopWaker(t: Tid) returns (found: Option<Waker>, ghost own: seq<Action>)
      requires Ok() && t in s.ops && s.ops[t].ScanLock?
      modifies this
      ensures Ok() && EventsOf(s.log, t) == EventsOf(old(s).log, t)
      ensures Pops(old(s), t, found, s)
      ensures match found
        case Some(w) => t in s.ops && s.ops[t] == WakeUp(old(s).ops[t].why, w) && w in s.fate && s.fate[w] == Taken
        case None => Went(s, t, old(s).ops[t].why, false) && AllLeft(old(s), s)
      ensures old(s).ops[t].why == ForLastSender && old(s).senders == 0 ==>
        s.senders == 0 && Drain.RoundsLeft(s) < Drain.RoundsLeft(old(s))
      ensures Did(old(run), run, t, own) && IsPop(own, t, found.Some?)
    {
      ghost var scan := ScanSlots(t);
      ghost var scanned, ran := s, run;
      Yield(t);
      ghost var before, ran' := s, run;
      if before.ops[t].Scan? { OthersKeepScan(old(s), scanned, before, t); }
      found := EndScan(t);
      ghost var release := if found.Some? then ReleaseRead(t) else ScanEmpty(t);
      DidNext(old(run), ran, ran', run, t, scan, [release]);
      own := scan + [release];
      PopOfScan(scan, t, found.Some?);
      if found.None? {
        ScanFindsNothing(old(s), t, before, s);
        NoneMeansAllLeft(old(s), t, s);
      }
    }

    /** Releases the read lock. */
    method EndScan(t: Tid) returns (found: Option<Waker>)
      requires Ok() && t in s.ops && (s.ops[t].Unlock? || (s.ops[t].Scan? && s.ops[t].left == {}))
      modifies this
      ensures Ok() && s.log == old(s).log
      ensures found == if old(s).ops[t].Unlock? then Some(old(s).ops[t].waker) else None
      ensures Step(old(s), if found.Some? then ReleaseRead(t) else ScanEmpty(t), s)
      ensures match found
        case Some(w) => t in s.ops && s.ops[t] == WakeUp(old(s).ops[t].why, w) && w in s.fate && s.fate[w] == Taken
        case None => Went(s, t, old(s).ops[t].why, false)
      ensures old(s).senders == 0 ==> s.senders == 0 && Drain.RoundsLeft(s) <= Drain.RoundsLeft(old(s))
      ensures Did(old(run), run, t, [if found.Some? then ReleaseRead(t) else ScanEmpty(t)])
    {
      if s.ops[t].Unlock? {
        found := Some(s.ops[t].waker);
        EndScanWithWaker(t);
      } else {
        found := None;
        EndScanWithNone(t);
      }
    }

    method EndScanWithWaker(t: Tid)
      requires Ok() && t in s.ops && s.ops[t].Unlock?
      modifies this
      ensures Ok() && s.log == old(s).log && Step(old(s), ReleaseRead(t), s)
      ensures t in s.ops && s.ops[t] == WakeUp(old(s).ops[t].why, old(s).ops[t].waker)
      ensures old(s).ops[t].waker in s.fate && s.fate[old(s).ops[t].waker] == Taken
      ensures old(s).senders == 0 ==> s.senders == 0 && Drain.RoundsLeft(s) <= Drain.RoundsLeft(old(s))
      ensures Did(old(run), run, t, [ReleaseRead(t)])
    {
      ghost var before := s;
      Act(ReleaseRead(t));
      ActStep(before, ReleaseRead(t), s);
      HeldIsTaken(s, t);
    }

    method EndScanWithNone(t: Tid)
      requires Ok() && t in s.ops && s.ops[t].Scan? && s.ops[t].left == {}
      modifies this
      ensures Ok() && s.log == old(s).log && Step(old(s), ScanEmpty(t), s)
      ensures Went(s, t, old(s).ops[t].why, false)
      ensures old(s).senders == 0 ==> s.senders == 0 && Drain.RoundsLeft(s) <= Drain.RoundsLeft(old(s))
      ensures Did(old(run), run, t, [ScanEmpty(t)])
    {
      ghost var before := s;
      if RoleOf(s.ops[t]).BorrowsSender? { SenderIsThere(s, t); }
      Act(ScanEmpty(t));
      ActStep(before, ScanEmpty(t), s);
    }

    /** A `pop` and, if it found a waker, the wake that follows. */
    method PopAndWake(t: Tid) returns (found: Option<Waker>, ghost own: seq<Action>)
      requires Ok() && t in s.ops && s.ops[t].ScanLock?
      modifies this
      ensures Ok() && EventsOf(s.log, t) == EventsOf(old(s).log, t)
      ensures PopsAndWakes(old(s), t, found, s)
      ensures if found.Some? then IsWoken(s, found.value) else AllLeft(old(s), s)
      ensures Went(s, t, old(s).ops[t].why, found.Some?)
      ensures old(s).ops[t].why == ForLastSender && old(s).senders == 0 ==>
        s.senders == 0 && Drain.RoundsLeft(s) < Drain.RoundsLeft(old(s))
      ensures Did(old(run), run, t, own) && IsPopAndWake(own, t, found.Some?)
    {
      found, own := PopWaker(t);
      if found.Some? {
        ghost var ran := run;
        Yield(t);
        ghost var ran' := run;
        WakeFound(t);
        DidNext(old(run), ran, ran', run, t, own, [DoWake(t)]);
        WakeOfPop(own, t);
        own := own + [DoWake(t)];
      }
    }

    method WakeFound(t: Tid)
      requires Ok() && t in s.ops && s.ops[t].WakeUp?
      modifies this
      ensures Ok() && s.log == old(s).log && Step(old(s), DoWake(t), s)
      ensures IsWoken(s, old(s).ops[t].waker) && Went(s, t, old(s).ops[t].why, true)
      ensures old(s).senders == 0 ==> s.senders == 0 && Drain.RoundsLeft(s) <= Drain.RoundsLeft(old(s))
      ensures Did(old(run), run, t, [DoWake(t)])
    {
      ghost var before := s;
      if RoleOf(s.ops[t]).BorrowsSender? { SenderIsThere(s, t); }
      Act(DoWake(t));
      ActStep(before, DoWake(t), s);
    }

    /** A `pop` and a wake on behalf of a message. */
    method WakeOne(t: Tid) returns (woken: Option<Waker>, ghost own: seq<Action>)
      requires Ok() && t in s.ops && s.ops[t].ScanLock?
      modifies this
      ensures Ok() && EventsOf(s.log, t) == EventsOf(old(s).log, t)
      ensures WakesOne(old(s), t, woken, s) && Leads(old(s), s)
      ensures if woken.Some? then IsWoken(s, woken.value) else AllLeft(old(s), s)
      ensures Went(s, t, old(s).ops[t].why, woken.Some?)
      ensures Did(old(run), run, t, own) && IsPopAndWake(own, t, woken.Some?)
    {
      Yield(t);
      ghost var from, ran := s, run;
      LeadsByOthers(old(s), from, t);
      woken, own := PopAndWake(t);
      DidAfter(old(run), ran, run, t, own);
      if woken.None? { NoneMeansAllLeftSince(old(s), from, t, s); }
      PopAndWakeLeads(from, t, woken, s);
      LeadsOn(old(s), from, s);
    }

    // ---------- senders ----------

    /** `RingSender::send`.  Makes exactly one push, or none and hands the message back.  `pushed` is the state right
        after the push; if the push overwrote nothing, the call wakes one receiver, or every receiver that was parked
        at that moment has been woken or has withdrawn by itself. */
    method Send(t: Tid, h: Hid, m: Msg)
      returns (r: SendResult, ghost pushed: State, ghost woken: Option<Waker>,
               ghost own: seq<Action>, ghost pop: seq<Action>)
      requires Ok() && Enabled(s, StartSend(t, h, m))
      modifies this
      ensures Ok() && t !in s.ops && h in s.snd
      ensures match r
        case Rejected(x) =>
          && old(s).receivers == 0 && x == m && Step(old(s), StartSend(t, h, m), s)
          && EventsOf(s.log, t) == EventsOf(old(s).log, t) + [Refused(t, m)]
        case Accepted(y) =>
          && 0 < old(s).receivers && Pushes(old(s), t, h, m, pushed)
          && EventsOf(s.log, t) == EventsOf(old(s).log, t) + [Loaded(t), Pushed(t, m, y, |old(s).log|)]
          && (if y.Some? then s == pushed else WakesOne(pushed, t, woken, s))
      ensures r == Accepted(None) ==> if woken.Some? then IsWoken(s, woken.value) else AllLeft(pushed, s)
      ensures Called(old(run), run, t, own)
      ensures own == if r.Rejected? then [StartSend(t, h, m)] else [StartSend(t, h, m)] + ([DoPush(t)] + pop)
      ensures if r == Accepted(None) then IsPopAndWake(pop, t, woken.Some?) else pop == []
    {
      pushed, woken, pop := s, None, [];
      var connected := Load(t, h, m);
      own := [StartSend(t, h, m)];
      if connected {
        ghost var ran := run;
        var overwritten;
        overwritten, pushed, woken, pop := PushAndWake(t, h, m, old(s));
        CalledOn(old(run), ran, run, t, own, [DoPush(t)] + pop);
        own := own + ([DoPush(t)] + pop);
        r := Accepted(overwritten);
      } else {
        r := Rejected(m);
      }
    }

    /** What a `send` that began in state `from` does after its load. */
    method PushAndWake(t: Tid, h: Hid, m: Msg, ghost from: State)
      returns (overwritten: Option<Msg>, ghost pushed: State, ghost woken: Option<Waker>, ghost pop: seq<Action>)
      requires Ok() && t in s.ops && s.ops[t] == SendPush(h, m, |from.log|)
      requires Step(from, StartSend(t, h, m), s)
      modifies this
      ensures Ok() && t !in s.ops && h in s.snd && Pushes(from, t, h, m, pushed)
      ensures EventsOf(s.log, t) == EventsOf(old(s).log, t) + [Pushed(t, m, overwritten, |from.log|)]
      ensures Did(old(run), run, t, [DoPush(t)] + pop)
      ensures overwritten.Some? ==> s == pushed && pop == []
      ensures overwritten.None? ==>
        && WakesOne(pushed, t, woken, s) && IsPopAndWake(pop, t, woken.Some?)
        && if woken.Some? then IsWoken(s, woken.value) else AllLeft(pushed, s)
    {
      woken, pop := None, [];
      overwritten := PushLoaded(t, h, m, from);
      pushed := s;
      assert [DoPush(t)] + [] == [DoPush(t)];
      if overwritten.None? {
        ghost var ran := run;
        woken, pop := WakeOne(t);
        DidOn(old(run), ran, run, t, [DoPush(t)], pop);
      }
    }

    /** The load with which a `send` begins. */
    method Load(t: Tid, h: Hid, m: Msg) returns (connected: bool)
      requires Ok() && Enabled(s, StartSend(t, h, m))
      modifies this
      ensures Ok() && Step(old(s), StartSend(t, h, m), s) && h in s.snd
      ensures connected == (0 < old(s).receivers)
      ensures EventsOf(s.log, t) == EventsOf(old(s).log, t) + [if connected then Loaded(t) else Refused(t, m)]
      ensures if connected then t in s.ops && s.ops[t] == SendPush(h, m, |old(s).log|) else t !in s.ops
      ensures Called(old(run), run, t, [StartSend(t, h, m)])
    {
      ghost var before := s;
      connected := 0 < s.receivers;
      EventsAfter(s.log, if connected then Loaded(t) else Refused(t, m), t);
      Act(StartSend(t, h, m));
      ActStep(before, StartSend(t, h, m), s);
    }

    /** The push of a `send` that began in state `from`. */
    method PushLoaded(t: Tid, h: Hid, m: Msg, ghost from: State) returns (overwritten: Option<Msg>)
      requires Ok() && t in s.ops && s.ops[t] == SendPush(h, m, |from.log|)
      requires Step(from, StartSend(t, h, m), s)
      modifies this
      ensures Ok() && Pushes(from, t, h, m, s) && h in s.snd
      ensures EventsOf(s.log, t) == EventsOf(old(s).log, t) + [Pushed(t, m, overwritten, |from.log|)]
      ensures if overwritten.None? then t in s.ops && s.ops[t] == ScanLock(ForSend(h)) else t !in s.ops
      ensures Did(old(run), run, t, [DoPush(t)])
    {
      Yield(t);
      ghost var before, ran := s, run;
      overwritten := PushMessage(t);
      DidAfter(old(run), ran, run, t, [DoPush(t)]);
      PushesBy(from, t, h, m, old(s), before, s);
    }

    /** The push of a `send`, and where it leaves the thread. */
    method PushMessage(t: Tid) returns (overwritten: Option<Msg>)
      requires Ok() && t in s.ops && s.ops[t].SendPush?
      modifies this
      ensures Ok() && Step(old(s), DoPush(t), s)
      ensures var pc := old(s).ops[t];
        && EventsOf(s.log, t) == EventsOf(old(s).log, t) + [Pushed(t, pc.msg, overwritten, pc.since)]
        && pc.sender in s.snd
        && if overwritten.None? then t in s.ops && s.ops[t] == ScanLock(ForSend(pc.sender)) else t !in s.ops
      ensures Did(old(run), run, t, [DoPush(t)])
    {
      ghost var before := s;
      var pc := s.ops[t];
      overwritten := Fifo.Push(s.cap, s.buf, pc.msg).1;
      EventsAfter(s.log, Pushed(t, pc.msg, overwritten, pc.since), t);
      SenderIsThere(s, t);
      Act(DoPush(t));
      ActStep(before, DoPush(t), s);
    }

    /** `RingSender::clone`. */
    method CloneSender(t: Tid, h: Hid, n: Hid)
      requires Ok() && Enabled(s, Action.CloneSender(t, h, n))
      modifies this
      ensures Ok() && Step(old(s), Action.CloneSender(t, h, n), s) && t !in s.ops
      ensures s.snd == old(s).snd + {n} && s.senders == old(s).senders + 1
      ensures EventsOf(s.log, t) == EventsOf(old(s).log, t)
      ensures Called(old(run), run, t, [Action.CloneSender(t, h, n)])
    {
      ghost var before := s;
      EventsAfter(s.log, SenderAdded, t);
      Act(Action.CloneSender(t, h, n));
      ActStep(before, Action.CloneSender(t, h, n), s);
    }

    /** `RingSender::drop`.  The last sender wakes receivers until it finds none parked; this loop ends whatever
        the receivers do meanwhile, and whoever was parked at the start has been woken or has withdrawn by itself. */
    method DropSender(t: Tid, h: Hid)
      returns (ghost own: seq<Action>, ghost rounds: seq<Action>, ghost end: seq<Action>)
      requires Ok() && Enabled(s, Action.DropSender(t, h))
      modifies this
      ensures Ok() && t !in s.ops && h !in s.snd
      ensures EventsOf(s.log, t) == EventsOf(old(s).log, t)
      ensures if old(s).senders == 1 then LeftForGood(s, true) && AllLeft(old(s), s)
        else Step(old(s), Action.DropSender(t, h), s)
      ensures Called(old(run), run, t, own)
      ensures if old(s).senders == 1 then
          own == [Action.DropSender(t, h)] + rounds + end && IsDrain(rounds, t) && IsClosing(end, t)
        else own == [Action.DropSender(t, h)]
    {
      LeaveSenders(t, h);
      own, rounds, end := [Action.DropSender(t, h)], [], [];
      if t in s.ops {
        LeadsByStep(old(s), Action.DropSender(t, h), s);
        var found := true;
        ghost var left := run;
        DidNone(run, t);
        while found
          invariant Ok() && s.senders == 0 && EventsOf(s.log, t) == EventsOf(old(s).log, t)
          invariant t in s.ops && s.ops[t] == (if found then ScanLock(ForLastSender) else SwapConnected(true))
          invariant Leads(old(s), s) && (found || AllLeft(old(s), s))
          invariant Did(left, run, t, rounds) && if found then AreRounds(rounds, t) else IsDrain(rounds, t)
          decreases found, Drain.RoundsLeft(s)
        {
          ghost var ran, round := run, [];
          found, round := WakeRound(t, old(s));
          DidOn(left, ran, run, t, rounds, round);
          OneMoreRound(rounds, round, t, found);
          rounds := rounds + round;
        }
        ghost var drained := run;
        end := CloseSide(t, old(s));
        DrainNotEmpty(rounds, t);
        CalledOn(old(run), left, drained, t, own, rounds);
        CalledOn(old(run), drained, run, t, own + rounds, end);
        own := own + rounds + end;
        ClosedSide(s);
      }
    }

    /** The decrement of `senders`. */
    method LeaveSenders(t: Tid, h: Hid)
      requires Ok() && Enabled(s, Action.DropSender(t, h))
      modifies this
      ensures Ok() && Step(old(s), Action.DropSender(t, h), s) && h !in s.snd
      ensures EventsOf(s.log, t) == EventsOf(old(s).log, t)
      ensures if old(s).senders == 1 then s.senders == 0 && t in s.ops && s.ops[t] == ScanLock(ForLastSender)
        else t !in s.ops
      ensures Called(old(run), run, t, [Action.DropSender(t, h)])
    {
      ghost var before := s;
      EventsAfter(s.log, SenderGone, t);
      Act(Action.DropSender(t, h));
      NextDoes(before, Action.DropSender(t, h), s);
      LeavingGoes(before, t, h, s);
    }

    /** One round of the last sender's loop; `start` is where its drop began. */
    method WakeRound(t: Tid, ghost start: State) returns (found: bool, ghost own: seq<Action>)
      requires Ok() && t in s.ops && s.ops[t] == ScanLock(ForLastSender) && s.senders == 0
      requires Reachable(start) && Leads(start, s)
      modifies this
      ensures Ok() && s.senders == 0 && EventsOf(s.log, t) == EventsOf(old(s).log, t)
      ensures t in s.ops && s.ops[t] == (if found then ScanLock(ForLastSender) else SwapConnected(true))
      ensures Leads(start, s) && (found || AllLeft(start, s))
      ensures Drain.RoundsLeft(s) < Drain.RoundsLeft(old(s))
      ensures Did(old(run), run, t, own) && IsPopAndWake(own, t, found)
    {
      Yield(t);
      ghost var from, ran := s, run;
      LeadsByOthers(old(s), from, t);
      LeadsOn(start, old(s), from);
      var waker;
      waker, own := PopAndWake(t);
      DidAfter(old(run), ran, run, t, own);
      if waker.None? { NoneMeansAllLeftSince(start, from, t, s); }
      PopAndWakeLeads(from, t, waker, s);
      LeadsOn(start, from, s);
      found := waker.Some?;
    }

    /** What follows the drain: what has left its slot stays away. */
    method CloseSide(t: Tid, ghost start: State) returns (ghost own: seq<Action>)
      requires Ok() && t in s.ops && s.ops[t] == SwapConnected(true) && AllLeft(start, s)
      modifies this
      ensures Ok() && t !in s.ops && EventsOf(s.log, t) == EventsOf(old(s).log, t)
      ensures LeftForGood(s, true) && AllLeft(start, s)
      ensures Did(old(run), run, t, own) && IsClosing(own, t)
    {
      Yield(t);
      ghost var before, ran := s, run;
      LeadsByOthers(old(s), before, t);
      own := SwapAndFree(t);
      DidAfter(old(run), ran, run, t, own);
      LeadsOn(old(s), before, s);
      AllLeftStays(start, old(s), s);
    }

    /** The end of both drops: `connected.swap(false)`, and the free by whoever comes second. */
    method SwapAndFree(t: Tid) returns (ghost own: seq<Action>)
      requires Ok() && t in s.ops && s.ops[t].SwapConnected?
      modifies this
      ensures Ok() && t !in s.ops && EventsOf(s.log, t) == EventsOf(old(s).log, t)
      ensures LeftForGood(s, old(s).ops[t].bySender) && Leads(old(s), s)
      ensures Did(old(run), run, t, own) && IsClosing(own, t)
    {
      Swap(t);
      own := [DoSwap(t)];
      LeadsByStep(old(s), DoSwap(t), s);
      if t in s.ops {
        ghost var swapped, ran := s, run;
        Yield(t);
        LeadsByOthers(swapped, s, t);
        LeadsOn(old(s), swapped, s);
        ghost var before, ran' := s, run;
        Free(t);
        LeadsByStep(before, DoFree(t), s);
        LeadsOn(old(s), before, s);
        DidNext(old(run), ran, ran', run, t, own, [DoFree(t)]);
        own := own + [DoFree(t)];
      }
    }

    method Swap(t: Tid)
      requires Ok() && t in s.ops && s.ops[t].SwapConnected?
      modifies this
      ensures Ok() && Step(old(s), DoSwap(t), s) && s.log == old(s).log
      ensures if t in s.ops then s.ops[t] == FreeBlock else LeftForGood(s, old(s).ops[t].bySender)
      ensures Did(old(run), run, t, [DoSwap(t)])
    {
      ghost var before := s;
      SwapFacts(s, t);
      Act(DoSwap(t));
      ActStep(before, DoSwap(t), s);
    }

    method Free(t: Tid)
      requires Ok() && t in s.ops && s.ops[t] == FreeBlock
      modifies this
      ensures Ok() && Step(old(s), DoFree(t), s) && s.log == old(s).log && t !in s.ops
      ensures LeftForGood(s, true) && LeftForGood(s, false)
      ensures Did(old(run), run, t, [DoFree(t)])
    {
      ghost var before := s;
      FreeFacts(s, t);
      Act(DoFree(t));
      ActStep(before, DoFree(t), s);
    }

    // ---------- receivers ----------

    /** `RingReceiver::try_recv`.  Makes exactly one pop. */
    method TryRecv(t: Tid, h: Hid) returns (r: RecvResult)
      requires Ok() && Enabled(s, StartTryRecv(t, h))
      modifies this
      ensures Ok() && t !in s.ops
      ensures EventsOf(s.log, t) == EventsOf(old(s).log, t) + [Loaded(t), Popped(t, r, |old(s).log|)]
      ensures r.Got? || r == if 0 < old(s).senders then Empty else Disconnected
      ensures Called(old(run), run, t, [StartTryRecv(t, h), DoPop(t)])
    {
      BeginTryRecv(t, h);
      ghost var ran := run;
      r := PopMessage(t);
      CalledOn(old(run), ran, run, t, [StartTryRecv(t, h)], [DoPop(t)]);
    }

    /** The load with which a `try_recv` begins. */
    method BeginTryRecv(t: Tid, h: Hid)
      requires Ok() && Enabled(s, StartTryRecv(t, h))
      modifies this
      ensures Ok() && t in s.ops && s.ops[t] == RecvPop(h, Plain, 0 < old(s).senders, |old(s).log|)
      ensures EventsOf(s.log, t) == EventsOf(old(s).log, t) + [Loaded(t)]
      ensures Called(old(run), run, t, [StartTryRecv(t, h)])
    {
      EventsAfter(s.log, Loaded(t), t);
      Act(StartTryRecv(t, h));
    }

    /** The others run, and then `t` pops. */
    method PopMessage(t: Tid) returns (r: RecvResult)
      requires Ok() && t in s.ops && s.ops[t].RecvPop?
      modifies this
      ensures Ok()
      ensures EventsOf(s.log, t) == EventsOf(old(s).log, t) + [Popped(t, r, old(s).ops[t].since)]
      ensures r.Got? || r == if old(s).ops[t].senders then Empty else Disconnected
      ensures WentOn(s, t, old(s).ops[t], r)
      ensures Did(old(run), run, t, [DoPop(t)])
    {
      Yield(t);
      ghost var ran := run;
      r := PopNow(t);
      DidAfter(old(run), ran, run, t, [DoPop(t)]);
    }

    /** The pop of a `try_recv`, and where it leaves the thread. */
    method PopNow(t: Tid) returns (r: RecvResult)
      requires Ok() && t in s.ops && s.ops[t].RecvPop?
      modifies this
      ensures Ok()
      ensures EventsOf(s.log, t) == EventsOf(old(s).log, t) + [Popped(t, r, old(s).ops[t].since)]
      ensures r.Got? || r == if old(s).ops[t].senders then Empty else Disconnected
      ensures WentOn(s, t, old(s).ops[t], r)
      ensures Did(old(run), run, t, [DoPop(t)])
    {
      var before := s;
      r := PopResult(s.buf, s.ops[t].senders);
      Act(DoPop(t));
      NextDoes(before, DoPop(t), s);
      PopGoes(before, t, s);
      EventsAfter(before.log, Popped(t, r, before.ops[t].since), t);
    }

    /** `RingReceiver::poll`.  Looks at most twice, and stores the waker between the looks.  It returns Pending
        only with that waker recorded for the receiver, and Ready only with the receiver's slot emptied. */
    method Poll(t: Tid, h: Hid, w: Waker) returns (r: PollResult, ghost looks: Log)
      requires Ok() && Enabled(s, StartPoll(t, h, w))
      modifies this
      ensures Ok() && t !in s.ops
      ensures LooksOf(looks, t, r) && EventsOf(s.log, t) == EventsOf(old(s).log, t) + looks
      ensures r == Pending ==> h in s.rcv && s.rcv[h] == Live(old(s).rcv[h].slot, Some(w))
      ensures r.Ready? ==> old(s).rcv[h].slot in s.slots && s.slots[old(s).rcv[h].slot] == None
      ensures Called(old(run), run, t, PollCalls(t, h, w, |looks| == 2, r.Ready?))
    {
      var first, look := FirstLook(t, h, w);
      ghost var rest, ran := [], run;
      r, rest := AfterFirstLook(t, first, look);
      CalledOn(old(run), ran, run, t, [StartPoll(t, h, w), DoPop(t)], AfterLookCalls(t, first != Empty, r.Ready?));
      looks := look + rest;
      Assoc(EventsOf(old(s).log, t), look, rest);
    }

    /** What a poll does after its first look. */
    method AfterFirstLook(t: Tid, first: RecvResult, ghost look: Log) returns (r: PollResult, ghost rest: Log)
      requires Ok() && t in s.ops && (if first == Empty then s.ops[t].PollInsert? else s.ops[t].PollRemove?)
      requires |look| == 2 && look[0] == Loaded(t) && look[1].Popped? && look[1].who == t && look[1].result == first
      modifies this
      ensures Ok() && t !in s.ops
      ensures LooksOf(look + rest, t, r) && EventsOf(s.log, t) == EventsOf(old(s).log, t) + rest
      ensures var pc := old(s).ops[t];
        if r == Pending then
          first == Empty && pc.receiver in s.rcv && s.rcv[pc.receiver] == Live(pc.slot, Some(pc.waker))
        else pc.slot in s.slots && s.slots[pc.slot] == None
      ensures Did(old(run), run, t, AfterLookCalls(t, first != Empty, r.Ready?))
      ensures AfterLookCalls(t, first != Empty, r.Ready?) != [] && |rest| == if first == Empty then 2 else 0
    {
      if first == Empty {
        r, rest := LookAgain(t);
        LooksTwice(look, rest, t, r);
      } else {
        TakeOut(t);
        r, rest := Ready(Message(first)), [];
        LooksOnce(look, t, r);
        assert look + rest == look;
      }
    }

    /** The end of a poll that is ready: its slot is emptied. */
    method TakeOut(t: Tid)
      requires Ok() && t in s.ops && s.ops[t].PollRemove?
      modifies this
      ensures Ok() && t !in s.ops && EventsOf(s.log, t) == EventsOf(old(s).log, t)
      ensures old(s).ops[t].slot in s.slots && s.slots[old(s).ops[t].slot] == None
      ensures Did(old(run), run, t, [DoRemove(t)])
    {
      Yield(t);
      ghost var ran := run;
      Act(DoRemove(t));
      DidAfter(old(run), ran, run, t, [DoRemove(t)]);
    }

    /** The first look of a poll. */
    method FirstLook(t: Tid, h: Hid, w: Waker) returns (r: RecvResult, ghost look: Log)
      requires Ok() && Enabled(s, StartPoll(t, h, w))
      modifies this
      ensures Ok() && EventsOf(s.log, t) == EventsOf(old(s).log, t) + look
      ensures |look| == 2 && look[0] == Loaded(t) && look[1].Popped? && look[1].who == t && look[1].result == r
      ensures var k := old(s).rcv[h].slot;
        t in s.ops && s.ops[t] == if r == Empty then PollInsert(h, k, w) else PollRemove(h, k)
      ensures Called(old(run), run, t, [StartPoll(t, h, w), DoPop(t)])
    {
      BeginPoll(t, h, w);
      ghost var since, ran := s.ops[t].since, run;
      r := PopMessage(t);
      CalledOn(old(run), ran, run, t, [StartPoll(t, h, w)], [DoPop(t)]);
      look := [Loaded(t), Popped(t, r, since)];
    }

    /** The load with which the first look of a poll begins. */
    method BeginPoll(t: Tid, h: Hid, w: Waker)
      requires Ok() && Enabled(s, StartPoll(t, h, w))
      modifies this
      ensures Ok() && EventsOf(s.log, t) == EventsOf(old(s).log, t) + [Loaded(t)]
      ensures t in s.ops && s.ops[t].RecvPop? && s.ops[t].receiver == h && s.ops[t].mode == First(old(s).rcv[h].slot, w)
      ensures Called(old(run), run, t, [StartPoll(t, h, w)])
    {
      EventsAfter(s.log, Loaded(t), t);
      Act(StartPoll(t, h, w));
    }

    /** The second half of a poll: stores the waker and looks again. */
    method LookAgain(t: Tid) returns (r: PollResult, ghost looks: Log)
      requires Ok() && t in s.ops && s.ops[t].PollInsert?
      modifies this
      ensures Ok() && t !in s.ops
      ensures |looks| == 2 && looks[0] == Loaded(t) && looks[1].Popped? && looks[1].who == t
      ensures r == if looks[1].result == Empty then Pending else Ready(Message(looks[1].result))
      ensures EventsOf(s.log, t) == EventsOf(old(s).log, t) + looks
      ensures var pc := old(s).ops[t];
        if r == Pending then pc.receiver in s.rcv && s.rcv[pc.receiver] == Live(pc.slot, Some(pc.waker))
        else pc.slot in s.slots && s.slots[pc.slot] == None
      ensures Did(old(run), run, t, AfterLookCalls(t, false, r.Ready?))
    {
      StoreWaker(t);
      ghost var ran := run;
      var second;
      second, looks := SecondLook(t);
      DidOn(old(run), ran, run, t, [DoInsert(t)], [DoReload(t), DoPop(t)]);
      assert [DoInsert(t)] + [DoReload(t), DoPop(t)] == [DoInsert(t), DoReload(t), DoPop(t)];
      if second == Empty {
        r := Pending;
      } else {
        ran := run;
        TakeOut(t);
        DidOn(old(run), ran, run, t, [DoInsert(t), DoReload(t), DoPop(t)], [DoRemove(t)]);
        r := Ready(Message(second));
      }
    }

    /** Stores the waker. */
    method StoreWaker(t: Tid)
      requires Ok() && t in s.ops && s.ops[t].PollInsert?
      modifies this
      ensures Ok() && EventsOf(s.log, t) == EventsOf(old(s).log, t)
      ensures t in s.ops && s.ops[t] == RecvReload(old(s).ops[t].receiver, old(s).ops[t].slot, old(s).ops[t].waker)
      ensures Did(old(run), run, t, [DoInsert(t)])
    {
      Yield(t);
      ghost var ran := run;
      Act(DoInsert(t));
      DidAfter(old(run), ran, run, t, [DoInsert(t)]);
    }

    /** The second look of a poll. */
    method SecondLook(t: Tid) returns (r: RecvResult, ghost look: Log)
      requires Ok() && t in s.ops && s.ops[t].RecvReload?
      modifies this
      ensures Ok() && EventsOf(s.log, t) == EventsOf(old(s).log, t) + look
      ensures |look| == 2 && look[0] == Loaded(t) && look[1].Popped? && look[1].who == t && look[1].result == r
      ensures var pc := old(s).ops[t];
        if r == Empty then t !in s.ops && pc.receiver in s.rcv && s.rcv[pc.receiver] == Live(pc.slot, Some(pc.waker))
        else t in s.ops && s.ops[t] == PollRemove(pc.receiver, pc.slot)
      ensures Did(old(run), run, t, [DoReload(t), DoPop(t)])
    {
      Reload(t);
      ghost var since, ran := s.ops[t].since, run;
      r := PopMessage(t);
      DidOn(old(run), ran, run, t, [DoReload(t)], [DoPop(t)]);
      look := [Loaded(t), Popped(t, r, since)];
    }

    /** The load with which the second look begins. */
    method Reload(t: Tid)
      requires Ok() && t in s.ops && s.ops[t].RecvReload?
      modifies this
      ensures Ok() && EventsOf(s.log, t) == EventsOf(old(s).log, t) + [Loaded(t)]
      ensures t in s.ops && s.ops[t].RecvPop? && s.ops[t].receiver == old(s).ops[t].receiver
      ensures s.ops[t].mode == Second(old(s).ops[t].slot, old(s).ops[t].waker)
      ensures Did(old(run), run, t, [DoReload(t)])
    {
      Yield(t);
      ghost var ran := run;
      EventsAfter(s.log, Loaded(t), t);
      Act(DoReload(t));
      DidAfter(old(run), ran, run, t, [DoReload(t)]);
    }

    /** `RingReceiver::clone`.  The registration of the new receiver's slot waits for the write lock. */
    method CloneReceiver(t: Tid, h: Hid, n: Hid)
      requires Ok() && Enabled(s, Action.CloneReceiver(t, h, n))
      modifies this
      ensures Ok() && t !in s.ops
      ensures EventsOf(s.log, t) == EventsOf(old(s).log, t)
      ensures LiveReceiver(s, n) && s.rcv[n].parked == None && EmptyAt(s, s.rcv[n].slot)
      ensures Called(old(run), run, t, [Action.CloneReceiver(t, h, n), DoRegister(t, s.rcv[n].slot)])
    {
      CountUp(t, h, n);
      ghost var ran := run;
      RegisterSlot(t);
      CalledOn(old(run), ran, run, t, [Action.CloneReceiver(t, h, n)], [DoRegister(t, s.rcv[n].slot)]);
    }

    /** The increment of `receivers`. */
    method CountUp(t: Tid, h: Hid, n: Hid)
      requires Ok() && Enabled(s, Action.CloneReceiver(t, h, n))
      modifies this
      ensures Ok() && t in s.ops && s.ops[t] == CloneRegister(h, n)
      ensures EventsOf(s.log, t) == EventsOf(old(s).log, t)
      ensures Called(old(run), run, t, [Action.CloneReceiver(t, h, n)])
    {
      EventsAfter(s.log, ReceiverAdded, t);
      Act(Action.CloneReceiver(t, h, n));
    }

    /** The registration of a new receiver's slot, once the write lock is granted. */
    method RegisterSlot(t: Tid)
      requires Ok() && t in s.ops && s.ops[t].CloneRegister?
      modifies this
      ensures Ok() && t !in s.ops && EventsOf(s.log, t) == EventsOf(old(s).log, t)
      ensures var n := old(s).ops[t].new';
        && LiveReceiver(s, n) && s.rcv[n].parked == None && EmptyAt(s, s.rcv[n].slot)
        && Did(old(run), run, t, [DoRegister(t, s.rcv[n].slot)])
    {
      Safety.ReadersScan(s);
      AwaitWriteLock(t, s.ops[t].receiver);
      ghost var ran := run;
      var k := SlotMap.FreshKey(s.slots.Keys);
      Act(DoRegister(t, k));
      DidAfter(old(run), ran, run, t, [DoRegister(t, k)]);
    }

    /** `RingReceiver::drop`.  The removal of its slot waits for the write lock, which is granted in state `granted`.
        If the slot is empty then, the receiver may have been woken for a message: it wakes another one, or every
        receiver that was parked at that moment has been woken or has withdrawn by itself. */
    method DropReceiver(t: Tid, h: Hid)
      returns (ghost granted: State, ghost woken: Option<Waker>,
               ghost own: seq<Action>, ghost pop: seq<Action>, ghost end: seq<Action>)
      requires Ok() && t !in s.ops && Owns(s, h)
      modifies this
      ensures Ok() && t !in s.ops && h !in s.rcv
      ensures EventsOf(s.log, t) == EventsOf(old(s).log, t)
      ensures s.receivers == 0 ==> LeftForGood(s, false)
      ensures Others(old(s), granted, t) && Enabled(granted, Action.DropReceiver(t, h))
      ensures granted.rcv[h] == old(s).rcv[h]
      ensures EmptyAt(granted, old(s).rcv[h].slot) ==>
        && PassesOn(granted, t, h, woken, s)
        && if woken.Some? then IsWoken(s, woken.value) else AllLeft(granted, s)
      ensures Did(old(run), run, t, own)
      ensures own == [Action.DropReceiver(t, h)] + (pop + ([DoReceiverDec(t)] + end))
      ensures if EmptyAt(granted, old(s).rcv[h].slot) then IsPopAndWake(pop, t, woken.Some?) else pop == []
      ensures end == [] || (IsClosing(end, t) && s.receivers == 0)
    {
      Safety.ReadersScan(s);
      AwaitWriteLock(t, h);
      granted := s;
      ghost var ran := run;
      woken, own, pop, end := DropGranted(t, h);
      CalledIsDid(ran, run, t, own);
      DidAfter(old(run), ran, run, t, own);
    }

    /** The drop of a receiver from the moment the write lock is granted. */
    method DropGranted(t: Tid, h: Hid)
      returns (ghost woken: Option<Waker>, ghost own: seq<Action>, ghost pop: seq<Action>, ghost end: seq<Action>)
      requires Ok() && Enabled(s, Action.DropReceiver(t, h))
      modifies this
      ensures Ok() && t !in s.ops && h !in s.rcv
      ensures EventsOf(s.log, t) == EventsOf(old(s).log, t)
      ensures s.receivers == 0 ==> LeftForGood(s, false)
      ensures EmptyAt(old(s), old(s).rcv[h].slot) ==>
        && PassesOn(old(s), t, h, woken, s)
        && if woken.Some? then IsWoken(s, woken.value) else AllLeft(old(s), s)
      ensures Called(old(run), run, t, own)
      ensures own == [Action.DropReceiver(t, h)] + (pop + ([DoReceiverDec(t)] + end))
      ensures if EmptyAt(old(s), old(s).rcv[h].slot) then IsPopAndWake(pop, t, woken.Some?) else pop == []
      ensures end == [] || (IsClosing(end, t) && s.receivers == 0)
    {
      GiveUpSlot(t, h);
      ghost var dropped, passed, ran := s, s, run;
      woken, passed, pop, end := AfterSlot(t, h);
      own := [Action.DropReceiver(t, h)] + (pop + ([DoReceiverDec(t)] + end));
      CalledOn(old(run), ran, run, t, [Action.DropReceiver(t, h)], pop + ([DoReceiverDec(t)] + end));
      if dropped.ops[t].ScanLock? { PassedOn(old(s), t, h, dropped, woken, passed, s); }
    }

    /** The drop of a receiver after the removal of its slot; `passed` is the state before the decrement. */
    method AfterSlot(t: Tid, h: Hid)
      returns (ghost woken: Option<Waker>, ghost passed: State, ghost pop: seq<Action>, ghost end: seq<Action>)
      requires Ok() && t in s.ops && (s.ops[t] == ScanLock(ForReceiverDrop(h)) || s.ops[t] == ReceiverDec(h))
      modifies this
      ensures Ok() && t !in s.ops && h !in s.rcv
      ensures EventsOf(s.log, t) == EventsOf(old(s).log, t)
      ensures s.receivers == 0 ==> LeftForGood(s, false)
      ensures Did(old(run), run, t, pop + ([DoReceiverDec(t)] + end))
      ensures end == [] || (IsClosing(end, t) && s.receivers == 0)
      ensures Reachable(passed) && Leads(passed, s)
      ensures old(s).ops[t].ReceiverDec? ==> pop == []
      ensures old(s).ops[t].ScanLock? ==>
        && WakesOne(old(s), t, woken, passed) && IsPopAndWake(pop, t, woken.Some?)
        && if woken.Some? then IsWoken(passed, woken.value) else AllLeft(old(s), passed)
    {
      woken, pop := None, [];
      DidNone(run, t);
      if s.ops[t].ScanLock? {
        woken, pop := WakeOne(t);
      }
      passed := s;
      ghost var ran := run;
      end := CountDown(t);
      DidOn(old(run), ran, run, t, pop, [DoReceiverDec(t)] + end);
    }

    /** The removal of a receiver's slot. */
    method GiveUpSlot(t: Tid, h: Hid)
      requires Ok() && Enabled(s, Action.DropReceiver(t, h))
      modifies this
      ensures Ok() && Step(old(s), Action.DropReceiver(t, h), s) && s.log == old(s).log
      ensures t in s.ops
      ensures s.ops[t] == if EmptyAt(old(s), old(s).rcv[h].slot) then ScanLock(ForReceiverDrop(h)) else ReceiverDec(h)
      ensures s.slots == old(s).slots - {old(s).rcv[h].slot}
      ensures Called(old(run), run, t, [Action.DropReceiver(t, h)])
    {
      ghost var before := s;
      Act(Action.DropReceiver(t, h));
      ActStep(before, Action.DropReceiver(t, h), s);
    }

    /** The decrement of `receivers`, after which the last receiver closes its side. */
    method CountDown(t: Tid) returns (ghost end: seq<Action>)
      requires Ok() && t in s.ops && s.ops[t].ReceiverDec?
      modifies this
      ensures Ok() && t !in s.ops && old(s).ops[t].receiver !in s.rcv
      ensures EventsOf(s.log, t) == EventsOf(old(s).log, t)
      ensures s.receivers == 0 ==> LeftForGood(s, false)
      ensures Leads(old(s), s)
      ensures Did(old(run), run, t, [DoReceiverDec(t)] + end)
      ensures end == [] || (IsClosing(end, t) && s.receivers == 0)
    {
      Yield(t);
      ghost var before, ran := s, run;
      Decrement(t);
      LeadsByOthers(old(s), before, t);
      LeadsByStep(before, DoReceiverDec(t), s);
      LeadsOn(old(s), before, s);
      DidAfter(old(run), ran, run, t, [DoReceiverDec(t)]);
      end := [];
      if t in s.ops {
        ran := run;
        end := CloseReceivers(t, old(s));
        DidOn(old(run), ran, run, t, [DoReceiverDec(t)], end);
      }
    }

    method CloseReceivers(t: Tid, ghost start: State) returns (ghost end: seq<Action>)
      requires Ok() && t in s.ops && s.ops[t] == SwapConnected(false) && Leads(start, s)
      modifies this
      ensures Ok() && t !in s.ops && EventsOf(s.log, t) == EventsOf(old(s).log, t)
      ensures LeftForGood(s, false) && s.rcv == map[] && Leads(start, s)
      ensures Did(old(run), run, t, end) && IsClosing(end, t) && s.receivers == 0
    {
      Yield(t);
      ghost var before, ran := s, run;
      LeadsByOthers(old(s), before, t);
      LeadsOn(start, old(s), before);
      end := SwapAndFree(t);
      DidAfter(old(run), ran, run, t, end);
      LeadsOn(start, before, s);
      ClosedSide(s);
    }

    method Decrement(t: Tid)
      requires Ok() && t in s.ops && s.ops[t].ReceiverDec?
      modifies this
      ensures Ok() && EventsOf(s.log, t) == EventsOf(old(s).log, t) && Step(old(s), DoReceiverDec(t), s)
      ensures s.receivers == old(s).receivers - 1 && s.rcv == old(s).rcv - {old(s).ops[t].receiver}
      ensures if s.receivers == 0 then t in s.ops && s.ops[t] == SwapConnected(false) else t !in s.ops
      ensures Did(old(run), run, t, [DoReceiverDec(t)])
    {
      EventsAfter(s.log, ReceiverGone, t);
      var before := s;
      Act(DoReceiverDec(t));
      NextDoes(before, DoReceiverDec(t), s);
      DecrementGoes(before, t, s);
    }
  }
}
