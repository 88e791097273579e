/** The accesses that a thread makes during a call, in order, within the run of all threads. */
module Calls {
  import opened Base
  import opened History
  import opened Protocol
  import opened Keep
  import opened Execution
  import opened Scanning

  // ---------- runs and the part of a thread in them ----------

  /** The actions of `acts` that thread `t` made. */
  ghost function Mine(acts: seq<Action>, t: Tid): seq<Action> {
    if acts == [] then []
    else Mine(Drop1(acts), t) + (if Last(acts).t == t then [Last(acts)] else [])
  }

  lemma MineOneMore(acts: seq<Action>, a: Action, t: Tid)
    ensures Mine(acts + [a], t) == Mine(acts, t) + (if a.t == t then [a] else [])
  {
    assert Drop1(acts + [a]) == acts;
  }

  lemma {:induction false} MineJoined(acts1: seq<Action>, acts2: seq<Action>, t: Tid)
    ensures Mine(acts1 + acts2, t) == Mine(acts1, t) + Mine(acts2, t)
  {
    if acts2 == [] {
      assert acts1 + acts2 == acts1;
    } else {
      MineJoined(acts1, Drop1(acts2), t);
      assert Drop1(acts1 + acts2) == acts1 + Drop1(acts2);
    }
  }

  lemma {:induction false} NothingMine(acts: seq<Action>, t: Tid)
    requires forall a :: a in acts ==> a.t != t
    ensures Mine(acts, t) == []
  {
    if acts != [] {
      NothingMine(Drop1(acts), t);
    }
  }

  /** The actions `acts` lead from `s` to `s'`. */
  ghost predicate Ran(s: State, acts: seq<Action>, s': State) {
    exists states :: Run(states, acts) && states[0] == s && states[|acts|] == s'
  }

  /** The actions `acts` lead from a fresh channel of capacity `cap` to `s`. */
  ghost predicate Explains(cap: nat, acts: seq<Action>, s: State) {
    0 < cap && Ran(Init(cap), acts, s)
  }

  lemma ExplainsInit(cap: nat)
    requires 0 < cap
    ensures Explains(cap, [], Init(cap))
  {
    assert Run([Init(cap)], []);
    assert Ran(Init(cap), [], Init(cap));
  }

  lemma RanOn(s0: State, acts1: seq<Action>, s1: State, acts2: seq<Action>, s2: State)
    requires Ran(s0, acts1, s1) && Ran(s1, acts2, s2)
    ensures Ran(s0, acts1 + acts2, s2)
  {
    var states1 :| Run(states1, acts1) && states1[0] == s0 && states1[|acts1|] == s1;
    var states2 :| Run(states2, acts2) && states2[0] == s1 && states2[|acts2|] == s2;
    JoinedRun(states1, acts1, states2, acts2);
    var states, acts := states1[..|acts1|] + states2, acts1 + acts2;
    assert states[0] == s0 && states[|acts|] == s2;
  }

  lemma RanStep(s: State, a: Action, s': State)
    requires Step(s, a, s')
    ensures Ran(s, [a], s')
  {
    assert Run([s, s'], [a]);
  }

  lemma ExplainsOn(cap: nat, acts1: seq<Action>, s1: State, acts2: seq<Action>, s2: State)
    requires Explains(cap, acts1, s1) && Ran(s1, acts2, s2)
    ensures Explains(cap, acts1 + acts2, s2)
  {
    RanOn(Init(cap), acts1, s1, acts2, s2);
  }

  lemma ExplainsStep(cap: nat, acts: seq<Action>, s: State, a: Action, s': State)
    requires Explains(cap, acts, s) && Step(s, a, s')
    ensures Explains(cap, acts + [a], s')
  {
    RanStep(s, a, s');
    ExplainsOn(cap, acts, s, [a], s');
  }

  /** The others ran from `s` to `s'`, and their actions were added to `acts`. */
  ghost predicate OthersRan(s: State, acts: seq<Action>, s': State, acts': seq<Action>, t: Tid) {
    exists more :: acts' == acts + more && (forall a :: a in more ==> a.t != t) && Ran(s, more, s')
  }

  lemma OthersRanOn(cap: nat, s: State, acts: seq<Action>, s': State, acts': seq<Action>, t: Tid)
    requires Explains(cap, acts, s) && OthersRan(s, acts, s', acts', t)
    ensures Others(s, s', t) && Explains(cap, acts', s') && Did(acts, acts', t, [])
  {
    var more :| acts' == acts + more && (forall a :: a in more ==> a.t != t) && Ran(s, more, s');
    ExplainsOn(cap, acts, s, more, s');
    NothingMine(more, t);
    assert DidIn(more, t, []);
    OthersBefore(s, more, s', t);
  }

  lemma NobodyRan(s: State, acts: seq<Action>, t: Tid)
    ensures OthersRan(s, acts, s, acts, t)
  {
    assert acts + [] == acts;
    assert Run([s], []);
    assert Ran(s, [], s);
  }

  // ---------- a run is determined by its actions ----------

  /** A step from a reachable state leads to one state only. */
  lemma OneWay(s: State, a: Action, s1: State, s2: State)
    requires Reachable(s) && Step(s, a, s1) && Step(s, a, s2)
    ensures s1 == s2
  {
    ReachableDoes(s, a, s1);
    ReachableDoes(s, a, s2);
    EffectIsUnique(s, a, s1, s2);
  }

  lemma {:induction false} SameActionsSameStates(
    states1: seq<State>, states2: seq<State>, acts1: seq<Action>, acts2: seq<Action>, j: nat)
    requires Run(states1, acts1) && Run(states2, acts2) && j <= |acts1| && acts1 <= acts2
    requires states1[0] == states2[0] && Reachable(states1[0])
    ensures states1[j] == states2[j]
  {
    if 0 < j {
      var i := j - 1;
      SameActionsSameStates(states1, states2, acts1, acts2, i);
      RunStep(states1, acts1, i);
      RunStep(states2, acts2, i);
      RunGoesOn(states1, acts1, i);
      OneWay(states1[i], acts1[i], states1[j], states2[j]);
    }
  }

  /** The accesses made between two moments of one run lead from the state then to the state now. */
  lemma RanInBetween(cap: nat, before: seq<Action>, s: State, more: seq<Action>, s': State)
    requires Explains(cap, before, s) && Explains(cap, before + more, s')
    ensures Ran(s, more, s')
  {
    var states1 :| Run(states1, before) && states1[0] == Init(cap) && states1[|before|] == s;
    var acts := before + more;
    var states2 :| Run(states2, acts) && states2[0] == Init(cap) && states2[|acts|] == s';
    ReachableInit(cap);
    SameActionsSameStates(states1, states2, before, acts, |before|);
    RunPart(states2, acts, |before|, |acts|);
    assert acts[|before|..|acts|] == more;
  }

  /** What the accesses of a thread say about a run: the others run up to the first one, which is a step of the
      thread itself, and so on with what remains. */
  lemma FirstOfMine(s: State, acts: seq<Action>, s': State, t: Tid)
    returns (s1: State, s2: State, rest: seq<Action>)
    requires Ran(s, acts, s') && Mine(acts, t) != []
    ensures Others(s, s1, t) && Step(s1, Mine(acts, t)[0], s2) && Ran(s2, rest, s')
    ensures Mine(acts, t) == [Mine(acts, t)[0]] + Mine(rest, t)
  {
    var n := FirstIndex(acts, t);
    rest := acts[n + 1..];
    MineSplit(acts, t, n);
    s1, s2 := RanSplit(s, acts, s', n);
    OthersBefore(s, acts[..n], s1, t);
  }

  lemma MineSplit(acts: seq<Action>, t: Tid, n: nat)
    requires n < |acts| && acts[n].t == t && forall a :: a in acts[..n] ==> a.t != t
    ensures Mine(acts, t) == [acts[n]] + Mine(acts[n + 1..], t)
  {
    assert acts == (acts[..n] + [acts[n]]) + acts[n + 1..];
    MineJoined(acts[..n] + [acts[n]], acts[n + 1..], t);
    MineOneMore(acts[..n], acts[n], t);
    NothingMine(acts[..n], t);
  }

  lemma RanSplit(s: State, acts: seq<Action>, s': State, n: nat) returns (s1: State, s2: State)
    requires Ran(s, acts, s') && n < |acts|
    ensures Ran(s, acts[..n], s1) && Step(s1, acts[n], s2) && Ran(s2, acts[n + 1..], s')
  {
    var states :| Run(states, acts) && states[0] == s && states[|acts|] == s';
    s1, s2 := states[n], states[n + 1];
    RunStep(states, acts, n);
    RunPart(states, acts, 0, n);
    RunPart(states, acts, n + 1, |acts|);
    assert acts[0..n] == acts[..n] && acts[n + 1..|acts|] == acts[n + 1..];
  }

  lemma OthersBefore(s: State, acts: seq<Action>, s': State, t: Tid)
    requires Ran(s, acts, s') && forall a :: a in acts ==> a.t != t
    ensures Others(s, s', t)
  {
    var states :| Run(states, acts) && states[0] == s && states[|acts|] == s';
    assert OthersRun(states, acts, t);
  }

  lemma {:induction false} FirstIndex(acts: seq<Action>, t: Tid) returns (n: nat)
    requires Mine(acts, t) != []
    ensures n < |acts| && acts[n].t == t && forall a :: a in acts[..n] ==> a.t != t
  {
    var l := Drop1(acts);
    if Mine(l, t) != [] {
      n := FirstIndex(l, t);
      assert acts[..n] == l[..n];
    } else {
      n := |acts| - 1;
      OnlyOthers(l, t);
    }
  }

  lemma {:induction false} OnlyOthers(acts: seq<Action>, t: Tid)
    requires Mine(acts, t) == []
    ensures forall a :: a in acts ==> a.t != t
  {
    if acts != [] {
      OnlyOthers(Drop1(acts), t);
      assert acts == Drop1(acts) + [Last(acts)];
    }
  }

  lemma RunPart(states: seq<State>, acts: seq<Action>, i: nat, j: nat)
    requires Run(states, acts) && i <= j <= |acts|
    ensures Run(states[i..j + 1], acts[i..j]) && Ran(states[i], acts[i..j], states[j])
  {
    var states0, acts0 := states[i..j + 1], acts[i..j];
    forall n {:trigger acts0[n]} | 0 <= n < |acts0| ensures Step(states0[n], acts0[n], states0[n + 1]) {
      RunStep(states, acts, i + n);
    }
    assert Run(states0, acts0) && states0[0] == states[i] && states0[|acts0|] == states[j];
  }

  // ---------- what a thread did ----------

  /** The accesses of `t` from `before` to `after` are `own`, the last of them being the last access of all. */
  ghost predicate Did(before: seq<Action>, after: seq<Action>, t: Tid, own: seq<Action>) {
    exists more :: after == before + more && DidIn(more, t, own)
  }

  ghost predicate DidIn(more: seq<Action>, t: Tid, own: seq<Action>) {
    Mine(more, t) == own && (own != [] ==> more != [] && Last(more) == Last(own))
  }

  /** A whole call by `t`: its accesses are `own`, of which the first is the first of all and the last the last. */
  ghost predicate Called(before: seq<Action>, after: seq<Action>, t: Tid, own: seq<Action>) {
    exists more :: after == before + more && DidIn(more, t, own) && own != [] && more != [] && more[0] == own[0]
  }

  lemma DidNone(acts: seq<Action>, t: Tid)
    ensures Did(acts, acts, t, [])
  {
    assert acts + [] == acts && DidIn([], t, []);
  }

  lemma DidOne(acts: seq<Action>, a: Action)
    ensures Did(acts, acts + [a], a.t, [a]) && Called(acts, acts + [a], a.t, [a])
    ensures forall t :: t != a.t ==> Did(acts, acts + [a], t, [])
  {
    forall t ensures Mine([a], t) == if t == a.t then [a] else [] {
      MineOneMore([], a, t);
      assert [] + [a] == [a];
    }
    assert DidIn([a], a.t, [a]);
    forall t | t != a.t ensures Did(acts, acts + [a], t, []) {
      assert DidIn([a], t, []);
    }
  }

  lemma DidInOn(more1: seq<Action>, more2: seq<Action>, t: Tid, own1: seq<Action>, own2: seq<Action>)
    requires DidIn(more1, t, own1) && DidIn(more2, t, own2) && (own2 != [] || own1 == [])
    ensures DidIn(more1 + more2, t, own1 + own2)
  {
    MineJoined(more1, more2, t);
  }

  lemma DidOn(
    acts0: seq<Action>, acts1: seq<Action>, acts2: seq<Action>, t: Tid, own1: seq<Action>, own2: seq<Action>)
    requires Did(acts0, acts1, t, own1) && Did(acts1, acts2, t, own2) && (own2 != [] || own1 == [])
    ensures Did(acts0, acts2, t, own1 + own2)
  {
    var more1 :| acts1 == acts0 + more1 && DidIn(more1, t, own1);
    var more2 :| acts2 == acts1 + more2 && DidIn(more2, t, own2);
    DidInOn(more1, more2, t, own1, own2);
    assert acts2 == acts0 + (more1 + more2);
  }

  /** What `Called` means: between two moments of one run, the channel went from the state then to the state now by
      a run in which `t` made just the accesses `own`.  With `FirstOfMine`, that run is: the first access of `t`, the
      others, the next access of `t`, and so on. */
  lemma CallIsRun(cap: nat, before: seq<Action>, s: State, after: seq<Action>, s': State, t: Tid, own: seq<Action>)
    requires Explains(cap, before, s) && Explains(cap, after, s') && Called(before, after, t, own)
    ensures exists acts :: Ran(s, acts, s') && DidIn(acts, t, own) && acts != [] && acts[0] == own[0]
  {
    var more :| after == before + more && DidIn(more, t, own) && own != [] && more != [] && more[0] == own[0];
    RanInBetween(cap, before, s, more, s');
  }

  /** Nothing, then something. */
  lemma DidAfter(acts0: seq<Action>, acts1: seq<Action>, acts2: seq<Action>, t: Tid, own: seq<Action>)
    requires Did(acts0, acts1, t, []) && Did(acts1, acts2, t, own)
    ensures Did(acts0, acts2, t, own)
  {
    DidOn(acts0, acts1, acts2, t, [], own);
    assert [] + own == own;
  }

  /** Something, then others alone, then something again. */
  lemma DidNext(
    acts0: seq<Action>, acts1: seq<Action>, acts2: seq<Action>, acts3: seq<Action>, t: Tid,
    own1: seq<Action>, own2: seq<Action>)
    requires Did(acts0, acts1, t, own1) && Did(acts1, acts2, t, []) && Did(acts2, acts3, t, own2) && own2 != []
    ensures Did(acts0, acts3, t, own1 + own2)
  {
    DidAfter(acts1, acts2, acts3, t, own2);
    DidOn(acts0, acts1, acts3, t, own1, own2);
  }

  lemma CalledOn(
    acts0: seq<Action>, acts1: seq<Action>, acts2: seq<Action>, t: Tid, own1: seq<Action>, own2: seq<Action>)
    requires Called(acts0, acts1, t, own1) && Did(acts1, acts2, t, own2) && own2 != []
    ensures Called(acts0, acts2, t, own1 + own2)
  {
    var more1 :| acts1 == acts0 + more1 && DidIn(more1, t, own1) && own1 != [] && more1 != [] && more1[0] == own1[0];
    var more2 :| acts2 == acts1 + more2 && DidIn(more2, t, own2);
    DidInOn(more1, more2, t, own1, own2);
    assert acts2 == acts0 + (more1 + more2);
  }

  lemma CalledNext(
    acts0: seq<Action>, acts1: seq<Action>, acts2: seq<Action>, acts3: seq<Action>, t: Tid,
    own1: seq<Action>, own2: seq<Action>)
    requires Called(acts0, acts1, t, own1) && Did(acts1, acts2, t, []) && Did(acts2, acts3, t, own2) && own2 != []
    ensures Called(acts0, acts3, t, own1 + own2)
  {
    DidAfter(acts1, acts2, acts3, t, own2);
    CalledOn(acts0, acts1, acts3, t, own1, own2);
  }

  lemma CalledIsDid(acts0: seq<Action>, acts1: seq<Action>, t: Tid, own: seq<Action>)
    requires Called(acts0, acts1, t, own)
    ensures Did(acts0, acts1, t, own)
  {
  }

  // ---------- the accesses of the parts of a call ----------

  /** A scan: the read lock, and then slot after slot. */
  ghost predicate IsScan(own: seq<Action>, t: Tid) {
    own != [] && own[0] == AcquireRead(t) && forall i :: 0 < i < |own| ==> own[i].Visit? && own[i].t == t
  }

  /** `Waitlist::pop`: a scan, and the release of the lock. */
  ghost predicate IsPop(own: seq<Action>, t: Tid, found: bool) {
    own != [] && IsScan(Drop1(own), t) && Last(own) == if found then ReleaseRead(t) else ScanEmpty(t)
  }

  /** A `pop`, and the wake if it found a waker. */
  ghost predicate IsPopAndWake(own: seq<Action>, t: Tid, found: bool) {
    if found then own != [] && IsPop(Drop1(own), t, true) && Last(own) == DoWake(t) else IsPop(own, t, false)
  }

  lemma MoreOfScan(scan: seq<Action>, t: Tid, k: Slot)
    requires IsScan(scan, t)
    ensures IsScan(scan + [Visit(t, k)], t)
  {
  }

  lemma PopOfScan(scan: seq<Action>, t: Tid, found: bool)
    requires IsScan(scan, t)
    ensures IsPop(scan + [if found then ReleaseRead(t) else ScanEmpty(t)], t, found)
  {
    assert Drop1(scan + [if found then ReleaseRead(t) else ScanEmpty(t)]) == scan;
  }

  lemma WakeOfPop(pop: seq<Action>, t: Tid)
    requires IsPop(pop, t, true)
    ensures IsPopAndWake(pop + [DoWake(t)], t, true)
  {
    assert Drop1(pop + [DoWake(t)]) == pop;
  }

  /** Rounds of the last sender's loop, each of which found a waker. */
  ghost predicate AreRounds(own: seq<Action>, t: Tid) {
    own == [] || exists i :: 0 <= i < |own| && AreRounds(own[..i], t) && IsPopAndWake(own[i..], t, true)
  }

  /** The whole loop: rounds that found a waker, and one that did not. */
  ghost predicate IsDrain(own: seq<Action>, t: Tid) {
    exists i :: 0 <= i < |own| && AreRounds(own[..i], t) && IsPopAndWake(own[i..], t, false)
  }

  lemma OneMoreRound(rounds: seq<Action>, round: seq<Action>, t: Tid, found: bool)
    requires AreRounds(rounds, t) && IsPopAndWake(round, t, found)
    ensures if found then AreRounds(rounds + round, t) else IsDrain(rounds + round, t)
  {
    var own, i := rounds + round, |rounds|;
    assert own[..i] == rounds && own[i..] == round;
    assert 0 <= i < |own| && AreRounds(own[..i], t) && IsPopAndWake(own[i..], t, found);
  }

  lemma DrainNotEmpty(own: seq<Action>, t: Tid)
    requires IsDrain(own, t)
    ensures own != []
  {
  }

  /** The end of the drop of a last endpoint. */
  ghost predicate IsClosing(own: seq<Action>, t: Tid) {
    own == [DoSwap(t)] || own == [DoSwap(t), DoFree(t)]
  }

  // ---------- the operations that a thread begins ----------

  /** With these actions a thread begins an operation; the others continue one. */
  predicate Begins(a: Action) {
    || a.StartSend? || a.CloneSender? || a.DropSender?
    || a.StartTryRecv? || a.StartPoll? || a.CloneReceiver? || a.DropReceiver?
  }

  ghost function Begun(acts: seq<Action>): seq<Action> {
    if acts == [] then []
    else Begun(Drop1(acts)) + (if Begins(Last(acts)) then [Last(acts)] else [])
  }

  lemma {:induction false} BegunJoined(acts1: seq<Action>, acts2: seq<Action>)
    ensures Begun(acts1 + acts2) == Begun(acts1) + Begun(acts2)
  {
    if acts2 == [] {
      assert acts1 + acts2 == acts1;
    } else {
      BegunJoined(acts1, Drop1(acts2));
      assert Drop1(acts1 + acts2) == acts1 + Drop1(acts2);
    }
  }

  lemma {:induction false} NothingBegun(acts: seq<Action>)
    requires forall i :: 0 <= i < |acts| ==> !Begins(acts[i])
    ensures Begun(acts) == []
  {
    if acts != [] {
      NothingBegun(Drop1(acts));
    }
  }

  lemma OnlyFirstBegins(a: Action, rest: seq<Action>)
    requires Begins(a) && forall i :: 0 <= i < |rest| ==> !Begins(rest[i])
    ensures Begun([a] + rest) == [a]
  {
    BegunJoined([a], rest);
    NothingBegun(rest);
    assert Drop1([a]) == [];
  }

  lemma PopBeginsNothing(pop: seq<Action>, t: Tid, found: bool)
    requires IsPopAndWake(pop, t, found)
    ensures forall i :: 0 <= i < |pop| ==> !Begins(pop[i])
  {
    if found {
      var own := Drop1(pop);
      forall i | 0 <= i < |own| ensures !Begins(own[i]) {
        assert i < |Drop1(own)| ==> own[i] == Drop1(own)[i];
      }
    } else {
      forall i | 0 <= i < |pop| ensures !Begins(pop[i]) {
        assert i < |Drop1(pop)| ==> pop[i] == Drop1(pop)[i];
      }
    }
  }

  /** From `before` to `after` thread `t` began just the operations `ops`. */
  ghost predicate Began(before: seq<Action>, after: seq<Action>, t: Tid, ops: seq<Action>) {
    exists more :: after == before + more && Begun(Mine(more, t)) == ops
  }

  lemma BeganOn(
    acts0: seq<Action>, acts1: seq<Action>, acts2: seq<Action>, t: Tid, ops1: seq<Action>, ops2: seq<Action>)
    requires Began(acts0, acts1, t, ops1) && Began(acts1, acts2, t, ops2)
    ensures Began(acts0, acts2, t, ops1 + ops2)
  {
    var more1 :| acts1 == acts0 + more1 && Begun(Mine(more1, t)) == ops1;
    var more2 :| acts2 == acts1 + more2 && Begun(Mine(more2, t)) == ops2;
    MineJoined(more1, more2, t);
    BegunJoined(Mine(more1, t), Mine(more2, t));
    assert acts2 == acts0 + (more1 + more2);
  }

  lemma DidBegan(acts0: seq<Action>, acts1: seq<Action>, t: Tid, own: seq<Action>)
    requires Did(acts0, acts1, t, own)
    ensures Began(acts0, acts1, t, Begun(own))
  {
  }
}
