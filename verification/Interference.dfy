/** What a thread can rely on while the others run. */
module Interference {
  import opened Base
  import opened History
  import opened Protocol
  import opened Invariant
  import opened Frames
  import opened Keep
  import opened Scanning
  import KeepHistory
  import Drain

  /** The operations in the history that thread `t` made. */
  ghost function EventsOf(log: Log, t: Tid): Log {
    if log == [] then []
    else EventsOf(Drop1(log), t) + (if By(Last(log), t) then [Last(log)] else [])
  }

  lemma EventsAfter(log: Log, e: Event, t: Tid)
    ensures EventsOf(log + [e], t) == EventsOf(log, t) + (if By(e, t) then [e] else [])
  {
    assert Drop1(log + [e]) == log;
  }

  /** What thread `t` finds when it runs again: it stands where it stood, the others added no operation in its
      name, and without senders the last sender's loop has not become longer. */
  ghost predicate Meanwhile(s: State, s': State, t: Tid) {
    && s'.cap == s.cap
    && (t in s.ops <==> t in s'.ops)
    && (t in s.ops ==> s'.ops[t] == s.ops[t])
    && |s.log| <= |s'.log|
    && EventsOf(s'.log, t) == EventsOf(s.log, t)
    && (s.senders == 0 ==> s'.senders == 0 && Drain.RoundsLeft(s') <= Drain.RoundsLeft(s))
  }

  lemma OneStepOfOthers(s: State, a: Action, s': State, t: Tid)
    requires Reachable(s) && Step(s, a, s') && a.t != t
    ensures Reachable(s') && Meanwhile(s, s', t)
  {
    ReachableInv(s);
    ReachableStep(s, a, s');
    KeepInv(s, a, s');
    ActorIsOk(s, a);
    OthersMove(s, a, s', t);
  }

  lemma OthersMove(s: State, a: Action, s': State, t: Tid)
    requires Ending(s) && ActorOk(s, a) && Does(s, a, s') && a.t != t
    ensures Meanwhile(s, s', t)
  {
    OnlyActorMoves(s, a, s');
    OthersLog(s, a, s', t);
    if s.senders == 0 {
      Drain.RoundsStep(s, a, s');
      KeepHistory.NoSenderStays(s, a, s');
    }
  }

  lemma OthersLog(s: State, a: Action, s': State, t: Tid)
    requires Does(s, a, s') && a.t != t
    ensures s'.cap == s.cap && |s.log| <= |s'.log| && EventsOf(s'.log, t) == EventsOf(s.log, t)
  {
    KeepHistory.StepsFollowTheirLabel(s, a, s');
    if KeepHistory.Label(s, a).Some? {
      KeepHistory.OnlyLoadsLoad(s, a, s');
      EventsAfter(s.log, KeepHistory.Label(s, a).value, t);
    }
  }

  lemma {:induction false} RunOfOthers(states: seq<State>, acts: seq<Action>, t: Tid, i: nat)
    requires OthersRun(states, acts, t) && i <= |acts| && Reachable(states[0])
    ensures Reachable(states[i]) && Meanwhile(states[0], states[i], t)
  {
    if 0 < i {
      var j := i - 1;
      RunOfOthers(states, acts, t, j);
      RunStep(states, acts, j);
      OneStepOfOthers(states[j], acts[j], states[i], t);
    }
  }

  /** Whatever the others do, thread `t` finds what `Meanwhile` says. */
  lemma OthersKeep(s: State, s': State, t: Tid)
    requires Reachable(s) && Others(s, s', t)
    ensures Reachable(s') && Meanwhile(s, s', t)
  {
    var states, acts :| OthersRun(states, acts, t) && states[0] == s && states[|acts|] == s';
    RunOfOthers(states, acts, t, |acts|);
  }

  /** A scan under way goes on while the others run. */
  lemma {:induction false} ScanDuringRun(from: State, states: seq<State>, acts: seq<Action>, t: Tid, i: nat)
    requires OthersRun(states, acts, t) && i <= |acts| && Reachable(states[0])
    requires ScanTo(from, t, states[0]) && t in states[0].ops && states[0].ops[t].Scan?
    ensures ScanTo(from, t, states[i])
  {
    if 0 < i {
      ScanDuringRun(from, states, acts, t, i - 1);
      RunStep(states, acts, i - 1);
      RunOfOthers(states, acts, t, i);
      ScanContinues(from, t, states[i - 1], acts[i - 1], states[i]);
    }
  }

  lemma OthersKeepScan(from: State, s: State, s': State, t: Tid)
    requires Reachable(s) && Others(s, s', t)
    requires ScanTo(from, t, s) && t in s.ops && s.ops[t].Scan?
    ensures ScanTo(from, t, s')
  {
    var states, acts :| OthersRun(states, acts, t) && states[0] == s && states[|acts|] == s';
    ScanDuringRun(from, states, acts, t, |acts|);
  }

  lemma OthersStep(s0: State, s: State, a: Action, s': State, t: Tid)
    requires Others(s0, s, t) && Step(s, a, s') && a.t != t
    ensures Others(s0, s', t)
  {
    var states, acts :| OthersRun(states, acts, t) && states[0] == s0 && states[|acts|] == s;
    assert Run([s, s'], [a]);
    JoinedRun(states, acts, [s, s'], [a]);
    var states', acts' := states[..|acts|] + [s, s'], acts + [a];
    assert OthersRun(states', acts', t) && states'[0] == s0 && states'[|acts'|] == s';
  }
}
