/** The sender as a sink: after a send that overwrote a message it asks its driver to pause once. */
module Sink {
  import opened Base
  import opened Protocol
  import opened History
  import opened Calls
  import C = Channel
  import I = Interference

  datatype Readiness = Pending | Ready

  function Count(polls: seq<Readiness>): nat {
    if polls == [] then 0 else Count(polls[..|polls| - 1]) + (if polls[|polls| - 1] == Pending then 1 else 0)
  }

  lemma OneMorePoll(polls: seq<Readiness>, r: Readiness)
    ensures Count(polls + [r]) == Count(polls) + (if r == Pending then 1 else 0)
  {
    assert (polls + [r])[..|polls|] == polls;
  }

  /** No pause is followed by another one, and the last poll is not a pause. */
  ghost predicate PausesAreSingle(polls: seq<Readiness>) {
    forall i :: 0 <= i < |polls| && polls[i] == Pending ==> i + 1 < |polls| && polls[i + 1] == Ready
  }

  /** What one wait for readiness adds to the polls made so far. */
  lemma MorePolls(polls: seq<Readiness>, due: bool)
    requires PausesAreSingle(polls)
    ensures var polls' := polls + if due then [Pending, Ready] else [Ready];
      && PausesAreSingle(polls')
      && Count(polls') == Count(polls) + (if due then 1 else 0)
      && |polls'| - Count(polls') == |polls| - Count(polls) + 1
  {
    if due {
      OneMorePoll(polls, Pending);
      OneMorePoll(polls + [Pending], Ready);
      assert polls + [Pending, Ready] == polls + [Pending] + [Ready];
    } else {
      OneMorePoll(polls, Ready);
    }
  }

  /** How many items a driver tries that sends the first `sent` of them: all, or one more, which is refused. */
  function Tried(items: seq<Msg>, sent: nat): nat
    requires sent <= |items|
    ensures Tried(items, sent) <= |items|
  {
    if sent < |items| then sent + 1 else sent
  }

  lemma MoreSends(t: Tid, h: Hid, items: seq<Msg>, n: nat)
    requires n < |items|
    ensures items[..n + 1] == items[..n] + [items[n]]
    ensures Sends(t, h, items[..n + 1]) == Sends(t, h, items[..n]) + [Action.StartSend(t, h, items[n])]
  {
    assert items[..n + 1] == items[..n] + [items[n]];
  }

  lemma NothingBegan(acts: seq<Action>, t: Tid)
    ensures Began(acts, acts, t, [])
  {
    DidNone(acts, t);
    DidBegan(acts, acts, t, []);
  }

  /** The sends of `items` through the handle `h`. */
  function Sends(t: Tid, h: Hid, items: seq<Msg>): seq<Action> {
    seq(|items|, i requires 0 <= i < |items| => Action.StartSend(t, h, items[i]))
  }

  /** The operations of a `send` of `m` by `t` that returned `r`. */
  function EventsOfSend(t: Tid, m: Msg, r: C.SendResult, since: nat): Log {
    match r
    case Accepted(y) => [Loaded(t), Pushed(t, m, y, since)]
    case Rejected(_) => [Refused(t, m)]
  }

  /** What a `send` adds to the messages sent and to those overwritten. */
  lemma AfterSend(log: Log, t: Tid, m: Msg, r: C.SendResult, since: nat)
    ensures var log' := log + EventsOfSend(t, m, r, since);
      && log' != []
      && Sent(log') == Sent(log) + (if r.Accepted? then [m] else [])
      && Overwritten(log') ==
        Overwritten(log) + (if r.Accepted? && r.overwritten.Some? then [r.overwritten.value] else [])
  {
    match r {
      case Accepted(y) =>
        var log1 := log + [Loaded(t)];
        var log2 := log1 + [Pushed(t, m, y, since)];
        assert log + EventsOfSend(t, m, r, since) == log2;
        assert Drop1(log1) == log && Drop1(log2) == log1;
      case Rejected(_) =>
        assert Drop1(log + [Refused(t, m)]) == log;
    }
  }

  lemma SendBegins(before: seq<Action>, after: seq<Action>, t: Tid, h: Hid, m: Msg,
                   own: seq<Action>, pop: seq<Action>, r: C.SendResult, woken: Option<Waker>)
    requires Called(before, after, t, own)
    requires own == if r.Rejected? then [StartSend(t, h, m)] else [StartSend(t, h, m)] + ([DoPush(t)] + pop)
    requires if r == C.Accepted(None) then IsPopAndWake(pop, t, woken.Some?) else pop == []
    ensures Began(before, after, t, [StartSend(t, h, m)])
  {
    if r == C.Accepted(None) { PopBeginsNothing(pop, t, woken.Some?); }
    var rest := if r.Rejected? then [] else [DoPush(t)] + pop;
    assert own == [StartSend(t, h, m)] + rest;
    OnlyFirstBegins(StartSend(t, h, m), rest);
    CalledIsDid(before, after, t, own);
    DidBegan(before, after, t, own);
  }

  /** The sender `h` of `channel`, in the hands of thread `t`. */
  class RingSender {
    const channel: C.Channel
    const t: Tid
    const h: Hid
    var backoff: bool
    var wakes: nat       // how often the sender has woken its own task

    /** The thread is in no operation, and has the sender to itself. */
    ghost predicate Valid()
      reads this, channel
    {
      channel.Ok() && t !in channel.s.ops && h in channel.s.snd
    }

    /** The operations of the channel's history that the thread made. */
    ghost function Events(): Log
      reads this, channel
    {
      I.EventsOf(channel.s.log, t)
    }

    constructor (channel: C.Channel, t: Tid, h: Hid)
      requires channel.Ok() && t !in channel.s.ops && h in channel.s.snd
      ensures Valid() && this.channel == channel && this.t == t && this.h == h
      ensures !backoff && wakes == 0
    {
      this.channel, this.t, this.h := channel, t, h;
      backoff := false;
      wakes := 0;
    }

    /** `start_send`; an error leaves `backoff` as it is. */
    method StartSend(item: Msg) returns (r: C.SendResult)
      requires Valid()
      modifies this, channel
      ensures Valid()
      ensures r.Rejected? <==> old(channel.s).receivers == 0
      ensures r.Rejected? ==> r.msg == item
      ensures Events() == old(Events()) + EventsOfSend(t, item, r, |old(channel.s).log|)
      ensures Began(old(channel.run), channel.run, t, [Action.StartSend(t, h, item)])
      ensures backoff == if r.Accepted? then r.overwritten.Some? else old(backoff)
      ensures wakes == old(wakes)
    {
      ghost var pushed, woken, own, pop;
      r, pushed, woken, own, pop := channel.Send(t, h, item);
      SendBegins(old(channel.run), channel.run, t, h, item, own, pop, r, woken);
      if r.Accepted? {
        backoff := r.overwritten.Some?;
      }
    }

    /** `poll_flush`, and `poll_ready`, which is the same: pauses once if the last send overwrote a message. */
    method PollFlush() returns (r: Readiness)
      modifies this
      ensures r == Pending <==> old(backoff)
      ensures !backoff
      ensures wakes == old(wakes) + (if r == Pending then 1 else 0)
    {
      r := if backoff then Pending else Ready;
      if backoff {
        wakes := wakes + 1;
      }
      backoff := false;
    }

    /** Polls after the other threads have run. */
    method PollOnce() returns (r: Readiness)
      requires Valid()
      modifies this, channel
      ensures Valid() && Events() == old(Events()) && Began(old(channel.run), channel.run, t, [])
      ensures (r == Pending <==> old(backoff)) && !backoff
      ensures wakes == old(wakes) + (if r == Pending then 1 else 0)
    {
      channel.Idle(t, h);
      DidBegan(old(channel.run), channel.run, t, []);
      r := PollFlush();
    }

    /** Polls until the sink is ready, while the other threads run. */
    method AwaitReady() returns (polls: seq<Readiness>)
      requires Valid()
      modifies this, channel
      ensures Valid() && Events() == old(Events()) && Began(old(channel.run), channel.run, t, [])
      ensures !backoff
      ensures polls == if old(backoff) then [Pending, Ready] else [Ready]
      ensures wakes == old(wakes) + (if old(backoff) then 1 else 0)
    {
      polls := [];
      var r := Pending;
      NothingBegan(channel.run, t);
      while r == Pending
        invariant Valid() && Events() == old(Events()) && Began(old(channel.run), channel.run, t, [])
        invariant r == Pending ==> polls == if old(backoff) && !backoff then [Pending] else []
        invariant r == Ready ==> !backoff && polls == if old(backoff) then [Pending, Ready] else [Ready]
        invariant backoff ==> old(backoff)
        invariant wakes == old(wakes) + (if old(backoff) && !backoff then 1 else 0)
        decreases r == Pending, backoff
      {
        ghost var ran := channel.run;
        r := PollOnce();
        BeganOn(old(channel.run), ran, channel.run, t, [], []);
        polls := polls + [r];
      }
    }

    /** A send by a driver that is ready, and what it adds to the thread's history. */
    method SendOne(item: Msg) returns (ok: bool)
      requires Valid() && !backoff
      modifies this, channel
      ensures Valid() && wakes == old(wakes)
      ensures Sent(Events()) == Sent(old(Events())) + (if ok then [item] else [])
      ensures |Overwritten(Events())| == |Overwritten(old(Events()))| + (if backoff then 1 else 0)
      ensures !ok ==> !backoff && Events() != [] && Last(Events()) == Refused(t, item)
      ensures Began(old(channel.run), channel.run, t, [Action.StartSend(t, h, item)])
    {
      ghost var since := |channel.s.log|;
      var r := StartSend(item);
      AfterSend(old(Events()), t, item, r, since);
      ok := r.Accepted?;
    }

    /** Waits for readiness and sends. */
    method SendWhenReady(item: Msg) returns (polls: seq<Readiness>, ok: bool)
      requires Valid()
      modifies this, channel
      ensures Valid()
      ensures polls == if old(backoff) then [Pending, Ready] else [Ready]
      ensures wakes == old(wakes) + (if old(backoff) then 1 else 0)
      ensures Sent(Events()) == Sent(old(Events())) + (if ok then [item] else [])
      ensures |Overwritten(Events())| == |Overwritten(old(Events()))| + (if backoff then 1 else 0)
      ensures !ok ==> !backoff && Events() != [] && Last(Events()) == Refused(t, item)
      ensures Began(old(channel.run), channel.run, t, [Action.StartSend(t, h, item)])
    {
      polls := AwaitReady();
      ghost var ran := channel.run;
      ok := SendOne(item);
      BeganOn(old(channel.run), ran, channel.run, t, [], [Action.StartSend(t, h, item)]);
      assert [] + [Action.StartSend(t, h, item)] == [Action.StartSend(t, h, item)];
    }

    /** A driver that waits for readiness before each send and flushes at the end.  Whatever the other threads do, it
        sees exactly one pause for each of its sends that overwrote a message (and one that was due before), never two
        in a row, and each pause comes with a wake of its own task; and it is told to be ready once for each item that
        it tries and once for the flush.  It sends the first `sent` items, in order, stops early only when a send is
        refused, and does nothing else on the channel. */
    method Drive(items: seq<Msg>) returns (polls: seq<Readiness>, sent: nat)
      requires Valid()
      modifies this, channel
      ensures Valid() && !backoff
      ensures sent <= |items| && Sent(Events()) == Sent(old(Events())) + items[..sent]
      ensures sent < |items| ==> Events() != [] && Last(Events()) == Refused(t, items[sent])
      ensures Count(polls) == |Overwritten(Events())| - |Overwritten(old(Events()))| + (if old(backoff) then 1 else 0)
      ensures |polls| == Count(polls) + Tried(items, sent) + 1
      ensures wakes == old(wakes) + Count(polls)
      ensures PausesAreSingle(polls)
      ensures Began(old(channel.run), channel.run, t, Sends(t, h, items[..Tried(items, sent)]))
    {
      polls, sent := SendAll(items);
      polls := Flush(items, sent, polls, old(Events()), old(backoff), old(wakes), old(channel.run));
    }

    /** The driver's loop. */
    method SendAll(items: seq<Msg>) returns (polls: seq<Readiness>, sent: nat)
      requires Valid()
      modifies this, channel
      ensures sent <= |items|
      ensures Driven(items, sent, Tried(items, sent), polls, old(Events()), old(backoff), old(wakes), old(channel.run))
      ensures sent < |items| ==> !backoff && Events() != [] && Last(Events()) == Refused(t, items[sent])
    {
      polls, sent := [], 0;
      NothingBegan(channel.run, t);
      while sent < |items|
        invariant Driven(items, sent, sent, polls, old(Events()), old(backoff), old(wakes), old(channel.run))
      {
        var ok;
        polls, ok := TryNext(items, sent, polls, old(Events()), old(backoff), old(wakes), old(channel.run));
        if !ok { return; }
        sent := sent + 1;
      }
    }

    /** What a driver has done that has sent `sent` items and tried `tried`; `events`, `due`, `woke` and `start` are the
        history, `backoff`, `wakes` and the accesses at its start. */
    ghost predicate Driven(items: seq<Msg>, sent: nat, tried: nat, polls: seq<Readiness>,
                           events: Log, due: bool, woke: nat, start: seq<Action>)
      reads this, channel
    {
      && Valid() && sent <= tried <= |items| && PausesAreSingle(polls)
      && Sent(Events()) == Sent(events) + items[..sent]
      && Count(polls) + (if backoff then 1 else 0)
         == |Overwritten(Events())| - |Overwritten(events)| + (if due then 1 else 0)
      && |polls| == Count(polls) + tried && wakes == woke + Count(polls)
      && Began(start, channel.run, t, Sends(t, h, items[..tried]))
    }

    /** One round of a driver. */
    method TryNext(items: seq<Msg>, n: nat, polls: seq<Readiness>,
                   ghost events: Log, ghost due: bool, ghost woke: nat, ghost start: seq<Action>)
      returns (polls': seq<Readiness>, ok: bool)
      requires n < |items| && Driven(items, n, n, polls, events, due, woke, start)
      modifies this, channel
      ensures Driven(items, if ok then n + 1 else n, n + 1, polls', events, due, woke, start)
      ensures !ok ==> !backoff && Events() != [] && Last(Events()) == Refused(t, items[n])
    {
      var more;
      more, ok := SendWhenReady(items[n]);
      BeganOn(start, old(channel.run), channel.run, t, Sends(t, h, items[..n]), [Action.StartSend(t, h, items[n])]);
      MoreSends(t, h, items, n);
      MorePolls(polls, old(backoff));
      polls' := polls + more;
    }

    /** The wait for readiness with which a driver ends. */
    method Flush(items: seq<Msg>, ghost sent: nat, polls: seq<Readiness>,
                 ghost events: Log, ghost due: bool, ghost woke: nat, ghost start: seq<Action>)
      returns (polls': seq<Readiness>)
      requires sent <= |items| && Driven(items, sent, Tried(items, sent), polls, events, due, woke, start)
      modifies this, channel
      ensures Valid() && !backoff && PausesAreSingle(polls') && Events() == old(Events())
      ensures Count(polls') == |Overwritten(Events())| - |Overwritten(events)| + (if due then 1 else 0)
      ensures |polls'| == Count(polls') + Tried(items, sent) + 1 && wakes == woke + Count(polls')
      ensures Began(start, channel.run, t, Sends(t, h, items[..Tried(items, sent)]))
    {
      var more := AwaitReady();
      ghost var ops := Sends(t, h, items[..Tried(items, sent)]);
      BeganOn(start, old(channel.run), channel.run, t, ops, []);
      assert ops + [] == ops;
      MorePolls(polls, old(backoff));
      polls' := polls + more;
    }
  }
}
