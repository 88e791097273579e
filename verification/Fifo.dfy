/** The bounded overwriting queue that both representations of the ring buffer implement. */
module Fifo {
  import opened Base

  /** Appends `x`; a full queue gives up its oldest element first. */
  function Push<T>(cap: nat, q: seq<T>, x: T): (r: (seq<T>, Option<T>))
    requires 0 < cap
    ensures |q| <= cap ==> |r.0| <= cap
    ensures (match r.1 case None => [] case Some(y) => [y]) + r.0 == q + [x]
  {
    if |q| < cap then (q + [x], None) else (q[1..] + [x], Some(q[0]))
  }

  /** Removes the oldest element, if there is one. */
  function Pop<T>(q: seq<T>): (r: (seq<T>, Option<T>))
    ensures (match r.1 case None => [] case Some(y) => [y]) + r.0 == q
    ensures r.1.None? <==> q == []
  {
    if q == [] then (q, None) else (q[1..], Some(q[0]))
  }

  /** Pushes the elements of `xs` in order; returns the final queue and what each push handed back. */
  function PushAll<T>(cap: nat, q: seq<T>, xs: seq<T>): (r: (seq<T>, seq<Option<T>>))
    requires 0 < cap
    decreases xs
  {
    if xs == [] then (q, [])
    else
      var (q1, y) := Push(cap, q, xs[0]);
      var (q2, ys) := PushAll(cap, q1, xs[1..]);
      (q2, [y] + ys)
  }

  /** How many of `n` elements do not fit. */
  function Excess(cap: nat, n: nat): nat {
    if n <= cap then 0 else n - cap
  }

  /** Pushing `xs` keeps the newest `cap` elements of `q + xs` and hands the others back, in order. */
  lemma {:induction false} PushAllSplits<T>(cap: nat, q: seq<T>, xs: seq<T>)
    requires 0 < cap && |q| <= cap
    ensures var (q', ys) := PushAll(cap, q, xs);
      var lost := Excess(cap, |q| + |xs|);
      && q' == (q + xs)[lost..]
      && ys == seq(|xs| - lost, i => None) + seq(lost, i requires 0 <= i < lost => Some((q + xs)[i]))
    decreases xs
  {
    if xs == [] {
    } else {
      var (q1, y) := Push(cap, q, xs[0]);
      PushAllSplits(cap, q1, xs[1..]);
      var lost := Excess(cap, |q| + |xs|);
      if y.None? {
        assert q1 + xs[1..] == q + xs;
      } else {
        assert q + xs == [q[0]] + (q1 + xs[1..]);
      }
    }
  }

  /** From empty: m pushes hand back the first max(0, m - cap) elements, in order, and leave the last min(m, cap). */
  lemma PushAllFromEmpty<T>(cap: nat, xs: seq<T>)
    requires 0 < cap
    ensures var (q, ys) := PushAll(cap, [], xs);
      var lost := Excess(cap, |xs|);
      && q == xs[lost..]
      && ys == seq(|xs| - lost, i => None) + seq(lost, i requires 0 <= i < lost => Some(xs[i]))
  {
    PushAllSplits(cap, [], xs);
    assert [] + xs == xs;
  }
}
