/**
 * Bounded sample buffers: Python's `deque(maxlen=N)` as used by every monitor
 * for its parallel time, flow, volume and status histories, and the time-axis
 * normalisation the plots apply to them.
 */
module Samples {

  /** A non-empty sequence is its prefix followed by its last element. */
  lemma SplitLast<T>(s: seq<T>)
    requires s != []
    ensures s == s[..|s| - 1] + [s[|s| - 1]]
  {
  }

  /** Appending a non-empty `s` is appending its prefix, then its last element. */
  lemma AppendSplitLast<T>(a: seq<T>, s: seq<T>)
    requires s != []
    ensures a + s == (a + s[..|s| - 1]) + [s[|s| - 1]]
  {
    assert s == s[..|s| - 1] + [s[|s| - 1]];
  }

  /** The last `n` elements of `s` (all of `s` when it is shorter). */
  function LastN<T>(s: seq<T>, n: nat): (r: seq<T>)
    ensures |r| == if |s| <= n then |s| else n
    ensures forall i :: 0 <= i < |r| ==> r[i] == s[|s| - |r| + i]
  {
    if |s| <= n then s else s[|s| - n..]
  }

  /**
   * `buf.append(x)` on a deque bounded to `cap` elements: the element is added on
   * the right and, when the deque is full, the leftmost one is discarded.
   */
  function Push<T>(buf: seq<T>, x: T, cap: nat): (r: seq<T>)
    requires |buf| <= cap
    ensures |r| <= cap
    ensures r == LastN(buf + [x], cap)
  {
    if cap == 0 then []
    else if |buf| < cap then buf + [x]
    else buf[1..] + [x]
  }

  /** Appending the elements of `xs` one by one, oldest first. */
  function PushAll<T>(buf: seq<T>, xs: seq<T>, cap: nat): (r: seq<T>)
    requires |buf| <= cap
    ensures |r| <= cap
  {
    if xs == [] then buf
    else Push(PushAll(buf, xs[..|xs| - 1], cap), xs[|xs| - 1], cap)
  }

  lemma PushAllSnoc<T>(buf: seq<T>, xs: seq<T>, x: T, cap: nat)
    requires |buf| <= cap
    ensures PushAll(buf, xs + [x], cap) == Push(PushAll(buf, xs, cap), x, cap)
  {
    assert (xs + [x])[..|xs|] == xs;
  }

  /** A bounded deque fed `xs` holds the newest `cap` of everything it was given, in arrival order. */
  lemma {:induction false} PushAllKeepsNewest<T>(buf: seq<T>, xs: seq<T>, cap: nat)
    requires |buf| <= cap
    ensures PushAll(buf, xs, cap) == LastN(buf + xs, cap)
    decreases |xs|
  {
    if xs == [] {
      assert buf + xs == buf;
    } else {
      var init, x := xs[..|xs| - 1], xs[|xs| - 1];
      PushAllKeepsNewest(buf, init, cap);
      PushLastN(buf + init, x, cap);
      AppendSplitLast(buf, xs);
    }
  }

  /** Appending to a deque that holds the newest `cap` of `s` leaves the newest `cap` of `s + [x]`. */
  lemma PushLastN<T>(s: seq<T>, x: T, cap: nat)
    ensures Push(LastN(s, cap), x, cap) == LastN(s + [x], cap)
  {
  }

  /** Once a bounded deque is full, its length stays at the bound; before that, every append lengthens it. */
  lemma {:induction false} PushAllLength<T>(buf: seq<T>, xs: seq<T>, cap: nat)
    requires |buf| <= cap
    ensures |PushAll(buf, xs, cap)| == if |buf| + |xs| <= cap then |buf| + |xs| else cap
  {
    PushAllKeepsNewest(buf, xs, cap);
  }

  /** `[f(x) for x in s]`. */
  function Map<A, B>(f: A -> B, s: seq<A>): (r: seq<B>)
    ensures |r| == |s|
    ensures forall i :: 0 <= i < |s| ==> r[i] == f(s[i])
  {
    if s == [] then [] else Map(f, s[..|s| - 1]) + [f(s[|s| - 1])]
  }

  lemma MapSnoc<A, B>(f: A -> B, s: seq<A>, x: A)
    ensures Map(f, s + [x]) == Map(f, s) + [f(x)]
  {
    assert (s + [x])[..|s|] == s;
  }

  /**
   * Times measured from the oldest retained sample, `[t - times[0] for t in times]`:
   * the oldest becomes 0 and the gap between any two samples is kept.
   */
  function Rebase(times: seq<real>): (r: seq<real>)
    ensures |r| == |times|
    ensures |r| > 0 ==> r[0] == 0.0
    ensures forall i, j :: 0 <= i < |r| && 0 <= j < |r| ==> r[j] - r[i] == times[j] - times[i]
  {
    if times == [] then [] else seq(|times|, i requires 0 <= i < |times| => times[i] - times[0])
  }

  /** Rebasing is idempotent: already-normalised times are left as they are. */
  lemma RebaseIdempotent(times: seq<real>)
    ensures Rebase(Rebase(times)) == Rebase(times)
  {
  }

  function Max(a: real, b: real): (r: real)
    ensures r >= a && r >= b && (r == a || r == b)
  {
    if a >= b then a else b
  }

  /** `max(m, xs[0], xs[1], …)`: the running maximum after seeing `xs`. */
  function MaxAll(m: real, xs: seq<real>): (r: real)
    ensures r >= m && (forall i :: 0 <= i < |xs| ==> r >= xs[i])
    ensures r == m || exists i :: 0 <= i < |xs| && r == xs[i]
  {
    if xs == [] then m
    else
      var p := MaxAll(m, xs[..|xs| - 1]);
      assert forall i :: 0 <= i < |xs| - 1 ==> xs[..|xs| - 1][i] == xs[i];
      Max(p, xs[|xs| - 1])
  }
}
