/** The signaling server's fixed-window rate limit. Times are milliseconds. */
module RateLimit {
  import opened Wrappers

  datatype Window = Window(start: int, count: nat)

  /** Whether a call is allowed, and the window after it: a denied call is counted like any other. */
  function Allow(state: Option<Window>, now: int, limit: nat, windowMs: nat): (bool, Window) {
    var next := if state.None? || now - state.value.start >= windowMs then Window(now, 1)
                else Window(state.value.start, state.value.count + 1);
    (next.count <= limit, next)
  }

  /** One bucket, with its stored window. */
  class Bucket {
    var window: Option<Window>

    constructor ()
      ensures window == None
    {
      window := None;
    }

    method Hit(now: int, limit: nat, windowMs: nat) returns (ok: bool)
      modifies this
      ensures window.Some? && (ok, window.value) == Allow(old(window), now, limit, windowMs)
      ensures old(window).None? || now >= old(window).value.start + windowMs ==>
                window.value == Window(now, 1) && (ok <==> limit > 0)
      ensures old(window).Some? && now < old(window).value.start + windowMs ==>
                && window.value == Window(old(window).value.start, old(window).value.count + 1)
                && (ok <==> old(window).value.count < limit)
    {
      var (allowed, next) := Allow(window, now, limit, windowMs);
      window := Some(next);
      ok := allowed;
    }

    /** Hits at the given times in turn; says which were allowed: those with room left in their own window. */
    method HitAll(hits: seq<int>, limit: nat, windowMs: nat) returns (oks: seq<bool>)
      requires window == None
      modifies this
      ensures window == After(hits, limit, windowMs) && |oks| == |hits|
      ensures forall k: nat :: k < |hits| ==> (oks[k] <==> Allowed(hits[..k], hits[k], limit, windowMs))
      ensures forall k: nat :: k < |hits| ==> (oks[k] <==> k - WindowOf(hits, k, windowMs) < limit)
    {
      oks := [];
      var k := 0;
      while k < |hits|
        invariant 0 <= k <= |hits| && |oks| == k && window == After(hits[..k], limit, windowMs)
        invariant forall j: nat :: j < k ==> (oks[j] <==> Allowed(hits[..j], hits[j], limit, windowMs))
      {
        var ok := Hit(hits[k], limit, windowMs);
        assert hits[..k + 1][..k] == hits[..k];
        oks := oks + [ok];
        k := k + 1;
      }
      assert hits[..k] == hits;
      forall j: nat | j < |hits| ensures oks[j] <==> j - WindowOf(hits, j, windowMs) < limit {
        AllowedExactly(hits, j, limit, windowMs);
      }
    }
  }

  /** The window after hits at these times. */
  function After(hits: seq<int>, limit: nat, windowMs: nat): Option<Window> {
    if hits == [] then None
    else Some(Allow(After(hits[..|hits| - 1], limit, windowMs), hits[|hits| - 1], limit, windowMs).1)
  }

  predicate Allowed(before: seq<int>, now: int, limit: nat, windowMs: nat) {
    Allow(After(before, limit, windowMs), now, limit, windowMs).0
  }

  // The law of the limit, in terms of the times alone.

  /** The hit that began the window of the `k`-th one: the first hit, and each that comes a window after the last start. */
  function WindowOf(hits: seq<int>, k: nat, windowMs: nat): (s: nat)
    requires k < |hits|
    ensures s <= k
  {
    if k == 0 then 0
    else
      var s := WindowOf(hits, k - 1, windowMs);
      if hits[k] - hits[s] >= windowMs then k else s
  }

  lemma {:induction false} WindowIs(hits: seq<int>, k: nat, limit: nat, windowMs: nat)
    requires k < |hits|
    ensures
      var s := WindowOf(hits, k, windowMs);
      After(hits[..k + 1], limit, windowMs) == Some(Window(hits[s], k + 1 - s))
  {
    assert hits[..k + 1][..k] == hits[..k];
    if k > 0 { WindowIs(hits, k - 1, limit, windowMs); }
  }

  /**
   Whatever the times of the hits, and from the first one on: a hit is allowed if and only if fewer than `limit`
   hits came before it in its own window.
   */
  lemma AllowedExactly(hits: seq<int>, k: nat, limit: nat, windowMs: nat)
    requires k < |hits|
    ensures Allowed(hits[..k], hits[k], limit, windowMs) <==> k - WindowOf(hits, k, windowMs) < limit
  {
    if k > 0 { WindowIs(hits, k - 1, limit, windowMs); }
  }

  /** Starts of windows are a window apart, and no hit lies a window or more after the start of its own. */
  lemma {:induction false} WindowsAreApart(hits: seq<int>, k: nat, windowMs: nat)
    requires k < |hits| && windowMs > 0
    ensures
      var s := WindowOf(hits, k, windowMs);
      && hits[k] < hits[s] + windowMs && WindowOf(hits, s, windowMs) == s
      && (s > 0 ==> hits[s] >= hits[WindowOf(hits, s - 1, windowMs)] + windowMs)
  {
    if k > 0 { WindowsAreApart(hits, k - 1, windowMs); }
  }

  /** How many hits at times in `[a, b)` were allowed. */
  function AllowedIn(hits: seq<int>, a: int, b: int, limit: nat, windowMs: nat): nat {
    if hits == [] then 0
    else
      var (front, now) := (hits[..|hits| - 1], hits[|hits| - 1]);
      AllowedIn(front, a, b, limit, windowMs)
      + (if a <= now < b && Allowed(front, now, limit, windowMs) then 1 else 0)
  }

  predicate Nondecreasing(hits: seq<int>) { forall i, j :: 0 <= i < j < |hits| ==> hits[i] <= hits[j] }

  function Min(a: nat, b: nat): nat { if a < b then a else b }

  /** What the count can be, given where the current window began. */
  predicate Bounded(hits: seq<int>, a: int, limit: nat, windowMs: nat) {
    var n := AllowedIn(hits, a, a + windowMs, limit, windowMs);
    match After(hits, limit, windowMs)
    case None => n == 0
    case Some(w) =>
      && w.count >= 1 && w.start <= hits[|hits| - 1]
      && (hits[|hits| - 1] < a ==> n == 0)
      && if w.start < a then n <= Min(w.count, limit) - 1
         else if w.start < a + windowMs then n <= limit - 1 + Min(w.count, limit)
         else n <= 2 * limit - 1
  }

  lemma {:induction false} HitsStayBounded(hits: seq<int>, a: int, limit: nat, windowMs: nat)
    requires Nondecreasing(hits) && limit >= 1
    ensures Bounded(hits, a, limit, windowMs)
    decreases |hits|
  {
    if hits != [] {
      HitsStayBounded(hits[..|hits| - 1], a, limit, windowMs);
    }
  }

  /**
   However the hits fall, fewer than twice the limit are allowed in any stretch of time as long as the window.
   */
  lemma AtMostTwiceLessOne(hits: seq<int>, a: int, limit: nat, windowMs: nat)
    requires Nondecreasing(hits) && limit >= 1
    ensures AllowedIn(hits, a, a + windowMs, limit, windowMs) <= 2 * limit - 1
  {
    HitsStayBounded(hits, a, limit, windowMs);
  }

  function Burst(t: int, n: nat): (r: seq<int>)
    ensures |r| == n && forall i :: 0 <= i < n ==> r[i] == t
  {
    seq(n, _ => t)
  }

  /** A burst within the limit is allowed as a whole. */
  lemma {:induction false} BurstIsAllowed(hits: seq<int>, t: int, n: nat, a: int, b: int, limit: nat, windowMs: nat)
    requires After(hits, limit, windowMs).Some?
    requires t - After(hits, limit, windowMs).value.start < windowMs
    requires After(hits, limit, windowMs).value.count + n <= limit && a <= t < b
    ensures
      var w := After(hits, limit, windowMs).value;
      && After(hits + Burst(t, n), limit, windowMs) == Some(Window(w.start, w.count + n))
      && AllowedIn(hits + Burst(t, n), a, b, limit, windowMs) == AllowedIn(hits, a, b, limit, windowMs) + n
    decreases n
  {
    if n == 0 {
      assert hits + Burst(t, 0) == hits;
    } else {
      BurstIsAllowed(hits, t, n - 1, a, b, limit, windowMs);
      var all := hits + Burst(t, n);
      assert all[..|all| - 1] == hits + Burst(t, n - 1);
    }
  }

  /** The bound is reached, for every limit: late in one window and early in the next. */
  lemma TheBoundIsReached(limit: nat, windowMs: nat) returns (hits: seq<int>, a: int)
    requires limit >= 1 && windowMs >= 2
    ensures Nondecreasing(hits) && AllowedIn(hits, a, a + windowMs, limit, windowMs) == 2 * limit - 1
  {
    a := windowMs - 1;
    assert [0][..0] == [];
    var late := [0] + Burst(a, limit - 1);
    BurstIsAllowed([0], a, limit - 1, a, a + windowMs, limit, windowMs);
    assert AllowedIn([0], a, a + windowMs, limit, windowMs) == 0;
    var next := late + [windowMs as int];
    OneMore(late, windowMs, a, limit, windowMs);
    BurstIsAllowed(next, windowMs, limit - 1, a, a + windowMs, limit, windowMs);
    hits := next + Burst(windowMs, limit - 1);
  }

  lemma OneMore(hits: seq<int>, now: int, a: int, limit: nat, windowMs: nat)
    requires After(hits, limit, windowMs).Some? && now - After(hits, limit, windowMs).value.start >= windowMs
    requires a <= now < a + windowMs && limit >= 1
    ensures After(hits + [now], limit, windowMs) == Some(Window(now, 1))
    ensures AllowedIn(hits + [now], a, a + windowMs, limit, windowMs)
         == AllowedIn(hits, a, a + windowMs, limit, windowMs) + 1
  {
    assert (hits + [now])[..|hits|] == hits;
  }

  /**
   Denied hits do not prolong a window: however many fall into it, it keeps its start, and the first hit from
   `start + windowMs` on is allowed.
   */
  lemma {:induction false} WindowsEnd(hits: seq<int>, more: seq<int>, now: int, limit: nat, windowMs: nat)
    requires After(hits, limit, windowMs).Some? && limit >= 1
    requires forall i :: 0 <= i < |more| ==> more[i] < After(hits, limit, windowMs).value.start + windowMs
    ensures
      var w := After(hits, limit, windowMs).value;
      && After(hits + more, limit, windowMs) == Some(Window(w.start, w.count + |more|))
      && (Allowed(hits + more, now, limit, windowMs) <==> now >= w.start + windowMs || w.count + |more| < limit)
    decreases |more|
  {
    if more == [] {
      assert hits + more == hits;
    } else {
      var front := more[..|more| - 1];
      WindowsEnd(hits, front, now, limit, windowMs);
      var all := hits + more;
      assert all[..|all| - 1] == hits + front;
    }
  }
}
