/**
 The host's brake on guessing the one-time code: exponential backoff and code rotation.

 Instants and durations are natural numbers of nanoseconds. `Limits` is the limiter's state as a value,
 `AttemptLimiter` the object the host keeps.
 */
module Limiter {
  import opened Wrappers

  const NANOS_PER_SECOND := 1_000_000_000
  const NANOS_PER_MILLI := 1_000_000
  const MAX_WAIT_SECONDS := 86_400
  const FAILURES_PER_CODE := 5

  function Pow2(n: nat): (r: nat)
    ensures r > 0
  {
    if n == 0 then 1 else 2 * Pow2(n - 1)
  }

  function Min(a: int, b: int): int { if a < b then a else b }

  /** Seconds to wait after the `n`-th consecutive failure: doubling from one second, capped at a day. */
  function Backoff(n: nat): (secs: nat)
    requires n > 0
  {
    Min(Pow2(n - 1), MAX_WAIT_SECONDS)
  }

  lemma {:induction false} Pow2Grows(m: nat, n: nat)
    requires m <= n
    ensures Pow2(m) <= Pow2(n)
    decreases n - m
  {
    if m < n {
      Pow2Grows(m, n - 1);
      assert Pow2(n) == 2 * Pow2(n - 1);
    }
  }

  lemma Pow2Of16()
    ensures Pow2(16) == 65_536 && Pow2(17) == 131_072
  {
    assert Pow2(4) == 16;
    assert Pow2(8) == 256;
    assert Pow2(12) == 4_096;
  }

  /** One second after the first failure, then doubling until the eighteenth, and a day from then on. */
  lemma BackoffExactly(n: nat)
    requires n > 0
    ensures Backoff(n) == if n <= 17 then Pow2(n - 1) else 86_400
    ensures Backoff(1) == 1 && (n < 17 ==> Backoff(n + 1) == 2 * Backoff(n))
  {
    Pow2Of16();
    if n <= 17 { Pow2Grows(n - 1, 16); } else { Pow2Grows(17, n - 1); }
    if n < 17 { Pow2Grows(n, 16); }
  }

  lemma BackoffGrows(m: nat, n: nat)
    requires 0 < m <= n
    ensures Backoff(m) <= Backoff(n)
  {
    Pow2Grows(m - 1, n - 1);
  }

  datatype Limits = Limits(consecutiveFailures: nat, failuresOnCode: nat, waitUntil: Option<nat>)

  const FRESH := Limits(0, 0, None)

  /** `Err` carries the time left. */
  function Check(l: Limits, now: nat): Result<(), nat> {
    match l.waitUntil
    case Some(until) => if now < until then Err(until - now) else Ok(())
    case None => Ok(())
  }

  /** The state after a failure, and whether the code has to be replaced. */
  function Failed(l: Limits, now: nat): (Limits, bool) {
    var n := l.consecutiveFailures + 1;
    var onCode := l.failuresOnCode + 1;
    var rotate := onCode >= FAILURES_PER_CODE;
    (Limits(n, if rotate then 0 else onCode, Some(now + Backoff(n) * NANOS_PER_SECOND)), rotate)
  }

  /** The announced delay: rounded up, so that it is never 0 while the limiter is closed. */
  function WaitMillis(left: nat): nat { (left + NANOS_PER_MILLI - 1) / NANOS_PER_MILLI }

  class AttemptLimiter {
    var consecutiveFailures: nat
    var failuresOnCode: nat
    var waitUntil: Option<nat>

    function State(): Limits
      reads this
    {
      Limits(consecutiveFailures, failuresOnCode, waitUntil)
    }

    constructor ()
      ensures State() == FRESH
    {
      consecutiveFailures, failuresOnCode, waitUntil := 0, 0, None;
    }

    method CheckAt(now: nat) returns (r: Result<(), nat>)
      ensures r == Check(State(), now)
    {
      if waitUntil.Some? && now < waitUntil.value { return Err(waitUntil.value - now); }
      return Ok(());
    }

    method RecordFailure(now: nat) returns (rotateCode: bool)
      modifies this
      ensures (State(), rotateCode) == Failed(old(State()), now)
    {
      consecutiveFailures := consecutiveFailures + 1;
      failuresOnCode := failuresOnCode + 1;
      var n := consecutiveFailures;
      var secs := MAX_WAIT_SECONDS;
      if n - 1 < 17 {
        secs := Min(Pow2(n - 1), MAX_WAIT_SECONDS);
      } else {
        Pow2Of16();
        Pow2Grows(17, n - 1);
      }
      waitUntil := Some(now + secs * NANOS_PER_SECOND);
      rotateCode := failuresOnCode >= FAILURES_PER_CODE;
      if rotateCode { failuresOnCode := 0; }
    }

    method RecordSuccess()
      modifies this
      ensures State() == FRESH
    {
      consecutiveFailures, failuresOnCode, waitUntil := 0, 0, None;
    }
  }

  /** What holds of a limiter whenever an attempt looks at it; `last` is when it last recorded a failure. */
  predicate Regular(l: Limits, last: nat) {
    && l.failuresOnCode == l.consecutiveFailures % FAILURES_PER_CODE
    && l.waitUntil == if l.consecutiveFailures == 0 then None
                      else Some(last + Backoff(l.consecutiveFailures) * NANOS_PER_SECOND)
  }

  /**
   A recorded failure keeps the limiter regular; the code is replaced on every fifth consecutive failure
   and on no other, and replacing it neither resets the count nor shortens the wait.
   */
  lemma FailureKeepsRegular(l: Limits, last: nat, now: nat)
    requires Regular(l, last)
    ensures
      var (l', rotate) := Failed(l, now);
      && Regular(l', now) && l'.consecutiveFailures == l.consecutiveFailures + 1
      && (rotate <==> l'.consecutiveFailures % FAILURES_PER_CODE == 0)
      && (forall t: nat :: Check(l', t).Ok? <==> t >= now + Backoff(l'.consecutiveFailures) * NANOS_PER_SECOND)
  {
    var n := l.consecutiveFailures;
    assert n == n / 5 * 5 + n % 5;
    if n % 5 == 4 {
      assert n + 1 == (n / 5 + 1) * 5;
    } else {
      assert (n + 1) % 5 == n % 5 + 1;
    }
  }

  /** The announced delay is the least whole number of milliseconds after which the limiter is open. */
  lemma WaitMillisIsLeast(l: Limits, now: nat, ms: nat)
    requires Check(l, now).Err?
    ensures WaitMillis(Check(l, now).error) > 0
    ensures Check(l, now + ms * NANOS_PER_MILLI).Ok? <==> ms >= WaitMillis(Check(l, now).error)
  {
    var left := Check(l, now).error;
    var w := WaitMillis(left);
    assert left <= w * NANOS_PER_MILLI < left + NANOS_PER_MILLI;
    if ms >= w {
      assert ms * NANOS_PER_MILLI >= w * NANOS_PER_MILLI;
    } else {
      assert ms * NANOS_PER_MILLI <= (w - 1) * NANOS_PER_MILLI;
    }
  }

  // The price of guessing.

  /** `at` are the times of consecutive failures, the first of them being number `n`, each after its wait. */
  predicate Paced(at: seq<nat>, n: nat) {
    n > 0 && forall i :: 0 <= i < |at| - 1 ==> at[i + 1] >= at[i] + Backoff(n + i) * NANOS_PER_SECOND
  }

  /** The total wait of `k` consecutive failures: 2^k - 1 seconds, and a day for each one after the 17th. */
  function TotalWait(k: nat): nat {
    if k <= 17 then Pow2(k) - 1 else 131_071 + (k - 17) * 86_400
  }

  lemma {:induction false} TotalWaitStep(k: nat)
    ensures TotalWait(0) == 0 && TotalWait(k + 1) == TotalWait(k) + Backoff(k + 1)
  {
    Pow2Of16();
    if k < 17 {
      Pow2Grows(k, 16);
    } else {
      Pow2Grows(17, k);
    }
  }

  /** `k + 1` failures in a row take at least `TotalWait(k)` seconds, from the first to the last. */
  lemma {:induction false} GuessingTakes(at: seq<nat>, n: nat)
    requires Paced(at, n) && at != []
    ensures at[|at| - 1] >= at[0] + TotalWait(|at| - 1) * NANOS_PER_SECOND
    decreases |at|
  {
    var k := |at| - 1;
    TotalWaitStep(0);
    if k > 0 {
      GuessingTakes(at[..k], n);
      assert at[k - 1 + 1] >= at[k - 1] + Backoff(n + (k - 1)) * NANOS_PER_SECOND;
      BackoffGrows(k, n + k - 1);
      TotalWaitStep(k - 1);
    }
  }
}
