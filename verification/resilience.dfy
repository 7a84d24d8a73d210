/**
 * The resilience the current-weather sweep wraps around each provider call:
 * the repository's own `retry` loop and the trip rule both circuit breakers
 * are configured with. The breaker's state machine itself belongs to the
 * gobreaker library and is not part of this model.
 */
module Resilience {
  import opened Wrappers

  /** A time.Duration: a count of nanoseconds. */
  type Duration = int

  const Millisecond: Duration := 1_000_000

  /** The policy both provider fetches use: three attempts, the first pause 300ms. */
  const Attempts: int := 3
  const BaseDelay: Duration := 300 * Millisecond

  /**
   * What one run of `retry` did: the error it returned, how many times it
   * called the retried function, and the pauses it slept, in order.
   */
  datatype Run<E> = Run(err: Outcome<E>, calls: nat, sleeps: seq<Duration>)

  function Pow2(k: nat): nat {
    if k == 0 then 1 else 2 * Pow2(k - 1)
  }

  /**
   * `retry` from loop iteration `i` on, holding `err` in its error variable
   * and `delay` in its delay variable. The function being retried is given by
   * its results: its j-th call (counting from 0) returns `fn(j)`.
   */
  function RetryFrom<E>(attempts: int, fn: nat -> Outcome<E>, i: nat, delay: Duration, err: Outcome<E>): (r: Run<E>)
    ensures i < attempts ==> i < r.calls <= attempts
    ensures i >= attempts ==> r.calls == i && r.err == err && r.sleeps == []
    decreases attempts - i
  {
    if i >= attempts then Run(err, i, [])
    else if fn(i).Pass? then Run(Pass, i + 1, [])
    else
      var rest := RetryFrom(attempts, fn, i + 1, 2 * delay, fn(i));
      Run(rest.err, rest.calls, [delay] + rest.sleeps)
  }

  /** A whole run of `retry(attempts, base, fn)`. */
  function RetryRun<E>(attempts: int, base: Duration, fn: nat -> Outcome<E>): (r: Run<E>)
    ensures attempts <= 0 ==> r == Run(Pass, 0, [])
    ensures attempts > 0 ==> 1 <= r.calls <= attempts
  {
    RetryFrom(attempts, fn, 0, base, Pass)
  }

  /** `run` with `sleeps` slept before it. */
  function After<E>(sleeps: seq<Duration>, run: Run<E>): Run<E> {
    Run(run.err, run.calls, sleeps + run.sleeps)
  }

  /**
   * The generic retry wrapper: call `fn` up to `attempts` times, stop at the
   * first nil error, and sleep after every failed call, doubling the pause.
   */
  method Retry<E>(attempts: int, base: Duration, fn: nat -> Outcome<E>) returns (run: Run<E>)
    ensures run == RetryRun(attempts, base, fn)
  {
    var err: Outcome<E> := Pass;
    var delay := base;
    var sleeps: seq<Duration> := [];
    var i: nat := 0;
    while i < attempts
      invariant RetryRun(attempts, base, fn) == After(sleeps, RetryFrom(attempts, fn, i, delay, err))
      decreases attempts - i
    {
      err := fn(i);
      if err.Pass? {
        return Run(Pass, i + 1, sleeps);
      }
      assert (sleeps + [delay]) + RetryFrom(attempts, fn, i + 1, 2 * delay, err).sleeps
          == sleeps + ([delay] + RetryFrom(attempts, fn, i + 1, 2 * delay, err).sleeps);
      sleeps := sleeps + [delay];  // time.Sleep(delay)
      delay := 2 * delay;
      i := i + 1;
    }
    run := Run(err, i, sleeps);
  }

  /** What a run from iteration `i` does when at least one attempt is left. */
  lemma {:induction false} RetryFromFacts<E>(attempts: int, fn: nat -> Outcome<E>, i: nat, delay: Duration, err: Outcome<E>)
    requires i < attempts
    ensures var r := RetryFrom(attempts, fn, i, delay, err);
      && i < r.calls <= attempts
      && r.err == fn(r.calls - 1)
      && (forall j :: i <= j < r.calls - 1 ==> fn(j).Fail?)
      && (r.calls < attempts ==> r.err.Pass?)
      && |r.sleeps| == (if r.err.Pass? then r.calls - 1 - i else r.calls - i)
      && (forall k :: 0 <= k < |r.sleeps| ==> r.sleeps[k] == delay * Pow2(k))
    decreases attempts - i
  {
    if fn(i).Fail? && i + 1 < attempts {
      RetryFromFacts(attempts, fn, i + 1, 2 * delay, fn(i));
      var rest := RetryFrom(attempts, fn, i + 1, 2 * delay, fn(i));
      var r := RetryFrom(attempts, fn, i, delay, err);
      forall k | 1 <= k < |r.sleeps|
        ensures r.sleeps[k] == delay * Pow2(k)
      {
        assert r.sleeps[k] == rest.sleeps[k - 1] == 2 * delay * Pow2(k - 1);
      }
    }
  }

  /**
   * When the k-th call is the first to succeed, `retry` returns nil right
   * after it: k + 1 calls, one pause per failed call.
   */
  lemma RetryStopsAtFirstSuccess<E>(attempts: int, base: Duration, fn: nat -> Outcome<E>, k: nat)
    requires k < attempts && fn(k).Pass?
    requires forall j :: 0 <= j < k ==> fn(j).Fail?
    ensures var r := RetryRun(attempts, base, fn);
      r.err == Pass && r.calls == k + 1 && |r.sleeps| == k
  {
    RetryFromFacts(attempts, fn, 0, base, Pass);
  }

  /** When every call fails, `retry` makes exactly `attempts` calls, sleeps after each, and returns the last error. */
  lemma RetryAllFail<E>(attempts: int, base: Duration, fn: nat -> Outcome<E>)
    requires attempts > 0
    requires forall j :: 0 <= j < attempts ==> fn(j).Fail?
    ensures var r := RetryRun(attempts, base, fn);
      r.err == fn(attempts - 1) && r.calls == attempts && |r.sleeps| == attempts
  {
    RetryFromFacts(attempts, fn, 0, base, Pass);
  }

  /**
   * In every run: at most `attempts` calls, every call but the last one
   * failed, one pause per failed call, and the k-th pause is base·2^k.
   */
  lemma RetrySleepsDouble<E>(attempts: int, base: Duration, fn: nat -> Outcome<E>)
    ensures var r := RetryRun(attempts, base, fn);
      && (attempts <= 0 ==> r.calls == 0)
      && (attempts > 0 ==> 1 <= r.calls <= attempts)
      && (forall j :: 0 <= j < r.calls - 1 ==> fn(j).Fail?)
      && |r.sleeps| == (if r.err.Pass? && r.calls > 0 then r.calls - 1 else r.calls)
      && (forall k :: 0 <= k < |r.sleeps| ==> r.sleeps[k] == base * Pow2(k))
  {
    if attempts > 0 {
      RetryFromFacts(attempts, fn, 0, base, Pass);
    }
  }

  /** gobreaker.Counts: the breaker's counters, each a uint32. */
  newtype Uint32 = x: int | 0 <= x < 0x1_0000_0000

  datatype Counts = Counts(
    requests: Uint32,
    totalSuccesses: Uint32,
    totalFailures: Uint32,
    consecutiveSuccesses: Uint32,
    consecutiveFailures: Uint32)

  /**
   * The ReadyToTrip rule both breakers are configured with: at least 10
   * requests and a failure rate above one half. The Go code divides the two
   * counters as float64; for 32-bit counters that quotient cannot round
   * across 0.5, so the exact quotient gives the same answer.
   */
  function ReadyToTrip(counts: Counts): (trip: bool)
    ensures counts.requests < 10 ==> !trip
    ensures trip <==> counts.requests >= 10 && 2 * counts.totalFailures as int > counts.requests as int
  {
    if counts.requests < 10 then false
    else
      var failureRate := counts.totalFailures as real / counts.requests as real;
      RateAboveHalf(counts.totalFailures as real, counts.requests as real);
      failureRate > 0.5
  }

  lemma RateAboveHalf(failures: real, requests: real)
    requires requests > 0.0
    ensures failures / requests > 0.5 <==> 2.0 * failures > requests
  {
    var rate := failures / requests;
    assert rate * requests == failures;
    if rate > 0.5 {
      assert rate * requests > 0.5 * requests;
    } else {
      assert rate * requests <= 0.5 * requests;
    }
  }

  /** Opening a breaker takes at least six failures. */
  lemma TripNeedsSixFailures(counts: Counts)
    requires ReadyToTrip(counts)
    ensures counts.totalFailures >= 6
  {
  }
}
