/**
 * The retry decorator of src/config/utile.py.
 *
 * The wrapped operation is an oracle: `outcomes[i]` is what its call at
 * attempt `i + 1` returns, `None` standing for Python's `None`. Each
 * `sleep(delay)` is counted rather than waited for.
 */
module Retry {
  import opened Wrappers

  /** Default of `max_attempts`. */
  const DefaultMaxAttempts: int := 3
  /** Default of `delay`, in seconds. */
  const DefaultDelay: nat := 5

  /** How many attempts `range(1, max_attempts + 1)` allows. */
  function Attempts(maxAttempts: int): nat {
    if maxAttempts <= 0 then 0 else maxAttempts
  }

  /** What one run of the wrapper observably did. */
  datatype Run<T> = Run(result: Option<T>, calls: nat, sleeps: nat)

  /**
   * The wrapper's behaviour with `n` attempts left: call, return the first
   * result that is not `None`, otherwise sleep and try again.
   */
  function Retried<T>(outcomes: seq<Option<T>>, n: nat): (r: Run<T>)
    requires n <= |outcomes|
    ensures r.calls <= n
    ensures r.result.Some? ==> 1 <= r.calls && r.result == outcomes[r.calls - 1] && r.sleeps == r.calls - 1
    ensures r.result.None? ==> r.calls == n && r.sleeps == n
    decreases n
  {
    if n == 0 then Run(None, 0, 0)
    else if outcomes[0].Some? then Run(outcomes[0], 1, 0)
    else
      var rest := Retried(outcomes[1..], n - 1);
      Run(rest.result, rest.calls + 1, rest.sleeps + 1)
  }

  /** The first result that is not `None`, at attempt `k + 1`, is returned after exactly `k + 1` calls and `k` sleeps. */
  lemma {:induction false} RetriedSucceedsAt<T>(outcomes: seq<Option<T>>, n: nat, k: nat)
    requires k < n <= |outcomes|
    requires outcomes[k].Some?
    requires forall j :: 0 <= j < k ==> outcomes[j].None?
    ensures Retried(outcomes, n) == Run(outcomes[k], k + 1, k)
  {
    if k > 0 {
      RetriedSucceedsAt(outcomes[1..], n - 1, k - 1);
    }
  }

  /** When every attempt yields `None`, all `n` attempts are made, each followed by a sleep, and the result is `None`. */
  lemma {:induction false} RetriedExhausted<T>(outcomes: seq<Option<T>>, n: nat)
    requires n <= |outcomes|
    requires forall j :: 0 <= j < n ==> outcomes[j].None?
    ensures Retried(outcomes, n) == Run(None, n, n)
  {
    if n > 0 {
      RetriedExhausted(outcomes[1..], n - 1);
    }
  }

  /** Only `None` is a failure: the result is `None` exactly when every attempt gave `None`. */
  lemma {:induction false} RetriedFailsOnlyOnNone<T>(outcomes: seq<Option<T>>, n: nat)
    requires n <= |outcomes|
    ensures Retried(outcomes, n).result.None? <==> forall j :: 0 <= j < n ==> outcomes[j].None?
  {
    if n > 0 && outcomes[0].None? {
      RetriedFailsOnlyOnNone(outcomes[1..], n - 1);
      assert forall j :: 1 <= j < n ==> outcomes[j] == outcomes[1..][j - 1];
    }
  }

  /** With `max_attempts` of zero or less the operation is never called and the result is `None`. */
  lemma NoAttemptsBelowOne<T>(outcomes: seq<Option<T>>, maxAttempts: int)
    requires maxAttempts <= 0
    ensures Retried(outcomes, Attempts(maxAttempts)) == Run(None, 0, 0)
  {
  }

  /** A first call that returns a value, whatever the value (an empty list, an empty string, 0), is never retried. */
  lemma ValueReturnedAtOnce<T>(v: T, later: seq<Option<T>>, maxAttempts: int)
    requires 1 <= maxAttempts <= |later| + 1
    ensures Retried([Some(v)] + later, Attempts(maxAttempts)) == Run(Some(v), 1, 0)
  {
  }

  /** With the defaults, total failure costs three calls and three sleeps of five seconds. */
  lemma DefaultsOnTotalFailure<T>(outcomes: seq<Option<T>>)
    requires |outcomes| == 3
    requires forall j :: 0 <= j < 3 ==> outcomes[j].None?
    ensures var r := Retried(outcomes, Attempts(DefaultMaxAttempts));
      r.result.None? && r.calls == 3 && r.sleeps * DefaultDelay == 15
  {
    RetriedExhausted(outcomes, 3);
  }

  /**
   * `wrapper(*args, **kwargs)`: the attempt loop. `calls` records the
   * arguments each call of the wrapped operation received.
   */
  method RetryOnFailure<A, T>(maxAttempts: int, args: A, outcomes: seq<Option<T>>)
    returns (result: Option<T>, calls: seq<A>, sleeps: nat)
    requires Attempts(maxAttempts) <= |outcomes|
    ensures Run(result, |calls|, sleeps) == Retried(outcomes, Attempts(maxAttempts))
    ensures forall i :: 0 <= i < |calls| ==> calls[i] == args
  {
    calls, sleeps := [], 0;
    var attempt := 1;
    while attempt <= maxAttempts
      invariant 1 <= attempt <= Attempts(maxAttempts) + 1
      invariant |calls| == attempt - 1 && sleeps == attempt - 1
      invariant forall j :: 0 <= j < attempt - 1 ==> outcomes[j].None?
      invariant forall i :: 0 <= i < |calls| ==> calls[i] == args
    {
      calls := calls + [args];
      result := outcomes[attempt - 1];
      if result.Some? {
        RetriedSucceedsAt(outcomes, Attempts(maxAttempts), attempt - 1);
        return;
      }
      sleeps := sleeps + 1;
      attempt := attempt + 1;
    }
    RetriedExhausted(outcomes, Attempts(maxAttempts));
    result := None;
  }
}
