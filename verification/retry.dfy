/** The retry policy on the LLM calls (`stop_after_attempt(3)`): a call is
    repeated until it succeeds or the attempts run out. The outcome of each
    attempt is a function of the attempt's number, which stands for whatever
    the remote service answers that time; the back-off sleeps between
    attempts are not modelled. The decorators do not ask for `reraise`, so
    when the attempts run out the caller sees tenacity's `RetryError`
    wrapping the last attempt, not that attempt's own exception. */
module Retry {
  import opened Wrappers

  /** The number of attempts before the failure is raised. */
  const MaxAttempts: nat := 3

  /** The text of the `RetryError` raised once the attempts run out; it
      names the error of the last attempt it wraps. */
  function RetryError(last: string): (e: string)
    ensures |e| == |last| + 12 && e[..11] == "RetryError[" && e[|e| - 1] == ']'
    ensures e[11..|e| - 1] == last
  {
    "RetryError[" + last + "]"
  }

  /** The outcome of attempts `k`, `k + 1`, ... up to `limit`: the first
      success, or a `RetryError` wrapping the last failure when none
      succeeds. */
  function RetryFrom<T>(call: nat -> Result<T, string>, k: nat, limit: nat): (r: Result<T, string>)
    requires k < limit
    decreases limit - k
  {
    if call(k).Success? then call(k)
    else if k + 1 == limit then Failure(RetryError(call(k).error))
    else RetryFrom(call, k + 1, limit)
  }

  function Retried<T>(call: nat -> Result<T, string>): Result<T, string> {
    RetryFrom(call, 0, MaxAttempts)
  }

  /** A retried call succeeds exactly when one of the attempts succeeds, and
      then it returns the first successful attempt's value; otherwise it
      fails with a `RetryError` wrapping the last attempt's error. */
  lemma {:induction false} RetryFromFirst<T>(call: nat -> Result<T, string>, k: nat, limit: nat)
    requires k < limit
    ensures RetryFrom(call, k, limit).Success? <==> exists a :: k <= a < limit && call(a).Success?
    ensures RetryFrom(call, k, limit).Success? ==>
      exists a :: k <= a < limit && RetryFrom(call, k, limit) == call(a)
        && forall b :: k <= b < a ==> call(b).Failure?
    ensures RetryFrom(call, k, limit).Failure? ==>
      RetryFrom(call, k, limit) == Failure(RetryError(call(limit - 1).error))
    decreases limit - k
  {
    if !(call(k).Success? || k + 1 == limit) {
      RetryFromFirst(call, k + 1, limit);
      if RetryFrom(call, k, limit).Success? {
        var a :| k + 1 <= a < limit && RetryFrom(call, k + 1, limit) == call(a)
          && forall b :: k + 1 <= b < a ==> call(b).Failure?;
        assert forall b :: k <= b < a ==> call(b).Failure?;
      }
    }
  }

  /** The retry loop: attempts are made one after another, at most
      `MaxAttempts` of them, and the first success ends the loop; when the
      last one fails too, its error is wrapped in a `RetryError`. */
  method CallWithRetry<T>(call: nat -> Result<T, string>) returns (r: Result<T, string>, attempts: nat)
    ensures r == Retried(call)
    ensures 1 <= attempts <= MaxAttempts
    ensures r.Success? ==> r == call(attempts - 1)
    ensures r.Failure? ==> attempts == MaxAttempts && r == Failure(RetryError(call(attempts - 1).error))
    ensures forall b :: 0 <= b < attempts - 1 ==> call(b).Failure?
  {
    attempts := 1;
    r := call(0);
    while r.Failure? && attempts < MaxAttempts
      invariant 1 <= attempts <= MaxAttempts
      invariant r == call(attempts - 1)
      invariant forall b :: 0 <= b < attempts - 1 ==> call(b).Failure?
      invariant RetryFrom(call, attempts - 1, MaxAttempts) == Retried(call)
      decreases MaxAttempts - attempts
    {
      r := call(attempts);
      attempts := attempts + 1;
    }
    if r.Failure? {
      r := Failure(RetryError(r.error));
    }
  }
}
