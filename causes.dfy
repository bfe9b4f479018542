/** `causeOfError`: the walk down a chain of wrapped errors to the first error that
    does not wrap another. */
module Causes {

  /** A Go `error` value as `causeOfError` sees it: `nil`, an error without a
      `Cause()` method, or one whose `Cause()` returns a further error (possibly
      `nil`). Chains are finite values, so every chain here is acyclic. */
  datatype Err =
    | Nil
    | Plain(message: string)
    | Causer(message: string, cause: Err)

  /** The error the walk stops at. */
  function RootCause(e: Err): (r: Err)
    ensures !r.Causer?
    ensures !e.Causer? ==> r == e
  {
    match e
    case Causer(_, c) => RootCause(c)
    case _ => e
  }

  /** The error reached after following `n` `Cause()` links (stopping early at an
      error that has none). */
  function Unwrap(e: Err, n: nat): Err
  {
    if n == 0 || !e.Causer? then e else Unwrap(e.cause, n - 1)
  }

  /** The number of `Cause()` links from `e` to the end of its chain. */
  function Depth(e: Err): nat
  {
    if e.Causer? then 1 + Depth(e.cause) else 0
  }

  /** The root cause is the first error on the chain without a `Cause()`: every
      error before it has one, and it lies `Depth(e)` links down. */
  lemma {:induction false} RootCauseIsFirstWithoutCause(e: Err)
    ensures RootCause(e) == Unwrap(e, Depth(e))
    ensures forall k :: 0 <= k < Depth(e) ==> Unwrap(e, k).Causer?
  {
    if e.Causer? {
      RootCauseIsFirstWithoutCause(e.cause);
      forall k | 0 <= k < Depth(e) ensures Unwrap(e, k).Causer? {
        if k > 0 {
          assert Unwrap(e, k) == Unwrap(e.cause, k - 1);
        }
      }
    }
  }

  /** The cases of the table test: an error whose `Cause()` is a plain error yields
      that error, and a plain error (or `nil`) is returned as it is. */
  lemma RootCauseExamples(message: string, causeMessage: string)
    ensures RootCause(Causer(message, Plain(causeMessage))) == Plain(causeMessage)
    ensures RootCause(Plain(message)) == Plain(message)
    ensures RootCause(Nil) == Nil
    ensures RootCause(Causer(message, Nil)) == Nil
  {
  }

  /** `causeOfError`: while the current error is not `nil` and has a `Cause()`,
      replace it by that cause. */
  method CauseOfError(err: Err) returns (root: Err)
    ensures !root.Causer?
    ensures root == RootCause(err)
  {
    root := err;
    while root != Nil
      invariant RootCause(root) == RootCause(err)
      decreases root
    {
      if !root.Causer? {
        break;
      }
      root := root.cause;
    }
  }
}
