/** The retry-until-non-empty combinator `empty_retry(times, interval)`: call an
    operation up to `times + 1` times, return the first truthy result, or the last
    result when every one of them is falsy. The operation is an oracle: `op(i)` is
    what the i-th call (counting from 0) returns, and `truthy` is Python's `if ret:`
    for the operation's result type. */
module Retry {

  /** The index of the call the combinator stops at, looking from call `from`
      on: the first truthy call, or the last permitted call `times`. */
  function StopIndex<T>(op: nat -> T, truthy: T -> bool, times: nat, from: nat): (k: nat)
    requires from <= times
    ensures from <= k <= times
    ensures forall i :: from <= i < k ==> !truthy(op(i))
    ensures truthy(op(k)) || k == times
    decreases times - from
  {
    if truthy(op(from)) || from == times then from else StopIndex(op, truthy, times, from + 1)
  }

  /** The combinator itself. It returns the result and, beside it, how many
      times the operation was called (the retry log and the sleep between
      attempts are left out). */
  method EmptyRetry<T>(times: nat, op: nat -> T, truthy: T -> bool) returns (ret: T, calls: nat)
    ensures calls == StopIndex(op, truthy, times, 0) + 1
    ensures ret == op(calls - 1)
  {
    // attempt 0 happens unconditionally; attempts 1 .. times only while the
    // latest result is falsy (the `for` loop with its early `return ret`)
    var i := 0;
    ret := op(0);
    calls := 1;
    while !truthy(ret) && i < times
      invariant 0 <= i <= times
      invariant calls == i + 1 && ret == op(i)
      invariant forall j :: 0 <= j < i ==> !truthy(op(j))
    {
      i := i + 1;
      ret := op(i);
      calls := calls + 1;
    }
  }

  /** If the first k results are empty and result k (k <= times) is not, the
      combinator makes exactly k + 1 calls and returns that result. */
  lemma StopsAtFirstNonEmpty<T>(op: nat -> T, truthy: T -> bool, times: nat, k: nat)
    requires k <= times
    requires forall i :: 0 <= i < k ==> !truthy(op(i))
    requires truthy(op(k))
    ensures StopIndex(op, truthy, times, 0) == k
  {
  }

  /** If every result is empty, the combinator makes exactly times + 1 calls and
      returns the last (empty) result. */
  lemma AllEmptyUsesEveryAttempt<T>(op: nat -> T, truthy: T -> bool, times: nat)
    requires forall i :: 0 <= i <= times ==> !truthy(op(i))
    ensures StopIndex(op, truthy, times, 0) == times
    ensures !truthy(op(StopIndex(op, truthy, times, 0)))
  {
  }

  /** The result the combinator returns. */
  function RetryResult<T>(op: nat -> T, truthy: T -> bool, times: nat): T
  {
    op(StopIndex(op, truthy, times, 0))
  }

  /** Total underlying calls when a retried operation is retried again
      (`get_illust` around `_get_illust`, `get_ranking_*` around `_get_ranking`):
      outer attempt j runs the inner combinator over `i => op(j, i)`. Counts the
      inner calls of outer attempts `from` .. `upto`. */
  function InnerCallsUpTo<T>(op: (nat, nat) -> T, truthy: T -> bool, inner: nat, from: nat, upto: nat): nat
    decreases upto - from
  {
    if from > upto then 0
    else StopIndex(i => op(from, i), truthy, inner, 0) + 1 + InnerCallsUpTo(op, truthy, inner, from + 1, upto)
  }

  function NestedCalls<T>(op: (nat, nat) -> T, truthy: T -> bool, outer: nat, inner: nat): nat
  {
    var outerOp := (j: nat) => RetryResult(i => op(j, i), truthy, inner);
    InnerCallsUpTo(op, truthy, inner, 0, StopIndex(outerOp, truthy, outer, 0))
  }

  lemma {:induction false} InnerCallsAllEmpty<T>(op: (nat, nat) -> T, truthy: T -> bool, inner: nat, from: nat, upto: nat)
    requires from <= upto + 1
    requires forall j, i :: !truthy(op(j, i))
    ensures InnerCallsUpTo(op, truthy, inner, from, upto) == (upto + 1 - from) * (inner + 1)
    decreases upto + 1 - from
  {
    if from <= upto {
      AllEmptyUsesEveryAttempt(i => op(from, i), truthy, inner);
      InnerCallsAllEmpty(op, truthy, inner, from + 1, upto);
      var rows := upto - from;
      assert (rows + 1) * (inner + 1) == rows * (inner + 1) + (inner + 1);
    }
  }

  /** Layered retries multiply: when every underlying call is empty, an outer
      combinator with `outer` retries around an inner one with `inner` retries
      makes (outer + 1) * (inner + 1) underlying calls. */
  lemma NestedAllEmpty<T>(op: (nat, nat) -> T, truthy: T -> bool, outer: nat, inner: nat)
    requires forall j, i :: !truthy(op(j, i))
    ensures NestedCalls(op, truthy, outer, inner) == (outer + 1) * (inner + 1)
  {
    var outerOp := (j: nat) => RetryResult(i => op(j, i), truthy, inner);
    forall j: nat | j <= outer
      ensures !truthy(outerOp(j))
    {
      AllEmptyUsesEveryAttempt(i => op(j, i), truthy, inner);
    }
    AllEmptyUsesEveryAttempt(outerOp, truthy, outer);
    InnerCallsAllEmpty(op, truthy, inner, 0, outer);
  }
}
