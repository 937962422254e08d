// The retry policy of the shared query client (src/lib/query.tsx). The
// client itself, its cache and its timers are not modelled.
module Query {
  import opened Wrappers

  /** The largest number of failures after which a query is still retried. */
  const MaxRetries := 3

  /** The default `retry` option of queries: `error?.response?.status` is
    * None when the error carries no response or no status. */
  function RetryQuery(failureCount: int, status: Option<int>): (r: bool)
    ensures r ==> failureCount < MaxRetries
    ensures status.Some? && 400 <= status.value < 500 ==> !r
  {
    if status.Some? && 400 <= status.value < 500 then false
    else failureCount < MaxRetries
  }

  /** The `retry: false` option of mutations. */
  function RetryMutation(failureCount: int, status: Option<int>): (r: bool)
    ensures !r
  {
    false
  }

  /** Client errors are never retried; other errors -- including one with no
    * response -- are retried until the third failure. */
  lemma RetryQueryIff(failureCount: int, status: Option<int>)
    ensures status.Some? && 400 <= status.value < 500 ==> !RetryQuery(failureCount, status)
    ensures !(status.Some? && 400 <= status.value < 500) ==>
      (RetryQuery(failureCount, status) <==> failureCount < 3)
    ensures RetryQuery(failureCount, None) <==> failureCount < 3
  {
  }

  /** Once a query's retry is refused it stays refused for later failures. */
  lemma RefusalIsFinal(n: int, m: int, status: Option<int>)
    requires n <= m && !RetryQuery(n, status)
    ensures !RetryQuery(m, status)
  {
  }

  /** Mutations are never retried. */
  lemma MutationsNeverRetry(failureCount: int, status: Option<int>)
    ensures !RetryMutation(failureCount, status)
  {
  }
}
