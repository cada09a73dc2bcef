// When a failure means "the server never answered" and when a request is sent again
// (washnpress-mobile/src/api/request-rules.ts).
module RequestRules {
  import opened Prelude

  const MAX_ATTEMPTS: nat := 3
  const NETWORK_ERROR_CODE := "network_unreachable"
  const TIMEOUT_ERROR_CODE := "network_timeout"

  // A thrown value, seen structurally: only its `code` matters, and it may have none.
  datatype Failure = Failure(code: Option<string>)

  predicate IsConnectivityFailure(error: Failure) {
    error.code == Some(NETWORK_ERROR_CODE) || error.code == Some(TIMEOUT_ERROR_CODE)
  }

  // `isRead` is whether the method, upper-cased, is GET.
  predicate ShouldRetry(isRead: bool, attempt: nat, error: Failure) {
    attempt < MAX_ATTEMPTS && IsConnectivityFailure(error) && isRead
  }

  function Pow2(n: nat): (r: nat)
    ensures r >= 1
  {
    if n == 0 then 1 else 2 * Pow2(n - 1)
  }

  function RetryDelayMs(attempt: nat): nat
    requires attempt >= 1
  {
    300 * Pow2(attempt - 1)
  }
}
