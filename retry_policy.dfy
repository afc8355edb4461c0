/**
 * `retryApiCall` and `isRetryableError` of the quote services in `src/` (the
 * two copies, `src/services/yahooFinanceService.js` and
 * `src/yahooFinanceService.js`, are the same code).
 *
 * The API call is the function `apiCall`: `apiCall(i)` is what the i-th call
 * (from 0) resolves or rejects with. Waits are recorded in milliseconds
 * instead of slept.
 */
module RetryPolicy {
  import opened Text

  /** What one call of the API does. */
  datatype Attempt<T> = Resolved(value: T) | Rejected(message: string)

  /** How `retryApiCall` ends: a value, a rethrown error, or `undefined` when the loop never runs. */
  datatype RetryOutcome<T> = Returned(value: T) | Rethrown(message: string) | NoAttempt

  /** The default `maxRetries`. */
  const DefaultMaxRetries: int := 3
  /** The default `delay`, in milliseconds. */
  const DefaultDelayMs: int := 1000

  /** The error messages worth another attempt, matched case-insensitively. */
  const RetryablePatterns: seq<string> :=
    ["status 403", "Forbidden", "Failed to get crumb", "timeout", "ECONNRESET", "ENOTFOUND"]

  /** `patterns.some(p => text.includes(p.toLowerCase()))`. */
  function SomeIncluded(text: string, patterns: seq<string>): (b: bool)
  {
    if patterns == [] then false
    else Includes(text, Lower(patterns[0])) || SomeIncluded(text, patterns[1..])
  }

  /** `isRetryableError(error)`, on the error's message. */
  function IsRetryableError(message: string): bool
  {
    SomeIncluded(Lower(message), RetryablePatterns)
  }

  /** The check succeeds exactly on the patterns that occur, ignoring case, somewhere in the message. */
  lemma {:induction false} SomeIncludedIff(text: string, patterns: seq<string>)
    ensures SomeIncluded(text, patterns) <==> exists k, i :: 0 <= k < |patterns| && OccursAt(text, Lower(patterns[k]), i)
  {
    if patterns != [] {
      IncludesIff(text, Lower(patterns[0]));
      SomeIncludedIff(text, patterns[1..]);
      if exists k, i :: 0 <= k < |patterns| && OccursAt(text, Lower(patterns[k]), i) {
        var k, i :| 0 <= k < |patterns| && OccursAt(text, Lower(patterns[k]), i);
        if k > 0 {
          assert patterns[1..][k - 1] == patterns[k];
        }
      }
      if exists k, i :: 0 <= k < |patterns[1..]| && OccursAt(text, Lower(patterns[1..][k]), i) {
        var k, i :| 0 <= k < |patterns[1..]| && OccursAt(text, Lower(patterns[1..][k]), i);
        assert OccursAt(text, Lower(patterns[k + 1]), i);
      }
    }
  }

  /** An error is retryable iff one listed pattern occurs in its message, both lower-cased. */
  lemma RetryableIff(message: string)
    ensures IsRetryableError(message) <==>
              exists k, i :: 0 <= k < |RetryablePatterns| && OccursAt(Lower(message), Lower(RetryablePatterns[k]), i)
  {
    SomeIncludedIff(Lower(message), RetryablePatterns);
  }

  /** Case does not matter: a message and its lower-cased form are classified alike. */
  lemma RetryableIgnoresCase(message: string)
    ensures IsRetryableError(Lower(message)) == IsRetryableError(message)
  {
    LowerIdempotent(message);
  }

  /** A message that ends with a 403 status is retryable. */
  lemma Status403IsRetryable(prefix: string)
    ensures IsRetryableError(prefix + "status 403")
  {
    var m := Lower(prefix + "status 403");
    assert Lower(RetryablePatterns[0]) == "status 403";
    assert m[|prefix|..|prefix| + 10] == "status 403";
    assert OccursAt(m, Lower(RetryablePatterns[0]), |prefix|);
    RetryableIff(prefix + "status 403");
  }

  /**
   * `retryApiCall(apiCall, maxRetries, delay)`: call until a call resolves, an
   * error is not retryable, or the last of `maxRetries` attempts fails; before
   * attempt `i > 0` wait `delay * i`.
   */
  method RetryApiCall<T>(apiCall: nat -> Attempt<T>, maxRetries: int, delay: int)
    returns (r: RetryOutcome<T>, calls: nat, waits: seq<int>)
    ensures r.NoAttempt? <==> maxRetries <= 0
    ensures r.NoAttempt? ==> calls == 0
    ensures !r.NoAttempt? ==> 1 <= calls <= maxRetries
    ensures forall i :: 0 <= i < calls - 1 ==> apiCall(i).Rejected? && IsRetryableError(apiCall(i).message)
    ensures r.Returned? ==> apiCall(calls - 1) == Resolved(r.value)
    ensures r.Rethrown? ==> apiCall(calls - 1) == Rejected(r.message)
                            && (calls == maxRetries || !IsRetryableError(r.message))
    ensures |waits| == if calls == 0 then 0 else calls - 1
    ensures forall i :: 0 <= i < |waits| ==> waits[i] == delay * (i + 1)
  {
    calls := 0;
    waits := [];
    var i := 0;
    while i < maxRetries
      invariant 0 <= i && calls == i
      invariant maxRetries > 0 ==> i < maxRetries
      invariant maxRetries <= 0 ==> i == 0
      invariant forall j :: 0 <= j < i ==> apiCall(j).Rejected? && IsRetryableError(apiCall(j).message)
      invariant |waits| == if i == 0 then 0 else i - 1
      invariant forall j :: 0 <= j < |waits| ==> waits[j] == delay * (j + 1)
      decreases maxRetries - i
    {
      if i > 0 {
        waits := waits + [delay * i];
      }
      var attempt := apiCall(i);
      calls := calls + 1;
      match attempt {
        case Resolved(v) =>
          return Returned(v), calls, waits;
        case Rejected(m) =>
          if i == maxRetries - 1 || !IsRetryableError(m) {
            return Rethrown(m), calls, waits;
          }
      }
      i := i + 1;
    }
    r := NoAttempt;
  }

  /** With the defaults, a provider that always answers 403 is called three times, waiting 1000 then 2000 ms. */
  method AlwaysForbidden()
  {
    var message := "Request failed with " + "status 403";
    Status403IsRetryable("Request failed with ");
    var r, calls, waits := RetryApiCall<int>((i: nat) => Rejected(message), DefaultMaxRetries, DefaultDelayMs);
    assert calls == 3 && r == Rethrown(message);
    assert waits == [1000, 2000];
  }
}
