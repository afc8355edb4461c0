/**
 * `get_stock_info(symbol, max_retries=5, initial_delay=5)` of `stockApi/test_1.py`:
 * fetch a ticker's info, retrying rate-limit errors with exponential backoff.
 *
 * The fetch is the function `fetch`: `fetch(a)` is what attempt `a` (from 0)
 * gives. Sleeps are recorded in seconds, fractions allowed, instead of slept.
 */
module StockInfoRetry {
  import opened Common

  /** What one `yf.Ticker(symbol).info` does. */
  datatype Fetch<T> = Fetched(info: T) | RateLimited | OtherError(message: string)

  const DefaultMaxRetries: int := 5
  /** Seconds before the second attempt. */
  const DefaultInitialDelay: real := 5.0

  /** `2 ** n`. */
  function Pow2(n: nat): (p: nat)
    ensures p >= 1
  {
    if n == 0 then 1 else 2 * Pow2(n - 1)
  }

  /** The backoff doubles from one attempt to the next. */
  lemma BackoffDoubles(initialDelay: real, a: nat)
    ensures initialDelay * (Pow2(a + 1) as real) == 2.0 * (initialDelay * (Pow2(a) as real))
  {
  }

  /**
   * The loop: the first fetched info is returned at once; a rate-limit error
   * sleeps `initial_delay * 2 ** attempt` and retries unless it was the last
   * attempt, which gives `None`; any other error gives `None` at once.
   *
   * `time.sleep` refuses a negative delay with a `ValueError`, raised inside the
   * `except` clause and so out of the function: `sleepRaised` says the first
   * rate-limit error, with a negative `initial_delay`, ended the call that way.
   */
  method GetStockInfo<T>(fetch: nat -> Fetch<T>, maxRetries: int, initialDelay: real)
    returns (r: Option<T>, attempts: nat, sleeps: seq<real>, sleepRaised: bool)
    ensures attempts <= if maxRetries <= 0 then 0 else maxRetries
    ensures maxRetries <= 0 ==> r == None && attempts == 0
    ensures maxRetries > 0 ==> attempts >= 1
    ensures forall a :: 0 <= a < attempts - 1 ==> fetch(a) == RateLimited
    ensures r.Some? <==> attempts >= 1 && fetch(attempts - 1).Fetched?
    ensures r.Some? ==> r.value == fetch(attempts - 1).info
    ensures sleepRaised <==> initialDelay < 0.0 && maxRetries > 1 && fetch(0) == RateLimited
    ensures sleepRaised ==> r == None && attempts == 1
    ensures attempts >= 1 && fetch(attempts - 1) == RateLimited && !sleepRaised ==> attempts == maxRetries
    ensures |sleeps| == if attempts == 0 then 0 else attempts - 1
    ensures forall a :: 0 <= a < |sleeps| ==> sleeps[a] == initialDelay * (Pow2(a) as real) && sleeps[a] >= 0.0
  {
    sleepRaised := false;
    sleeps := [];
    attempts := 0;
    var attempt := 0;
    while attempt < maxRetries
      invariant 0 <= attempt && attempts == attempt
      invariant maxRetries > 0 ==> attempt < maxRetries
      invariant maxRetries <= 0 ==> attempt == 0
      invariant forall a :: 0 <= a < attempt ==> fetch(a) == RateLimited
      invariant |sleeps| == attempt
      invariant forall a :: 0 <= a < |sleeps| ==> sleeps[a] == initialDelay * (Pow2(a) as real) && sleeps[a] >= 0.0
      invariant attempt > 0 ==> initialDelay >= 0.0
      invariant !sleepRaised
      decreases maxRetries - attempt
    {
      var outcome := fetch(attempt);
      attempts := attempts + 1;
      match outcome {
        case Fetched(info) =>
          return Some(info), attempts, sleeps, false;
        case RateLimited =>
          if attempt < maxRetries - 1 {
            var delay := initialDelay * (Pow2(attempt) as real);
            if delay < 0.0 {
              return None, attempts, sleeps, true;
            }
            sleeps := sleeps + [delay];
          } else {
            return None, attempts, sleeps, false;
          }
        case OtherError(_) =>
          return None, attempts, sleeps, false;
      }
      attempt := attempt + 1;
    }
    r := None;
  }

  /** With the defaults and a provider that keeps rate-limiting: five attempts, sleeping 5, 10, 20 and 40 seconds. */
  method AlwaysRateLimited()
  {
    var r, attempts, sleeps, raised := GetStockInfo<int>((a: nat) => RateLimited, DefaultMaxRetries, DefaultInitialDelay);
    assert attempts == 5 && r == None && !raised;
    assert Pow2(3) == 8;
    assert sleeps == [5.0, 10.0, 20.0, 40.0];
  }
}
