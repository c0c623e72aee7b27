/**
 * `ErrorHandler` of tale-weaver: retrying an operation with a doubling delay, and normalising
 * whatever an operation throws into an `AppError`. An operation is given by its outcomes: call
 * number `i` (from 0) either returns a value or throws.
 */
module ErrorHandler {
  import opened Wrappers

  const UnknownErrorCode := "UNKNOWN_ERROR"
  const UnknownErrorMessage := "An unknown error occurred"

  /** `new AppError(message, code = "UNKNOWN_ERROR")`. */
  datatype AppError = AppError(message: string, code: string)

  /** What an operation may throw: an `AppError`, another `Error`, or a value that is not an `Error`. */
  datatype Thrown = ThrownApp(app: AppError) | ThrownError(message: string) | ThrownOther

  /** `handleError`: an `AppError` passes through, an `Error` keeps its message, anything else gets a fixed one. */
  function HandleError(error: Thrown): (e: AppError)
    ensures error.ThrownApp? ==> e == error.app
    ensures error.ThrownError? ==> e == AppError(error.message, UnknownErrorCode)
    ensures error.ThrownOther? ==> e == AppError(UnknownErrorMessage, UnknownErrorCode)
  {
    match error
    case ThrownApp(app) => app
    case ThrownError(message) => AppError(message, UnknownErrorCode)
    case ThrownOther => AppError(UnknownErrorMessage, UnknownErrorCode)
  }

  /** Normalising twice is normalising once. */
  lemma HandleErrorIdempotent(error: Thrown)
    ensures HandleError(ThrownApp(HandleError(error))) == HandleError(error)
  {
  }

  /** `withErrorHandling`: the operation's value, or the normalised error rethrown. */
  function WithErrorHandling<T>(outcome: Result<T, Thrown>): (r: Result<T, AppError>)
    ensures outcome.Ok? <==> r.Ok?
    ensures outcome.Ok? ==> r.value == outcome.value
    ensures outcome.Err? ==> r.error == HandleError(outcome.error)
  {
    match outcome
    case Ok(v) => Ok(v)
    case Err(e) => Err(HandleError(e))
  }

  /** What `withRetry` does: its result, how many calls it made, and the delays it waited, in order. */
  datatype Retried<T> = Retried(result: Result<T, Thrown>, calls: nat, delays: seq<int>)

  /**
   * `withRetry(fn, retries, delay)`, starting at call number `first`: a success is returned at once;
   * a failure is rethrown when no retries are left, and otherwise is followed by a wait of `delay`
   * and a retry with one retry less and twice the delay.
   */
  function WithRetry<T>(outcome: nat -> Result<T, Thrown>, first: nat, retries: nat, delay: int): (r: Retried<T>)
    ensures 1 <= r.calls <= retries + 1
    ensures |r.delays| == r.calls - 1
    ensures r.result == outcome(first + r.calls - 1)
    ensures forall j :: first <= j < first + r.calls - 1 ==> outcome(j).Err?
    ensures r.result.Err? ==> r.calls == retries + 1
    decreases retries
  {
    match outcome(first)
    case Ok(v) => Retried(Ok(v), 1, [])
    case Err(e) =>
      if retries == 0 then Retried(Err(e), 1, [])
      else
        var rest := WithRetry(outcome, first + 1, retries - 1, delay * 2);
        Retried(rest.result, rest.calls + 1, [delay] + rest.delays)
  }

  function Pow2(n: nat): (p: nat)
    ensures p >= 1
  {
    if n == 0 then 1 else 2 * Pow2(n - 1)
  }

  /** The `i`-th wait is the initial delay doubled `i` times. */
  lemma {:induction false} RetryDelays<T>(outcome: nat -> Result<T, Thrown>, first: nat, retries: nat, delay: int, i: nat)
    requires i < |WithRetry(outcome, first, retries, delay).delays|
    ensures WithRetry(outcome, first, retries, delay).delays[i] == delay * Pow2(i)
    decreases retries
  {
    if i > 0 {
      RetryDelays(outcome, first + 1, retries - 1, delay * 2, i - 1);
    }
  }

  const DefaultRetries: nat := 3
  const DefaultDelay: int := 1000

  /** `withRetry(fn)` with its default arguments: at most four calls, waiting 1000, 2000 and 4000 ms between them. */
  function WithDefaultRetry<T>(outcome: nat -> Result<T, Thrown>): (r: Retried<T>)
    ensures 1 <= r.calls <= 4
    ensures r.result.Err? ==> r.calls == 4
    ensures r.delays == [1000, 2000, 4000][..r.calls - 1]
  {
    DefaultDelays(outcome);
    WithRetry(outcome, 0, DefaultRetries, DefaultDelay)
  }

  /** With the defaults, the waits are 1000, 2000 and 4000 ms, as many as there were retries. */
  lemma DefaultDelays<T>(outcome: nat -> Result<T, Thrown>)
    ensures var r := WithRetry(outcome, 0, DefaultRetries, DefaultDelay);
      r.delays == [1000, 2000, 4000][..r.calls - 1]
  {
    var r := WithRetry(outcome, 0, DefaultRetries, DefaultDelay);
    forall i | 0 <= i < |r.delays| ensures r.delays[i] == [1000, 2000, 4000][i] {
      RetryDelays(outcome, 0, DefaultRetries, DefaultDelay, i);
      assert Pow2(1) == 2 && Pow2(2) == 4;
    }
  }

  /** The result is the first success among the first `retries + 1` calls, or the last failure when there is none. */
  lemma {:induction false} RetryFirstSuccess<T>(outcome: nat -> Result<T, Thrown>, first: nat, retries: nat, delay: int, k: nat)
    requires k <= retries && outcome(first + k).Ok?
    requires forall j :: first <= j < first + k ==> outcome(j).Err?
    ensures WithRetry(outcome, first, retries, delay).result == outcome(first + k)
    ensures WithRetry(outcome, first, retries, delay).calls == k + 1
    decreases retries
  {
    if k > 0 {
      assert outcome(first).Err?;
      RetryFirstSuccess(outcome, first + 1, retries - 1, delay * 2, k - 1);
    }
  }

  /** When every call fails, `withRetry` makes `retries + 1` calls and rethrows the last error. */
  lemma {:induction false} RetryAllFail<T>(outcome: nat -> Result<T, Thrown>, first: nat, retries: nat, delay: int)
    requires forall j :: first <= j <= first + retries ==> outcome(j).Err?
    ensures WithRetry(outcome, first, retries, delay).result == outcome(first + retries)
    ensures WithRetry(outcome, first, retries, delay).calls == retries + 1
    decreases retries
  {
    assert outcome(first).Err?;
    if retries > 0 {
      RetryAllFail(outcome, first + 1, retries - 1, delay * 2);
    }
  }
}
