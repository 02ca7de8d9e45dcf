/**
  The control flow of `fetchWithRetry`: up to `retries` calls of the
  transport, the first successful response returned at once, the last error
  rethrown, and a linearly growing wait after every other failure. The
  transport is abstract: `transport(i)` is what the `i`-th call of `fetch`
  yields, and each wait is recorded instead of slept.
 */
module Retry {

  /** An HTTP response; `response.ok` is a status in 200..299. */
  datatype Response = Response(status: int)
  {
    predicate Ok()
    {
      200 <= status <= 299
    }
  }

  /** What one `fetch` call yields: a response, or a rejected promise. */
  datatype Attempt = Answered(response: Response) | Rejected(reason: string)

  /** The error `fetchWithRetry` can throw: the rejection of `fetch`, or `HTTP <status>`. */
  datatype FetchError = NetworkError(reason: string) | HttpError(status: int)

  /** How a `fetchWithRetry` call ends. */
  datatype RetryOutcome =
    | Returned(response: Response)
    | Threw(error: FetchError)
    | ReturnedUndefined

  predicate Succeeded(a: Attempt)
  {
    a.Answered? && a.response.Ok()
  }

  /** The error caught for a failed attempt. */
  function ErrorOf(a: Attempt): (e: FetchError)
    requires !Succeeded(a)
    ensures a.Rejected? ==> e == NetworkError(a.reason)
    ensures a.Answered? ==> e == HttpError(a.response.status)
  {
    match a
    case Rejected(reason) => NetworkError(reason)
    case Answered(response) => HttpError(response.status)
  }

  /** The wait after failed attempt `i` (0-based), in milliseconds. */
  function Backoff(i: nat): nat
  {
    1000 * (i + 1)
  }

  /**
    `fetchWithRetry(url, options, retries)`. `attempts` counts the calls made
    and `delays` lists the waits in order.
   */
  method FetchWithRetry(transport: nat -> Attempt, retries: int)
    returns (outcome: RetryOutcome, attempts: nat, delays: seq<nat>)
    ensures outcome.ReturnedUndefined? <==> retries <= 0
    ensures retries <= 0 ==> attempts == 0 && delays == []
    ensures retries > 0 ==> 1 <= attempts <= retries
    ensures forall i :: 0 <= i < attempts - 1 ==> !Succeeded(transport(i))
    ensures outcome.Returned? ==>
              Succeeded(transport(attempts - 1)) && outcome.response == transport(attempts - 1).response
    ensures outcome.Threw? ==>
              attempts == retries && !Succeeded(transport(attempts - 1)) &&
              outcome.error == ErrorOf(transport(attempts - 1))
    ensures |delays| == if attempts == 0 then 0 else attempts - 1
    ensures forall j :: 0 <= j < |delays| ==> delays[j] == Backoff(j)
  {
    outcome, attempts, delays := ReturnedUndefined, 0, [];
    var i := 0;
    while i < retries
      invariant 0 <= i && (retries <= 0 ==> i == 0) && (retries > 0 ==> i < retries)
      invariant attempts == i
      invariant forall k :: 0 <= k < i ==> !Succeeded(transport(k))
      invariant |delays| == i
      invariant forall j :: 0 <= j < |delays| ==> delays[j] == Backoff(j)
      decreases retries - i
    {
      var a := transport(i);
      attempts := i + 1;
      if Succeeded(a) {
        outcome := Returned(a.response);
        return;
      }
      if i == retries - 1 {
        outcome := Threw(ErrorOf(a));
        return;
      }
      delays := delays + [Backoff(i)];
      i := i + 1;
    }
  }

  /**
    With the default two retries, a transport that fails twice and would
    succeed on the third call makes the call throw the second failure: only
    two attempts are made.
   */
  method TwoFailuresThenSuccess()
  {
    var transport := (i: nat) => if i < 2 then Rejected("offline") else Answered(Response(200));
    var outcome, attempts, delays := FetchWithRetry(transport, 2);
    assert !Succeeded(transport(1));
    assert outcome == Threw(NetworkError("offline"));
    assert attempts == 2 && delays == [1000];
  }
}
