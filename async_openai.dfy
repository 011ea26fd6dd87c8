/** evoselfcode/clients/async_openai.py: the base-URL normalisation done by
    the client's constructor and the exponential-backoff retry loop around
    every remote call. The remote call itself is a given per-attempt outcome;
    sleeping is recorded as the list of delays requested. */
module AsyncOpenAI {
  import opened Text

  /** The base URL handed to the OpenAI client: trailing `/` removed, then
      `/v1` appended unless already there. */
  function NormalizeBaseUrl(baseUrl: string): (r: string)
    ensures EndsWith(r, "/v1")
  {
    var u := RStripChar(baseUrl, '/');
    if EndsWith(u, "/v1") then u else u + "/v1"
  }

  /** Normalising keeps the URL without its trailing slashes and adds at
      most `/v1`; a URL already ending in `/v1` is kept as it is. */
  lemma NormalizeExtends(baseUrl: string)
    ensures var u := RStripChar(baseUrl, '/');
      var r := NormalizeBaseUrl(baseUrl);
      u <= r && |r| <= |u| + 3 && (EndsWith(u, "/v1") ==> r == u)
  {
  }

  /** When `/v1` is appended, what precedes it has no trailing `/`. */
  lemma NoSlashBeforeSuffix(baseUrl: string)
    requires !EndsWith(RStripChar(baseUrl, '/'), "/v1")
    ensures var r := NormalizeBaseUrl(baseUrl);
      var head := r[..|r| - 3];
      head == [] || head[|head| - 1] != '/'
  {
    var r := NormalizeBaseUrl(baseUrl);
    assert r[..|r| - 3] == RStripChar(baseUrl, '/');
  }

  /** Normalising an already normalised URL changes nothing. */
  lemma NormalizeIdempotent(baseUrl: string)
    ensures NormalizeBaseUrl(NormalizeBaseUrl(baseUrl)) == NormalizeBaseUrl(baseUrl)
  {
    var r := NormalizeBaseUrl(baseUrl);
    assert r[|r| - 1] == '1';
    assert RStripChar(r, '/') == r;
  }

  /** The outcome of one attempt of the wrapped call. */
  datatype Attempt<T> = Success(value: T) | Failure(error: string)

  /** What `_retry_call` does in the end: return a value, re-raise the last
      exception, or fall off the loop and return `None` when it makes no
      attempt at all. */
  datatype RetryResult<T> = Returned(value: T) | Raised(error: string) | NoAttempt

  /** `2 ** a`, which outgrows `a`. */
  function Pow2(a: nat): (p: nat)
    ensures p >= 1 && p > a
  {
    if a == 0 then 1 else 2 * Pow2(a - 1)
  }

  /** The backoff slept after failed attempt `a`: `2 ** a + 0.1 * (a + 1)` seconds. */
  function Backoff(a: nat): real {
    Pow2(a) as real + (a + 1) as real / 10.0
  }

  /** The backoff is exponential: the delay after attempt `a + 1` is more
      than twice the whole seconds of the delay after attempt `a`, and more
      than that delay itself. */
  lemma BackoffGrows(a: nat)
    ensures Backoff(a + 1) > 2.0 * Pow2(a) as real
    ensures Backoff(a + 1) > Backoff(a)
  {
    assert Pow2(a + 1) == 2 * Pow2(a);
  }

  /** `_retry_call(fn)` with `fn`'s behaviour on attempt `a` given as
      `attempt(a)`. It reports how many calls were made and the delays it
      slept, in order. */
  method RetryCall<T>(maxRetries: int, attempt: nat -> Attempt<T>) returns (result: RetryResult<T>, calls: nat, delays: seq<real>)
    ensures maxRetries <= 0 ==> result == NoAttempt && calls == 0
    ensures maxRetries > 0 ==> 1 <= calls <= maxRetries
    ensures forall a :: 0 <= a < calls - 1 ==> attempt(a).Failure?
    ensures result.Returned? <==> (calls >= 1 && attempt(calls - 1).Success?)
    ensures result.Returned? ==> result.value == attempt(calls - 1).value
    ensures result.Raised? ==> calls == maxRetries && attempt(calls - 1).Failure? && result.error == attempt(calls - 1).error
    ensures result.Returned? <==> (exists a :: 0 <= a < maxRetries && attempt(a).Success?)
    ensures result.Raised? <==> (maxRetries > 0 && forall a :: 0 <= a < maxRetries ==> attempt(a).Failure?)
    ensures |delays| == if calls == 0 then 0 else calls - 1
    ensures forall a :: 0 <= a < |delays| ==> delays[a] == Backoff(a)
  {
    calls := 0;
    delays := [];
    var a := 0;
    while a < maxRetries
      invariant 0 <= a && (maxRetries > 0 ==> a < maxRetries) && (maxRetries <= 0 ==> a == 0)
      invariant calls == a && |delays| == a
      invariant forall i :: 0 <= i < a ==> attempt(i).Failure?
      invariant forall i :: 0 <= i < a ==> delays[i] == Backoff(i)
      decreases maxRetries - a
    {
      calls := calls + 1;
      var outcome := attempt(a);
      if outcome.Success? {
        return Returned(outcome.value), calls, delays;
      }
      if a < maxRetries - 1 {
        delays := delays + [Backoff(a)];
      } else {
        return Raised(outcome.error), calls, delays;
      }
      a := a + 1;
    }
    return NoAttempt, calls, delays;
  }
}
