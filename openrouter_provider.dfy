// ai_scholar/providers/ai/openrouter_provider.py: the quota attributes of
// the OpenRouter back-end. The HTTP exchange is a parameter: the status
// code and the first choice's message content, or the exception that the
// request or the JSON decoding raised.

module OpenRouterProviders {
  import opened Base
  import opened Text
  import opened Config
  import opened AiUtils
  import opened Quotas

  /** What `requests.post` gives: a status with the first choice's content (None without choices), or an exception. */
  datatype Exchange = Http(status: int, content: Option<string>) | Raised(message: string)

  /** The exception the 429 branch raises. */
  const RateLimitMessage: string := "Rate limit exceeded"

  /** generate_content: the quota attributes afterwards, and the content, None, or the raised error. */
  function Generated(q: Quota, exchange: Exchange, now: real): (Quota, Result<Option<string>>)
  {
    match exchange
    case Http(status, content) =>
      if status == 200 then
        if content.Some? && Strip(content.value) != [] then (AfterSuccess(q), Ok(Some(Strip(content.value))))
        else (q, Ok(None))
      else if status == 429 then (AfterError(Quota(true, Some(now)), RateLimitMessage, now), Err(RateLimitMessage))
      else (q, Ok(None))
    case Raised(m) => (AfterError(q, m, now), Err(m))
  }

  /**
   * A 429 reply raises with both attributes set to the current time, a
   * non-blank 200 reply is returned stripped with the flag down, and every
   * other status returns None and changes nothing.
   */
  lemma GeneratedOutcomes(q: Quota, exchange: Exchange, now: real)
    ensures exchange.Http? && exchange.status == 429 ==>
      Generated(q, exchange, now) == (Quota(true, Some(now)), Err(RateLimitMessage))
    ensures var (q', r) := Generated(q, exchange, now);
      r.Ok? && r.value.Some? ==> !q'.exceeded && r.value.value != [] && exchange.Http? && exchange.status == 200
    ensures exchange.Http? && exchange.status != 200 && exchange.status != 429 ==>
      Generated(q, exchange, now) == (q, Ok(None))
    ensures Consistent(q) ==> Consistent(Generated(q, exchange, now).0)
  {
  }

  class OpenRouterProvider {
    var quotaExceeded: bool
    var lastErrorTime: Option<real>
    const batchSize: int

    function State(): Quota
      reads this
    {
      Quota(quotaExceeded, lastErrorTime)
    }

    constructor ()
      ensures State() == Clear && batchSize == OpenRouterBatchSize
    {
      quotaExceeded := false;
      lastErrorTime := None;
      batchSize := OpenRouterBatchSize;
    }

    /** generate_content, with the HTTP exchange as a parameter. */
    method GenerateContent(exchange: Exchange, now: real) returns (r: Result<Option<string>>)
      modifies this
      ensures (State(), r) == Generated(old(State()), exchange, now)
    {
      match exchange
      case Http(status, content) =>
        if status == 200 {
          if content.Some? {
            var text := Strip(content.value);
            if text != [] {
              if quotaExceeded {
                quotaExceeded := false;
                lastErrorTime := None;
              }
              return Ok(Some(text));
            }
          }
        } else if status == 429 {
          quotaExceeded := true;
          lastErrorTime := Some(now);
          // the raised "Rate limit exceeded" reaches the except clause
          if IsQuotaError(RateLimitMessage) {
            quotaExceeded := true;
            lastErrorTime := Some(now);
          }
          return Err(RateLimitMessage);
        }
        return Ok(None);
      case Raised(m) =>
        if IsQuotaError(m) {
          quotaExceeded := true;
          lastErrorTime := Some(now);
        }
        return Err(m);
    }

    /** is_available. */
    method IsAvailable(now: real) returns (ok: bool)
      modifies this
      ensures (ok, State()) == Availability(old(State()), now)
    {
      if quotaExceeded && lastErrorTime.Some? && lastErrorTime.value != 0.0 {
        if now - lastErrorTime.value > Cooldown {
          quotaExceeded := false;
          lastErrorTime := None;
          return true;
        }
        return false;
      }
      return !quotaExceeded;
    }

    method ResetQuotaStatus()
      modifies this
      ensures State() == Clear
    {
      quotaExceeded := false;
      lastErrorTime := None;
    }

    function GetOptimalBatchSize(operation: string): int
      reads this
    {
      OptimalBatchSize(batchSize, operation)
    }
  }

  /** A 429 makes the provider unavailable for exactly the cooldown that follows it. */
  lemma RateLimitCooldown(q: Quota, t: real, now: real)
    requires t != 0.0
    ensures var q' := Generated(q, Http(429, None), t).0;
      Availability(q', now).0 <==> now - t > Cooldown
  {
  }
}
