// The quota bookkeeping that the Gemini and OpenRouter providers share:
// the two attributes `quota_exceeded` and `last_error_time`, set by a quota
// error, cleared by a successful reply, by `reset_quota_status`, and by
// `is_available` once the cooldown has passed. The clock reading
// `time.time()` is the parameter `now`, in seconds.

module Quotas {
  import opened Base
  import opened Config
  import opened AiUtils

  /** `quota_exceeded` and `last_error_time` (None is Python's None). */
  datatype Quota = Quota(exceeded: bool, lastErrorTime: Option<real>)

  /** Both attributes as `__init__` and `reset_quota_status` leave them. */
  const Clear := Quota(false, None)

  /** QUOTA_COOLDOWN_HOURS * 3600. */
  const Cooldown: real := QuotaCooldownSeconds as real

  /** Python truthiness of `last_error_time`: a float other than 0.0. */
  predicate Stamped(t: Option<real>)
  {
    t.Some? && t.value != 0.0
  }

  /** `is_available`: the answer, and the attributes afterwards. */
  function Availability(q: Quota, now: real): (bool, Quota)
  {
    if q.exceeded && Stamped(q.lastErrorTime) then
      if now - q.lastErrorTime.value > Cooldown then (true, Clear) else (false, q)
    else
      (!q.exceeded, q)
  }

  /** A successful reply clears the flag and the time, when the flag is set. */
  function AfterSuccess(q: Quota): Quota
  {
    if q.exceeded then Clear else q
  }

  /** The `except` clause of generate_content: a quota error sets the flag and stamps the time. */
  function AfterError(q: Quota, message: string, now: real): Quota
  {
    if IsQuotaError(message) then Quota(true, Some(now)) else q
  }

  /** The flag is set exactly when a time is recorded. */
  predicate Consistent(q: Quota)
  {
    q.exceeded <==> q.lastErrorTime.Some?
  }

  /** Every transition keeps the flag and the time together, and after a success the flag is down. */
  lemma TransitionsConsistent(q: Quota, message: string, now: real)
    requires Consistent(q)
    ensures Consistent(Availability(q, now).1) && Consistent(AfterSuccess(q)) && Consistent(AfterError(q, message, now))
    ensures !AfterSuccess(q).exceeded
  {
  }

  /**
   * After a quota error at time t (other than 0.0) the provider is
   * unavailable up to t + cooldown, and available afterwards, when the
   * check clears both attributes.
   */
  lemma CooldownAfterQuotaError(q: Quota, message: string, t: real, now: real)
    requires IsQuotaError(message) && t != 0.0
    ensures var (ok, q') := Availability(AfterError(q, message, t), now);
      (ok <==> now - t > Cooldown) && (ok ==> q' == Clear) && (!ok ==> q' == Quota(true, Some(t)))
  {
  }

  /**
   * The answer of is_available is the one a second call at the same time
   * gives, and that call changes nothing; a true answer leaves the flag down.
   */
  lemma AvailabilityStable(q: Quota, now: real)
    ensures var (ok, q') := Availability(q, now);
      Availability(q', now) == (ok, q') && (ok <==> !q'.exceeded)
  {
  }

  /** An error that is not about quota leaves both attributes as they were. */
  lemma OtherErrorsKeepQuota(q: Quota, message: string, now: real)
    requires !IsQuotaError(message)
    ensures AfterError(q, message, now) == q
  {
  }

  /** get_optimal_batch_size: five more for descriptions. */
  function OptimalBatchSize(base: int, operation: string): (r: int)
    ensures operation == "description" ==> r == base + 5
    ensures operation != "description" ==> r == base
  {
    if operation == "description" then base + 5 else base
  }
}
