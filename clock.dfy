/**
 * Carbon arithmetic on an integer clock counting seconds. A month is taken as 30 days.
 */
module Clock {
  import opened Wrappers

  const SecondsPerDay: int := 86400

  /** `now()->addDays(n)`. */
  function AddDays(now: int, days: int): int {
    now + days * SecondsPerDay
  }

  /** `now()->addMonths(n)`, with 30-day months. */
  function AddMonths(now: int, months: int): int {
    AddDays(now, 30 * months)
  }

  /** `$at && $at->isPast()`: an expiry that lies strictly before now. */
  predicate Expired(expiresAt: Option<int>, now: int) {
    expiresAt.Some? && expiresAt.value < now
  }

  /**
   * `getDaysUntilExpiration`: no answer without an expiry; otherwise the whole days left,
   * never negative.
   */
  function DaysUntilExpiration(expiresAt: Option<int>, now: int): (r: Option<int>)
    ensures r.None? <==> expiresAt.None?
    ensures r.Some? ==> r.value >= 0
    ensures r.Some? && expiresAt.value <= now ==> r.value == 0
    ensures r.Some? && expiresAt.value > now ==>
      r.value * SecondsPerDay <= expiresAt.value - now < (r.value + 1) * SecondsPerDay
  {
    if expiresAt.None? then None
    else if expiresAt.value <= now then Some(0)
    else Some((expiresAt.value - now) / SecondsPerDay)
  }

  /** `isAboutToExpire(w)`: an expiry at most `w` whole days away. */
  predicate AboutToExpire(expiresAt: Option<int>, warningDays: int, now: int)
    ensures AboutToExpire(expiresAt, warningDays, now) <==>
      DaysUntilExpiration(expiresAt, now).Some? && DaysUntilExpiration(expiresAt, now).value <= warningDays
  {
    var days := DaysUntilExpiration(expiresAt, now);
    days != None && days.value <= warningDays
  }

  /** An expired record is always about to expire, for any non-negative warning window. */
  lemma ExpiredIsAboutToExpire(expiresAt: Option<int>, warningDays: int, now: int)
    requires Expired(expiresAt, now) && warningDays >= 0
    ensures AboutToExpire(expiresAt, warningDays, now)
  {
  }
}
