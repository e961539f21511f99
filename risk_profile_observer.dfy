/**
 * RiskProfileObserver: the hooks Eloquent runs around saving a risk profile. They fill
 * in timestamps, dispatch events and keep the per-user cache entries coherent.
 */
module ProfileObserver {
  import opened Wrappers
  import opened Text
  import opened TtlCache
  import opened Clock
  import opened RiskProfiles

  /** `verification.expiry_months` as the observer reads it, with its default of 12. */
  const DefaultExpiryMonths: int := 12

  /** The seconds a cached status lives (`now()->addHour()`). */
  const StatusTtl: int := 3600

  /** The events the observer and the login listener dispatch about a profile. */
  datatype ProfileEvent =
    | VerificationStarted(userId: int)
    | StatusChanged(from: Option<RiskStatus>, to: Option<RiskStatus>)
    | HighRiskDetected(userId: int)
    | VerificationCompleted(userId: int)
    | VerificationFailed(userId: int)
    | VerificationExpired(userId: int)
    | ManualReviewRequired(userId: int)

  /** `user:{id}:verification`. */
  function UserBase(userId: int): string {
    "user:" + IntToString(userId) + ":verification"
  }

  function StatusKey(userId: int): string {
    UserBase(userId) + ":status"
  }

  /** The four per-user keys `clearUserRiskProfileCache` forgets. */
  function UserKeys(userId: int): (keys: set<string>)
    ensures StatusKey(userId) in keys
  {
    {UserBase(userId), StatusKey(userId), UserBase(userId) + ":score", UserBase(userId) + ":summary"}
  }

  /** The four keys are distinct, since their lengths differ. */
  lemma UserKeysDistinct(userId: int)
    ensures |UserKeys(userId)| == 4
  {
    var b := UserBase(userId);
    var a, s, c, m := b, b + ":status", b + ":score", b + ":summary";
    assert |a| < |c| < |s| < |m|;
    assert a != s && a != c && a != m && s != c && s != m && c != m;
  }

  /**
   * The edge-triggered high-risk rule: the new score is at least 0.8 and the old one was
   * below 0.8 or absent.
   */
  predicate CrossesHighRisk(oldScore: Option<real>, newScore: Option<real>)
    ensures CrossesHighRisk(oldScore, newScore) <==>
      newScore.Some? && newScore.value >= 0.8 && !(oldScore.Some? && oldScore.value >= 0.8)
    ensures oldScore == newScore ==> !CrossesHighRisk(oldScore, newScore)
  {
    newScore.Some? && newScore.value >= 0.8 && (oldScore.None? || oldScore.value < 0.8)
  }

  /** A score that stays at or above 0.8 does not fire again. */
  lemma StayingHighDoesNotFire(oldScore: real, newScore: real)
    requires oldScore >= 0.8
    ensures !CrossesHighRisk(Some(oldScore), Some(newScore))
  {
  }

  /** The status text the `updated` hook caches for a status, if any. */
  function CachedStatus(status: Option<RiskStatus>): (r: Option<string>)
    ensures status == Some(Verified) <==> r == Some("verified")
    ensures status == Some(Failed) <==> r == Some("failed")
    ensures status == Some(ManualReview) <==> r == Some("manual_review")
    ensures r.None? <==> status.None? || status == Some(Pending)
  {
    match status
    case Some(Verified) => Some("verified")
    case Some(Failed) => Some("failed")
    case Some(ManualReview) => Some("manual_review")
    case _ => None
  }

  /** `clearUserRiskProfileCache`: forgets the four per-user keys, one after the other. */
  method ClearUserRiskProfileCache(cache: Cache<string>, userId: int)
    modifies cache
    ensures cache.entries == old(cache.entries) - UserKeys(userId)
  {
    var keys := [UserBase(userId), StatusKey(userId), UserBase(userId) + ":score", UserBase(userId) + ":summary"];
    var i := 0;
    while i < |keys|
      invariant 0 <= i <= |keys|
      invariant cache.entries == old(cache.entries) - set k | k in keys[..i]
    {
      cache.Forget(keys[i]);
      assert keys[..i + 1] == keys[..i] + [keys[i]];
      i := i + 1;
    }
    assert (set k | k in keys) == UserKeys(userId);
    assert keys[..|keys|] == keys;
  }

  /** `creating`: an unset expiry becomes now plus the configured months. */
  method Creating(p: RiskProfile, now: int, expiryMonths: Option<int>)
    modifies p
    ensures p.Attrs() == if old(p.expiresAt).None?
                         then old(p.Attrs()).(expiresAt := Some(AddMonths(now, expiryMonths.GetOr(DefaultExpiryMonths))))
                         else old(p.Attrs())
    ensures p.expiresAt.Some?
  {
    if p.expiresAt.None? {
      p.expiresAt := Some(AddMonths(now, expiryMonths.GetOr(DefaultExpiryMonths)));
    }
  }

  /** `created`: the user's cache entries are cleared and the start of the verification announced. */
  method Created(p: RiskProfile, cache: Cache<string>) returns (events: seq<ProfileEvent>)
    modifies cache
    ensures cache.entries == old(cache.entries) - UserKeys(p.userId)
    ensures events == [VerificationStarted(p.userId)]
  {
    ClearUserRiskProfileCache(cache, p.userId);
    events := [VerificationStarted(p.userId)];
  }

  /**
   * How the hooks see a profile. `statusCast`: whether `status` reaches them as a
   * RiskStatus case. The model class does not cast it, so as written it is the column's
   * text, which no `=== RiskStatus::…` test and no `match` arm equals.
   * `verifiedTypesThrows`: what the `getVerifiedTypes()` log call throws, if anything.
   */
  datatype Hooks = Hooks(statusCast: bool, verifiedTypesThrows: Option<string>)

  /** The hooks as written: the status uncast, and `getVerifiedTypes()` undeclared. */
  const HooksAsWritten: Hooks := Hooks(false, Some(UndefinedGetVerifiedTypes))

  /** The hooks as intended: the status cast, no `getVerifiedTypes()` call, and `status?->value` logged. */
  const HooksCorrected: Hooks := Hooks(true, None)

  /** The status a `=== RiskStatus::…` test or a `match` arm of the hooks sees: as written, none. */
  function Arm(status: Option<RiskStatus>, hooks: Hooks): (r: Option<RiskStatus>)
    ensures !hooks.statusCast ==> r.None?
    ensures hooks.statusCast ==> r == status
  {
    if hooks.statusCast then status else None
  }

  /**
   * PHP's warning for reading `->value` off the uncast status, text or null; Laravel's
   * error handler throws it as an ErrorException.
   */
  function StatusValueError(status: Option<RiskStatus>): string {
    "Attempt to read property \"value\" on " + (if status.Some? then "string" else "null")
  }

  /**
   * What `updated` throws: as written, always the ErrorException of its closing log call
   * (:120); with the status cast, only what `getVerifiedTypes()` throws on the Verified arm.
   */
  function UpdatedThrown(status: Option<RiskStatus>, hooks: Hooks): (t: Option<string>)
    ensures !hooks.statusCast ==> t == Some(StatusValueError(status))
    ensures hooks.statusCast ==> (t.Some? <==> status == Some(Verified) && hooks.verifiedTypesThrows.Some?)
    ensures t.Some? && hooks.statusCast ==> t == hooks.verifiedTypesThrows
    ensures hooks == HooksCorrected ==> t.None?
  {
    if !hooks.statusCast then Some(StatusValueError(status))
    else if status == Some(Verified) then hooks.verifiedTypesThrows
    else None
  }

  /**
   * `updating`, given the status and score the profile was loaded with. A status change
   * is always announced and, when the new status is Verified, fills unset verification
   * and expiry times (as written the uncast text is never `=== RiskStatus::Verified`);
   * a score change stamps the risk-check time and fires the high-risk event only on an
   * upward crossing of 0.8.
   */
  method Updating(p: RiskProfile, originalStatus: Option<RiskStatus>, originalScore: Option<real>,
                  now: int, expiryMonths: Option<int>, hooks: Hooks)
    returns (events: seq<ProfileEvent>)
    modifies p
    ensures var statusDirty, scoreDirty := old(p.status) != originalStatus, old(p.score) != originalScore;
      var toVerified := statusDirty && Arm(old(p.status), hooks) == Some(Verified);
      && p.Attrs() == old(p.Attrs()).(
           verifiedAt := if toVerified && old(p.verifiedAt).None? then Some(now) else old(p.verifiedAt),
           expiresAt := if toVerified && old(p.expiresAt).None?
                        then Some(AddMonths(now, expiryMonths.GetOr(DefaultExpiryMonths))) else old(p.expiresAt),
           lastRiskCheckAt := if scoreDirty then Some(now) else old(p.lastRiskCheckAt))
      && events == (if statusDirty then [StatusChanged(originalStatus, old(p.status))] else [])
                   + (if scoreDirty && CrossesHighRisk(originalScore, old(p.score)) then [HighRiskDetected(p.userId)] else [])
    ensures old(p.status) != originalStatus ==> StatusChanged(originalStatus, p.status) in events
    ensures HighRiskDetected(p.userId) in events <==> old(p.score) != originalScore && CrossesHighRisk(originalScore, p.score)
  {
    events := [];
    if p.status != originalStatus {
      var arm := Arm(p.status, hooks);
      if arm == Some(Verified) && p.verifiedAt.None? {
        p.verifiedAt := Some(now);
      }
      if arm == Some(Verified) && p.expiresAt.None? {
        p.expiresAt := Some(AddMonths(now, expiryMonths.GetOr(DefaultExpiryMonths)));
      }
      events := events + [StatusChanged(originalStatus, p.status)];
    }
    if p.score != originalScore {
      if CrossesHighRisk(originalScore, p.score) {
        events := events + [HighRiskDetected(p.userId)];
      }
      p.lastRiskCheckAt := Some(now);
    }
  }

  /** The user a profile belongs to; only the attribute the observer writes. */
  class User {
    var emailVerifiedAt: Option<int>

    constructor (emailVerifiedAt: Option<int>)
      ensures this.emailVerifiedAt == emailVerifiedAt
    {
      this.emailVerifiedAt := emailVerifiedAt;
    }
  }

  /** The message Eloquent's forwarding of an undeclared method throws for `getVerifiedTypes()`. */
  const UndefinedGetVerifiedTypes: string :=
    "Call to undefined method Ninja\\Larasoul\\Models\\RiskProfile::getVerifiedTypes()"

  /**
   * What the log call of `handleVerificationCompleted` does when it asks the profile for
   * `getVerifiedTypes()`, as written: RiskProfile declares no such method, so it throws.
   * The corrected observer does not make the call (`None`: nothing thrown).
   */
  function VerifiedTypesAsWritten(): (thrown: Option<string>)
    ensures thrown == Some(UndefinedGetVerifiedTypes)
  {
    Some(UndefinedGetVerifiedTypes)
  }

  /** The cache after `updated`: the user's keys cleared, then the status text, if any, put for an hour. */
  function UpdatedEntries(entries: map<string, Entry<string>>, userId: int, status: Option<RiskStatus>, now: int)
    : (r: map<string, Entry<string>>)
    ensures Read(r, StatusKey(userId), now) == CachedStatus(status)
    ensures forall k :: k !in UserKeys(userId) ==> (k in r <==> k in entries) && (k in r ==> r[k] == entries[k])
    ensures forall k :: k in UserKeys(userId) && k != StatusKey(userId) ==> k !in r
  {
    var cleared := entries - UserKeys(userId);
    if CachedStatus(status).Some? then cleared[StatusKey(userId) := Entry(CachedStatus(status).value, now + StatusTtl)]
    else cleared
  }

  /** The user's email verification time after the Verified branch: stamped now when unset. */
  function StampedEmail(emailVerifiedAt: Option<int>, now: int): (r: Option<int>)
    ensures emailVerifiedAt.Some? ==> r == emailVerifiedAt
    ensures emailVerifiedAt.None? ==> r == Some(now)
  {
    if emailVerifiedAt.None? then Some(now) else emailVerifiedAt
  }

  /**
   * `updated`: the user's cache entries are cleared, then the `match` on the status runs
   * an arm: Verified, Failed and ManualReview cache their text for an hour, and Verified
   * and Failed fire their events. On the Verified arm the user's unset email
   * verification time is stamped, and then the log call's `getVerifiedTypes()` runs; a
   * throw there leaves the hook, so the expiry check does not run. Otherwise an expired
   * profile is announced, and the closing log call reads `status->value`, which throws
   * as written (see UpdatedThrown).
   */
  method Updated(p: RiskProfile, cache: Cache<string>, user: Option<User>, now: int, hooks: Hooks)
    returns (events: seq<ProfileEvent>, thrown: Option<string>)
    modifies cache, if user.Some? then {user.value} else {}
    ensures var arm := Arm(p.status, hooks);
      && cache.entries == UpdatedEntries(old(cache.entries), p.userId, arm, now)
      && events ==
           (if arm == Some(Verified) then [VerificationCompleted(p.userId)]
            else if arm == Some(Failed) then [VerificationFailed(p.userId)] else [])
           + (if (arm != Some(Verified) || hooks.verifiedTypesThrows.None?) && p.IsExpired(now)
              then [VerificationExpired(p.userId)] else [])
      && (user.Some? ==>
            user.value.emailVerifiedAt == if arm == Some(Verified) then StampedEmail(old(user.value.emailVerifiedAt), now)
                                          else old(user.value.emailVerifiedAt))
    ensures thrown == UpdatedThrown(p.status, hooks)
    ensures Read(cache.entries, StatusKey(p.userId), now) == CachedStatus(Arm(p.status, hooks))
    ensures !hooks.statusCast ==>
      Read(cache.entries, StatusKey(p.userId), now).None? && VerificationCompleted(p.userId) !in events
  {
    ClearUserRiskProfileCache(cache, p.userId);
    events, thrown := [], None;
    var arm := Arm(p.status, hooks);
    if arm == Some(Verified) {
      events := events + [VerificationCompleted(p.userId)];
      if user.Some? && user.value.emailVerifiedAt.None? {
        user.value.emailVerifiedAt := Some(now);
      }
      cache.Put(StatusKey(p.userId), "verified", StatusTtl, now);
      if hooks.verifiedTypesThrows.Some? {
        thrown := hooks.verifiedTypesThrows;
        return;
      }
    } else if arm == Some(Failed) {
      events := events + [VerificationFailed(p.userId)];
      cache.Put(StatusKey(p.userId), "failed", StatusTtl, now);
    } else if arm == Some(ManualReview) {
      cache.Put(StatusKey(p.userId), "manual_review", StatusTtl, now);
    }
    if p.IsExpired(now) {
      events := events + [VerificationExpired(p.userId)];
    }
    if !hooks.statusCast {
      thrown := Some(StatusValueError(p.status));
    }
  }

  /**
   * As written, an expired profile whose status column reads "verified" gets no
   * completion event and no cached status, and the hook throws at its log call.
   */
  method VerifiedUpdateAsWritten() returns (events: seq<ProfileEvent>, thrown: Option<string>, cached: Option<string>)
    ensures thrown == Some("Attempt to read property \"value\" on string")
    ensures events == [VerificationExpired(7)]
    ensures cached.None?
  {
    var p := new RiskProfile(NewAttributes(7).(status := Some(Verified), expiresAt := Some(0)));
    var cache := new Cache<string>();
    events, thrown := Updated(p, cache, None, 100, HooksAsWritten);
    assert "Attempt to read property \"value\" on " + "string" == "Attempt to read property \"value\" on string";
    cached := Read(cache.entries, StatusKey(7), 100);
  }

  /**
   * Once the status is cast, every `updated` of a Verified profile throws at
   * `getVerifiedTypes()`, after the completion event and the cached "verified", and an
   * expired Verified profile is never announced.
   */
  method VerifiedUpdateThrows() returns (events: seq<ProfileEvent>, thrown: Option<string>)
    ensures thrown == Some(UndefinedGetVerifiedTypes)
    ensures events == [VerificationCompleted(7)]
  {
    var p := new RiskProfile(NewAttributes(7).(status := Some(Verified), expiresAt := Some(0)));
    var cache := new Cache<string>();
    events, thrown := Updated(p, cache, None, 100, Hooks(true, VerifiedTypesAsWritten()));
  }

  /** With the corrected hooks, the same update completes: the profile is also announced as expired. */
  method VerifiedUpdateCompletes() returns (events: seq<ProfileEvent>, thrown: Option<string>)
    ensures thrown.None?
    ensures events == [VerificationCompleted(7), VerificationExpired(7)]
  {
    var p := new RiskProfile(NewAttributes(7).(status := Some(Verified), expiresAt := Some(0)));
    var cache := new Cache<string>();
    events, thrown := Updated(p, cache, None, 100, HooksCorrected);
  }

  /** `deleted`: the user's cache entries are cleared. */
  method Deleted(p: RiskProfile, cache: Cache<string>)
    modifies cache
    ensures cache.entries == old(cache.entries) - UserKeys(p.userId)
  {
    ClearUserRiskProfileCache(cache, p.userId);
  }
}
