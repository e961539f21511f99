/**
 * The risk-level rank table shared by the RequireRiskLevel middleware and the
 * verification guards, and the middleware itself.
 */
module RiskGate {
  import opened Wrappers
  import opened Text

  /** The rank table: low 1, medium 2, high 3, unknown 4; other names are not in it. */
  function RankOf(level: string): (r: Option<nat>)
    ensures r.Some? <==> level in {"low", "medium", "high", "unknown"}
    ensures r.Some? ==> 1 <= r.value <= 4
    ensures level == "low" <==> r == Some(1)
    ensures level == "unknown" <==> r == Some(4)
  {
    if level == "low" then Some(1)
    else if level == "medium" then Some(2)
    else if level == "high" then Some(3)
    else if level == "unknown" then Some(4)
    else None
  }

  /** `exceedsRiskLevel`: an unranked user level counts as 4, an unranked maximum as 2. */
  predicate ExceedsRiskLevel(userLevel: string, maxLevel: string)
    ensures ExceedsRiskLevel(userLevel, maxLevel) <==> RankOf(userLevel).GetOr(4) > RankOf(maxLevel).GetOr(2)
  {
    var user := RankOf(userLevel).GetOr(4);
    var max := RankOf(maxLevel).GetOr(2);
    user > max
  }

  /** A ranked level never exceeds itself; an unranked one always does. */
  lemma ExceedsSelfIffUnranked(level: string)
    ensures ExceedsRiskLevel(level, level) <==> RankOf(level).None?
  {
  }

  /** `"low"` passes every ranked maximum. */
  lemma LowNeverExceedsRanked(maxLevel: string)
    requires RankOf(maxLevel).Some?
    ensures !ExceedsRiskLevel("low", maxLevel)
  {
  }

  /** `"critical"` is not in the table: it is refused under every maximum but `"unknown"`. */
  lemma CriticalExceedsAllButUnknown(maxLevel: string)
    ensures ExceedsRiskLevel("critical", maxLevel) <==> maxLevel != "unknown"
  {
    assert RankOf("critical").None?;
  }

  /** A stricter maximum refuses at least what a looser one refuses. */
  lemma {:induction false} ExceedsAntitone(userLevel: string, tight: string, loose: string)
    requires RankOf(tight).GetOr(2) <= RankOf(loose).GetOr(2)
    ensures ExceedsRiskLevel(userLevel, loose) ==> ExceedsRiskLevel(userLevel, tight)
  {
  }

  /** `"low"` is the tightest maximum there is. */
  lemma {:induction false} LowIsTightest(userLevel: string, maxLevel: string)
    ensures ExceedsRiskLevel(userLevel, maxLevel) ==> ExceedsRiskLevel(userLevel, "low")
  {
    var m := RankOf(maxLevel).GetOr(2);
    assert m >= 1;
    ExceedsAntitone(userLevel, "low", maxLevel);
  }

  /** The responses the middleware produces. */
  datatype Response =
    | JsonError(status: int, error: string, message: string)
    | GuestRedirect(route: string)
    | Redirect(route: string, flash: Option<string>)
    | Next

  /** PHP `$route ?: $default`: an absent or PHP-empty route falls back to the default. */
  function RouteOr(route: Option<string>, default: string): (r: string)
    ensures route.Some? && !PhpEmpty(route.value) ==> r == route.value
    ensures route.None? || PhpEmpty(route.value) ==> r == default
  {
    if route.Some? && !PhpEmpty(route.value) then route.value else default
  }

  /** `handleUnauthenticated`, shared by the middlewares. */
  function Unauthenticated(expectsJson: bool): (r: Response)
    ensures expectsJson ==> r.JsonError? && r.status == 401 && r.error == "unauthenticated"
    ensures !expectsJson ==> r == GuestRedirect("login")
  {
    if expectsJson then JsonError(401, "unauthenticated", "Authentication required")
    else GuestRedirect("login")
  }

  /** The message of the exception `handle` throws for a user without the trait's methods. */
  const TraitMissing := "User" + " model must use HasRiskProfile trait to check risk level"

  /** What the middleware reads from the authenticated user. */
  datatype RiskUser = RiskUser(hasRiskProfileTrait: bool, isVerified: bool, riskLevel: string)

  const HighRiskLead := "Access denied. Your account risk level ("
  const HighRiskTail := ") for this resource."

  /** The denial message names the user's level right after the lead and the maximum right before the tail. */
  function HighRiskMessage(userLevel: string, maxLevel: string): (r: string)
    ensures StartsWith(r, HighRiskLead) && EndsWith(r, HighRiskTail)
    ensures |HighRiskLead| + |userLevel| <= |r| && r[|HighRiskLead|..|HighRiskLead| + |userLevel|] == userLevel
    ensures |maxLevel| + |HighRiskTail| <= |r|
    ensures r[|r| - |HighRiskTail| - |maxLevel|..|r| - |HighRiskTail|] == maxLevel
  {
    var middle := ") exceeds the maximum allowed (";
    var r := HighRiskLead + userLevel + middle + maxLevel + HighRiskTail;
    assert r[..|HighRiskLead|] == HighRiskLead;
    assert r[|HighRiskLead|..|HighRiskLead| + |userLevel|] == userLevel;
    assert r[|r| - |HighRiskTail|..] == HighRiskTail;
    assert r[|r| - |HighRiskTail| - |maxLevel|..|r| - |HighRiskTail|] == maxLevel;
    r
  }

  /**
   * `handle`: authentication first, then the trait (an exception without it), then
   * verification, and only then the risk comparison.
   */
  function Handle(user: Option<RiskUser>, maxLevel: Option<string>, redirectRoute: Option<string>, expectsJson: bool)
    : (r: Result<Response, string>)
    ensures user.None? ==> r == Success(Unauthenticated(expectsJson))
    ensures r.Failure? <==> user.Some? && !user.value.hasRiskProfileTrait
    ensures r.Failure? ==> r.error == TraitMissing
    ensures user.Some? && user.value.hasRiskProfileTrait && !user.value.isVerified ==>
      r.Success? && (if expectsJson then r.value.JsonError? && r.value.status == 403 && r.value.error == "verification_required"
                     else r.value == Redirect(RouteOr(redirectRoute, "verification.start"), None))
    ensures r == Success(Next) <==>
      user.Some? && user.value.hasRiskProfileTrait && user.value.isVerified
      && !ExceedsRiskLevel(user.value.riskLevel, maxLevel.GetOr("medium"))
    ensures (user.Some? && user.value.hasRiskProfileTrait && user.value.isVerified
             && ExceedsRiskLevel(user.value.riskLevel, maxLevel.GetOr("medium"))) ==>
      var m := HighRiskMessage(user.value.riskLevel, maxLevel.GetOr("medium"));
      r == Success(if expectsJson then JsonError(403, "high_risk_user", m)
                   else Redirect(RouteOr(redirectRoute, "account.risk-review"), Some(m)))
  {
    var max := maxLevel.GetOr("medium");
    if user.None? then Success(Unauthenticated(expectsJson))
    else if !user.value.hasRiskProfileTrait then
      Failure(TraitMissing)
    else if !user.value.isVerified then
      Success(if expectsJson then JsonError(403, "verification_required", "UserAccount verification is required")
              else Redirect(RouteOr(redirectRoute, "verification.start"), None))
    else if ExceedsRiskLevel(user.value.riskLevel, max) then
      var m := HighRiskMessage(user.value.riskLevel, max);
      Success(if expectsJson then JsonError(403, "high_risk_user", m)
              else Redirect(RouteOr(redirectRoute, "account.risk-review"), Some(m)))
    else Success(Next)
  }

  /**
   * The message of the exception a call to `isVerified()` on a profile raises: RiskProfile
   * declares no such method, so Eloquent's `__call` hands it to the query builder, which throws.
   */
  const UndefinedIsVerified := "Call to undefined method Ninja\\Larasoul\\Models\\RiskProfile::isVerified()"

  /**
   * The trait's `isVerified` as written, `$this->riskProfile?->isVerified() ?? false`: false
   * without a profile; with one, the undeclared method throws. It never answers true.
   */
  function TraitIsVerifiedAsWritten(hasRiskProfile: bool): (r: Result<bool, string>)
    ensures r != Success(true)
    ensures r == Success(false) <==> !hasRiskProfile
    ensures r.Failure? ==> r.error == UndefinedIsVerified
  {
    if hasRiskProfile then Failure(UndefinedIsVerified) else Success(false)
  }

  /** The user as the trait sees it: whether it uses the trait, whether it has a profile, and its level. */
  datatype ProfileUser = ProfileUser(hasRiskProfileTrait: bool, hasRiskProfile: bool, riskLevel: string)

  /**
   * `handle` as written: verification comes from the trait's `isVerified`, so a user with a
   * profile makes the middleware throw, one without is sent to verification, and no request
   * ever reaches `$next`.
   */
  function HandleAsWritten(user: Option<ProfileUser>, maxLevel: Option<string>, redirectRoute: Option<string>,
                           expectsJson: bool): (r: Result<Response, string>)
    ensures r != Success(Next)
    ensures user.Some? && user.value.hasRiskProfileTrait && user.value.hasRiskProfile ==>
      r == Failure(UndefinedIsVerified)
    ensures user.Some? && user.value.hasRiskProfileTrait && !user.value.hasRiskProfile ==>
      r == Handle(Some(RiskUser(true, false, user.value.riskLevel)), maxLevel, redirectRoute, expectsJson)
  {
    if user.None? then Handle(None, maxLevel, redirectRoute, expectsJson)
    else if !user.value.hasRiskProfileTrait then
      Handle(Some(RiskUser(false, false, user.value.riskLevel)), maxLevel, redirectRoute, expectsJson)
    else match TraitIsVerifiedAsWritten(user.value.hasRiskProfile)
      case Failure(e) => Failure(e)
      case Success(v) => Handle(Some(RiskUser(true, v, user.value.riskLevel)), maxLevel, redirectRoute, expectsJson)
  }

  /**
   * With verification answered as intended, a verified low-risk user passes under every
   * ranked maximum: the path `HandleAsWritten` never takes.
   */
  lemma VerifiedLowRiskPasses(maxLevel: string, redirectRoute: Option<string>, expectsJson: bool)
    requires RankOf(maxLevel).Some?
    ensures Handle(Some(RiskUser(true, true, "low")), Some(maxLevel), redirectRoute, expectsJson) == Success(Next)
    ensures HandleAsWritten(Some(ProfileUser(true, true, "low")), Some(maxLevel), redirectRoute, expectsJson) != Success(Next)
  {
    LowNeverExceedsRanked(maxLevel);
  }

  /**
   * The message of the exception `handleHighRisk`'s `$user->getRiskFlags()` raises: neither
   * the trait nor the profile declares the method, so the user model's `__call` forwards it
   * to the query builder, which throws for the user's class.
   */
  function UndefinedGetRiskFlags(userClass: string): string {
    "Call to undefined method " + userClass + "::getRiskFlags()"
  }

  /**
   * `handle` as written past the verification check, with verification answered as
   * intended: every request `Handle` would deny for its risk level throws from
   * `handleHighRisk` instead of receiving the 403 or the redirect; every other request gets
   * what `Handle` gives it.
   */
  function HandleDenialAsWritten(user: Option<RiskUser>, maxLevel: Option<string>, redirectRoute: Option<string>,
                                 expectsJson: bool, userClass: string): (r: Result<Response, string>)
    ensures (user.Some? && user.value.hasRiskProfileTrait && user.value.isVerified
             && ExceedsRiskLevel(user.value.riskLevel, maxLevel.GetOr("medium"))) <==>
      r == Failure(UndefinedGetRiskFlags(userClass))
    ensures (Handle(user, maxLevel, redirectRoute, expectsJson).Success? &&
             Handle(user, maxLevel, redirectRoute, expectsJson).value.JsonError? &&
             Handle(user, maxLevel, redirectRoute, expectsJson).value.error == "high_risk_user") ==>
      r.Failure?
    ensures r.Success? ==> r == Handle(user, maxLevel, redirectRoute, expectsJson)
  {
    var max := maxLevel.GetOr("medium");
    if user.Some? && user.value.hasRiskProfileTrait && user.value.isVerified
       && ExceedsRiskLevel(user.value.riskLevel, max)
    then Failure(UndefinedGetRiskFlags(userClass))
    else
      assert TraitMissing[..4] == "User";
      assert UndefinedGetRiskFlags(userClass)[..4] == "Call";
      Handle(user, maxLevel, redirectRoute, expectsJson)
  }

  /** An unverified user is turned away the same way whatever the levels involved. */
  lemma UnverifiedIgnoresLevels(u: RiskUser, m1: Option<string>, m2: Option<string>, redirectRoute: Option<string>,
                                expectsJson: bool)
    requires u.hasRiskProfileTrait && !u.isVerified
    ensures Handle(Some(u), m1, redirectRoute, expectsJson) == Handle(Some(u.(riskLevel := "unknown")), m2, redirectRoute, expectsJson)
  {
  }

  /** `getRiskLevelDisplayName`: a label per ranked level, and a catch-all. */
  function RiskLevelDisplayName(level: string): (r: string)
    ensures RankOf(level).None? <==> r == "Undefined Risk"
  {
    if level == "low" then "Low Risk"
    else if level == "medium" then "Medium Risk"
    else if level == "high" then "High Risk"
    else if level == "unknown" then "Unknown Risk"
    else "Undefined Risk"
  }
}
