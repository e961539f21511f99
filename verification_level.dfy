/**
 * RequireVerificationLevel: lets a request through only when the user has the
 * verification level the route names and passes the extra checks that level carries.
 */
module LevelGate {
  import opened Wrappers
  import opened Text
  import opened RiskScores
  import opened RiskGate

  /** `Invalid verification level`: the named level must be a key of the configured requirements. */
  function ValidateLevel(requiredLevel: string, availableLevels: seq<string>): (r: Result<string, string>)
    ensures r.Success? <==> requiredLevel in availableLevels
    ensures r.Success? ==> r.value == requiredLevel
    ensures r.Failure? ==> StartsWith(r.error, "Invalid verification level: " + requiredLevel)
  {
    if requiredLevel in availableLevels then Success(requiredLevel)
    else
      var prefix := "Invalid verification level: " + requiredLevel;
      var msg := prefix + ". Available levels: " + Join(", ", availableLevels);
      assert msg[..|prefix|] == prefix;
      Failure(msg)
  }

  /** The levels in increasing order of what they demand. */
  const Levels: seq<string> := ["none", "basic", "standard", "premium", "high_value"]

  /**
   * `getCurrentLevel`: the user's own answer when the model has `getVerificationLevel`;
   * otherwise the level reached by the number of verified types.
   */
  function CurrentLevel(ownLevel: Option<string>, verifiedTypes: nat): (r: string)
    ensures ownLevel.Some? ==> r == ownLevel.value
    ensures ownLevel.None? ==> r == Levels[if verifiedTypes >= 4 then 4 else verifiedTypes]
  {
    if ownLevel.Some? then ownLevel.value
    else if verifiedTypes >= 4 then "high_value"
    else if verifiedTypes >= 3 then "premium"
    else if verifiedTypes >= 2 then "standard"
    else if verifiedTypes >= 1 then "basic"
    else "none"
  }

  /** The position of a fallback level in `Levels`. */
  function LevelIndex(level: string): (i: nat)
    ensures i < |Levels|
  {
    if level == "high_value" then 4
    else if level == "premium" then 3
    else if level == "standard" then 2
    else if level == "basic" then 1
    else 0
  }

  /** More verified types never yield a lower fallback level. */
  lemma {:induction false} CurrentLevelMonotone(n: nat, m: nat)
    requires n <= m
    ensures LevelIndex(CurrentLevel(None, n)) <= LevelIndex(CurrentLevel(None, m))
  {
    assert LevelIndex(CurrentLevel(None, n)) == (if n >= 4 then 4 else n);
    assert LevelIndex(CurrentLevel(None, m)) == (if m >= 4 then 4 else m);
  }

  /** The description of a level, when the table has one. */
  function LevelDescription(level: string): (r: Option<string>)
    ensures r.Some? <==> level in {"basic", "standard", "premium", "high_value"}
  {
    if level == "basic" then Some("Basic verification (phone)")
    else if level == "standard" then Some("Standard verification (phone + face)")
    else if level == "premium" then Some("Premium verification (phone + face + document)")
    else if level == "high_value" then Some("High-value verification (phone + face + document + identity)")
    else None
  }

  /** A level as the message names it: its description, or the raw name. */
  function Describe(level: string): (r: string)
    ensures LevelDescription(level).None? ==> r == level
    ensures LevelDescription(level).Some? ==> r == LevelDescription(level).value
  {
    LevelDescription(level).GetOr(level)
  }

  /** `getLevelMessage`. */
  function LevelMessage(requiredLevel: string, currentLevel: string): (r: string)
    ensures StartsWith(r, "This resource requires " + Describe(requiredLevel))
    ensures LevelDescription(requiredLevel).None? ==> StartsWith(r, "This resource requires " + requiredLevel)
    ensures EndsWith(r, " level access. Your current level is " + Describe(currentLevel) + ".")
    ensures LevelDescription(currentLevel).None? ==> EndsWith(r, " level access. Your current level is " + currentLevel + ".")
    ensures |r| == |"This resource requires "| + |Describe(requiredLevel)|
                   + |" level access. Your current level is "| + |Describe(currentLevel)| + 1
  {
    var head := "This resource requires " + Describe(requiredLevel);
    var rest := " level access. Your current level is " + Describe(currentLevel) + ".";
    StartsWithConcat(head, rest);
    assert (head + rest)[|head + rest| - |rest|..] == rest;
    head + rest
  }

  /**
   * `passesAdditionalChecks`, over the value of the user's risk level (`None` when the
   * model has no `getRiskLevel`): high_value asks for a low level, premium refuses only
   * a high one, the other levels skip the risk test; an expired verification and
   * blocking flags fail at every level.
   */
  predicate PassesAdditionalChecks(requiredLevel: string, riskLevel: Option<string>,
                                   expired: Option<bool>, blocking: Option<bool>)
    ensures PassesAdditionalChecks(requiredLevel, riskLevel, expired, blocking) <==>
      && (requiredLevel in {"premium", "high_value"} ==> riskLevel.Some?)
      && (requiredLevel == "high_value" ==> riskLevel == Some("low"))
      && (requiredLevel == "premium" ==> riskLevel != Some("high"))
      && expired != Some(true)
      && blocking != Some(true)
  {
    if requiredLevel in {"premium", "high_value"} && riskLevel.None? then false
    else if requiredLevel == "high_value" && riskLevel.Some? && riskLevel.value != "low" then false
    else if requiredLevel == "premium" && riskLevel.Some? && riskLevel.value == "high" then false
    else if expired == Some(true) then false
    else if blocking == Some(true) then false
    else true
  }

  /** How the user model's `getRiskLevel` answers: a `RiskLevel` case, not a string. */
  predicate PassesAdditionalChecksAsWritten(requiredLevel: string, riskLevel: Option<RiskLevel>,
                                            expired: Option<bool>, blocking: Option<bool>)
    ensures requiredLevel == "high_value" ==> !PassesAdditionalChecksAsWritten(requiredLevel, riskLevel, expired, blocking)
  {
    // A case is never identical (`===`) to a string, so `!== 'low'` always holds and
    // `=== 'high'` never does.
    if requiredLevel in {"premium", "high_value"} && riskLevel.None? then false
    else if requiredLevel == "high_value" && riskLevel.Some? then false
    else if expired == Some(true) then false
    else if blocking == Some(true) then false
    else true
  }

  /**
   * As written, a low-risk user never passes the high_value checks, and a high-risk user
   * passes the premium ones; reading the case's value gives the intended answers.
   */
  lemma EnumComparisonInverts()
    ensures !PassesAdditionalChecksAsWritten("high_value", Some(Low), None, None)
    ensures PassesAdditionalChecks("high_value", Some(Low.Value()), None, None)
    ensures PassesAdditionalChecksAsWritten("premium", Some(High), None, None)
    ensures !PassesAdditionalChecks("premium", Some(High.Value()), None, None)
  {
  }

  const BlockingReason: string := "Your account has security flags that prevent access"
  const ExpiredReason: string := "Your verification has expired and needs renewal"
  const HighValueReason: string := "High-value operations require low risk profile"
  const PremiumReason: string := "Premium features are not available for high-risk accounts"
  const GenericReason: string := "Additional security requirements not met"

  /**
   * `getAdditionalCheckFailureReason`: blocking flags first, then expiry, then the risk
   * rule of the level, then a generic message.
   */
  function AdditionalCheckFailureReason(requiredLevel: string, riskLevel: Option<string>,
                                        expired: Option<bool>, blocking: Option<bool>): (r: string)
    ensures r == BlockingReason <==> blocking == Some(true)
    ensures r == ExpiredReason <==> blocking != Some(true) && expired == Some(true)
    ensures r == HighValueReason <==>
      blocking != Some(true) && expired != Some(true) && requiredLevel == "high_value"
      && riskLevel.Some? && riskLevel.value != "low"
    ensures r == PremiumReason <==>
      blocking != Some(true) && expired != Some(true) && requiredLevel == "premium" && riskLevel == Some("high")
  {
    if blocking == Some(true) then BlockingReason
    else if expired == Some(true) then ExpiredReason
    else if riskLevel.Some? && requiredLevel == "high_value" && riskLevel.value != "low" then HighValueReason
    else if riskLevel.Some? && requiredLevel == "premium" && riskLevel.value == "high" then PremiumReason
    else GenericReason
  }

  /**
   * When the checks fail and the user model reports a risk level, the reason names the
   * cause; the generic message is left for a missing `getRiskLevel`.
   */
  lemma {:induction false} FailureReasonNamesCause(requiredLevel: string, riskLevel: Option<string>,
                                                   expired: Option<bool>, blocking: Option<bool>)
    requires !PassesAdditionalChecks(requiredLevel, riskLevel, expired, blocking)
    ensures riskLevel.Some? ==> AdditionalCheckFailureReason(requiredLevel, riskLevel, expired, blocking) != GenericReason
    ensures riskLevel.None? && expired != Some(true) && blocking != Some(true) ==>
      AdditionalCheckFailureReason(requiredLevel, riskLevel, expired, blocking) == GenericReason
  {
    if riskLevel.Some? && blocking != Some(true) && expired != Some(true) {
      assert requiredLevel == "high_value" || requiredLevel == "premium";
    }
  }

  /** The route a missing requirement sends the user to. */
  function RequirementRoute(requirement: string): (r: string)
    ensures requirement !in {"phone", "face", "identity"} <==> r == "verification.start"
  {
    if requirement == "phone" then "verification.phone"
    else if requirement == "face" then "verification.face"
    else if requirement == "identity" then "verification.identity"
    else "verification.start"
  }

  /** `getVerificationUrls`: one route per missing requirement, keyed by the requirement. */
  method VerificationUrls(missing: seq<string>) returns (urls: map<string, string>)
    ensures urls.Keys == set r | r in missing
    ensures forall r :: r in urls ==> urls[r] == RequirementRoute(r)
  {
    urls := map[];
    var i := 0;
    while i < |missing|
      invariant 0 <= i <= |missing|
      invariant urls.Keys == set r | r in missing[..i]
      invariant forall r :: r in urls ==> urls[r] == RequirementRoute(r)
    {
      urls := urls[missing[i] := RequirementRoute(missing[i])];
      assert missing[..i + 1] == missing[..i] + [missing[i]];
      i := i + 1;
    }
    assert missing[..i] == missing;
  }

  /** What the middleware reads from the authenticated user. */
  datatype LevelUser = LevelUser(
    hasTrait: bool,
    ownLevel: Option<string>,
    verifiedTypes: nat,
    riskLevel: Option<string>,
    expired: Option<bool>,
    blocking: Option<bool>)

  /**
   * `handle`: authentication, the trait, the level's validity, the level's requirements
   * (`meetsRequirements`, decided by a service that is not part of this model), and
   * then the extra checks.
   */
  function Handle(user: Option<LevelUser>, requiredLevel: Option<string>, availableLevels: seq<string>,
                  meetsRequirements: bool, redirectRoute: Option<string>, expectsJson: bool)
    : (r: Result<Response, string>)
    ensures user.None? ==> r == Success(Unauthenticated(expectsJson))
    ensures r.Failure? <==>
      user.Some? && (!user.value.hasTrait || requiredLevel.GetOr("basic") !in availableLevels)
    ensures r == Success(Next) <==>
      user.Some? && user.value.hasTrait && requiredLevel.GetOr("basic") in availableLevels && meetsRequirements
      && PassesAdditionalChecks(requiredLevel.GetOr("basic"), user.value.riskLevel, user.value.expired, user.value.blocking)
    ensures user.Some? && user.value.hasTrait && requiredLevel.GetOr("basic") in availableLevels && !meetsRequirements ==>
      var level := requiredLevel.GetOr("basic");
      var m := LevelMessage(level, CurrentLevel(user.value.ownLevel, user.value.verifiedTypes));
      r == Success(if expectsJson then JsonError(403, "insufficient_verification_level", m)
                   else Redirect(RouteOr(redirectRoute, "verification.upgrade"), Some(m)))
    ensures (user.Some? && user.value.hasTrait && requiredLevel.GetOr("basic") in availableLevels && meetsRequirements
             && !PassesAdditionalChecks(requiredLevel.GetOr("basic"), user.value.riskLevel, user.value.expired,
                                        user.value.blocking)) ==>
      var m := "Access denied: " + AdditionalCheckFailureReason(requiredLevel.GetOr("basic"), user.value.riskLevel,
                                                                  user.value.expired, user.value.blocking);
      r == Success(if expectsJson then JsonError(403, "additional_checks_failed", m)
                   else Redirect(RouteOr(redirectRoute, "support.verification"), Some(m)))
  {
    var level := requiredLevel.GetOr("basic");
    if user.None? then Success(Unauthenticated(expectsJson))
    else if !user.value.hasTrait then
      Failure("User model must use HasRiskProfile trait to check verification levels")
    else if ValidateLevel(level, availableLevels).Failure? then
      Failure(ValidateLevel(level, availableLevels).error)
    else if !meetsRequirements then
      var m := LevelMessage(level, CurrentLevel(user.value.ownLevel, user.value.verifiedTypes));
      Success(if expectsJson then JsonError(403, "insufficient_verification_level", m)
              else Redirect(RouteOr(redirectRoute, "verification.upgrade"), Some(m)))
    else if !PassesAdditionalChecks(level, user.value.riskLevel, user.value.expired, user.value.blocking) then
      var m := "Access denied: " + AdditionalCheckFailureReason(level, user.value.riskLevel, user.value.expired, user.value.blocking);
      Success(if expectsJson then JsonError(403, "additional_checks_failed", m)
              else Redirect(RouteOr(redirectRoute, "support.verification"), Some(m)))
    else Success(Next)
  }
}
