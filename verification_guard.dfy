/**
 * The token guard that runs verification checks on the user it authenticates, and its
 * high-security variant with a fixed, stricter policy and two extra checks.
 */
module Guards {
  import opened Wrappers
  import opened Text
  import opened RiskGate

  /** The two guard classes. */
  datatype GuardKind = Standard | HighSecurity

  /**
   * What the checks read from a user; a `None` stands for a method the user model does
   * not have (`method_exists` is false).
   */
  datatype GuardUser = GuardUser(
    isVerified: Option<bool>,
    verificationExpired: Option<bool>,
    riskLevel: Option<string>,
    blockingFlags: Option<bool>,
    fullyVerified: Option<bool>,
    verificationAttempts: Option<int>)

  /** `larasoul.verification`: the switch and the entry under this guard's class name. */
  datatype GuardConfig = GuardConfig(
    enabled: Option<bool>,
    requireVerification: Option<bool>,
    checkRiskLevel: Option<bool>,
    maxRiskLevel: Option<string>)

  datatype Policy = Policy(requireVerification: bool, checkRiskLevel: bool, maxRiskLevel: string)

  /** The exceptions the checks raise. */
  datatype GuardFailure = NotVerified | VerificationExpired | RiskTooHigh(maxLevel: string) | BlockingFlags

  /**
   * The policy of a guard: the configured one with defaults false, false and `"medium"`,
   * or for the high-security guard always verification, always risk, at most `"low"`.
   */
  function PolicyFor(kind: GuardKind, c: GuardConfig): (p: Policy)
    ensures kind == HighSecurity ==> p == Policy(true, true, "low")
    ensures kind == Standard && c == GuardConfig(None, None, None, None) ==> p == Policy(false, false, "medium")
    ensures kind == Standard ==>
      p.requireVerification == c.requireVerification.GetOr(false)
      && p.checkRiskLevel == c.checkRiskLevel.GetOr(false) && p.maxRiskLevel == c.maxRiskLevel.GetOr("medium")
  {
    match kind
    case HighSecurity => Policy(true, true, "low")
    case Standard => Policy(c.requireVerification.GetOr(false), c.checkRiskLevel.GetOr(false), c.maxRiskLevel.GetOr("medium"))
  }

  /** `checkRiskLevel`: refuses a user whose level exceeds the maximum; skipped without `getRiskLevel`. */
  function CheckRiskLevel(u: GuardUser, maxLevel: string): (r: Option<GuardFailure>)
    ensures r.Some? <==> u.riskLevel.Some? && ExceedsRiskLevel(u.riskLevel.value, maxLevel)
    ensures r.Some? ==> r.value == RiskTooHigh(maxLevel)
  {
    if u.riskLevel.Some? && ExceedsRiskLevel(u.riskLevel.value, maxLevel) then Some(RiskTooHigh(maxLevel)) else None
  }

  /**
   * The error `$riskLevels[$userRiskLevel] ?? 4` raises: `getRiskLevel` returns a RiskLevel
   * enum case, which cannot index an array, and `??` does not absorb the TypeError (this is
   * PHP 8.3's wording; earlier versions say "Illegal offset type in isset or empty").
   */
  const IllegalRiskLevelOffset := "Cannot access offset of type Ninja\\Larasoul\\Enums\\RiskLevel in isset or empty"

  /**
   * `checkRiskLevel` as written: skipped without `getRiskLevel`; for a user with it, the
   * lookup throws before any level is compared. `validate` catches only the verification
   * and high-risk exceptions, so the error escapes both `user()` and `validate`.
   */
  function CheckRiskLevelAsWritten(u: GuardUser, maxLevel: string): (r: Result<Option<GuardFailure>, string>)
    ensures r.Failure? <==> u.riskLevel.Some?
    ensures r.Failure? ==> r.error == IllegalRiskLevelOffset
    ensures r.Success? ==> r.value.None? && r.value == CheckRiskLevel(u, maxLevel)
  {
    if u.riskLevel.Some? then Failure(IllegalRiskLevelOffset) else Success(None)
  }

  /**
   * `VerificationGuard::performVerificationChecks`: nothing when disabled or when the
   * user lacks the trait; otherwise, in order, verification, expiry, risk level and
   * blocking flags, the first failing one deciding.
   */
  function BaseChecks(enabled: bool, p: Policy, u: GuardUser): (r: Option<GuardFailure>)
    ensures !enabled || u.isVerified.None? ==> r.None?
    ensures enabled && u.isVerified.Some? && p.requireVerification && !u.isVerified.value ==> r == Some(NotVerified)
    ensures r == Some(NotVerified) ==> p.requireVerification && u.isVerified == Some(false)
    ensures r == Some(VerificationExpired) ==> u.verificationExpired == Some(true)
    ensures r.Some? && r.value.RiskTooHigh? ==>
      p.checkRiskLevel && r.value.maxLevel == p.maxRiskLevel && u.riskLevel.Some?
      && ExceedsRiskLevel(u.riskLevel.value, p.maxRiskLevel) && u.verificationExpired != Some(true)
    ensures r == Some(BlockingFlags) ==> u.blockingFlags == Some(true)
    ensures r.None? && enabled && u.isVerified.Some? ==>
      && (p.requireVerification ==> u.isVerified.value)
      && u.verificationExpired != Some(true)
      && (p.checkRiskLevel ==> CheckRiskLevel(u, p.maxRiskLevel).None?)
      && u.blockingFlags != Some(true)
  {
    if !enabled || u.isVerified.None? then None
    else if p.requireVerification && !u.isVerified.value then Some(NotVerified)
    else if u.verificationExpired == Some(true) then Some(VerificationExpired)
    else if p.checkRiskLevel && CheckRiskLevel(u, p.maxRiskLevel).Some? then CheckRiskLevel(u, p.maxRiskLevel)
    else if u.blockingFlags == Some(true) then Some(BlockingFlags)
    else None
  }

  /** `hasRecentSuspiciousActivity`: more than two verification attempts; exactly two pass. */
  predicate HasRecentSuspiciousActivity(u: GuardUser)
    ensures HasRecentSuspiciousActivity(u) <==> u.verificationAttempts.Some? && u.verificationAttempts.value >= 3
  {
    u.verificationAttempts.Some? && u.verificationAttempts.value > 2
  }

  /**
   * The checks a guard runs. The high-security guard runs the base checks with its own
   * policy, then refuses a user not fully verified, then one with suspicious activity.
   */
  function Checks(kind: GuardKind, c: GuardConfig, u: GuardUser): (r: Option<GuardFailure>)
    ensures kind == Standard ==> r == BaseChecks(c.enabled.GetOr(true), PolicyFor(Standard, c), u)
    ensures kind == HighSecurity && BaseChecks(c.enabled.GetOr(true), PolicyFor(HighSecurity, c), u).Some? ==>
      r == BaseChecks(c.enabled.GetOr(true), PolicyFor(HighSecurity, c), u)
    ensures kind == HighSecurity && BaseChecks(c.enabled.GetOr(true), PolicyFor(HighSecurity, c), u).None? ==>
      r == (if u.fullyVerified == Some(false) then Some(NotVerified)
            else if HasRecentSuspiciousActivity(u) then Some(RiskTooHigh("low")) else None)
  {
    var enabled := c.enabled.GetOr(true);
    var base := BaseChecks(enabled, PolicyFor(kind, c), u);
    if kind == Standard || base.Some? then base
    else if u.fullyVerified == Some(false) then Some(NotVerified)
    else if HasRecentSuspiciousActivity(u) then Some(RiskTooHigh("low"))
    else None
  }

  /** With verification switched off, the standard guard lets every user through. */
  lemma DisabledStandardPasses(c: GuardConfig, u: GuardUser)
    requires c.enabled == Some(false)
    ensures Checks(Standard, c, u).None?
  {
  }

  /**
   * The switch only skips the base checks: the high-security guard still refuses a user
   * with three verification attempts.
   */
  lemma DisabledHighSecurityStillChecks(c: GuardConfig)
    requires c.enabled == Some(false)
    ensures Checks(HighSecurity, c, GuardUser(Some(true), None, None, None, None, Some(3))) == Some(RiskTooHigh("low"))
  {
  }

  /** Whatever the configuration, a user the standard guard refuses is refused by the high-security guard too. */
  lemma {:induction false} HighSecurityStricter(c: GuardConfig, u: GuardUser)
    ensures Checks(Standard, c, u).Some? ==> Checks(HighSecurity, c, u).Some?
  {
    var enabled := c.enabled.GetOr(true);
    var std := PolicyFor(Standard, c);
    if Checks(Standard, c, u).Some? {
      var f := Checks(Standard, c, u).value;
      if f.RiskTooHigh? {
        LowIsTightest(u.riskLevel.value, std.maxRiskLevel);
      }
      assert BaseChecks(enabled, PolicyFor(HighSecurity, c), u).Some?;
    }
  }

  /** A token source that is present and not empty in PHP's sense. */
  predicate Given(token: Option<string>) {
    token.Some? && !PhpEmpty(token.value)
  }

  class VerificationGuard {
    const kind: GuardKind
    const config: GuardConfig
    /** The cached user (`$this->user`). */
    var user: Option<GuardUser>

    constructor (kind: GuardKind, config: GuardConfig)
      ensures this.kind == kind && this.config == config && user.None?
    {
      this.kind := kind;
      this.config := config;
      user := None;
    }

    /**
     * `getTokenForRequest`: the query parameter, else the input, else the bearer token,
     * else the password, each consulted only when the previous one is empty.
     */
    static method TokenForRequest(query: Option<string>, input: Option<string>, bearer: Option<string>,
                                  password: Option<string>)
      returns (token: Option<string>)
      ensures Given(query) ==> token == query
      ensures !Given(query) && Given(input) ==> token == input
      ensures !Given(query) && !Given(input) && Given(bearer) ==> token == bearer
      ensures !Given(query) && !Given(input) && !Given(bearer) ==> token == password
      ensures Given(token) <==> Given(query) || Given(input) || Given(bearer) || Given(password)
    {
      token := query;
      if !Given(token) {
        token := input;
      }
      if !Given(token) {
        token := bearer;
      }
      if !Given(token) {
        token := password;
      }
    }

    /**
     * `user()`: the cached user when there is one; otherwise the user the token names,
     * which is cached only after it passes the checks (a failing check propagates).
     */
    method User(query: Option<string>, input: Option<string>, bearer: Option<string>, password: Option<string>,
                retrieve: string -> Option<GuardUser>)
      returns (r: Result<Option<GuardUser>, GuardFailure>)
      modifies this
      ensures old(user).Some? ==> r == Success(old(user)) && user == old(user)
      ensures old(user).None? ==>
        var t := if Given(query) then query else if Given(input) then input else if Given(bearer) then bearer else password;
        var found := if Given(t) then retrieve(t.value) else None;
        if found.None? then r == Success(None) && user.None?
        else if Checks(kind, config, found.value).Some? then r == Failure(Checks(kind, config, found.value).value) && user.None?
        else r == Success(found) && user == found
    {
      if user.Some? {
        return Success(user);
      }
      var token := TokenForRequest(query, input, bearer, password);
      var found: Option<GuardUser> := None;
      if Given(token) {
        found := retrieve(token.value);
      }
      if found.Some? {
        var failure := Checks(kind, config, found.value);
        if failure.Some? {
          return Failure(failure.value);
        }
        user := found;
      }
      r := Success(user);
    }

    /**
     * `validate`: false for a missing or empty credential, for an unknown user or wrong
     * credentials, and when a check fails; true otherwise. Nothing is cached.
     */
    function Validate(credentials: map<string, string>, inputKey: string, retrieve: string -> Option<GuardUser>,
                      credentialsValid: GuardUser -> bool): (ok: bool)
      reads this
      ensures ok ==> inputKey in credentials && !PhpEmpty(credentials[inputKey])
      ensures ok <==>
        && inputKey in credentials && !PhpEmpty(credentials[inputKey])
        && retrieve(credentials[inputKey]).Some?
        && credentialsValid(retrieve(credentials[inputKey]).value)
        && Checks(kind, config, retrieve(credentials[inputKey]).value).None?
    {
      if inputKey !in credentials || PhpEmpty(credentials[inputKey]) then false
      else
        var found := retrieve(credentials[inputKey]);
        found.Some? && credentialsValid(found.value) && Checks(kind, config, found.value).None?
    }

    /** `setUser`. */
    method SetUser(u: GuardUser)
      modifies this
      ensures user == Some(u)
    {
      user := Some(u);
    }
  }

  /** A second `user()` call returns what the first one cached. */
  method UserTwice(g: VerificationGuard, query: Option<string>, input: Option<string>, bearer: Option<string>,
                   password: Option<string>, retrieve: string -> Option<GuardUser>)
    returns (first: Result<Option<GuardUser>, GuardFailure>, second: Result<Option<GuardUser>, GuardFailure>)
    modifies g
    ensures first.Success? && first.value.Some? ==> second == first
  {
    first := g.User(query, input, bearer, password, retrieve);
    second := g.User(query, input, bearer, password, retrieve);
  }
}
