/**
 * UserVerification: one verification of a user by phone, face or identity document,
 * with its status, Verisoul's decision, the risk data and its validity period.
 */
module UserVerifications {
  import opened Wrappers
  import opened RiskScores
  import opened RiskSignals
  import opened Decisions
  import opened Clock
  import FaceResponses
  import IdResponses

  datatype VerificationType = PhoneCheck | FaceCheck | IdentityCheck {
    function Value(): string {
      match this
      case PhoneCheck => "phone"
      case FaceCheck => "face"
      case IdentityCheck => "identity"
    }
  }

  /** The status values the model writes. */
  datatype VerificationStatus = StatusPending | StatusVerified | StatusFailed | StatusManualReview

  datatype Attributes = Attributes(
    userId: int,
    verificationType: Option<VerificationType>,
    status: Option<VerificationStatus>,
    decision: Option<VerisoulDecision>,
    riskScore: Option<RiskScore>,
    riskSignals: Option<seq<RiskSignal>>,
    riskFlags: Option<seq<RiskFlag>>,
    verifiedAt: Option<int>,
    expiresAt: Option<int>)

  /** The response `fromApiResponse` takes: a face or an identity-document verification. */
  datatype VerifyResponse = FaceResult(face: FaceResponses.FaceResponse) | IdResult(id: IdResponses.IdResponse)

  /** The response's own `isSuccessful`. */
  predicate ResponseSuccessful(r: VerifyResponse) {
    match r
    case FaceResult(f) => FaceResponses.IsSuccessful(f)
    case IdResult(i) => IdResponses.IsSuccessful(i)
  }

  function ResponseDecision(r: VerifyResponse): VerisoulDecision {
    match r
    case FaceResult(f) => f.decision
    case IdResult(i) => i.decision
  }

  /** The response's score; the identity response carries it as a plain number. */
  function ResponseScore(r: VerifyResponse): RiskScore {
    match r
    case FaceResult(f) => f.riskScore
    case IdResult(i) => RiskScore(i.riskScore)
  }

  function ResponseFlags(r: VerifyResponse): seq<RiskFlag> {
    match r
    case FaceResult(f) => f.riskFlags
    case IdResult(i) => i.riskFlags
  }

  /**
   * The data `fromApiResponse` reads that neither response class declares (`type`,
   * `riskSignals`, `verifiedAt`, `expiresAt`), supplied by the caller in the corrected
   * reading.
   */
  datatype VerdictExtras = VerdictExtras(
    verificationType: VerificationType,
    riskSignals: seq<RiskSignal>,
    verifiedAt: Option<int>,
    expiresAt: Option<int>)

  class UserVerification {
    var userId: int
    var verificationType: Option<VerificationType>
    var status: Option<VerificationStatus>
    var decision: Option<VerisoulDecision>
    var riskScore: Option<RiskScore>
    var riskSignals: Option<seq<RiskSignal>>
    var riskFlags: Option<seq<RiskFlag>>
    var verifiedAt: Option<int>
    var expiresAt: Option<int>

    constructor (a: Attributes)
      ensures Attrs() == a
    {
      userId, verificationType, status, decision, riskScore := a.userId, a.verificationType, a.status, a.decision, a.riskScore;
      riskSignals, riskFlags, verifiedAt, expiresAt := a.riskSignals, a.riskFlags, a.verifiedAt, a.expiresAt;
    }

    function Attrs(): Attributes
      reads this
    {
      Attributes(userId, verificationType, status, decision, riskScore, riskSignals, riskFlags, verifiedAt, expiresAt)
    }

    /** `isExpired`: the expiry lies in the past; once expired, a record stays expired. */
    predicate IsExpired(now: int)
      reads this
      ensures IsExpired(now) ==> forall later :: later >= now ==> Expired(expiresAt, later)
      ensures expiresAt.None? ==> !IsExpired(now)
    {
      Expired(expiresAt, now)
    }

    /** `isVerified`: status Verified, decision Real, and not expired. */
    predicate IsVerified(now: int)
      reads this
      ensures IsVerified(now) <==>
        status == Some(StatusVerified) && decision == Some(Real) && (expiresAt.None? || now <= expiresAt.value)
      ensures IsVerified(now) ==> forall earlier :: earlier <= now ==> !IsExpired(earlier)
    {
      status == Some(StatusVerified) && decision == Some(Real) && !IsExpired(now)
    }

    /** `isPending`: status Pending, which is never verified at any time. */
    predicate IsPending()
      reads this
      ensures IsPending() ==> forall t :: !IsVerified(t)
    {
      status == Some(StatusPending)
    }

    /** `isFailed`: status Failed, which is neither pending nor ever verified. */
    predicate IsFailed()
      reads this
      ensures IsFailed() ==> !IsPending() && forall t :: !IsVerified(t)
    {
      status == Some(StatusFailed)
    }

    function GetDaysUntilExpiration(now: int): Option<int>
      reads this
    {
      DaysUntilExpiration(expiresAt, now)
    }

    /** `isAboutToExpire(w)`: the expiry is less than `w + 1` whole days away (or past). */
    predicate IsAboutToExpire(warningDays: int, now: int)
      reads this
      ensures warningDays >= 0 ==>
        (IsAboutToExpire(warningDays, now) <==>
           expiresAt.Some? && expiresAt.value - now < (warningDays + 1) * SecondsPerDay)
      ensures IsExpired(now) && warningDays >= 0 ==> IsAboutToExpire(warningDays, now)
    {
      AboutToExpire(expiresAt, warningDays, now)
    }

    /**
     * `markAsVerified`: Verified and Real, verified now, valid for the type's period
     * (`period` stands for `getExpirationPeriod`); the record is verified while that
     * period lasts.
     */
    method MarkAsVerified(now: int, period: VerificationType -> int)
      requires verificationType.Some?
      modifies this
      ensures Attrs() == old(Attrs()).(status := Some(StatusVerified), decision := Some(Real), verifiedAt := Some(now),
                                      expiresAt := Some(AddDays(now, period(old(verificationType.value)))))
      ensures forall t :: now <= t <= AddDays(now, period(verificationType.value)) ==> IsVerified(t)
    {
      status, decision, verifiedAt := Some(StatusVerified), Some(Real), Some(now);
      expiresAt := Some(AddDays(now, period(verificationType.value)));
    }

    /** `markAsFailed`: Failed and Fake; nothing else changes. */
    method MarkAsFailed()
      modifies this
      ensures Attrs() == old(Attrs()).(status := Some(StatusFailed), decision := Some(Fake))
      ensures IsFailed() && !IsPending() && forall t :: !IsVerified(t)
    {
      status, decision := Some(StatusFailed), Some(Fake);
    }

    /** `markAsSuspicious`: ManualReview and Suspicious. */
    method MarkAsSuspicious()
      modifies this
      ensures Attrs() == old(Attrs()).(status := Some(StatusManualReview), decision := Some(Suspicious))
      ensures !IsFailed() && !IsPending() && forall t :: !IsVerified(t)
    {
      status, decision := Some(StatusManualReview), Some(Suspicious);
    }

    /** `updateRiskData`: all four attributes are overwritten, absent arguments writing null. */
    method UpdateRiskData(score: RiskScore, sigs: Option<seq<RiskSignal>>, flags: Option<seq<RiskFlag>>,
                          d: Option<VerisoulDecision>)
      modifies this
      ensures Attrs() == old(Attrs()).(riskScore := Some(score), riskSignals := sigs, riskFlags := flags, decision := d)
      ensures d.None? ==> forall t :: !IsVerified(t)
    {
      riskScore, riskSignals, riskFlags, decision := Some(score), sigs, flags, d;
    }
  }

  /** `forUser`: a pending verification of the given type for the user. */
  method ForUser(userId: int, t: VerificationType) returns (v: UserVerification)
    ensures fresh(v)
    ensures v.Attrs() == Attributes(userId, Some(t), Some(StatusPending), None, None, None, None, None, None)
    ensures v.IsPending() && !v.IsFailed() && forall now :: !v.IsVerified(now)
  {
    v := new UserVerification(Attributes(userId, Some(t), Some(StatusPending), None, None, None, None, None, None));
  }

  /**
   * The warning PHP raises on reading a property a response class does not declare;
   * Laravel's error handler throws it as an ErrorException.
   */
  function UndefinedProperty(r: VerifyResponse, name: string): string {
    "Undefined property: Ninja\\Larasoul\\Api\\Responses\\"
    + (if r.FaceResult? then "VerifyFaceResponse" else "VerifyIdResponse") + "::$" + name
  }

  /**
   * `fromApiResponse` as written: neither response class declares `type`, so the read on
   * the third line already throws, whatever the response. (Were that warning not thrown,
   * the undeclared `riskSignals` would read as null and `->toArray()` on it would throw.)
   */
  function FromApiResponseAsWritten(r: VerifyResponse, userId: int): (res: Result<Attributes, string>)
    ensures res.Failure?
    ensures res.error == UndefinedProperty(r, "type")
  {
    Failure(UndefinedProperty(r, "type"))
  }

  /**
   * `fromApiResponse` with the undeclared fields supplied: Verified exactly when the
   * response's own `isSuccessful` holds, else Failed; decision, score and flags come from
   * the response; the verification and expiry times are copied only on success.
   */
  method FromApiResponse(r: VerifyResponse, extras: VerdictExtras, userId: int) returns (v: UserVerification)
    ensures fresh(v)
    ensures v.userId == userId && v.verificationType == Some(extras.verificationType)
    ensures v.status == Some(if ResponseSuccessful(r) then StatusVerified else StatusFailed)
    ensures v.decision == Some(ResponseDecision(r)) && v.riskScore == Some(ResponseScore(r))
    ensures v.riskSignals == Some(extras.riskSignals) && v.riskFlags == Some(ResponseFlags(r))
    ensures v.verifiedAt == (if ResponseSuccessful(r) then extras.verifiedAt else None)
    ensures v.expiresAt == (if ResponseSuccessful(r) then extras.expiresAt else None)
    ensures !ResponseSuccessful(r) ==> v.IsFailed() && forall now :: !v.IsVerified(now)
    ensures ResponseSuccessful(r) ==> forall now :: !Expired(extras.expiresAt, now) ==> v.IsVerified(now)
  {
    var successful := ResponseSuccessful(r);
    var status := if successful then StatusVerified else StatusFailed;
    v := new UserVerification(Attributes(userId, Some(extras.verificationType), Some(status), Some(ResponseDecision(r)),
                                         Some(ResponseScore(r)), Some(extras.riskSignals), Some(ResponseFlags(r)),
                                         None, None));
    if successful {
      v.verifiedAt := extras.verifiedAt;
      v.expiresAt := extras.expiresAt;
    }
  }

  /** `isPending` and `isFailed` never both hold, and a pending record is never verified. */
  lemma StatusPredicatesExclusive(v: UserVerification, now: int)
    ensures !(v.IsPending() && v.IsFailed())
    ensures v.IsPending() ==> !v.IsVerified(now)
  {
  }
}
