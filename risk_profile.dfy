/**
 * RiskProfile: the stored risk assessment of a user. Its predicates read the record;
 * the `mark*` operations and `updateRiskAssessment` overwrite some of its attributes.
 */
module RiskProfiles {
  import opened Wrappers
  import opened RiskScores
  import opened RiskSignals
  import opened Decisions
  import opened Clock

  /** The status values the listener and the observer write. */
  datatype RiskStatus = Pending | Verified | Failed | ManualReview {
    function Value(): string {
      match this
      case Pending => "pending"
      case Verified => "verified"
      case Failed => "failed"
      case ManualReview => "manual_review"
    }
  }

  /** `verification.expirations.risk_assessment`, not present in the package configuration: the default. */
  const RiskAssessmentDays: int := 30

  /** Every attribute of a profile, as one value. */
  datatype Attributes = Attributes(
    userId: int,
    decision: Option<VerisoulDecision>,
    riskLevel: Option<RiskLevel>,
    riskScore: Option<RiskScore>,
    riskSignals: Option<seq<RiskSignal>>,
    assessedAt: Option<int>,
    expiresAt: Option<int>,
    status: Option<RiskStatus>,
    score: Option<real>,
    signals: Option<seq<RiskSignal>>,
    verifiedAt: Option<int>,
    failureReason: Option<string>,
    lastRiskCheckAt: Option<int>)

  /**
   * `fill` as `update()` runs it: the attributes `$fillable` names (user_id, decision,
   * risk_level, risk_score, risk_signals, assessed_at, expires_at) are taken from the
   * written array `w`; whatever else `w` carries is dropped, and those attributes keep
   * their value in `a`.
   */
  function Fill(a: Attributes, w: Attributes): (b: Attributes)
    ensures b.userId == w.userId && b.decision == w.decision && b.riskLevel == w.riskLevel
    ensures b.riskScore == w.riskScore && b.riskSignals == w.riskSignals
    ensures b.assessedAt == w.assessedAt && b.expiresAt == w.expiresAt
    ensures Guarded(b) == Guarded(a)
  {
    a.(userId := w.userId, decision := w.decision, riskLevel := w.riskLevel, riskScore := w.riskScore,
       riskSignals := w.riskSignals, assessedAt := w.assessedAt, expiresAt := w.expiresAt)
  }

  /** The attributes outside `$fillable`, which `fill` never changes. */
  function Guarded(a: Attributes): (Option<RiskStatus>, Option<real>, Option<seq<RiskSignal>>, Option<int>, Option<string>, Option<int>)
  {
    (a.status, a.score, a.signals, a.verifiedAt, a.failureReason, a.lastRiskCheckAt)
  }

  /** `update()` stores the whole written array exactly when it leaves every guarded attribute as it was. */
  lemma FillStoresAllIff(a: Attributes, w: Attributes)
    ensures Fill(a, w) == w <==> Guarded(w) == Guarded(a)
  {
    if Guarded(w) == Guarded(a) {
      assert w.status == a.status && w.score == a.score && w.signals == a.signals;
      assert w.verifiedAt == a.verifiedAt && w.failureReason == a.failureReason && w.lastRiskCheckAt == a.lastRiskCheckAt;
    }
  }

  /** Filling twice with the same array stores what filling once does. */
  lemma FillIdempotent(a: Attributes, w: Attributes)
    ensures Fill(Fill(a, w), w) == Fill(a, w)
  {
  }

  /** The attributes of a profile created for a user with none: the level is Unknown, all else unset. */
  function NewAttributes(userId: int): (a: Attributes)
    ensures a.userId == userId && a.riskLevel == Some(Unknown)
    ensures a.decision.None? && a.riskScore.None? && a.assessedAt.None? && a.expiresAt.None? && a.status.None?
  {
    Attributes(userId, None, Some(Unknown), None, None, None, None, None, None, None, None, None, None)
  }

  class RiskProfile {
    var userId: int
    var decision: Option<VerisoulDecision>
    var riskLevel: Option<RiskLevel>
    var riskScore: Option<RiskScore>
    var riskSignals: Option<seq<RiskSignal>>
    var assessedAt: Option<int>
    var expiresAt: Option<int>
    // Attributes the listener and the observer write besides the declared ones. None of
    // them is in `$fillable`, and `status` is not in `$casts`: it holds the text of the
    // status column (one of the RiskStatus values), or nothing on a profile created in
    // this request, whose column default was never read back.
    var status: Option<RiskStatus>
    var score: Option<real>
    var signals: Option<seq<RiskSignal>>
    var verifiedAt: Option<int>
    var failureReason: Option<string>
    var lastRiskCheckAt: Option<int>

    constructor (a: Attributes)
      ensures Attrs() == a
    {
      userId, decision, riskLevel, riskScore, riskSignals := a.userId, a.decision, a.riskLevel, a.riskScore, a.riskSignals;
      assessedAt, expiresAt, status, score, signals := a.assessedAt, a.expiresAt, a.status, a.score, a.signals;
      verifiedAt, failureReason, lastRiskCheckAt := a.verifiedAt, a.failureReason, a.lastRiskCheckAt;
    }

    function Attrs(): Attributes
      reads this
    {
      Attributes(userId, decision, riskLevel, riskScore, riskSignals, assessedAt, expiresAt,
                 status, score, signals, verifiedAt, failureReason, lastRiskCheckAt)
    }

    /** Puts `a` in the model's attributes, as a `fill` leaves them before the save. */
    method Assign(a: Attributes)
      modifies this
      ensures Attrs() == a
    {
      userId, decision, riskLevel, riskScore, riskSignals := a.userId, a.decision, a.riskLevel, a.riskScore, a.riskSignals;
      assessedAt, expiresAt, status, score, signals := a.assessedAt, a.expiresAt, a.status, a.score, a.signals;
      verifiedAt, failureReason, lastRiskCheckAt := a.verifiedAt, a.failureReason, a.lastRiskCheckAt;
    }

    /** `isAssessed`: both a decision and an assessment time are recorded. */
    predicate IsAssessed()
      reads this
      ensures IsAssessed() ==> Attrs().decision.Some?
      ensures assessedAt.None? ==> !IsAssessed()
    {
      decision.Some? && assessedAt.Some?
    }

    /** `isLowRisk`: the stored level is Low; the score alone never makes a profile low-risk. */
    predicate IsLowRisk()
      reads this
      ensures IsLowRisk() ==> riskLevel.Some? && riskLevel.value.Value() == "low"
      ensures riskLevel.None? ==> !IsLowRisk()
    {
      riskLevel == Some(Low)
    }

    /** `isHighRisk`: the stored level is High or Critical. */
    predicate IsHighRisk()
      reads this
      ensures IsHighRisk() ==> !IsLowRisk()
      ensures riskLevel.None? ==> !IsHighRisk()
      ensures IsHighRisk() <==> riskLevel.Some? && (riskLevel.value.Value() == "high" || riskLevel.value.Value() == "critical")
    {
      riskLevel == Some(High) || riskLevel == Some(Critical)
    }

    /** `isReal`, `isFake`, `isSuspicious`: the stored decision, one at most. */
    predicate IsReal()
      reads this
      ensures IsReal() ==> !IsFake() && !IsSuspicious() && decision.Some? && decision.value.Value() == "Real"
    {
      decision == Some(Real)
    }

    predicate IsFake()
      reads this
      ensures IsFake() ==> !IsSuspicious() && decision.Some? && decision.value.Value() == "Fake"
    {
      decision == Some(Fake)
    }

    predicate IsSuspicious()
      reads this
      ensures IsSuspicious() ==> decision.Some? && decision.value.Value() == "Suspicious"
      ensures decision.None? ==> !IsSuspicious()
    {
      decision == Some(Suspicious)
    }

    /**
     * `getRiskLevel`: the stored level when there is one; otherwise Unknown without a
     * score, else the level of the score.
     */
    function GetRiskLevel(): (l: RiskLevel)
      reads this
      ensures riskLevel.Some? ==> l == riskLevel.value
      ensures riskLevel.None? && riskScore.None? ==> l == Unknown
      ensures riskLevel.None? && riskScore.Some? ==> l == Level(riskScore.value) && l != Unknown
    {
      if riskLevel.Some? then riskLevel.value
      else if riskScore.None? then Unknown
      else Level(riskScore.value)
    }

    /** `requiresManualReview`: a Suspicious decision, or a score in [0.4, 0.8]. */
    predicate RequiresManualReview()
      reads this
      ensures RequiresManualReview() <==>
        decision == Some(Suspicious) || (riskScore.Some? && 0.4 <= riskScore.value.value <= 0.8)
    {
      IsSuspicious() || (riskScore.Some? && IsBetween(riskScore.value, 0.4, 0.8))
    }

    /** `isExpired`: the expiry lies in the past; once expired, a profile stays expired. */
    predicate IsExpired(now: int)
      reads this
      ensures IsExpired(now) ==> GetDaysUntilExpiration(now) == Some(0)
      ensures IsExpired(now) ==> forall later :: later >= now ==> Expired(expiresAt, later)
      ensures expiresAt.None? ==> !IsExpired(now)
    {
      Expired(expiresAt, now)
    }

    /** `needsAssessment`: expired, or never assessed. */
    predicate NeedsAssessment(now: int)
      reads this
      ensures !NeedsAssessment(now) ==> decision.Some? && assessedAt.Some? && (expiresAt.None? || now <= expiresAt.value)
      ensures NeedsAssessment(now) ==> forall later :: later >= now ==> IsExpired(later) || !IsAssessed()
    {
      IsExpired(now) || !IsAssessed()
    }

    function GetDaysUntilExpiration(now: int): Option<int>
      reads this
    {
      DaysUntilExpiration(expiresAt, now)
    }

    /** `isAboutToExpire(w)`: the expiry is less than `w + 1` whole days away (or past). */
    predicate IsAboutToExpire(warningDays: int, now: int)
      reads this
      ensures warningDays >= 0 ==>
        (IsAboutToExpire(warningDays, now) <==>
           expiresAt.Some? && expiresAt.value - now < (warningDays + 1) * SecondsPerDay)
      ensures IsExpired(now) && warningDays >= 0 ==> IsAboutToExpire(warningDays, now)
    {
      AboutToExpire(expiresAt, warningDays, now)
    }

    /** `markAsLowRisk`: Real and Low, assessed now, valid for the assessment period. */
    method MarkAsLowRisk(now: int)
      modifies this
      ensures Attrs() == old(Attrs()).(decision := Some(Real), riskLevel := Some(Low), assessedAt := Some(now),
                                      expiresAt := Some(AddDays(now, RiskAssessmentDays)))
      ensures IsAssessed() && !NeedsAssessment(now) && IsLowRisk() && GetRiskLevel() == Low && !IsHighRisk()
    {
      decision, riskLevel, assessedAt := Some(Real), Some(Low), Some(now);
      expiresAt := Some(AddDays(now, RiskAssessmentDays));
    }

    /** `markAsHighRisk`: Fake and High, assessed now; the expiry is left as it was. */
    method MarkAsHighRisk(now: int)
      modifies this
      ensures Attrs() == old(Attrs()).(decision := Some(Fake), riskLevel := Some(High), assessedAt := Some(now))
      ensures IsAssessed() && IsHighRisk() && GetRiskLevel() == High && expiresAt == old(expiresAt)
    {
      decision, riskLevel, assessedAt := Some(Fake), Some(High), Some(now);
    }

    /** `markAsSuspicious`: Suspicious and Medium, assessed now, which always calls for review. */
    method MarkAsSuspicious(now: int)
      modifies this
      ensures Attrs() == old(Attrs()).(decision := Some(Suspicious), riskLevel := Some(Medium), assessedAt := Some(now))
      ensures IsAssessed() && RequiresManualReview() && GetRiskLevel() == Medium
    {
      decision, riskLevel, assessedAt := Some(Suspicious), Some(Medium), Some(now);
    }

    /**
     * `updateRiskAssessment`: decision, level, score and signals are overwritten (the
     * signals even when not given), and the profile is assessed now for the assessment period.
     */
    method UpdateRiskAssessment(d: VerisoulDecision, level: RiskLevel, s: RiskScore, sigs: Option<seq<RiskSignal>>, now: int)
      modifies this
      ensures Attrs() == old(Attrs()).(decision := Some(d), riskLevel := Some(level), riskScore := Some(s),
                                      riskSignals := sigs, assessedAt := Some(now),
                                      expiresAt := Some(AddDays(now, RiskAssessmentDays)))
      ensures IsAssessed() && !NeedsAssessment(now) && GetRiskLevel() == level
    {
      decision, riskLevel, riskScore, riskSignals := Some(d), Some(level), Some(s), sigs;
      assessedAt, expiresAt := Some(now), Some(AddDays(now, RiskAssessmentDays));
    }
  }

  /**
   * `RiskProfile::for`: the user's existing profile, or a new one with level Unknown.
   * The observer's creation hooks are modelled with the observer.
   */
  method For(userId: int, existing: Option<RiskProfile>) returns (p: RiskProfile)
    ensures existing.Some? ==> p == existing.value
    ensures existing.None? ==> fresh(p) && p.Attrs() == NewAttributes(userId)
    ensures existing.None? ==> p.GetRiskLevel() == Unknown && !p.IsAssessed()
  {
    if existing.Some? {
      p := existing.value;
    } else {
      p := new RiskProfile(NewAttributes(userId));
    }
  }

  /** A profile that is assessed and not expired needs no assessment; an unassessed one always does. */
  lemma NeedsAssessmentCases(p: RiskProfile, now: int)
    ensures !p.IsAssessed() ==> p.NeedsAssessment(now)
    ensures p.IsAssessed() && !p.IsExpired(now) ==> !p.NeedsAssessment(now)
  {
  }

  /** `isHighRisk` and `isLowRisk` never both hold. */
  lemma HighAndLowExclusive(p: RiskProfile)
    ensures !(p.IsHighRisk() && p.IsLowRisk())
  {
  }
}
