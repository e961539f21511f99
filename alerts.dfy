/**
 * The grading that the fraud-attempt and manual-review events broadcast: a fraud
 * severity and a review priority, both read off the profile's risk score.
 */
module Alerts {
  import opened Wrappers

  /** The grades both events use, from least to most urgent. */
  datatype Grade = GradeLow | GradeMedium | GradeHigh | GradeCritical {
    function Value(): string {
      match this
      case GradeLow => "low"
      case GradeMedium => "medium"
      case GradeHigh => "high"
      case GradeCritical => "critical"
    }

    function Rank(): (n: nat)
      ensures n < 4
    {
      match this
      case GradeLow => 0
      case GradeMedium => 1
      case GradeHigh => 2
      case GradeCritical => 3
    }
  }

  /** PHP's `$score >= t` with a possibly null score: null is never at least a positive threshold. */
  predicate AtLeast(score: Option<real>, t: real)
    requires t > 0.0
  {
    score.Some? && score.value >= t
  }

  /**
   * The notice PHP raises when `$riskScore >= t` compares the profile's `risk_score`, cast
   * to the RiskScore value object, which has no numeric conversion, with a float. Laravel's
   * error handler throws it as an ErrorException.
   */
  const ScoreNotFloat := "Object of class Ninja\\Larasoul\\ValueObjects\\RiskScore could not be converted to float"

  /**
   * `$riskScore >= t` as the events write it: a null score is below every positive
   * threshold; a present score is an object, and the comparison throws.
   */
  function AtLeastAsWritten(score: Option<real>, t: real): (r: Result<bool, string>)
    requires t > 0.0
    ensures r.Failure? <==> score.Some?
    ensures r.Failure? ==> r.error == ScoreNotFloat
    ensures r.Success? ==> r.value == AtLeast(score, t) && !r.value
  {
    match score
    case Some(_) => Failure(ScoreNotFloat)
    case None => Success(false)
  }

  /**
   * `getFraudSeverity`: critical with blocking flags or a score of at least 0.9, then
   * high from 0.8, medium from 0.6, and low otherwise (and without a score).
   */
  function FraudSeverity(score: Option<real>, hasBlockingFlags: bool): (g: Grade)
    ensures g == GradeCritical <==> hasBlockingFlags || AtLeast(score, 0.9)
    ensures g == GradeHigh <==> !hasBlockingFlags && AtLeast(score, 0.8) && !AtLeast(score, 0.9)
    ensures g == GradeMedium <==> !hasBlockingFlags && AtLeast(score, 0.6) && !AtLeast(score, 0.8)
    ensures g == GradeLow <==> !hasBlockingFlags && !AtLeast(score, 0.6)
  {
    if hasBlockingFlags || AtLeast(score, 0.9) then GradeCritical
    else if AtLeast(score, 0.8) then GradeHigh
    else if AtLeast(score, 0.6) then GradeMedium
    else GradeLow
  }

  /** For fixed flags, a higher score never lowers the severity. */
  lemma {:induction false} SeverityMonotone(s1: real, s2: real, hasBlockingFlags: bool)
    requires s1 <= s2
    ensures FraudSeverity(Some(s1), hasBlockingFlags).Rank() <= FraudSeverity(Some(s2), hasBlockingFlags).Rank()
  {
    var g1, g2 := FraudSeverity(Some(s1), hasBlockingFlags), FraudSeverity(Some(s2), hasBlockingFlags);
    if g2 != GradeCritical {
      assert !AtLeast(Some(s1), 0.9);
      if g2 != GradeHigh {
        assert !AtLeast(Some(s1), 0.8);
        if g2 != GradeMedium {
          assert !AtLeast(Some(s1), 0.6);
        }
      }
    }
  }

  /** Blocking flags raise the severity to the top whatever the score. */
  lemma BlockingFlagsDominate(score: Option<real>)
    ensures FraudSeverity(score, true) == GradeCritical
    ensures FraudSeverity(score, false).Rank() <= FraudSeverity(score, true).Rank()
  {
  }

  /**
   * `requiresImmediateAction`: critical severity or blocking flags; the second disjunct
   * adds nothing, since blocking flags already make the severity critical.
   */
  predicate RequiresImmediateAction(score: Option<real>, hasBlockingFlags: bool)
    ensures RequiresImmediateAction(score, hasBlockingFlags) <==> FraudSeverity(score, hasBlockingFlags) == GradeCritical
  {
    FraudSeverity(score, hasBlockingFlags) == GradeCritical || hasBlockingFlags
  }

  /**
   * The message of the exception a call to `hasBlockingRiskFlags()` on a profile raises:
   * RiskProfile declares no such method, so Eloquent's `__call` hands it to the query
   * builder, which throws.
   */
  const UndefinedHasBlockingRiskFlags := "Call to undefined method Ninja\\Larasoul\\Models\\RiskProfile::hasBlockingRiskFlags()"

  /** The outcome of the call as written: it always throws. */
  const HasBlockingRiskFlagsAsWritten: Result<bool, string> := Failure(UndefinedHasBlockingRiskFlags)

  /**
   * `getFraudSeverity` with the outcome of the `hasBlockingRiskFlags()` call, which is made
   * before any score is compared: a throw ends the method, an answer grades as FraudSeverity.
   */
  function FraudSeverityWith(score: Option<real>, blocking: Result<bool, string>): (r: Result<Grade, string>)
    ensures blocking.Failure? ==> r == Failure(blocking.error)
    ensures blocking.Success? ==> r == Success(FraudSeverity(score, blocking.value))
  {
    match blocking
    case Failure(e) => Failure(e)
    case Success(b) => Success(FraudSeverity(score, b))
  }

  /**
   * As written, the fraud event never grades an attempt: whatever the score, the severity,
   * and `requiresImmediateAction` which asks for it first, end in the undefined-method error.
   */
  lemma FraudSeverityAlwaysThrows(score: Option<real>)
    ensures FraudSeverityWith(score, HasBlockingRiskFlagsAsWritten) == Failure(UndefinedHasBlockingRiskFlags)
    ensures forall b :: FraudSeverityWith(score, Success(b)).Success?
  {
  }

  /**
   * `getFraudSeverity` with both the `hasBlockingRiskFlags()` outcome and the score
   * comparisons as written: blocking flags short-circuit to critical before the score is
   * read; otherwise the first comparison throws for any present score.
   */
  function FraudSeverityComparedAsWritten(score: Option<real>, blocking: Result<bool, string>): (r: Result<Grade, string>)
    ensures blocking.Failure? ==> r == Failure(blocking.error)
    ensures blocking == Success(true) ==> r == Success(GradeCritical)
    ensures blocking == Success(false) ==> (r.Failure? <==> score.Some?)
    ensures blocking == Success(false) && score.Some? ==> r == Failure(ScoreNotFloat)
    ensures r.Success? ==> r == FraudSeverityWith(score, blocking)
  {
    match blocking
    case Failure(e) => Failure(e)
    case Success(b) =>
      if b then Success(GradeCritical)
      else
        match AtLeastAsWritten(score, 0.9)
        case Failure(e) => Failure(e)
        case Success(critical) =>
          if critical then Success(GradeCritical)
          else
            match AtLeastAsWritten(score, 0.8)
            case Failure(e) => Failure(e)
            case Success(high) =>
              if high then Success(GradeHigh)
              else
                match AtLeastAsWritten(score, 0.6)
                case Failure(e) => Failure(e)
                case Success(medium) => if medium then Success(GradeMedium) else Success(GradeLow)
  }

  /** `getReviewPriority`: high from 0.8, medium from 0.6, low otherwise (and without a score). */
  function ReviewPriority(score: Option<real>): (g: Grade)
    ensures g != GradeCritical
    ensures g == GradeHigh <==> AtLeast(score, 0.8)
    ensures g == GradeMedium <==> AtLeast(score, 0.6) && !AtLeast(score, 0.8)
    ensures g == GradeLow <==> !AtLeast(score, 0.6)
  {
    if AtLeast(score, 0.8) then GradeHigh
    else if AtLeast(score, 0.6) then GradeMedium
    else GradeLow
  }

  /**
   * `getReviewPriority` with the comparisons as written: a profile without a score is low
   * priority, and for any profile with one the first comparison throws.
   */
  function ReviewPriorityAsWritten(score: Option<real>): (r: Result<Grade, string>)
    ensures r.Failure? <==> score.Some?
    ensures score.Some? ==> r == Failure(ScoreNotFloat)
    ensures r.Success? ==> r.value == ReviewPriority(score) && r.value == GradeLow
  {
    match AtLeastAsWritten(score, 0.8)
    case Failure(e) => Failure(e)
    case Success(high) =>
      if high then Success(GradeHigh)
      else
        match AtLeastAsWritten(score, 0.6)
        case Failure(e) => Failure(e)
        case Success(medium) => if medium then Success(GradeMedium) else Success(GradeLow)
  }

  /** Below the critical band the review priority and the fraud severity agree. */
  lemma {:induction false} PriorityMatchesSeverity(score: Option<real>)
    requires !AtLeast(score, 0.9)
    ensures ReviewPriority(score) == FraudSeverity(score, false)
  {
    var p := ReviewPriority(score);
    if p == GradeHigh {
      assert AtLeast(score, 0.8);
    } else if p == GradeMedium {
      assert AtLeast(score, 0.6) && !AtLeast(score, 0.8);
    } else {
      assert !AtLeast(score, 0.6);
    }
  }

  /**
   * `getEstimatedReviewTime`: faster for higher priority. The `match` in the source has
   * no arm for a critical grade, which the priority never takes.
   */
  function EstimatedReviewTime(score: Option<real>): (t: string)
    ensures ReviewPriority(score) == GradeHigh <==> t == "2-4 hours"
    ensures ReviewPriority(score) == GradeMedium <==> t == "4-8 hours"
    ensures ReviewPriority(score) == GradeLow <==> t == "1-2 business days"
  {
    match ReviewPriority(score)
    case GradeHigh => "2-4 hours"
    case GradeMedium => "4-8 hours"
    case GradeLow => "1-2 business days"
  }
}
