/**
 * RiskScore: a real-valued risk score and its classification into risk levels at
 * the fixed cut-offs 0.3, 0.7 and 0.9.
 */
module RiskScores {
  import opened Wrappers

  /** The risk levels, with their string values. */
  datatype RiskLevel = Low | Medium | High | Critical | Unknown {
    function Value(): string {
      match this
      case Low => "low"
      case Medium => "medium"
      case High => "high"
      case Critical => "critical"
      case Unknown => "unknown"
    }
  }

  /** Position of a level in the order Low < Medium < High < Critical < Unknown. */
  function Rank(l: RiskLevel): nat {
    match l
    case Low => 0
    case Medium => 1
    case High => 2
    case Critical => 3
    case Unknown => 4
  }

  datatype RiskScore = RiskScore(value: real)

  /**
   * The declared validation rule: the value is numeric and lies in [0, 1]. No path of the
   * core applies it, so the model does not carry it as an invariant of RiskScore: every
   * operation accepts any real, and `Valid` appears only where a property needs it.
   */
  predicate Valid(s: RiskScore) {
    0.0 <= s.value <= 1.0
  }

  const LowCutoff: real := 0.3
  const MediumCutoff: real := 0.7
  const HighCutoff: real := 0.9

  /** The level of a score: each level is one band of values, and Unknown is never produced. */
  function Level(s: RiskScore): (l: RiskLevel)
    ensures l != Unknown
    ensures l == Low <==> s.value <= 0.3
    ensures l == Medium <==> 0.3 < s.value <= 0.7
    ensures l == High <==> 0.7 < s.value <= 0.9
    ensures l == Critical <==> 0.9 < s.value
  {
    if s.value <= LowCutoff then Low
    else if s.value <= MediumCutoff then Medium
    else if s.value <= HighCutoff then High
    else Critical
  }

  predicate IsLow(s: RiskScore) { Level(s) == Low }
  predicate IsMedium(s: RiskScore) { Level(s) == Medium }
  predicate IsHigh(s: RiskScore) { Level(s) == High }
  predicate IsCritical(s: RiskScore) { Level(s) == Critical }

  /** A higher score never has a lower level. */
  lemma LevelMonotone(a: RiskScore, b: RiskScore)
    requires a.value <= b.value
    ensures Rank(Level(a)) <= Rank(Level(b))
  {
  }

  predicate IsZero(s: RiskScore) { s.value == 0.0 }
  predicate IsOne(s: RiskScore) { s.value == 1.0 }
  predicate IsPositive(s: RiskScore) { s.value > 0.0 }

  /** Inclusive range test. */
  predicate IsBetween(s: RiskScore, min: real, max: real) {
    min <= s.value && s.value <= max
  }

  /** One argument passed to `RiskScore::from`. */
  datatype ScoreArg =
    | ScoreArg(score: RiskScore)      // already a RiskScore
    | NumberArg(n: real)              // an int or a float
    | ArrayArg(value: Option<real>)   // an array; `value` is its 'value' entry when set
    | OtherArg                        // anything else

  /** What `from` produces: a score it built itself, or a hand-over to the generic DTO factory. */
  datatype Construction = Built(score: RiskScore) | DelegatedToBag

  /**
   * `RiskScore::from`: a single RiskScore is returned as is, a single number is
   * wrapped, a single array with a 'value' entry wraps that entry; every other call
   * falls back to the generic factory. None of these paths applies the [0, 1] rule.
   */
  function From(args: seq<ScoreArg>): (r: Construction)
    ensures r.Built? <==> |args| == 1 && (args[0].ScoreArg? || args[0].NumberArg? || (args[0].ArrayArg? && args[0].value.Some?))
    ensures r.Built? && args[0].ScoreArg? ==> r.score == args[0].score
    ensures r.Built? && args[0].NumberArg? ==> r.score.value == args[0].n
    ensures r.Built? && args[0].ArrayArg? ==> r.score.value == args[0].value.value
  {
    if |args| == 1 then
      match args[0]
      case ScoreArg(s) => Built(s)
      case NumberArg(n) => Built(RiskScore(n))
      case ArrayArg(v) => if v.Some? then Built(RiskScore(v.value)) else DelegatedToBag
      case OtherArg => DelegatedToBag
    else DelegatedToBag
  }

  /**
   * The numeric path builds every number as it is, out-of-range ones included: the rule
   * is declared, not enforced. Such scores still get a level, Low below 0 and Critical above 1.
   */
  lemma FromDoesNotValidate(n: real)
    ensures From([NumberArg(n)]) == Built(RiskScore(n))
    ensures n < 0.0 ==> !Valid(RiskScore(n)) && Level(RiskScore(n)) == Low
    ensures n > 1.0 ==> !Valid(RiskScore(n)) && Level(RiskScore(n)) == Critical
  {
  }
}
