/**
 * The verdict vocabulary shared by the API responses, the listener, the models and the
 * guards: Verisoul's decision and the risk flags attached to a response.
 */
module Decisions {
  import opened RiskScores

  /** `VerisoulDecision`. */
  datatype VerisoulDecision = Fake | Suspicious | Real | DecisionUnknown {
    function Value(): string {
      match this
      case Fake => "Fake"
      case Suspicious => "Suspicious"
      case Real => "Real"
      case DecisionUnknown => "Unknown"
    }
  }

  /**
   * A risk flag as the core sees it: its string value, whether it blocks, its risk
   * level and its category. The flag enum itself is not part of this model; these
   * are the four answers it gives.
   */
  datatype RiskFlag = RiskFlag(value: string, shouldBlock: bool, level: RiskLevel, category: string)

  /** `$flags->some(fn ($flag) => $flag->shouldBlock())`. */
  predicate HasBlockingFlags(flags: seq<RiskFlag>)
    ensures HasBlockingFlags(flags) <==> exists f :: f in flags && f.shouldBlock
    ensures HasBlockingFlags(flags) ==> flags != []
  {
    exists i :: 0 <= i < |flags| && flags[i].shouldBlock
  }

  /** Some flag has the given level. */
  predicate HasFlagAtLevel(flags: seq<RiskFlag>, level: RiskLevel) {
    exists i :: 0 <= i < |flags| && flags[i].level == level
  }

  /** `getRiskFlagsAsStrings`: the flags' values, one per flag, in order. */
  function FlagValues(flags: seq<RiskFlag>): (r: seq<string>)
    ensures |r| == |flags|
    ensures forall i :: 0 <= i < |flags| ==> r[i] == flags[i].value
  {
    if flags == [] then [] else [flags[0].value] + FlagValues(flags[1..])
  }

  function FlagCategory(f: RiskFlag): string {
    f.category
  }

  /** The level's string value, the key `getRiskFlagsByLevel` files a flag under. */
  function FlagLevelValue(f: RiskFlag): string {
    f.level.Value()
  }
}
