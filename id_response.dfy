/**
 * VerifyIdResponse: the outcome of an identity-document verification, judged by
 * Verisoul's decision, a plain numeric risk score and the attached risk flags.
 */
module IdResponses {
  import opened Wrappers
  import opened RiskScores
  import opened Grouping
  import opened Decisions

  /** The fields the decision rules read; document data, photos and signals are left out. */
  datatype IdResponse = IdResponse(decision: VerisoulDecision, riskScore: real, riskFlags: seq<RiskFlag>)

  /** `isSuccessful`: a Real decision, a score of at most 0.3 and no blocking flag. */
  predicate IsSuccessful(r: IdResponse)
    ensures IsSuccessful(r) ==> Level(RiskScore(r.riskScore)) == Low
    ensures IsSuccessful(r) <==>
      r.decision == Real && r.riskScore <= 0.3 && forall f :: f in r.riskFlags ==> !f.shouldBlock
  {
    r.decision == Real && r.riskScore <= 0.3 && !HasBlockingFlags(r.riskFlags)
  }

  /** `shouldReject`: a Fake decision, a score of at least 0.8 or a blocking flag. */
  predicate ShouldReject(r: IdResponse)
    ensures ShouldReject(r) <==>
      r.decision == Fake || r.riskScore >= 0.8 || exists f :: f in r.riskFlags && f.shouldBlock
    ensures Level(RiskScore(r.riskScore)) == Critical ==> ShouldReject(r)
  {
    r.decision == Fake || r.riskScore >= 0.8 || HasBlockingFlags(r.riskFlags)
  }

  /** A PHP value as `===` sees it: an enum case is never identical to a string. */
  datatype PhpValue = EnumCase(level: RiskLevel) | Str(s: string)

  /**
   * `hasModerateRiskFlags` as written: the flag's level, an enum case, is compared with
   * the string 'medium' by `===`, so no flag ever matches.
   */
  predicate HasModerateFlagsAsWritten(flags: seq<RiskFlag>)
    ensures !HasModerateFlagsAsWritten(flags)
  {
    exists i :: 0 <= i < |flags| && EnumCase(flags[i].level) == Str("medium")
  }

  /** `hasModerateRiskFlags` as intended: some flag is at the Medium level. */
  predicate HasModerateFlags(flags: seq<RiskFlag>)
    ensures HasModerateFlags(flags) <==> exists f :: f in flags && f.level.Value() == "medium"
  {
    HasFlagAtLevel(flags, Medium)
  }

  /** `requiresManualReview` as written: the flag disjunct never holds. */
  predicate RequiresManualReviewAsWritten(r: IdResponse)
    ensures RequiresManualReviewAsWritten(r) <==>
      r.decision == Suspicious || (0.4 <= r.riskScore < 0.8)
  {
    r.decision == Suspicious || (r.riskScore >= 0.4 && r.riskScore < 0.8) || HasModerateFlagsAsWritten(r.riskFlags)
  }

  /** `requiresManualReview`: Suspicious, a score in [0.4, 0.8), or a Medium-level flag. */
  predicate RequiresManualReview(r: IdResponse)
    ensures RequiresManualReview(r) <==>
      RequiresManualReviewAsWritten(r) || exists f :: f in r.riskFlags && f.level == Medium
  {
    r.decision == Suspicious || (r.riskScore >= 0.4 && r.riskScore < 0.8) || HasModerateFlags(r.riskFlags)
  }

  /** A successful verification is never rejected. */
  lemma SuccessExcludesRejection(r: IdResponse)
    ensures !(IsSuccessful(r) && ShouldReject(r))
  {
  }

  /** Without flags and a deciding verdict, the review band and the rejection band never overlap. */
  lemma ReviewBandBelowRejectBand(r: IdResponse)
    requires r.decision == Real && r.riskFlags == []
    ensures !(RequiresManualReview(r) && ShouldReject(r))
    ensures !(RequiresManualReviewAsWritten(r) && ShouldReject(r))
  {
  }

  /** As written, a Medium-level flag never sends a response to review; as intended it does. */
  lemma ModerateFlagIgnored()
    ensures var r := IdResponse(Real, 0.1, [RiskFlag("medium_flag", false, Medium, "document")]);
      !RequiresManualReviewAsWritten(r) && RequiresManualReview(r)
  {
    var f := RiskFlag("medium_flag", false, Medium, "document");
    assert [f][0] == f;
  }

  /** The intended reading only adds the flag rule: it reviews everything the written one does. */
  lemma ReviewReadingsNested(r: IdResponse)
    ensures RequiresManualReviewAsWritten(r) ==> RequiresManualReview(r)
    ensures !HasModerateFlags(r.riskFlags) ==> (RequiresManualReview(r) == RequiresManualReviewAsWritten(r))
  {
  }

  /** `hasRiskFlag`. */
  predicate HasRiskFlag(r: IdResponse, flag: RiskFlag) {
    flag in r.riskFlags
  }

  /** `getRiskFlagsByCategory`: flags partitioned by category, in order, none lost. */
  method RiskFlagsByCategory(r: IdResponse) returns (groups: seq<Group<string, RiskFlag>>)
    ensures forall c :: Lookup(groups, c) == KeyFilter(r.riskFlags, FlagCategory, c)
    ensures Total(groups) == |r.riskFlags|
    ensures DistinctKeys(groups)
    ensures forall c :: c in Keys(groups) <==> exists f :: f in r.riskFlags && f.category == c
  {
    groups := GroupItems(r.riskFlags, FlagCategory);
    forall c ensures Lookup(groups, c) == KeyFilter(r.riskFlags, FlagCategory, c) {
      GroupByLookup(r.riskFlags, FlagCategory, c);
    }
    GroupByTotal(r.riskFlags, FlagCategory);
    GroupByKeys(r.riskFlags, FlagCategory);
  }

  /**
   * `getRiskFlagsByLevel` as written: the first flag's level, an enum case, is used as
   * an array key, which PHP refuses with a TypeError; without flags the result is empty.
   */
  function RiskFlagsByLevelAsWritten(r: IdResponse): (res: Result<seq<Group<string, RiskFlag>>, string>)
    ensures res.Failure? <==> r.riskFlags != []
    ensures res.Success? ==> res.value == []
  {
    if r.riskFlags == [] then Success([]) else Failure("TypeError: Illegal offset type")
  }

  /** `getRiskFlagsByLevel` keyed by the level's string value, as the face response does it. */
  method RiskFlagsByLevel(r: IdResponse) returns (groups: seq<Group<string, RiskFlag>>)
    ensures forall l :: Lookup(groups, l) == KeyFilter(r.riskFlags, FlagLevelValue, l)
    ensures Total(groups) == |r.riskFlags|
    ensures DistinctKeys(groups)
  {
    groups := GroupItems(r.riskFlags, FlagLevelValue);
    forall l ensures Lookup(groups, l) == KeyFilter(r.riskFlags, FlagLevelValue, l) {
      GroupByLookup(r.riskFlags, FlagLevelValue, l);
    }
    GroupByTotal(r.riskFlags, FlagLevelValue);
    GroupByKeys(r.riskFlags, FlagLevelValue);
  }

  /** `getRiskFlagsAsStrings`: one value per flag, in order. */
  function RiskFlagsAsStrings(r: IdResponse): (s: seq<string>)
    ensures |s| == |r.riskFlags| && forall i :: 0 <= i < |s| ==> s[i] == r.riskFlags[i].value
  {
    FlagValues(r.riskFlags)
  }
}
