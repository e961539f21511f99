/**
 * VerifyFaceResponse: the outcome of a face verification, judged by Verisoul's decision,
 * a risk score and the attached risk flags.
 */
module FaceResponses {
  import opened Wrappers
  import opened RiskScores
  import opened RiskSignals
  import opened Grouping
  import opened Decisions
  import opened SignalCollections

  /** The fields the decision rules and the signal view read; photos, metadata and matches are left out. */
  datatype FaceResponse = FaceResponse(
    decision: VerisoulDecision,
    riskScore: RiskScore,
    riskFlags: seq<RiskFlag>,
    deviceNetworkSignals: DeviceNetworkSignals,
    referringSessionSignals: ReferringSessionSignals)

  /** `isSuccessful`: a Real decision, a Low score and no blocking flag. */
  predicate IsSuccessful(r: FaceResponse)
    ensures IsSuccessful(r) <==>
      r.decision == Real && r.riskScore.value <= 0.3 && !HasBlockingFlags(r.riskFlags)
  {
    r.decision == Real && IsLow(r.riskScore) && !HasBlockingFlags(r.riskFlags)
  }

  /**
   * `shouldReject` as written: a Fake decision, a High score or a blocking flag. Only
   * the High band counts, so a Critical score (above 0.9) on its own does not reject.
   */
  predicate ShouldRejectAsWritten(r: FaceResponse)
    ensures ShouldRejectAsWritten(r) <==>
      r.decision == Fake || (0.7 < r.riskScore.value <= 0.9) || HasBlockingFlags(r.riskFlags)
  {
    r.decision == Fake || IsHigh(r.riskScore) || HasBlockingFlags(r.riskFlags)
  }

  /** `shouldReject` with the whole High-and-above range: a score above 0.7 rejects. */
  predicate ShouldReject(r: FaceResponse)
    ensures ShouldReject(r) <==>
      r.decision == Fake || r.riskScore.value > 0.7 || HasBlockingFlags(r.riskFlags)
  {
    r.decision == Fake || IsHigh(r.riskScore) || IsCritical(r.riskScore) || HasBlockingFlags(r.riskFlags)
  }

  /** `requiresManualReview`: Suspicious, a score in [0.4, 0.8], or a Medium-level flag. */
  predicate RequiresManualReview(r: FaceResponse)
    ensures RequiresManualReview(r) <==>
      r.decision == Suspicious || (0.4 <= r.riskScore.value <= 0.8) || HasFlagAtLevel(r.riskFlags, Medium)
  {
    r.decision == Suspicious || IsBetween(r.riskScore, 0.4, 0.8) || HasFlagAtLevel(r.riskFlags, Medium)
  }

  /** The same response with another score. */
  function WithScore(r: FaceResponse, v: real): FaceResponse {
    r.(riskScore := RiskScore(v))
  }

  /** A successful verification is never rejected, under either reading of `shouldReject`. */
  lemma SuccessExcludesRejection(r: FaceResponse)
    ensures !(IsSuccessful(r) && ShouldReject(r))
    ensures !(IsSuccessful(r) && ShouldRejectAsWritten(r))
  {
  }

  /** With the whole High-and-above range, raising the score never withdraws a rejection. */
  lemma RejectionMonotone(r: FaceResponse, v1: real, v2: real)
    requires v1 <= v2
    requires ShouldReject(WithScore(r, v1))
    ensures ShouldReject(WithScore(r, v2))
  {
  }

  /**
   * As written, a Real response without flags is rejected at 0.8 but not at 0.95, and at
   * 0.95 it is neither successful, nor rejected, nor sent to review.
   */
  lemma CriticalScoreNotRejected()
    ensures var r := FaceResponse(Real, RiskScore(0.8), [], DeviceNetworkSignals(0.0, 0.0, 0.0, 0.0, 0.0, 0.0, 0.0, 0.0, 0.0),
                                  ReferringSessionSignals(0.0, 0.0, 0.0, 0.0, 0.0));
      && ShouldRejectAsWritten(r)
      && !ShouldRejectAsWritten(WithScore(r, 0.95))
      && !IsSuccessful(WithScore(r, 0.95))
      && !RequiresManualReview(WithScore(r, 0.95))
      && ShouldReject(WithScore(r, 0.95))
  {
  }

  /** The two readings differ only on Critical scores. */
  lemma RejectReadingsAgreeBelowCritical(r: FaceResponse)
    requires r.riskScore.value <= 0.9
    ensures ShouldReject(r) == ShouldRejectAsWritten(r)
  {
  }

  /** `hasRiskFlag`. */
  predicate HasRiskFlag(r: FaceResponse, flag: RiskFlag) {
    flag in r.riskFlags
  }

  /**
   * `getRiskFlagsByCategory`: each category holds exactly its flags in their original
   * order, every category appears once, and no flag is lost or duplicated.
   */
  method RiskFlagsByCategory(r: FaceResponse) returns (groups: seq<Group<string, RiskFlag>>)
    ensures forall c :: Lookup(groups, c) == KeyFilter(r.riskFlags, FlagCategory, c)
    ensures Total(groups) == |r.riskFlags|
    ensures DistinctKeys(groups)
    ensures forall c :: c in Keys(groups) <==> exists f :: f in r.riskFlags && f.category == c
  {
    groups := GroupItems(r.riskFlags, FlagCategory);
    forall c ensures Lookup(groups, c) == KeyFilter(r.riskFlags, FlagCategory, c) {
      GroupByLookup(r.riskFlags, FlagCategory, c);
    }
    GroupByTotal(r.riskFlags, FlagCategory);
    GroupByKeys(r.riskFlags, FlagCategory);
  }

  /** `getRiskFlagsByLevel`: the same partition, keyed by the level's string value. */
  method RiskFlagsByLevel(r: FaceResponse) returns (groups: seq<Group<string, RiskFlag>>)
    ensures forall l :: Lookup(groups, l) == KeyFilter(r.riskFlags, FlagLevelValue, l)
    ensures Total(groups) == |r.riskFlags|
    ensures DistinctKeys(groups)
  {
    groups := GroupItems(r.riskFlags, FlagLevelValue);
    forall l ensures Lookup(groups, l) == KeyFilter(r.riskFlags, FlagLevelValue, l) {
      GroupByLookup(r.riskFlags, FlagLevelValue, l);
    }
    GroupByTotal(r.riskFlags, FlagLevelValue);
    GroupByKeys(r.riskFlags, FlagLevelValue);
  }

  /** `getRiskFlagsAsStrings`. */
  function RiskFlagsAsStrings(r: FaceResponse): (s: seq<string>)
    ensures |s| == |r.riskFlags| && forall i :: 0 <= i < |s| ==> s[i] == r.riskFlags[i].value
  {
    FlagValues(r.riskFlags)
  }

  /**
   * `getRiskSignals`: the device-network and referring-session signals with a positive
   * score; a face response carries no document signals.
   */
  method GetRiskSignals(r: FaceResponse) returns (c: RiskSignalCollection)
    ensures fresh(c)
    ensures c.signals == VerisoulSignals(Some(r.deviceNetworkSignals), None, Some(r.referringSessionSignals))
    ensures forall s :: s in c.signals ==> s.scope in {DeviceNetwork, ReferringSession} && s.score.value > 0.0
  {
    c := FromVerisoulSignals(Some(r.deviceNetworkSignals), None, Some(r.referringSessionSignals));
  }
}
