/** RiskSignal: a named, scoped risk score with flag and high-risk predicates. */
module RiskSignals {
  import opened Text
  import opened RiskScores

  /** Which group of signals a signal belongs to. */
  datatype SignalScope = DeviceNetwork | Document | ReferringSession | Account | Session

  datatype RiskSignal = RiskSignal(name: string, score: RiskScore, scope: SignalScope)

  /** The constructor with its default scope. */
  function NewSignal(name: string, score: RiskScore): (r: RiskSignal)
    ensures r.name == name && r.score == score && r.scope == DeviceNetwork
  {
    RiskSignal(name, score, DeviceNetwork)
  }

  const DefaultFlagThreshold: real := 0.5

  /** Flagged means strictly above the threshold. */
  predicate IsFlagged(s: RiskSignal, threshold: real)
    ensures threshold == MediumCutoff ==> (IsFlagged(s, threshold) <==> IsHighRisk(s))
    ensures threshold == LowCutoff ==> (IsFlagged(s, threshold) <==> Level(s.score) != Low)
  {
    s.score.value > threshold
  }

  /** `isHighRisk`: the High or the Critical band, which is exactly a score above 0.7. */
  predicate IsHighRisk(s: RiskSignal)
    ensures IsHighRisk(s) <==> s.score.value > 0.7
    ensures IsHighRisk(s) <==> Level(s.score) == High || Level(s.score) == Critical
  {
    IsHigh(s.score) || IsCritical(s.score)
  }

  function GetRiskLevel(s: RiskSignal): (l: RiskLevel)
    ensures l == Level(s.score)
    ensures l != Unknown
  {
    Level(s.score)
  }

  const DisplayNames: map<string, string> := map[
    "device_risk" := "Device Risk",
    "proxy" := "Proxy",
    "vpn" := "VPN",
    "datacenter" := "Datacenter",
    "tor" := "Tor",
    "spoofed_ip" := "Spoofed IP",
    "recent_fraud_ip" := "Recent Fraud IP",
    "device_network_mismatch" := "Device Network Mismatch",
    "location_spoofing" := "Location Spoofing",
    "id_age" := "ID Age",
    "id_face_match_score" := "ID Face Match Score",
    "id_barcode_status" := "ID Barcode Status",
    "id_face_status" := "ID Face Status",
    "id_text_status" := "ID Text Status",
    "is_id_digital_spoof" := "ID Digital Spoof",
    "is_full_id_captured" := "Full ID Captured",
    "id_validity" := "ID Validity",
    "impossible_travel" := "Impossible Travel",
    "ip_mismatch" := "IP Mismatch",
    "user_agent_mismatch" := "User Agent Mismatch",
    "device_timezone_mismatch" := "Device Timezone Mismatch",
    "ip_timezone_mismatch" := "IP Timezone Mismatch"
  ]

  const Descriptions: map<string, string> := map[
    "device_risk" := "Overall device risk assessment",
    "proxy" := "Connection through proxy server detected",
    "vpn" := "VPN usage detected",
    "datacenter" := "Connection from datacenter IP address",
    "tor" := "Connection through Tor network",
    "spoofed_ip" := "IP address spoofing detected",
    "recent_fraud_ip" := "IP address recently associated with fraud",
    "device_network_mismatch" := "Device and network information mismatch",
    "location_spoofing" := "Location spoofing detected",
    "id_age" := "Age of the identity document",
    "id_face_match_score" := "Face match score between selfie and ID",
    "id_barcode_status" := "Status of ID barcode verification",
    "id_face_status" := "Status of face on ID document",
    "id_text_status" := "Status of text on ID document",
    "is_id_digital_spoof" := "Whether ID appears to be digitally spoofed",
    "is_full_id_captured" := "Whether full ID was captured",
    "id_validity" := "Overall validity of the ID document",
    "impossible_travel" := "Impossible travel pattern detected",
    "ip_mismatch" := "IP address mismatch between sessions",
    "user_agent_mismatch" := "User agent mismatch between sessions",
    "device_timezone_mismatch" := "Device timezone mismatch",
    "ip_timezone_mismatch" := "IP timezone mismatch"
  ]

  /** The human-readable name: from the table, else the name with words capitalised. */
  function DisplayName(s: RiskSignal): (r: string)
    ensures s.name in DisplayNames ==> r == DisplayNames[s.name]
    ensures s.name !in DisplayNames ==> |r| == |s.name|
  {
    if s.name in DisplayNames then DisplayNames[s.name]
    else UcWords(ReplaceChar(s.name, '_', ' '))
  }

  /** Character by character, `ucwords` upper-cases exactly the word-initial characters. */
  lemma {:induction false} UcWordsFromAt(t: string, capitalise: bool, i: nat)
    requires i < |t|
    ensures UcWordsFrom(t, capitalise)[i] ==
      if (if i == 0 then capitalise else IsWordDelimiter(t[i - 1])) then Upper(t[i]) else t[i]
    decreases i
  {
    if i > 0 {
      UcWordsFromAt(t[1..], IsWordDelimiter(t[0]), i - 1);
    }
  }

  /** What the fallback display name holds at position `i` of a name. */
  function FallbackChar(name: string, i: nat): char
    requires i < |name|
  {
    if name[i] == '_' then ' '
    else if i == 0 || name[i - 1] == '_' || IsWordDelimiter(name[i - 1]) then Upper(name[i])
    else name[i]
  }

  /**
   * For a name outside the table, the display name has the name's length; every '_'
   * becomes a space and a character that starts a word is upper-cased.
   */
  lemma DisplayNameFallback(s: RiskSignal)
    requires s.name !in DisplayNames
    ensures |DisplayName(s)| == |s.name|
    ensures forall i :: 0 <= i < |s.name| ==> DisplayName(s)[i] == FallbackChar(s.name, i)
  {
    var t := ReplaceChar(s.name, '_', ' ');
    forall i | 0 <= i < |s.name|
      ensures DisplayName(s)[i] == FallbackChar(s.name, i)
    {
      UcWordsFromAt(t, true, i);
    }
  }

  /** The description: from the table, else a generic sentence naming the signal. */
  function Description(s: RiskSignal): (r: string)
    ensures s.name !in Descriptions ==> StartsWith(r, "Risk signal: ") && r[|"Risk signal: "|..] == s.name
  {
    if s.name in Descriptions then Descriptions[s.name] else "Risk signal: " + s.name
  }

  /** `fromScore`: the scope comes from a name-to-scope lookup that lies outside this model. */
  function FromScore(name: string, score: real, scopeFor: string -> SignalScope): (r: RiskSignal)
    ensures r.name == name && r.score.value == score && r.scope == scopeFor(name)
  {
    RiskSignal(name, RiskScore(score), scopeFor(name))
  }

  /** The serialised form of a signal. */
  datatype SignalRecord = SignalRecord(
    name: string,
    score: RiskScore,
    scope: SignalScope,
    displayName: string,
    description: string,
    riskLevel: RiskLevel,
    isFlagged: bool,
    isHighRisk: bool)

  /** `toArray`: the flag uses the default threshold 0.5, and the high-risk bit is score > 0.7. */
  function ToRecord(s: RiskSignal): (r: SignalRecord)
    ensures r.name == s.name && r.score == s.score && r.scope == s.scope
    ensures r.isFlagged <==> s.score.value > 0.5
    ensures r.isHighRisk <==> s.score.value > 0.7
    ensures r.riskLevel == Level(s.score)
    ensures r.displayName == DisplayName(s) && r.description == Description(s)
  {
    SignalRecord(s.name, s.score, s.scope, DisplayName(s), Description(s), GetRiskLevel(s),
                 IsFlagged(s, DefaultFlagThreshold), IsHighRisk(s))
  }
}
