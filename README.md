# Larasoul core, modelled in Dafny

Larasoul connects a Laravel application to the Verisoul fraud-detection API. This
project models the parts of the package that decide things:

- **Risk scoring.** A risk score in [0, 1] falls into the bands Low / Medium / High /
  Critical. A risk signal is a named, scoped score. A signal collection filters,
  averages and weights signals, ranks the most critical ones, and grows in place
  through `addSignal` and `updateSignal`.
- **The API client.**
  - The circuit breaker is a three-state machine over a TTL cache.
  - The HTTP client covers constructor validation, status classification,
    business-error detection and header merging.
  - The endpoint table covers path templates with `{param}` substitution and the
    method table.
  - The environments supply the two base URLs.
  - The `VerisoulApi` registry builds each service client once and memoises it.
- **Decision rules.**
  - The login listener's status derivation and its guard order.
  - The profile observer's hooks: the edge-triggered high-risk rule and the cached
    status.
  - The accept / reject / review predicates of the face and identity responses.
  - The fraud severity and review priority that two events broadcast.
  - The risk-rank gates in the `RequireRiskLevel` and `RequireVerificationLevel`
    middlewares and in the two verification guards.
- **Records.** The `RiskProfile` and `UserVerification` Eloquent models are classes
  whose methods update their attributes in place. Time is an integer clock in
  seconds.
- **Small stores and strings.**
  - The Verisoul session manager works over the Laravel session slot and a TTL cache.
  - The address value object.
  - The helper builds middleware strings. The router's `Class:a,b` parse is the
    helper's partner.

Each PHP class is one Dafny module. Pure code is functions and lemmas. Code that
changes state is a class or a method with `modifies`, and its `ensures` states the
whole new state. Foreign code (HTTP, Verisoul answers, the user provider, hashing,
`VerificationService`) becomes parameters. The Laravel cache is `TtlCache.Cache`: a
map from key to value and expiry instant, where `put` with a non-positive TTL
forgets the key, as Laravel's repository does.

Where a PHP method depends on a method that may be missing from the user model
(`method_exists`), the model takes an `Option`. `None` stands for the missing
method.

Where the code as written fails or drops data, both readings are modelled and the
Findings table pairs them. The login listener takes a `Reading` with three switches:
whether `needsVerification()` answers, whether `update()` keeps only `$fillable`, and
how the observer hooks see the profile (`Hooks`). `update()` is `fill` over
`$fillable` (`RiskProfiles.Fill`) followed by the save that runs the hooks.

## Model

| member | source | states |
|---|---|---|
| RiskScores.Level | src/ValueObjects/RiskScore.php:90-98 | Low iff value ≤ 0.3, Medium iff 0.3 < v ≤ 0.7, High iff 0.7 < v ≤ 0.9, Critical above; never Unknown |
| RiskScores.LevelMonotone | src/ValueObjects/RiskScore.php:90-98 | a higher score never has a lower level |
| RiskScores.From | src/ValueObjects/RiskScore.php:21-43 | a RiskScore is returned unchanged; a number is wrapped; an array is wrapped by its `value` entry; any other call goes to the generic factory |
| RiskScores.FromDoesNotValidate | src/ValueObjects/RiskScore.php:14-33 | every number is built as it is, outside [0, 1] too; such a score is Low below 0 and Critical above 1 |
| RiskSignals.NewSignal | src/DTO/RiskSignal.php:20-24 | the default scope is DeviceNetwork |
| RiskSignals.IsFlagged | src/DTO/RiskSignal.php:29-32 | strictly above the threshold: at 0.7 it is exactly high risk, at 0.3 exactly "not Low" |
| RiskSignals.IsHighRisk | src/DTO/RiskSignal.php:37-40 | `isHighRisk` iff score > 0.7, that is iff the level is High or Critical |
| RiskSignals.GetRiskLevel | src/DTO/RiskSignal.php:45-48 | the level of the signal's score, never Unknown |
| RiskSignals.DisplayNameFallback | src/DTO/RiskSignal.php:53-86 | for a name outside the table: same length; `_` becomes a space; word-initial characters are upper-cased |
| RiskSignals.DisplayName | src/DTO/RiskSignal.php:53-86 | the table entry for a known name; otherwise a name of the same length |
| RiskSignals.Description | src/DTO/RiskSignal.php:91-124 | for a name outside the table: "Risk signal: " followed by the name |
| RiskSignals.FromScore | src/DTO/RiskSignal.php:129-136 | name and score kept; the scope comes from the name lookup |
| RiskSignals.ToRecord | src/DTO/RiskSignal.php:141-153 | the array carries name, score and scope; is_flagged iff > 0.5; is_high_risk iff > 0.7; plus level, display name and description |
| SignalCollections.ByScope | src/Collections/RiskSignalCollection.php:53-56 | exactly the signals of the scope |
| SignalCollections.Flagged | src/Collections/RiskSignalCollection.php:61-64 | exactly the signals strictly above the threshold |
| SignalCollections.HighRisk | src/Collections/RiskSignalCollection.php:69-72 | exactly the signals above 0.7, whatever the threshold |
| SignalCollections.HighRiskIgnoresThreshold | src/Collections/RiskSignalCollection.php:69-72 | `highRisk(t)` equals `flagged(0.7)` for every t |
| SignalCollections.ByName | src/Collections/RiskSignalCollection.php:77-80 | a signal of that name is found iff one exists |
| SignalCollections.ByNames | src/Collections/RiskSignalCollection.php:85-88 | exactly the signals whose name is listed |
| SignalCollections.RemoveSignal | src/Collections/RiskSignalCollection.php:288-291 | every other signal is kept and none of that name remains |
| SignalCollections.HasFlaggedSignals | src/Collections/RiskSignalCollection.php:192-195 | iff some signal is above the threshold |
| SignalCollections.HasHighRiskSignals | src/Collections/RiskSignalCollection.php:200-203 | iff some signal is above 0.7; the threshold plays no part |
| SignalCollections.OverallRiskScore | src/Collections/RiskSignalCollection.php:93-100 | the mean (mean × count = sum), and 0 when empty |
| SignalCollections.MeanBetweenMinMax | src/Collections/RiskSignalCollection.php:93-100 | the mean lies between the smallest and largest score |
| SignalCollections.AggregatesKeepRange | src/Collections/RiskSignalCollection.php:93-130 | when every score is in [0, 1], so are the mean and the weighted score |
| SignalCollections.DefaultWeightsSumToOne | src/Collections/RiskSignalCollection.php:105-130 | the default scope weights sum to 1 |
| SignalCollections.WeightedScore | src/Collections/RiskSignalCollection.php:105-130 | Σ(s·w)/Σw, where caller weights override the defaults and other scopes weigh 0.1; 0 when empty or Σw ≤ 0 |
| SignalCollections.TotalWeightPositive | src/Collections/RiskSignalCollection.php:105-130 | with positive weights, a non-empty collection has a positive total weight |
| SignalCollections.WeightsPositive | src/Collections/RiskSignalCollection.php:105-130 | positive caller weights keep every weight in use positive |
| SignalCollections.WeightedBetweenMinMax | src/Collections/RiskSignalCollection.php:105-130 | with positive weights the weighted score lies between the minimum and maximum score |
| SignalCollections.Take | src/Collections/RiskSignalCollection.php:184-187 | `take(n)`: the first min(n, count) items, or the last ones for negative n |
| SignalCollections.MostCritical | src/Collections/RiskSignalCollection.php:184-187 | min(\|n\|, count) signals in non-increasing score order, drawn from the collection |
| SignalCollections.MostCriticalAreTop | src/Collections/RiskSignalCollection.php:184-187 | no signal left out scores above one that was selected |
| SignalCollections.GroupedByScope | src/Collections/RiskSignalCollection.php:135-138 | corrected: the groups hold every signal exactly once, under distinct scopes |
| SignalCollections.GroupedByRiskLevel | src/Collections/RiskSignalCollection.php:143-146 | corrected: the groups hold every signal exactly once, under distinct levels |
| SignalCollections.GroupedByScopeMatchesFilter | src/Collections/RiskSignalCollection.php:135-138 | corrected: each scope group is `byScope` of that scope |
| SignalCollections.GroupedByRiskLevelPartitions | src/Collections/RiskSignalCollection.php:143-146 | corrected: each level group holds exactly the signals of that level; there is no Unknown group |
| SignalCollections.GetSummary | src/Collections/RiskSignalCollection.php:151-179 | corrected: counts agree with the filters; overall, weighted, max and min are OverallRiskScore, WeightedScore, MaxScore and MinScore, and the groupings are GroupedByScope / GroupedByRiskLevel; the empty case gives zeros and no groupings |
| SignalCollections.ToRecords | src/Collections/RiskSignalCollection.php:208-211 | corrected: record i is `toArray()` of signal i |
| SignalCollections.FirstNonSignal | src/Collections/RiskSignalCollection.php:210 | the first item the RiskSignal-typed closure refuses, present iff some item is not a signal |
| SignalCollections.ToArrayNeverReturns | src/Collections/RiskSignalCollection.php:208-211 | as written: the `toArray` override returns a value at no depth of its self-recursion |
| SignalCollections.EmptyToArrayUnfinished | src/Collections/RiskSignalCollection.php:208-211 | as written: on an empty collection the override is still recursing at every depth |
| SignalCollections.SignalsToArrayThrows | src/Collections/RiskSignalCollection.php:208-211 | as written: on signals, the second call hands the first signal's array to the closure, a TypeError |
| SignalCollections.ToRecordsAsWritten | src/Collections/RiskSignalCollection.php:208-211 | as written: never returns; non-empty throws the closure's TypeError naming `array`, empty recurses without end |
| SignalCollections.GroupedToArray | src/Collections/RiskSignalCollection.php:135-146 | as written: `toArray` of a `groupBy` result never returns; with a group it throws the TypeError naming the nested collection |
| SignalCollections.GroupedByScopeAsWritten | src/Collections/RiskSignalCollection.php:135-138 | as written: never returns; non-empty throws, empty recurses without end |
| SignalCollections.GroupedByRiskLevelAsWritten | src/Collections/RiskSignalCollection.php:143-146 | as written: never returns; non-empty throws, empty recurses without end |
| SignalCollections.GetSummaryAsWritten | src/Collections/RiskSignalCollection.php:151-179 | as written: returns iff the collection is empty, then the empty GetSummary; otherwise the `groupedByScope` TypeError |
| SignalCollections.LegacyKey | src/Collections/RiskSignalCollection.php:216-227 | the camel-case key has no underscore |
| SignalCollections.LegacyFlags | src/Collections/RiskSignalCollection.php:216-227 | keys are the names' legacy keys; each key holds the flag of the last signal with that key |
| SignalCollections.LegacyScores | src/Collections/RiskSignalCollection.php:232-243 | keys are the names' legacy keys; each key holds the score of the last signal with that key |
| SignalCollections.Convert | src/Collections/RiskSignalCollection.php:24-48 | name defaults to "unknown" and scope to DeviceNetwork; a RiskSignal entry is kept as is |
| SignalCollections.IngestKeepsPositive | src/Collections/RiskSignalCollection.php:24-48 | fails iff an array entry has no 'score' key (:30) or a kept entry has an unrecognised scope (:35); otherwise keeps exactly the positive entries in order |
| SignalCollections.IngestFailure | src/Collections/RiskSignalCollection.php:24-48 | fails iff some entry has no 'score' key or a kept entry's scope is unrecognised |
| SignalCollections.IngestPrefixFailure | src/Collections/RiskSignalCollection.php:24-48 | a failure on a prefix is the failure of the whole input |
| SignalCollections.DeviceNetworkCandidates | src/Collections/RiskSignalCollection.php:296-311 | nine candidates, all DeviceNetwork |
| SignalCollections.DocumentCandidates | src/Collections/RiskSignalCollection.php:316-325 | two candidates, both Document |
| SignalCollections.ReferringSessionCandidates | src/Collections/RiskSignalCollection.php:330-341 | five candidates, all ReferringSession |
| SignalCollections.VerisoulSignalsShape | src/Collections/RiskSignalCollection.php:346-366 | only positive signals; never Account or Session; at most 16 |
| SignalCollections.RiskSignalCollection.AddSignal | src/Collections/RiskSignalCollection.php:248-261 | appends iff the score is positive; the scope defaults to DeviceNetwork |
| SignalCollections.RiskSignalCollection.AddCandidates | src/Collections/RiskSignalCollection.php:296-311 | adding candidates in turn appends exactly the positive ones |
| SignalCollections.RiskSignalCollection.UpdateSignal | src/Collections/RiskSignalCollection.php:266-283 | replaces the first match in place, keeping index and scope, without a positivity check; otherwise falls back to addSignal; a non-null average in the scope slot fails |
| SignalCollections.RiskSignalCollection.WeightedRiskScore | src/Collections/RiskSignalCollection.php:105-130 | the one-pass loop computes WeightedScore |
| SignalCollections.RiskSignalCollection.ToLegacyRiskSignals | src/Collections/RiskSignalCollection.php:216-227 | the loop builds LegacyFlags |
| SignalCollections.RiskSignalCollection.ToLegacyRiskSignalScores | src/Collections/RiskSignalCollection.php:232-243 | the loop builds LegacyScores |
| SignalCollections.FromArray | src/Collections/RiskSignalCollection.php:24-48 | a fresh collection holding Ingest(data), or Ingest's error: the undefined 'score' key or the unrecognised scope |
| SignalCollections.FromDeviceNetworkSignals | src/Collections/RiskSignalCollection.php:296-311 | the positive device-network candidates |
| SignalCollections.FromDocumentSignals | src/Collections/RiskSignalCollection.php:316-325 | the positive document candidates |
| SignalCollections.FromReferringSessionSignals | src/Collections/RiskSignalCollection.php:330-341 | the positive referring-session candidates |
| SignalCollections.FromVerisoulSignals | src/Collections/RiskSignalCollection.php:346-366 | the present groups merged in the order device, document, session |
| CircuitBreakers.ParseState | src/Api/Support/CircuitBreaker.php:27-68 | a missing or unrecognised stored state acts as Closed |
| CircuitBreakers.KeysDistinct | src/Api/Support/CircuitBreaker.php:143-156 | the three keys of a service are pairwise distinct |
| CircuitBreakers.EmptyCacheIsClosed | src/Api/Support/CircuitBreaker.php:98-101 | with no stored keys the breaker is Closed with no failures |
| CircuitBreakers.DefaultConfig | src/Api/Support/CircuitBreaker.php:17-22 | the defaults are 5 failures, 60 s and 300 s |
| CircuitBreakers.ExecuteResult | src/Api/Support/CircuitBreaker.php:73-96 | a success is returned unchanged; a failure is a 504 iff it lasted at least the timeout |
| CircuitBreakers.Decremented | src/Api/Support/CircuitBreaker.php:119-128 | one less, floored at 0 |
| CircuitBreakers.CallResult | src/Api/Support/CircuitBreaker.php:27-68 | rejected with 503 iff Open and no recovery is due; otherwise the executeCall result |
| CircuitBreakers.NextView | src/Api/Support/CircuitBreaker.php:27-68 | per state: Closed counts a failure and opens at the threshold; HalfOpen closes on success and reopens on failure; Open goes HalfOpen when recovery is due |
| CircuitBreakers.FailuresOpenAtThreshold | src/Api/Support/CircuitBreaker.php:56-66 | consecutive failures count up by one; the breaker opens exactly at the threshold |
| CircuitBreakers.ThresholdFailuresOpen | src/Api/Support/CircuitBreaker.php:113-117 | from a fresh cache, threshold-many failures open the breaker |
| CircuitBreakers.NeverRejectedWithoutLastFailure | src/Api/Support/CircuitBreaker.php:135-141 | with no last-failure key no call is ever rejected: nothing writes that key |
| CircuitBreakers.CircuitBreaker.GetState | src/Api/Support/CircuitBreaker.php:98-101 | the state read from the cache |
| CircuitBreakers.CircuitBreaker.SetState | src/Api/Support/CircuitBreaker.php:103-106 | only the state key changes |
| CircuitBreakers.CircuitBreaker.GetFailureCount | src/Api/Support/CircuitBreaker.php:108-111 | the count read from the cache |
| CircuitBreakers.CircuitBreaker.RecordFailure | src/Api/Support/CircuitBreaker.php:113-117 | count + 1; only the count key changes |
| CircuitBreakers.CircuitBreaker.RecordSuccess | src/Api/Support/CircuitBreaker.php:119-128 | count decremented; only the count key changes |
| CircuitBreakers.CircuitBreaker.ResetFailureCount | src/Api/Support/CircuitBreaker.php:130-133 | count 0; only the count key changes |
| CircuitBreakers.CircuitBreaker.AttemptRecovery | src/Api/Support/CircuitBreaker.php:135-141 | recovery is due iff no last failure is stored or recoveryTime has passed |
| CircuitBreakers.CircuitBreaker.ExecuteCall | src/Api/Support/CircuitBreaker.php:73-96 | returns ExecuteResult; only a success changes the count; other keys are untouched |
| CircuitBreakers.CircuitBreaker.Call | src/Api/Support/CircuitBreaker.php:27-68 | returns CallResult and leaves the breaker at NextView; other services' keys are untouched |
| ApiClients.ValidateConstructorParams | src/Api/Clients/Client.php:339-352 | the first failing check: an empty key, then a timeout outside [1, 300], then a connect timeout outside (0, timeout] |
| ApiClients.ResponseData | src/Api/Clients/Client.php:311-315 | the body's fields plus request_id |
| ApiClients.ErrorForStatus | src/Api/Clients/Client.php:309-334 | 401, 400, 404, 422 and 429 map to their errors; the 422 error carries the body's message, field and value with defaults "Validation failed", "unknown" and null; every other status is a server error |
| ApiClients.BusinessError | src/Api/Clients/Client.php:230-264 | checks, in order, `error` set, `success === false`, then `status === "error"`; the error has status 200 |
| ApiClients.HandleHttpResponse | src/Api/Clients/Client.php:271-304 | non-2xx responses fail first, then a non-JSON content type; otherwise succeeds with the body unchanged iff it is an array with no business error |
| ApiClients.PerformAsWritten | src/Api/Clients/Client.php:196-223 | a handled success passes; an error from handleHttpResponse comes out as a connection failure; a failed request gives ErrorForStatus; a lost connection gives a network error |
| ApiClients.BusinessErrorRewrapped | src/Api/Clients/Client.php:196-223 | a 200 body with `error` loses its status |
| ApiClients.Perform | src/Api/Clients/Client.php:196-223 | corrected: the client's own errors pass through unchanged; a lost connection gives a network error |
| ApiClients.DefaultHeaders | src/Api/Clients/Client.php:389-398 | five headers, including x-api-key = the key |
| ApiClients.RequestHeaders | src/Api/Clients/Client.php:158-162 | per-call headers override the defaults; X-Request-ID is always set last |
| ApiClients.Client.SetApiKey | src/Api/Clients/Client.php:108-113 | the key changes; the environment does not |
| ApiClients.Client.SetEnvironment | src/Api/Clients/Client.php:115-120 | the environment changes; the key does not |
| ApiClients.Client.BuildRequest | src/Api/Clients/Client.php:155-188 | URL = base + path; headers = merged headers |
| ApiClients.Client.PlanCall | src/Api/Clients/Client.php:136-148 | method = endpoint method; URL = base + substituted path |
| ApiClients.Client.Call | src/Api/Clients/Client.php:136-188 | corrected (runs the corrected Perform, not PerformAsWritten): the endpoint's request goes through Perform inside the circuit breaker: the result is CallResult and the breaker state NextView of Perform's outcome |
| ApiClients.NewClient | src/Api/Clients/Client.php:37-65 | fails iff validation fails; otherwise the headers capture the given key |
| ApiClients.StaleKeyAfterSetApiKey | src/Api/Clients/Client.php:108-113 | after setApiKey, requests still send the original key |
| Endpoints.Url | src/Enums/VerisoulApiEndpoint.php:40-59 | every path starts with `/` |
| Endpoints.WithParameters | src/Enums/VerisoulApiEndpoint.php:64-73 | the path with each `{key}` replaced in parameter order |
| Endpoints.NoParameters | src/Enums/VerisoulApiEndpoint.php:64-73 | `withParameters([])` equals `url()` |
| Endpoints.AbsentParametersIgnored | src/Enums/VerisoulApiEndpoint.php:68-70 | parameters without a placeholder leave the path unchanged |
| Endpoints.AccountGetExample | src/Enums/VerisoulApiEndpoint.php:64-73 | AccountGet with account_id 42 gives `/account/42` |
| Endpoints.MethodTable | src/Enums/VerisoulApiEndpoint.php:78-109 | 7 GET, 9 POST, 1 PUT, 3 DELETE |
| Endpoints.Resolve | src/Enums/VerisoulApiEndpoint.php:40-59 | the reverse table: what it finds has that path and method |
| Endpoints.ResolveFindsEndpoint | src/Enums/VerisoulApiEndpoint.php:78-109 | path and method together identify every endpoint |
| Endpoints.SharedPathsDifferInMethod | src/Enums/VerisoulApiEndpoint.php:78-109 | endpoints that share a path differ in method |
| Environments.BaseUrl | src/Enums/VerisoulEnvironment.php:10-16 | https, with no trailing slash |
| Environments.FromValue | src/Enums/VerisoulEnvironment.php:7-8 | only "sandbox" and "production" are accepted |
| Environments.BaseUrlsDistinct | src/Enums/VerisoulEnvironment.php:12-15 | the two base URLs differ |
| Environments.SingleSlashAtSeam | src/Enums/VerisoulEnvironment.php:13-14 | base + absolute path has exactly one slash at the seam |
| Registry.IntSetting | src/Services/VerisoulApi.php:37-43 | a missing or null key gives the default; an int passes, a bool becomes 0 or 1, a float is truncated toward zero; a string, list or object is a type error |
| Registry.Settings | src/Services/VerisoulApi.php:37-43 | the four settings with their defaults |
| Registry.DefaultSettings | src/Services/VerisoulApi.php:37-43 | the defaults are 30, 10, 3 and 1000, and they pass the client's validation |
| Registry.GetConfig | src/Services/VerisoulApi.php:109-112 | the service's section when it is an array, `[]` when missing or null; a scalar section fails the `array` return type |
| Registry.IsEnabled | src/Services/VerisoulApi.php:117-120 | true iff the section has a truthy `enabled`; an array-valued `enabled` fails the `bool` return type |
| Registry.MissingServiceDisabled | src/Services/VerisoulApi.php:109-120 | a missing service is disabled and has an empty section |
| Registry.ListSectionDisabled | src/Services/VerisoulApi.php:109-120 | a section that is a list is returned as is and is never enabled |
| Registry.VerisoulApi.ClientFor | src/Services/VerisoulApi.php:34-44 | memoised: a built client is returned as is; a new one is built from the settings and remembered |
| Registry.NewVerisoulApi | src/Services/VerisoulApi.php:24-32 | a PHP-empty key is refused; isSandbox iff the environment is Sandbox |
| Registry.VerisoulApi.IsSandbox | src/Services/VerisoulApi.php:133-136 | iff the environment's base URL is the sandbox URL |
| Registry.AskTwice | src/Services/VerisoulApi.php:34-44 | the same instance twice, and at most one new entry |
| Decisions.FlagValues | src/Api/Responses/VerifyIdResponse.php:131-134 | one value per flag, in order |
| Decisions.HasBlockingFlags | src/Api/Responses/VerifyIdResponse.php:74-77 | iff some flag should block; never for no flags |
| FaceResponses.IsSuccessful | src/Api/Responses/VerifyFaceResponse.php:43-48 | Real, score ≤ 0.3, no blocking flag |
| FaceResponses.ShouldRejectAsWritten | src/Api/Responses/VerifyFaceResponse.php:53-58 | Fake, or 0.7 < score ≤ 0.9, or a blocking flag |
| FaceResponses.ShouldReject | src/Api/Responses/VerifyFaceResponse.php:53-58 | corrected: Fake, or score > 0.7, or a blocking flag |
| FaceResponses.RequiresManualReview | src/Api/Responses/VerifyFaceResponse.php:63-68 | Suspicious, or 0.4 ≤ score ≤ 0.8, or a Medium-level flag |
| FaceResponses.SuccessExcludesRejection | src/Api/Responses/VerifyFaceResponse.php:43-58 | success and rejection exclude each other under both readings |
| FaceResponses.RejectionMonotone | src/Api/Responses/VerifyFaceResponse.php:53-58 | corrected rejection is monotone in the score |
| FaceResponses.CriticalScoreNotRejected | src/Api/Responses/VerifyFaceResponse.php:53-58 | as written, Real at 0.95 is neither accepted, rejected nor reviewed |
| FaceResponses.RejectReadingsAgreeBelowCritical | src/Api/Responses/VerifyFaceResponse.php:53-58 | the readings agree for scores ≤ 0.9 |
| FaceResponses.RiskFlagsByCategory | src/Api/Responses/VerifyFaceResponse.php:89-101 | a partition by category, in order, with no flag lost |
| FaceResponses.RiskFlagsByLevel | src/Api/Responses/VerifyFaceResponse.php:106-118 | a partition by level value, with no flag lost |
| FaceResponses.RiskFlagsAsStrings | src/Api/Responses/VerifyFaceResponse.php:131-134 | one value per flag, in order |
| FaceResponses.GetRiskSignals | src/Api/Responses/VerifyFaceResponse.php:139-145 | device-network and referring-session signals only, all positive |
| IdResponses.HasModerateFlagsAsWritten | src/Api/Responses/VerifyIdResponse.php:82-85 | always false (an enum compared with a string) |
| IdResponses.IsSuccessful | src/Api/Responses/VerifyIdResponse.php:44-49 | Real, score ≤ 0.3 (the Low band) and no blocking flag |
| IdResponses.ShouldReject | src/Api/Responses/VerifyIdResponse.php:54-59 | Fake, score ≥ 0.8 or a blocking flag; every Critical score rejects |
| IdResponses.RequiresManualReview | src/Api/Responses/VerifyIdResponse.php:64-69 | corrected: the as-written rule, or some Medium-level flag |
| IdResponses.HasModerateFlags | src/Api/Responses/VerifyIdResponse.php:82-85 | corrected: some flag is at the Medium level |
| IdResponses.RequiresManualReviewAsWritten | src/Api/Responses/VerifyIdResponse.php:64-69 | Suspicious or 0.4 ≤ score < 0.8 |
| IdResponses.SuccessExcludesRejection | src/Api/Responses/VerifyIdResponse.php:44-59 | success and rejection exclude each other |
| IdResponses.ReviewBandBelowRejectBand | src/Api/Responses/VerifyIdResponse.php:54-69 | the review score band and the rejection band are disjoint |
| IdResponses.ModerateFlagIgnored | src/Api/Responses/VerifyIdResponse.php:64-69 | a Medium flag triggers review only in the corrected reading |
| IdResponses.ReviewReadingsNested | src/Api/Responses/VerifyIdResponse.php:64-69 | the corrected reading only adds the flag rule |
| IdResponses.RiskFlagsByCategory | src/Api/Responses/VerifyIdResponse.php:90-101 | a partition by category, in order, with no flag lost |
| IdResponses.RiskFlagsByLevelAsWritten | src/Api/Responses/VerifyIdResponse.php:106-118 | fails iff there is any flag (an enum used as an array key) |
| IdResponses.RiskFlagsByLevel | src/Api/Responses/VerifyIdResponse.php:106-118 | corrected: a partition by level value |
| IdResponses.RiskFlagsAsStrings | src/Api/Responses/VerifyIdResponse.php:131-134 | count and order preserved |
| SessionManagers.UserKey | src/Services/VerisoulSessionManager.php:179-186 | `prefix_user_…` |
| SessionManagers.SessionKey | src/Services/VerisoulSessionManager.php:188-195 | `prefix_session_…` |
| SessionManagers.KeysNeverCollide | src/Services/VerisoulSessionManager.php:179-195 | a user key never equals a session key |
| SessionManagers.IsValidSessionData | src/Services/VerisoulSessionManager.php:197-214 | an empty id is invalid; no expiry means valid; otherwise valid until expiry |
| SessionManagers.StoredData | src/Services/VerisoulSessionManager.php:16-50 | the stored data expires ttl (default 3600) seconds from now |
| SessionManagers.StoredDataValid | src/Services/VerisoulSessionManager.php:16-50 | freshly stored data is valid at once |
| SessionManagers.StoreEntriesFrame | src/Services/VerisoulSessionManager.php:36-47 | StoreEntries leaves every key other than the two it writes unchanged |
| SessionManagers.SessionManager.StoreSessionId | src/Services/VerisoulSessionManager.php:16-50 | the slot gets the data; the cache becomes StoreEntries: the user entry only for a non-empty user id, then the session entry |
| SessionManagers.SessionManager.GetSessionData | src/Services/VerisoulSessionManager.php:55-72 | valid slot data wins; without it and without a slot id, the user's cached data is returned iff it is valid; a bare id in the slot is a type error |
| SessionManagers.SessionManager.GetSessionDataBySessionId | src/Services/VerisoulSessionManager.php:77-86 | valid cached data under the id, if any |
| SessionManagers.SessionManager.GetCurrentSessionId | src/Services/VerisoulSessionManager.php:91-96 | the id of the current data, never empty |
| SessionManagers.SessionManager.HasSessionId | src/Services/VerisoulSessionManager.php:129-132 | iff there is a current id |
| SessionManagers.SessionManager.ClearSessionId | src/Services/VerisoulSessionManager.php:101-110 | the slot and the user entry go; session entries stay |
| SessionManagers.SessionManager.ClearSessionIdBySessionId | src/Services/VerisoulSessionManager.php:115-124 | the session entry goes; the named user's session is cleared first |
| SessionManagers.SessionManager.UpdateMetadata | src/Services/VerisoulSessionManager.php:137-157 | false without data; otherwise the cache becomes StoreEntries of the same ids with the merged metadata (new keys win) |
| Clock.DaysUntilExpiration | src/Models/RiskProfile.php:233-240 | null without expiry; otherwise whole days left, never negative |
| Clock.AboutToExpire | src/Models/RiskProfile.php:245-250 | iff days ≠ null and days ≤ w |
| Clock.ExpiredIsAboutToExpire | src/Models/RiskProfile.php:217-250 | an expired record is always about to expire |
| RiskProfiles.NewAttributes | src/Models/RiskProfile.php:98-110 | a new profile has level Unknown and nothing else set |
| RiskProfiles.Fill | src/Models/RiskProfile.php:79-87 | `update()` stores the seven `$fillable` attributes from the written array; status, score, signals, verified_at, failure_reason and last_risk_check_at keep their value |
| RiskProfiles.FillStoresAllIff | src/Models/RiskProfile.php:79-87 | the whole written array is stored iff it leaves every attribute outside `$fillable` as it was |
| RiskProfiles.FillIdempotent | src/Models/RiskProfile.php:79-87 | filling twice with the same array stores what filling once does |
| RiskProfiles.RiskProfile.GetRiskLevel | src/Models/RiskProfile.php:171-182 | the stored level; else Unknown without a score; else the score's level |
| RiskProfiles.RiskProfile.IsAssessed | src/Models/RiskProfile.php:123-126 | never without an assessment time; implies a decision |
| RiskProfiles.RiskProfile.IsLowRisk | src/Models/RiskProfile.php:131-134 | the stored level is "low"; never without a stored level |
| RiskProfiles.RiskProfile.IsHighRisk | src/Models/RiskProfile.php:139-142 | iff the stored level is "high" or "critical"; never low risk; the score alone does not count |
| RiskProfiles.RiskProfile.IsReal | src/Models/RiskProfile.php:147-150 | the decision is "Real", and then neither Fake nor Suspicious |
| RiskProfiles.RiskProfile.IsFake | src/Models/RiskProfile.php:155-158 | the decision is "Fake", and then not Suspicious |
| RiskProfiles.RiskProfile.IsSuspicious | src/Models/RiskProfile.php:163-166 | the decision is "Suspicious"; never without a decision |
| RiskProfiles.RiskProfile.IsExpired | src/Models/RiskProfile.php:217-220 | never without an expiry; once expired, expired later too, with 0 days left |
| RiskProfiles.RiskProfile.NeedsAssessment | src/Models/RiskProfile.php:225-228 | otherwise assessed and unexpired; once needed, needed later too |
| RiskProfiles.RiskProfile.IsAboutToExpire | src/Models/RiskProfile.php:245-250 | for w ≥ 0: iff the expiry is less than w + 1 days away; an expired profile always is |
| RiskProfiles.RiskProfile.RequiresManualReview | src/Models/RiskProfile.php:187-191 | Suspicious or score in [0.4, 0.8] |
| RiskProfiles.RiskProfile.MarkAsLowRisk | src/Models/RiskProfile.php:255-265 | Real/Low, assessed now, expires in 30 days; no longer needs assessment |
| RiskProfiles.RiskProfile.MarkAsHighRisk | src/Models/RiskProfile.php:270-279 | Fake/High, assessed now; the expiry is untouched |
| RiskProfiles.RiskProfile.MarkAsSuspicious | src/Models/RiskProfile.php:284-293 | Suspicious/Medium, assessed now; calls for review |
| RiskProfiles.RiskProfile.UpdateRiskAssessment | src/Models/RiskProfile.php:196-212 | decision, level, score and signals overwritten; assessed now; expiry renewed |
| RiskProfiles.For | src/Models/RiskProfile.php:98-110 | the existing profile, or a fresh one with level Unknown |
| RiskProfiles.NeedsAssessmentCases | src/Models/RiskProfile.php:225-228 | unassessed needs assessment; assessed and unexpired does not |
| RiskProfiles.HighAndLowExclusive | src/Models/RiskProfile.php:131-142 | isHighRisk and isLowRisk never both hold |
| UserVerifications.UserVerification.MarkAsVerified | src/Models/UserVerification.php:198-208 | Verified/Real, verified now, expiry by type; verified until then |
| UserVerifications.UserVerification.MarkAsFailed | src/Models/UserVerification.php:213-221 | Failed/Fake and nothing else |
| UserVerifications.UserVerification.MarkAsSuspicious | src/Models/UserVerification.php:226-234 | ManualReview/Suspicious |
| UserVerifications.UserVerification.UpdateRiskData | src/Models/UserVerification.php:239-253 | all four fields overwritten, nulls included |
| UserVerifications.UserVerification.IsExpired | src/Models/UserVerification.php:168-171 | never without an expiry; once expired, expired later too |
| UserVerifications.UserVerification.IsVerified | src/Models/UserVerification.php:142-147 | iff Verified, Real and not past the expiry; then it was verified at every earlier time |
| UserVerifications.UserVerification.IsPending | src/Models/UserVerification.php:152-155 | a pending record is verified at no time |
| UserVerifications.UserVerification.IsFailed | src/Models/UserVerification.php:160-163 | a failed record is not pending and verified at no time |
| UserVerifications.UserVerification.IsAboutToExpire | src/Models/UserVerification.php:176-181 | for w ≥ 0: iff the expiry is less than w + 1 days away; an expired record always is |
| UserVerifications.ForUser | src/Models/UserVerification.php:111-118 | a pending verification of that type |
| UserVerifications.FromApiResponseAsWritten | src/Models/UserVerification.php:120-137 | always fails, first at the undeclared `type` read, whose warning Laravel throws |
| UserVerifications.FromApiResponse | src/Models/UserVerification.php:120-137 | corrected: Verified iff the response's own isSuccessful, else Failed; decision, score and flags from the response; times only on success; a successful record is verified until it expires |
| UserVerifications.StatusPredicatesExclusive | src/Models/UserVerification.php:142-163 | pending and failed are exclusive; pending is never verified |
| ProfileObserver.UserKeys | src/Observers/RiskProfileObserver.php:221-233 | the per-user keys include the status key |
| ProfileObserver.UserKeysDistinct | src/Observers/RiskProfileObserver.php:221-233 | exactly four distinct keys |
| ProfileObserver.CrossesHighRisk | src/Observers/RiskProfileObserver.php:81-88 | iff the new score is ≥ 0.8 and the old one was not; an unchanged score never crosses |
| ProfileObserver.StayingHighDoesNotFire | src/Observers/RiskProfileObserver.php:81-88 | no high-risk event while the score stays ≥ 0.8 |
| ProfileObserver.CachedStatus | src/Observers/RiskProfileObserver.php:104-109 | "verified", "failed" or "manual_review" for those statuses; nothing otherwise |
| ProfileObserver.Arm | src/Observers/RiskProfileObserver.php:104-109 | as written (status is not in `$casts`, RiskProfile.php:89-96) no `match` arm and no `=== RiskStatus::Verified` test sees the status; once cast, the status itself |
| ProfileObserver.UpdatedThrown | src/Observers/RiskProfileObserver.php:116-122 | as written always the ErrorException of reading `->value` off the text or null status; once cast, only the getVerifiedTypes() error on the Verified arm; corrected, nothing |
| ProfileObserver.ClearUserRiskProfileCache | src/Observers/RiskProfileObserver.php:221-233 | exactly the four keys are forgotten |
| ProfileObserver.UpdatedEntries | src/Observers/RiskProfileObserver.php:98-161 | the status key reads back the cached status text; other users' keys are unchanged; the user's other keys are gone |
| ProfileObserver.StampedEmail | src/Observers/RiskProfileObserver.php:150-154 | an unset email_verified_at becomes now; a set one is kept |
| ProfileObserver.VerifiedTypesAsWritten | src/Observers/RiskProfileObserver.php:168 | the call always throws the undefined-method error |
| ProfileObserver.VerifiedUpdateAsWritten | src/Observers/RiskProfileObserver.php:98-124 | as written: an expired profile whose status column reads "verified" gets no completion event and no cached status, only the expiry event, and the hook throws the `->value` error |
| ProfileObserver.VerifiedUpdateThrows | src/Observers/RiskProfileObserver.php:144-170 | with the status cast but getVerifiedTypes() still called: an expired Verified profile throws after the completion event, and no expiry event follows |
| ProfileObserver.VerifiedUpdateCompletes | src/Observers/RiskProfileObserver.php:98-124 | corrected: the same update completes with the completion and the expiry events |
| ProfileObserver.Creating | src/Observers/RiskProfileObserver.php:21-29 | expiry = now + months (default 12) only when unset |
| ProfileObserver.Created | src/Observers/RiskProfileObserver.php:34-48 | the keys are cleared; a verification-started event |
| ProfileObserver.Updating | src/Observers/RiskProfileObserver.php:53-93 | a change the hooks see as Verified fills unset times (as written the uncast status never is); every status change gives an event; high risk fires on an upward crossing; a score change stamps the check time |
| ProfileObserver.Updated | src/Observers/RiskProfileObserver.php:98-170 | the cache becomes UpdatedEntries for the status the `match` sees; Verified fires completion, stamps an unset email_verified_at and throws iff getVerifiedTypes() throws; Failed fires failure; the expiry event unless the Verified arm threw; the hook throws UpdatedThrown, so as written always, with no cached status and no completion event |
| ProfileObserver.Deleted | src/Observers/RiskProfileObserver.php:129-139 | the keys are cleared |
| AuthListener.SlotSessionIdAsWritten | src/Listeners/HandleAuthUser.php:40-41 | succeeds only when the slot holds a bare id |
| AuthListener.SecondEventThrows | src/Listeners/HandleAuthUser.php:40-59 | after storeSessionId, or with no slot, the read fails |
| AuthListener.SlotSessionId | src/Listeners/HandleAuthUser.php:40-41 | corrected: a bare id, or the id inside stored data |
| AuthListener.StoredSlotReadsBack | src/Listeners/HandleAuthUser.php:55-59 | what one event stores the next reads back |
| AuthListener.TryBlock | src/Listeners/HandleAuthUser.php:61-83 | skip, assess or fail, by the needs-check and the API answer |
| AuthListener.NeedsVerificationAsWritten | src/Listeners/HandleAuthUser.php:62 | the undeclared method throws |
| AuthListener.NeedsCheck | src/Listeners/HandleAuthUser.php:62 | as written the undeclared-method error; once declared, what needsAssessment() answers |
| AuthListener.AuthenticationNeverRuns | src/Listeners/HandleAuthUser.php:61-83 | as written the try block always fails |
| AuthListener.DeriveStatus | src/Listeners/HandleAuthUser.php:99-131 | Verified iff Real and < 0.7; Failed iff ≥ 0.9 or Fake; review and pending cases |
| AuthListener.RiskyNeverVerified | src/Listeners/HandleAuthUser.php:119-131 | a score ≥ 0.7 is never Verified |
| AuthListener.AssessedAttributes | src/Listeners/HandleAuthUser.php:89-133 | the `$updateData` array: Real sets the verified and expiry times |
| AuthListener.DowngradedRealKeepsTimes | src/Listeners/HandleAuthUser.php:100-131 | a downgraded Real keeps its times |
| AuthListener.FailedAttributes | src/Listeners/HandleAuthUser.php:78-82 | the array the catch writes: Pending, a prefixed reason, check time now; nothing else differs |
| AuthListener.ListenerEvents | src/Listeners/HandleAuthUser.php:136-147 | one status event except for Pending; high risk iff ≥ 0.8 |
| AuthListener.CatchStoresNothing | src/Listeners/HandleAuthUser.php:78-81 | as written the catch's `update()` stores nothing: none of its keys is fillable |
| AuthListener.AssessmentStoresDecisionAndExpiry | src/Listeners/HandleAuthUser.php:91-133 | as written `update()` stores only the decision and, for Real, the expiry; the status is unchanged |
| AuthListener.Save | src/Listeners/HandleAuthUser.php:133 | the hooks run only when the attributes differ from those last synchronised; the cached status follows what the hooks see; the save throws SaveThrown; the listener's writes leave `updating` nothing to fill |
| AuthListener.SaveThrown | src/Listeners/HandleAuthUser.php:133 | a save throws iff it changed something and `updated` throws: as written every changing save; with the corrected hooks none |
| AuthListener.ResolveProfile | src/Listeners/HandleAuthUser.php:52 | the existing profile, or a new one with the creation hooks |
| AuthListener.UpdateRiskProfile | src/Listeners/HandleAuthUser.php:89-148 | stores what `fill` keeps of AssessedAttributes (as written, nothing outside `$fillable` changes); throws SaveThrown; the listener events fire iff nothing was thrown |
| AuthListener.RecordFailure | src/Listeners/HandleAuthUser.php:71-83 | as written the profile is unchanged; corrected, Pending with the prefixed reason; throws SaveThrown against the attributes last synchronised |
| AuthListener.AttemptAssessment | src/Listeners/HandleAuthUser.php:61-83 | the attributes, events and exception are AttemptedAttributes / AttemptedEvents / AttemptedThrown; a skip changes nothing |
| AuthListener.AttemptedAttributes | src/Listeners/HandleAuthUser.php:61-83 | a skip keeps the profile; as written only an assessment changes it, and only its fillable part; corrected, an assessment stores the verdict and a failure the catch's array |
| AuthListener.AttemptedThrown | src/Listeners/HandleAuthUser.php:61-83 | a skip throws nothing; as written a failure throws nothing and an assessment throws iff it stored something; with the corrected hooks nothing |
| AuthListener.AttemptedEvents | src/Listeners/HandleAuthUser.php:61-147 | only an assessment whose save did not throw fires ListenerEvents; with the corrected hooks every assessment does |
| AuthListener.AsWrittenAttemptKeepsProfile | src/Listeners/HandleAuthUser.php:61-83 | as written a login leaves the profile as it was, fires nothing and throws nothing |
| AuthListener.DeclaredCheckLoginThrows | src/Listeners/HandleAuthUser.php:61-133 | with only needsVerification() answered, a Real 0.2 login on a stored Pending profile stores the decision, stays Pending, fires nothing and throws the `->value` error |
| AuthListener.VerifiedLoginCompletes | src/Listeners/HandleAuthUser.php:61-133 | corrected: the same login ends Verified with the completion event and nothing thrown |
| AuthListener.Handle | src/Listeners/HandleAuthUser.php:29-84 | reads the slot with the corrected SlotSessionId, not SlotSessionIdAsWritten: no change without a profilable user or session data; otherwise resolve, store the session, then the attributes, events and exception are AttemptedAttributes / AttemptedEvents / AttemptedThrown |
| Alerts.FraudSeverity | src/Events/FraudAttemptDetected.php:48-62 | critical iff blocking flags or ≥ 0.9; then high ≥ 0.8, medium ≥ 0.6, else low |
| Alerts.FraudSeverityWith | src/Events/FraudAttemptDetected.php:48-62 | a throwing hasBlockingRiskFlags() call ends the method; an answer grades as FraudSeverity |
| Alerts.FraudSeverityAlwaysThrows | src/Events/FraudAttemptDetected.php:51 | as written, every severity request throws the undefined-method error |
| Alerts.AtLeastAsWritten | src/Events/FraudAttemptDetected.php:53-57 | a null score is below the threshold; a present score, a RiskScore object, makes the comparison throw |
| Alerts.FraudSeverityComparedAsWritten | src/Events/FraudAttemptDetected.php:48-62 | a throwing flags call ends it; blocking flags give critical before the score is read; otherwise it throws iff there is a score; any grade it gives is FraudSeverityWith's |
| Alerts.SeverityMonotone | src/Events/FraudAttemptDetected.php:48-62 | severity is monotone in the score |
| Alerts.BlockingFlagsDominate | src/Events/FraudAttemptDetected.php:48-62 | blocking flags always give critical |
| Alerts.RequiresImmediateAction | src/Events/FraudAttemptDetected.php:67-71 | iff severity is critical |
| Alerts.ReviewPriority | src/Events/ManualReviewRequired.php:46-57 | high ≥ 0.8, medium ≥ 0.6, else low |
| Alerts.ReviewPriorityAsWritten | src/Events/ManualReviewRequired.php:46-57 | throws iff the profile has a score; without one, low, as ReviewPriority |
| Alerts.PriorityMatchesSeverity | src/Events/ManualReviewRequired.php:46-57 | below 0.9, priority equals the severity without flags |
| Alerts.EstimatedReviewTime | src/Events/ManualReviewRequired.php:62-69 | 2-4 hours, 4-8 hours, 1-2 business days by priority |
| RiskGate.RankOf | src/Http/Middleware/RequireRiskLevel.php:16-21 | low 1, medium 2, high 3, unknown 4 |
| RiskGate.ExceedsRiskLevel | src/Http/Middleware/RequireRiskLevel.php:65-71 | rank(user, default 4) > rank(max, default 2) |
| RiskGate.ExceedsSelfIffUnranked | src/Http/Middleware/RequireRiskLevel.php:65-71 | a level exceeds itself iff it is unranked |
| RiskGate.LowNeverExceedsRanked | src/Http/Middleware/RequireRiskLevel.php:65-71 | "low" passes every ranked maximum |
| RiskGate.CriticalExceedsAllButUnknown | src/Http/Middleware/RequireRiskLevel.php:16-21 | "critical" is refused under every maximum but "unknown" |
| RiskGate.ExceedsAntitone | src/Http/Middleware/RequireRiskLevel.php:65-71 | a tighter maximum refuses more |
| RiskGate.LowIsTightest | src/Http/Middleware/RequireRiskLevel.php:65-71 | "low" refuses whatever any maximum refuses |
| RiskGate.RouteOr | src/Http/Middleware/RequireRiskLevel.php:91-103 | `?:` falls back on a missing or empty route |
| RiskGate.Unauthenticated | src/Http/Middleware/RequireRiskLevel.php:76-86 | 401 JSON or a guest redirect to login |
| RiskGate.HighRiskMessage | src/Http/Middleware/RequireRiskLevel.php:108-125 | the message names the user's level after its lead and the maximum before its tail |
| RiskGate.Handle | src/Http/Middleware/RequireRiskLevel.php:30-60 | corrected (verification answered, the denial answering instead of throwing): order: authentication, trait, verification, risk; Next iff verified and not exceeding; a denial is the 403 or the redirect with the message |
| RiskGate.HandleDenialAsWritten | src/Http/Middleware/RequireRiskLevel.php:108-112 | as written past verification: exactly the requests Handle denies for risk throw the undefined `getRiskFlags()` error; the rest get Handle's answer |
| RiskGate.TraitIsVerifiedAsWritten | src/Traits/HasRiskProfile.php:39-42 | never true: false without a profile, the undefined-method error with one |
| RiskGate.HandleAsWritten | src/Http/Middleware/RequireRiskLevel.php:30-60 | as written no request reaches `$next`; a user with a profile makes it throw |
| RiskGate.VerifiedLowRiskPasses | src/Http/Middleware/RequireRiskLevel.php:47-59 | corrected: a verified "low" user passes every ranked maximum, where the as-written middleware never passes |
| RiskGate.UnverifiedIgnoresLevels | src/Http/Middleware/RequireRiskLevel.php:91-103 | an unverified user gets the same answer whatever the levels |
| RiskGate.RiskLevelDisplayName | src/Http/Middleware/RequireRiskLevel.php:153-162 | "Undefined Risk" iff the level is unranked |
| Guards.PolicyFor | src/Auth/Guards/VerificationGuard.php:156-181 | configured policy with defaults false, false, "medium"; high security is true, true, "low" |
| Guards.CheckRiskLevel | src/Auth/Guards/VerificationGuard.php:188-204 | refuses iff the level exceeds the maximum; skipped without getRiskLevel |
| Guards.CheckRiskLevelAsWritten | src/Auth/Guards/VerificationGuard.php:188-204 | throws iff the user has getRiskLevel; otherwise skipped, as CheckRiskLevel |
| Guards.BaseChecks | src/Auth/Guards/VerificationGuard.php:120-151 | disabled or no trait passes; then verification, expiry, risk, flags, in that order |
| Guards.HasRecentSuspiciousActivity | src/Auth/Guards/HighSecurityVerificationGuard.php:53-69 | more than two attempts |
| Guards.Checks | src/Auth/Guards/HighSecurityVerificationGuard.php:35-48 | high security adds full verification and suspicious activity after the base checks |
| Guards.DisabledStandardPasses | src/Auth/Guards/VerificationGuard.php:120-151 | disabled means every user passes the standard guard |
| Guards.DisabledHighSecurityStillChecks | src/Auth/Guards/HighSecurityVerificationGuard.php:35-48 | the extra high-security checks run even when disabled |
| Guards.HighSecurityStricter | src/Auth/Guards/HighSecurityVerificationGuard.php:14-48 | what the standard guard refuses, the high-security one refuses |
| Guards.VerificationGuard.TokenForRequest | src/Auth/Guards/VerificationGuard.php:95-112 | query, then input, then bearer, then password; each only when the previous is empty |
| Guards.VerificationGuard.User | src/Auth/Guards/VerificationGuard.php:33-55 | the cached user; otherwise the token's user, cached only when it passes the checks |
| Guards.VerificationGuard.Validate | src/Auth/Guards/VerificationGuard.php:60-82 | iff the credential is present, the user is found, the credentials match and the checks pass |
| Guards.VerificationGuard.SetUser | src/Auth/Guards/VerificationGuard.php:87-90 | the user is cached |
| Guards.UserTwice | src/Auth/Guards/VerificationGuard.php:33-55 | a second call returns what the first cached |
| LevelGate.ValidateLevel | src/Http/Middleware/RequireVerificationLevel.php:42-47 | accepted iff configured; the error names the level |
| LevelGate.CurrentLevel | src/Http/Middleware/RequireVerificationLevel.php:137-157 | the user's own level, else by verified-type count |
| LevelGate.CurrentLevelMonotone | src/Http/Middleware/RequireVerificationLevel.php:143-156 | more verified types never give a lower level |
| LevelGate.LevelDescription | src/Http/Middleware/RequireVerificationLevel.php:164-169 | descriptions exist for the four levels |
| LevelGate.Describe | src/Http/Middleware/RequireVerificationLevel.php:171-172 | the description, or the raw name |
| LevelGate.LevelMessage | src/Http/Middleware/RequireVerificationLevel.php:162-175 | the message names the required level's description and ends with the current level's description, or its raw name |
| LevelGate.PassesAdditionalChecks | src/Http/Middleware/RequireVerificationLevel.php:215-247 | corrected: premium and high_value need a risk level; high_value needs "low"; premium refuses "high"; expiry and flags refuse |
| LevelGate.PassesAdditionalChecksAsWritten | src/Http/Middleware/RequireVerificationLevel.php:215-247 | high_value never passes |
| LevelGate.EnumComparisonInverts | src/Http/Middleware/RequireVerificationLevel.php:226-232 | low risk fails high_value and high risk passes premium as written; the opposite when corrected |
| LevelGate.AdditionalCheckFailureReason | src/Http/Middleware/RequireVerificationLevel.php:252-275 | flags, then expiry, then the level's risk rule, then generic |
| LevelGate.FailureReasonNamesCause | src/Http/Middleware/RequireVerificationLevel.php:252-275 | with a risk level known, a failure never gets the generic reason |
| LevelGate.RequirementRoute | src/Http/Middleware/RequireVerificationLevel.php:185-190 | phone, face and identity routes; verification.start otherwise |
| LevelGate.VerificationUrls | src/Http/Middleware/RequireVerificationLevel.php:180-194 | one route per missing requirement |
| LevelGate.Handle | src/Http/Middleware/RequireVerificationLevel.php:25-60 | corrected: order authentication, trait, level, requirements, additional checks, then Next; the additional-checks refusal carries "Access denied: " and the reason |
| Addresses.IsComplete | src/DTO/Address.php:34-38 | complete implies has data |
| Addresses.HasDataIffSomePart | src/DTO/Address.php:25-29 | has data iff some field survives the filter |
| Addresses.CompleteIffAllParts | src/DTO/Address.php:34-38 | complete iff all five survive |
| Addresses.FormattedAddress | src/DTO/Address.php:43-54 | the filled parts in field order, joined by ", "; "" iff no data |
| Addresses.FormattedComplete | src/DTO/Address.php:43-54 | a complete address is street, city, state, postal code and country joined by ", " |
| Addresses.FilledParts | src/DTO/Address.php:45-51 | exactly the filled values, in order |
| Addresses.FilledPartsValues | src/DTO/Address.php:45-51 | with every field filled, the parts are the fields' values |
| Addresses.CompletionPercentage | src/DTO/Address.php:59-65 | a multiple of 20 in [0, 100]; 100 iff complete; 0 iff no data |
| MiddlewareStrings.WithRoute | src/Http/Helpers/VerificationMiddleware.php:21-24 | parses back to the class and the route when the route is truthy |
| MiddlewareStrings.WithParams | src/Http/Helpers/VerificationMiddleware.php:29-34 | parses back to the class, the first parameter and the route |
| MiddlewareStrings.Verification | src/Http/Helpers/VerificationMiddleware.php:21-24 | parses back to RequireVerification and the route |
| MiddlewareStrings.RiskLevel | src/Http/Helpers/VerificationMiddleware.php:29-34 | parses back to RequireRiskLevel, the level (default medium) and the route |
| MiddlewareStrings.VerificationType | src/Http/Helpers/VerificationMiddleware.php:39-44 | parses back to RequireVerificationType, the type and the route |
| MiddlewareStrings.VerificationLevel | src/Http/Helpers/VerificationMiddleware.php:49-54 | parses back to RequireVerificationLevel, the level (default basic) and the route |
| MiddlewareStrings.Document | src/Http/Helpers/VerificationMiddleware.php:59-62 | parses back to RequireDocumentVerification and the route |
| MiddlewareStrings.Face | src/Http/Helpers/VerificationMiddleware.php:67-70 | parses back to RequireFaceVerification and the route |
| MiddlewareStrings.Phone | src/Http/Helpers/VerificationMiddleware.php:75-78 | parses back to RequirePhoneVerification and the route |
| MiddlewareStrings.FalsyRouteDropped | src/Http/Helpers/VerificationMiddleware.php:21-34 | a route "" or "0" is dropped |

## Left out

- Transport, retries, logging and metrics:
  - The HTTP transport is a parameter (its answer and the elapsed time).
  - `RetryStrategy` is not part of this model; the retry settings are carried but unused.
  - Logging and metrics calls are left out.
- The circuit breaker samples the clock once per call: writes made after the callback use the time it started.
- Endpoints: the list of placeholder names (`account_id`, `session_id`, `list_name`) is not proved.
- Client error responses: a JSON body that is a list or a scalar is treated as empty.
- ApiClients.ErrorForStatus: the exception messages the `VerisoulApiException` factories build are not modelled; each error carries its kind, status, and the 422 payload.
- Client headers: `array_merge` renumbering of numeric-string header keys is not modelled.
- `SignalScope` is not part of this model. Scope strings are either recognised or refused.
- `RiskFlag` is carried as a record of value, blocking bit, level and category.
- RiskScores.Valid: the [0, 1] rule of `rules()` is declared but no path of the core applies it, so scores are any real and no operation requires it; it appears only in FromDoesNotValidate and SignalCollections.AggregatesKeepRange.
- `RiskScore::low/medium/high/critical` read configuration. They are left out; the level cut-offs are the ones `level()` uses.
- Registry.IntSetting: a numeric string ("30") is treated as a type error, though PHP's coercive mode would convert it; a float beyond the 64-bit integer range, which PHP also refuses, is truncated like any other.
- Time:
  - months are 30 days;
  - Carbon's `diffInDays` is taken as whole days, floored;
  - `VerificationType::getExpirationPeriod` is a `period` parameter.
- UserVerifications.FromApiResponse: `type`, `riskSignals`, `verifiedAt` and `expiresAt` are declared by neither response class; the corrected reading takes them as a `VerdictExtras` record.
- Eloquent models: `update()` is `fill` over `$fillable` and the save with its hooks; timestamps, the `saving` / `saved` events and the database schema are not part of this model.
- ProfileObserver.Updated: how the hooks see the profile is a parameter, `Hooks`. As written the status is uncast text and `getVerifiedTypes()` throws (see Findings); the corrected reading casts the status, drops the `getVerifiedTypes()` call and logs `status?->value`. The other log calls are left out.
- SessionManagers.SessionManager.UpdateMetadata: `array_merge` renumbers integer keys, so metadata keys such as "5" would be renumbered; the model's map merge keeps every key as it is.
- Observer `updated`: for Pending, the status key is absent afterwards, because it is forgotten first and not re-cached.
- Observer and listener events: the observer's high-risk event and the listener's can both fire for one update.
- Caches: the listener's session store and the observer's status store are two `TtlCache.Cache` objects, where Laravel has one store.
- Listener: `isset($response->accountScore)` always holds in the model, because the response always carries a score.
- Listener: the verification type and account lookups passed to `authenticate` are not modelled.
- Alerts.FraudSeverity: takes the score's numeric value and the blocking bit as inputs. As written, `hasBlockingRiskFlags` is undeclared and the event compares the RiskScore object itself with floats (see Findings).
- Alerts.ReviewPriority: compares the score's numeric value; as written the RiskScore object is compared (see Findings). Without Laravel's error handler PHP would compare the object as 1; that reading is not modelled.
- RiskGate.ExceedsRiskLevel: ranks the level's string value. The user trait's `getRiskLevel` returns a `RiskLevel` case, and passing it to the `string $userRiskLevel` parameter (RequireRiskLevel.php:65) is a TypeError, since an enum is not coerced to a string. As written that call is never reached (see Findings).
- Guards.CheckRiskLevel: ranks the level's string value. As written the `RiskLevel` case cannot index the rank array and the lookup throws (see Findings; Guards.CheckRiskLevelAsWritten); the guard's checks use the corrected rank.
- RiskGate.Handle: takes verification as an input, as the guards do. As written the trait's `isVerified` never answers true (see Findings; RiskGate.HandleAsWritten), and a denial throws at `getRiskFlags()` (RiskGate.HandleDenialAsWritten). The denial's JSON keeps only message and error code: `user_risk_level`, `user_risk_score`, `max_allowed_level`, `risk_flags` and `support_url` (RequireRiskLevel.php:129-137) are left out, and so are the flashed `user_risk_level` and `max_allowed_level` (:142-146) and the warning log (:116-125).
- The guards' user provider lookup and `hash()` are a `retrieve` function parameter; credential checking is a `credentialsValid` parameter.
- `VerificationService` (`meetsRequirementsForLevel`, `getMissingRequirementsForLevel`) is not part of this model. Its answers are parameters.
- `route()` URL generation: route names stand for URLs.
- LevelGate.Handle: the JSON responses keep only status, error code and message. The other fields (levels, missing requirements, URLs) are left out.
- Address percentages are exact multiples of 20, so `round(…, 1)` is the identity on them.
- Grouping: Laravel collection `groupBy` is modelled as a list of (key, items) pairs in first-appearance order.
- `Bag\Collection` is not part of this model: the collection is taken to inherit Laravel's `map` and `groupBy`, which build their results with `new static`.
- SignalCollections.ToArrayAsWritten: PHP's recursion has no bound, so the model counts nested calls with a `depth` parameter and answers Unfinished when it is spent; an input that is Unfinished at every depth stands for a call that never returns (PHP runs out of memory). Which error ends it is not modelled.
- SignalCollections.GroupedByRiskLevelAsWritten: the error is the closure's TypeError. On a Laravel version whose `groupBy` does not accept enum keys, the `RiskLevel` key throws earlier, with another message.
- SignalCollections.FromArray: a score is a number, null or absent; a string or other non-numeric score compared with `> 0` is not modelled.

## Findings

| source | as written | input that shows it | evidently intended | confidence | as-written member | corrected member |
|---|---|---|---|---|---|---|
| src/Api/Clients/Client.php:213-222 | errors raised by `handleHttpResponse` inside the `try` fall into `catch (Exception $e)` and are rewrapped as connection failures | a 200 JSON body `{"error": "denied"}` | the client's own API errors pass through unchanged | not executed; high | ApiClients.PerformAsWritten, ApiClients.BusinessErrorRewrapped | ApiClients.Perform, ApiClients.Client.Call |
| src/Api/Responses/VerifyFaceResponse.php:53-58 | `shouldReject` tests only `isHigh()`, the band (0.7, 0.9] | decision Real, score 0.95, no flags: not successful, not rejected, not reviewed | scores above 0.9 reject too | not executed; medium | FaceResponses.ShouldRejectAsWritten, FaceResponses.CriticalScoreNotRejected | FaceResponses.ShouldReject, FaceResponses.RejectionMonotone |
| src/Api/Responses/VerifyIdResponse.php:82-85 | the flag's level, a `RiskLevel` case, is compared with `'medium'` by `===`, which is always false | decision Real, score 0.1, one non-blocking Medium flag: no review | a Medium-level flag sends the response to review | not executed; high | IdResponses.HasModerateFlagsAsWritten, IdResponses.RequiresManualReviewAsWritten, IdResponses.ModerateFlagIgnored | IdResponses.HasModerateFlags, IdResponses.ReviewReadingsNested |
| src/Api/Responses/VerifyIdResponse.php:106-118 | a `RiskLevel` case is used as an array key, a TypeError | any response with one flag | flags grouped by the level's value, as the face response does | not executed; high | IdResponses.RiskFlagsByLevelAsWritten | IdResponses.RiskFlagsByLevel |
| src/Listeners/HandleAuthUser.php:40-41 | the session value is passed to a `string` parameter | a login with no Verisoul session id (null); or a second auth event after `storeSessionId` wrote an array at :55 | read the id from a bare string or from the stored array; no data means skip | not executed; medium | AuthListener.SlotSessionIdAsWritten, AuthListener.SecondEventThrows | AuthListener.SlotSessionId, AuthListener.StoredSlotReadsBack, AuthListener.Handle |
| src/Listeners/HandleAuthUser.php:62 | `needsVerification()` is not declared on RiskProfile. The call throws; the catch passes Pending and the reason to `update()`, which stores neither (not fillable), so Verisoul is never asked and the login changes nothing | any login with session data | `needsAssessment()` | not executed; medium | AuthListener.NeedsVerificationAsWritten, AuthListener.AuthenticationNeverRuns, AuthListener.AsWrittenAttemptKeepsProfile | AuthListener.NeedsCheck, AuthListener.AttemptAssessment, AuthListener.Handle |
| src/Listeners/HandleAuthUser.php:133 | `update()` keeps only `$fillable` (RiskProfile.php:79-87), which omits status, score, signals, verified_at, failure_reason and last_risk_check_at, so only the decision and the expiry are stored; and `status` is not in `$casts` (:89-96), so the observer's `match` never sees a RiskStatus and its closing log (RiskProfileObserver.php:120) reads `->value` off text or null, which Laravel throws | with `needsVerification()` answered, a Real login with score 0.2 on a stored Pending profile: the decision is stored, the status stays Pending, and the hook's exception leaves the listener | the verdict's status, score, signals and times are stored, and the hooks see a RiskStatus | not executed; medium | RiskProfiles.Fill, AuthListener.CatchStoresNothing, AuthListener.AssessmentStoresDecisionAndExpiry, AuthListener.DeclaredCheckLoginThrows, ProfileObserver.VerifiedUpdateAsWritten | AuthListener.VerifiedLoginCompletes, ProfileObserver.VerifiedUpdateCompletes |
| src/Observers/RiskProfileObserver.php:168 | the completion log calls `getVerifiedTypes()`, which RiskProfile does not declare. Once the status is cast (row above), `__call` throws after the completion event and the cached status, so `updated` skips the expiry check and the exception leaves the save | an expired profile saved as Verified: the completion event, then the undefined-method error, and no expiry event | the verified types are logged and the hook completes | not executed; medium | ProfileObserver.VerifiedUpdateThrows | ProfileObserver.VerifiedUpdateCompletes, AuthListener.VerifiedLoginCompletes |
| src/Models/UserVerification.php:120-137 | `fromApiResponse` reads `type`, `riskSignals`, `verifiedAt` and `expiresAt`, which neither response class declares. The first, `type` at :124, raises an undefined-property warning that Laravel throws as an ErrorException (without that, `toArray()` on the null `riskSignals` would throw at :127) | any face or identity response | those fields come with the response | not executed; high | UserVerifications.FromApiResponseAsWritten | UserVerifications.FromApiResponse |
| src/Traits/HasRiskProfile.php:39-42 | `isVerified` calls `RiskProfile::isVerified`, which is not declared: false without a profile, a thrown error with one. RequireRiskLevel (:47) therefore never lets a request through; RequireVerification.php:35 and VerificationGuard.php:133 make the same call | a user with the trait and a profile: the middleware throws; without a profile: sent to verification | the profile's verified status answers | not executed; high | RiskGate.TraitIsVerifiedAsWritten, RiskGate.HandleAsWritten | RiskGate.Handle, RiskGate.VerifiedLowRiskPasses |
| src/Events/FraudAttemptDetected.php:51-57 | `hasBlockingRiskFlags()` is called on the RiskProfile, which does not declare it, so `getFraudSeverity` and `requiresImmediateAction` throw before any score is compared. Were it answered, `$riskScore >= 0.9` would compare the RiskScore object with a float: PHP cannot convert it and raises a notice, which Laravel throws | any fraud-attempt event | the profile's blocking flags and the score's value decide | not executed; high | Alerts.FraudSeverityAlwaysThrows, Alerts.FraudSeverityComparedAsWritten | Alerts.FraudSeverityWith, Alerts.FraudSeverity |
| src/Events/ManualReviewRequired.php:50-52 | `$riskScore >= 0.8` compares the RiskScore object that `risk_score` is cast to with a float; PHP cannot convert it and raises a notice, which Laravel throws as an ErrorException | any manual-review event for a profile with a score; without a score the priority is low | compare the score's value | not executed; medium | Alerts.ReviewPriorityAsWritten, Alerts.AtLeastAsWritten | Alerts.ReviewPriority, Alerts.EstimatedReviewTime |
| src/Auth/Guards/VerificationGuard.php:198 | `$riskLevels[$userRiskLevel] ?? 4` indexes the rank array with the RiskLevel case `getRiskLevel` returns (HasRiskProfile.php:92); an enum is not a valid array key, and the TypeError escapes `validate`'s catch (:76) | the standard guard with check_risk_level on and require_verification off, and any user with the trait | rank the level's value | not executed; medium | Guards.CheckRiskLevelAsWritten | Guards.CheckRiskLevel, Guards.BaseChecks |
| src/Http/Middleware/RequireVerificationLevel.php:226-271 | `getRiskLevel()` returns a `RiskLevel` case, compared with `'low'` / `'high'` by `!==` / `===`, in `passesAdditionalChecks` (:226-232) and again in `getAdditionalCheckFailureReason` (:262-271) | a low-risk user at high_value is refused; a high-risk user at premium passes | compare the level's value | not executed; medium | LevelGate.PassesAdditionalChecksAsWritten, LevelGate.EnumComparisonInverts | LevelGate.PassesAdditionalChecks, LevelGate.AdditionalCheckFailureReason, LevelGate.Handle |
| src/Collections/RiskSignalCollection.php:208-211 | `toArray` maps with a `fn (RiskSignal $signal)` closure, and Laravel's `map` rebuilds the collection with `new static`, so the trailing `->toArray()` runs the override again on arrays: a TypeError for a non-empty collection, unbounded recursion for an empty one. `groupedByScope` (:137) and `groupedByRiskLevel` (:145) call it on a `groupBy` result, whose items are nested collections, and `getSummary` calls both (:176-177) | any collection with one signal: `toArray`, both groupings and `getSummary` throw | one array per signal, groups of arrays, and the summary with its groupings | not executed; high | SignalCollections.ToRecordsAsWritten, SignalCollections.GroupedByScopeAsWritten, SignalCollections.GroupedByRiskLevelAsWritten, SignalCollections.GetSummaryAsWritten | SignalCollections.ToRecords, SignalCollections.GroupedByScope, SignalCollections.GroupedByRiskLevel, SignalCollections.GetSummary |
| src/Http/Middleware/RequireRiskLevel.php:112 | `handleHighRisk` calls `$user->getRiskFlags()`, which neither the trait nor RiskProfile declares, so the user model's `__call` throws before any response is built | with verification answered (the HasRiskProfile.php:39-42 row) and the level passed by its value (see RiskGate.ExceedsRiskLevel under Left out), a verified user at level "high" under the default maximum "medium" | the 403 JSON or the redirect with the denial message | not executed; high | RiskGate.HandleDenialAsWritten | RiskGate.Handle |
