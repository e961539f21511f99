/**
 * HandleAuthUser: on login or registration, finds the visitor's Verisoul session,
 * attaches it to the user, and when the user's risk profile needs it, asks Verisoul to
 * authenticate the session and records the verdict on the profile.
 */
module AuthListener {
  import opened Wrappers
  import opened TtlCache
  import opened Clock
  import opened RiskSignals
  import opened Decisions
  import opened RiskProfiles
  import opened SessionManagers
  import opened ProfileObserver

  /** What `authenticate` answers that the listener reads. */
  datatype AuthResponse = AuthResponse(decision: VerisoulDecision, accountScore: real, signals: seq<RiskSignal>)

  /** The prefix of the failure reason written when the try block throws. */
  const FailurePrefix: string := "Verisoul authentication failed: "

  /** The message Eloquent's forwarding of an undeclared method throws. */
  const UndefinedNeedsVerification: string :=
    "Call to undefined method Ninja\\Larasoul\\Models\\RiskProfile::needsVerification()"

  /**
   * The session id as the listener reads it, as written: the value in the Laravel
   * session goes to a `string` parameter, so a missing entry or the array that
   * `storeSessionId` writes raises a TypeError there.
   */
  function SlotSessionIdAsWritten(slot: Option<Slot>): (r: Result<string, string>)
    ensures r.Success? <==> slot.Some? && slot.value.SlotId?
    ensures r.Success? ==> r.value == slot.value.id
  {
    if slot.Some? && slot.value.SlotId? then Success(slot.value.id)
    else Failure("TypeError: getSessionDataBySessionId expects a string")
  }

  /**
   * After one login has run `storeSessionId`, the session holds an array, so a second
   * event in the same session (Registered, then Login) throws; so does a login with no
   * Verisoul session at all.
   */
  lemma SecondEventThrows(sessionId: string, userId: int, metadata: map<string, Json.Json>, now: int)
    ensures SlotSessionIdAsWritten(Some(SlotData(StoredData(sessionId, Some(userId), metadata, None, now)))).Failure?
    ensures SlotSessionIdAsWritten(None).Failure?
  {
  }

  /**
   * The session id as the listener means to read it: a bare id, or the id inside the
   * array `storeSessionId` writes; nothing when the session holds neither.
   */
  function SlotSessionId(slot: Option<Slot>): (r: Option<string>)
    ensures r.None? <==> slot.None?
    ensures slot.Some? && slot.value.SlotId? ==> r == Some(slot.value.id)
    ensures slot.Some? && slot.value.SlotData? ==> r == Some(slot.value.data.sessionId)
  {
    match slot
    case None => None
    case Some(SlotId(id)) => Some(id)
    case Some(SlotData(d)) => Some(d.sessionId)
  }

  /** What one event stores is what the next event reads back. */
  lemma StoredSlotReadsBack(sessionId: string, userId: int, metadata: map<string, Json.Json>, now: int)
    ensures SlotSessionId(Some(SlotData(StoredData(sessionId, Some(userId), metadata, None, now)))) == Some(sessionId)
  {
  }

  /** The outcome of the try block: nothing to do, a verdict to record, or an exception. */
  datatype TryOutcome = Skip | Assess(response: AuthResponse) | Fail(message: string)

  /**
   * The try block, from the answer of the needs-check and of `authenticate`; the latter
   * is consulted only when the check says yes.
   */
  function TryBlock(check: Result<bool, string>, auth: Result<AuthResponse, string>): (o: TryOutcome)
    ensures o.Skip? <==> check == Success(false)
    ensures o.Assess? <==> check == Success(true) && auth.Success?
    ensures o.Assess? ==> o.response == auth.value
    ensures o.Fail? ==> o.message == (if check.Failure? then check.error else auth.error)
  {
    if check.Failure? then Fail(check.error)
    else if !check.value then Skip
    else if auth.Failure? then Fail(auth.error)
    else Assess(auth.value)
  }

  /** `$riskProfile->needsVerification()` as written: the model declares no such method. */
  function NeedsVerificationAsWritten(): (r: Result<bool, string>)
    ensures r == Failure(UndefinedNeedsVerification)
  {
    Failure(UndefinedNeedsVerification)
  }

  /** As written, Verisoul is never asked: the try block always lands in the catch. */
  lemma AuthenticationNeverRuns(auth: Result<AuthResponse, string>)
    ensures TryBlock(NeedsVerificationAsWritten(), auth) == Fail(UndefinedNeedsVerification)
  {
  }

  /**
   * The status `updateRiskProfile` writes: Real is Verified only below 0.7, a score of
   * at least 0.9 always fails, Suspicious is reviewed, and an unknown decision is pending.
   */
  function DeriveStatus(decision: VerisoulDecision, score: real): (s: RiskStatus)
    ensures s == Verified <==> decision == Real && score < 0.7
    ensures s == Failed <==> score >= 0.9 || decision == Fake
    ensures s == ManualReview <==> score < 0.9 && (decision == Suspicious || (decision == Real && score >= 0.7))
    ensures s == Pending <==> score < 0.9 && decision == DecisionUnknown
  {
    var base := match decision
      case Real => Verified
      case Fake => Failed
      case Suspicious => ManualReview
      case DecisionUnknown => Pending;
    var downgraded := if score >= 0.7 && base == Verified then ManualReview else base;
    if score >= 0.9 then Failed else downgraded
  }

  /** A risky score is never verified, whatever the decision. */
  lemma {:induction false} RiskyNeverVerified(decision: VerisoulDecision, score: real)
    requires score >= 0.7
    ensures DeriveStatus(decision, score) != Verified
  {
  }

  /** The `$updateData` array `updateRiskProfile` builds, written over `a`. */
  function AssessedAttributes(a: Attributes, r: AuthResponse, now: int, expiryMonths: Option<int>): (b: Attributes)
    ensures b.status == Some(DeriveStatus(r.decision, r.accountScore))
    ensures b.decision == Some(r.decision) && b.score == Some(r.accountScore) && b.signals == Some(r.signals)
    ensures b.lastRiskCheckAt == Some(now)
    ensures r.decision == Real ==>
      b.verifiedAt == Some(now) && b.expiresAt == Some(AddMonths(now, expiryMonths.GetOr(DefaultExpiryMonths)))
    ensures r.decision != Real ==> b.verifiedAt == a.verifiedAt && b.expiresAt == a.expiresAt
    ensures b.userId == a.userId && b.riskLevel == a.riskLevel && b.riskScore == a.riskScore
    ensures b.riskSignals == a.riskSignals && b.assessedAt == a.assessedAt && b.failureReason == a.failureReason
  {
    var b := a.(decision := Some(r.decision), score := Some(r.accountScore), signals := Some(r.signals),
                lastRiskCheckAt := Some(now), status := Some(DeriveStatus(r.decision, r.accountScore)));
    if r.decision == Real then
      b.(verifiedAt := Some(now), expiresAt := Some(AddMonths(now, expiryMonths.GetOr(DefaultExpiryMonths))))
    else b
  }

  /** A Real verdict keeps its verification and expiry times even when the score withholds Verified. */
  lemma DowngradedRealKeepsTimes(a: Attributes, r: AuthResponse, now: int, expiryMonths: Option<int>)
    requires r.decision == Real && r.accountScore >= 0.7
    ensures AssessedAttributes(a, r, now, expiryMonths).status != Some(Verified)
    ensures AssessedAttributes(a, r, now, expiryMonths).verifiedAt == Some(now)
    ensures AssessedAttributes(a, r, now, expiryMonths).expiresAt.Some?
  {
  }

  /** The array the catch block passes to `update()`, written over `a`. */
  function FailedAttributes(a: Attributes, message: string, now: int): (b: Attributes)
    ensures b.status == Some(Pending) && b.lastRiskCheckAt == Some(now)
    ensures b.failureReason == Some(FailurePrefix + message)
    ensures b.(status := a.status, failureReason := a.failureReason, lastRiskCheckAt := a.lastRiskCheckAt) == a
  {
    a.(status := Some(Pending), failureReason := Some(FailurePrefix + message), lastRiskCheckAt := Some(now))
  }

  /**
   * The events `updateRiskProfile` fires itself: one per final status except Pending,
   * then the high-risk event when the score is at least 0.8.
   */
  function ListenerEvents(status: RiskStatus, score: real, userId: int): (e: seq<ProfileEvent>)
    ensures |e| <= 2
    ensures HighRiskDetected(userId) in e <==> score >= 0.8
    ensures (VerificationFailed(userId) in e <==> status == Failed)
         && (ManualReviewRequired(userId) in e <==> status == ManualReview)
         && (VerificationCompleted(userId) in e <==> status == Verified)
    ensures status == Pending ==> |e| == (if score >= 0.8 then 1 else 0)
    ensures status != Pending ==> |e| == (if score >= 0.8 then 2 else 1)
  {
    var statusEvent := match status
      case Failed => [VerificationFailed(userId)]
      case ManualReview => [ManualReviewRequired(userId)]
      case Verified => [VerificationCompleted(userId)]
      case Pending => [];
    statusEvent + (if score >= 0.8 then [HighRiskDetected(userId)] else [])
  }

  /**
   * Which program the listener runs. As written, `needsVerification()` is undeclared,
   * `update()` keeps only the `$fillable` attributes, and the hooks see the status
   * uncast; the three switches lift these one at a time, so that each consequence can be
   * stated on its own. The session slot is read the same way under every reading, with the
   * corrected `SlotSessionId`: `ListenerAsWritten` is as written in these three respects
   * only, and the slot read as written is `SlotSessionIdAsWritten`.
   */
  datatype Reading = Reading(needsCheckDeclared: bool, fillableOnly: bool, hooks: Hooks)

  const ListenerAsWritten: Reading := Reading(false, true, HooksAsWritten)

  /** `needsAssessment()` answers the needs-check, every written attribute is stored, and the hooks are corrected. */
  const ListenerCorrected: Reading := Reading(true, false, HooksCorrected)

  /** The answer of `$riskProfile->needsVerification()`, given what `needsAssessment()` would say. */
  function NeedsCheck(reading: Reading, needsAssessment: bool): (r: Result<bool, string>)
    ensures reading.needsCheckDeclared ==> r == Success(needsAssessment)
    ensures !reading.needsCheckDeclared ==> r == NeedsVerificationAsWritten()
  {
    if reading.needsCheckDeclared then Success(needsAssessment) else NeedsVerificationAsWritten()
  }

  /** What `update($w)` leaves in a profile holding `a`, before the save: the `$fillable` part, or all of it once corrected. */
  function Stored(reading: Reading, a: Attributes, w: Attributes): (b: Attributes)
    ensures reading.fillableOnly ==> b == Fill(a, w)
    ensures !reading.fillableOnly ==> b == w
  {
    if reading.fillableOnly then Fill(a, w) else w
  }

  /** As written the catch's `update()` stores nothing: status, failure_reason and last_risk_check_at are not fillable. */
  lemma CatchStoresNothing(a: Attributes, message: string, now: int)
    ensures Fill(a, FailedAttributes(a, message, now)) == a
  {
  }

  /**
   * As written `updateRiskProfile`'s `update()` stores only the decision and, for a Real
   * verdict, the expiry: the status, score, signals and times it computes are dropped.
   */
  lemma AssessmentStoresDecisionAndExpiry(a: Attributes, r: AuthResponse, now: int, expiryMonths: Option<int>)
    ensures Fill(a, AssessedAttributes(a, r, now, expiryMonths))
         == a.(decision := Some(r.decision),
               expiresAt := if r.decision == Real then Some(AddMonths(now, expiryMonths.GetOr(DefaultExpiryMonths)))
                            else a.expiresAt)
    ensures Fill(a, AssessedAttributes(a, r, now, expiryMonths)).status == a.status
  {
  }

  /**
   * What a save throws: the hooks run only when something differs from what was last
   * synchronised, and then `updated` throws what UpdatedThrown says.
   */
  function SaveThrown(before: Attributes, after: Attributes, hooks: Hooks): (t: Option<string>)
    ensures t.Some? <==> after != before && UpdatedThrown(after.status, hooks).Some?
    ensures t.Some? ==> t == UpdatedThrown(after.status, hooks)
    ensures !hooks.statusCast ==> (t.Some? <==> after != before)
    ensures hooks == HooksCorrected ==> t.None?
  {
    if after != before then UpdatedThrown(after.status, hooks) else None
  }

  /**
   * The `updating` hook has nothing to fill in over `original`: a status newly seen as
   * Verified already carries its verification and expiry times, and a changed score
   * already carries the time of this check.
   */
  predicate HooksAddNothing(a: Attributes, original: Attributes, hooks: Hooks, now: int) {
    && (a.status != original.status && Arm(a.status, hooks) == Some(Verified) ==> a.verifiedAt.Some? && a.expiresAt.Some?)
    && (a.score != original.score ==> a.lastRiskCheckAt == Some(now))
  }

  /**
   * The save `update()` runs after its `fill`: when something differs from `before`, the
   * attributes last synchronised, the observer's `updating` and `updated` hooks run. The
   * listener's writes already satisfy `updating`, so it adds nothing. An exception
   * thrown by `updated` comes out as `thrown`.
   */
  method Save(p: RiskProfile, before: Attributes, cache: Cache<string>, user: Option<User>, now: int,
              expiryMonths: Option<int>, hooks: Hooks)
    returns (observed: seq<ProfileEvent>, thrown: Option<string>)
    requires HooksAddNothing(p.Attrs(), before, hooks, now)
    modifies p, cache, if user.Some? then {user.value} else {}
    ensures p.Attrs() == old(p.Attrs())
    ensures thrown == SaveThrown(before, p.Attrs(), hooks)
    ensures old(p.Attrs()) == before ==> cache.entries == old(cache.entries) && observed == []
    ensures old(p.Attrs()) != before ==> cache.entries == UpdatedEntries(old(cache.entries), p.userId, Arm(p.status, hooks), now)
    ensures old(p.Attrs()) != before ==> Read(cache.entries, StatusKey(p.userId), now) == CachedStatus(Arm(p.status, hooks))
    ensures old(p.Attrs()) != before && p.status != before.status ==> StatusChanged(before.status, p.status) in observed
    ensures user.Some? ==>
      user.value.emailVerifiedAt == if old(p.Attrs()) != before && Arm(p.status, hooks) == Some(Verified)
                                    then StampedEmail(old(user.value.emailVerifiedAt), now)
                                    else old(user.value.emailVerifiedAt)
  {
    observed, thrown := [], None;
    if p.Attrs() != before {
      var updating := Updating(p, before.status, before.score, now, expiryMonths, hooks);
      var updated;
      updated, thrown := Updated(p, cache, user, now, hooks);
      observed := updating + updated;
    }
  }

  /** `RiskProfile::for` with the creation hooks a new profile runs. */
  method ResolveProfile(userId: int, existing: Option<RiskProfile>, cache: Cache<string>, now: int, expiryMonths: Option<int>)
    returns (p: RiskProfile, observed: seq<ProfileEvent>)
    modifies cache
    ensures existing.Some? ==> p == existing.value && observed == [] && cache.entries == old(cache.entries)
    ensures existing.None? ==>
      && fresh(p)
      && p.Attrs() == NewAttributes(userId).(expiresAt := Some(AddMonths(now, expiryMonths.GetOr(DefaultExpiryMonths))))
      && observed == [VerificationStarted(userId)]
      && cache.entries == old(cache.entries) - UserKeys(userId)
  {
    p := For(userId, existing);
    if existing.None? {
      Creating(p, now, expiryMonths);
      observed := Created(p, cache);
    } else {
      observed := [];
    }
  }

  /**
   * `updateRiskProfile`: the verdict array is passed to `update()`, whose `fill` keeps
   * what the reading stores, and saved; then the listener's own events fire, keyed on
   * the status it computed. When the save throws, the exception leaves before any of them.
   */
  method UpdateRiskProfile(p: RiskProfile, cache: Cache<string>, user: Option<User>, r: AuthResponse, now: int,
                           expiryMonths: Option<int>, reading: Reading)
    returns (observed: seq<ProfileEvent>, fired: seq<ProfileEvent>, thrown: Option<string>)
    modifies p, cache, if user.Some? then {user.value} else {}
    ensures p.Attrs() == Stored(reading, old(p.Attrs()), AssessedAttributes(old(p.Attrs()), r, now, expiryMonths))
    ensures reading.fillableOnly ==> Guarded(p.Attrs()) == Guarded(old(p.Attrs()))
    ensures thrown == SaveThrown(old(p.Attrs()), p.Attrs(), reading.hooks)
    ensures fired == if thrown.Some? then []
                     else ListenerEvents(DeriveStatus(r.decision, r.accountScore), r.accountScore, p.userId)
    ensures old(p.Attrs()) != p.Attrs() ==> Read(cache.entries, StatusKey(p.userId), now) == CachedStatus(Arm(p.status, reading.hooks))
  {
    var before := p.Attrs();
    var written := AssessedAttributes(before, r, now, expiryMonths);
    p.Assign(Stored(reading, before, written));
    observed, thrown := Save(p, before, cache, user, now, expiryMonths, reading.hooks);
    if thrown.Some? {
      fired := [];
      return;
    }
    fired := ListenerEvents(DeriveStatus(r.decision, r.accountScore), r.accountScore, p.userId);
  }

  /**
   * The catch block: the Pending array with the reason is passed to `update()` and saved.
   * The save compares with `original`, the attributes last synchronised with the
   * database: a save that threw inside the try block did not synchronise them. The try
   * block leaves attributes on which the `updating` hook has nothing to fill in.
   */
  method RecordFailure(p: RiskProfile, original: Attributes, cache: Cache<string>, user: Option<User>, message: string,
                       now: int, expiryMonths: Option<int>, reading: Reading)
    returns (observed: seq<ProfileEvent>, thrown: Option<string>)
    requires HooksAddNothing(Stored(reading, p.Attrs(), FailedAttributes(p.Attrs(), message, now)), original, reading.hooks, now)
    modifies p, cache, if user.Some? then {user.value} else {}
    ensures p.Attrs() == Stored(reading, old(p.Attrs()), FailedAttributes(old(p.Attrs()), message, now))
    ensures reading.fillableOnly ==> p.Attrs() == old(p.Attrs())
    ensures !reading.fillableOnly ==> p.status == Some(Pending) && p.failureReason == Some(FailurePrefix + message)
    ensures thrown == SaveThrown(original, p.Attrs(), reading.hooks)
    ensures p.Attrs() != original ==> Read(cache.entries, StatusKey(p.userId), now) == CachedStatus(Arm(p.status, reading.hooks))
  {
    var current := p.Attrs();
    p.Assign(Stored(reading, current, FailedAttributes(current, message, now)));
    observed, thrown := Save(p, original, cache, user, now, expiryMonths, reading.hooks);
  }

  /**
   * The attributes the try block and its catch leave. With an assessment due and an
   * answer from Verisoul, the stored verdict; when saving it throws, the catch's array
   * stored over it; with an exception from the needs-check or from Verisoul, the catch's
   * array stored over the profile; otherwise the profile unchanged.
   */
  function AttemptedAttributes(a: Attributes, o: TryOutcome, now: int, expiryMonths: Option<int>, reading: Reading)
    : (b: Attributes)
    ensures o.Skip? ==> b == a
    ensures reading.fillableOnly ==> Guarded(b) == Guarded(a)
    ensures reading.fillableOnly && !o.Assess? ==> b == a
    ensures reading.fillableOnly && o.Assess? ==> b == Fill(a, AssessedAttributes(a, o.response, now, expiryMonths))
    ensures !reading.fillableOnly && o.Fail? ==> b == FailedAttributes(a, o.message, now)
    ensures reading == ListenerCorrected && o.Assess? ==> b == AssessedAttributes(a, o.response, now, expiryMonths)
  {
    match o
    case Skip => a
    case Fail(m) => Stored(reading, a, FailedAttributes(a, m, now))
    case Assess(r) =>
      var s := Stored(reading, a, AssessedAttributes(a, r, now, expiryMonths));
      var thrown := SaveThrown(a, s, reading.hooks);
      if thrown.Some? then Stored(reading, s, FailedAttributes(s, thrown.value, now)) else s
  }

  /**
   * What leaves the listener: an exception from saving the catch's array. As written,
   * the catch stores nothing, so only an assessment that stored something throws, and it
   * always does, since the uncast status makes every `updated` throw.
   */
  function AttemptedThrown(a: Attributes, o: TryOutcome, now: int, expiryMonths: Option<int>, reading: Reading)
    : (t: Option<string>)
    ensures o.Skip? ==> t.None?
    ensures reading.fillableOnly && o.Fail? ==> t.None?
    ensures reading.fillableOnly && !reading.hooks.statusCast && o.Assess? ==>
      (t.Some? <==> Fill(a, AssessedAttributes(a, o.response, now, expiryMonths)) != a)
    ensures reading.hooks == HooksCorrected ==> t.None?
  {
    match o
    case Skip => None
    case Fail(m) => SaveThrown(a, Stored(reading, a, FailedAttributes(a, m, now)), reading.hooks)
    case Assess(r) =>
      var s := Stored(reading, a, AssessedAttributes(a, r, now, expiryMonths));
      var thrown := SaveThrown(a, s, reading.hooks);
      if thrown.Some? then SaveThrown(a, Stored(reading, s, FailedAttributes(s, thrown.value, now)), reading.hooks)
      else None
  }

  /** The listener's own events: those of a verdict that was saved without an exception. */
  function AttemptedEvents(a: Attributes, o: TryOutcome, now: int, expiryMonths: Option<int>, reading: Reading)
    : (e: seq<ProfileEvent>)
    ensures !o.Assess? ==> e == []
    ensures o.Assess? && SaveThrown(a, Stored(reading, a, AssessedAttributes(a, o.response, now, expiryMonths)), reading.hooks).Some?
      ==> e == []
    ensures o.Assess? && SaveThrown(a, Stored(reading, a, AssessedAttributes(a, o.response, now, expiryMonths)), reading.hooks).None?
      ==> e == ListenerEvents(DeriveStatus(o.response.decision, o.response.accountScore), o.response.accountScore, a.userId)
    ensures reading.hooks == HooksCorrected && o.Assess? ==>
      e == ListenerEvents(DeriveStatus(o.response.decision, o.response.accountScore), o.response.accountScore, a.userId)
  {
    if o.Assess? && SaveThrown(a, Stored(reading, a, AssessedAttributes(a, o.response, now, expiryMonths)), reading.hooks).None? then
      ListenerEvents(DeriveStatus(o.response.decision, o.response.accountScore), o.response.accountScore, a.userId)
    else []
  }

  /**
   * The try block and its catch: with an assessment due and an answer from Verisoul,
   * the verdict is recorded and its events fire; with an exception, from the
   * needs-check, from Verisoul or from saving the verdict, the catch's array is passed
   * to `update()`, and what its save throws leaves the listener; otherwise nothing happens.
   */
  method AttemptAssessment(p: RiskProfile, cache: Cache<string>, user: Option<User>, auth: Result<AuthResponse, string>,
                           now: int, expiryMonths: Option<int>, reading: Reading)
    returns (observed: seq<ProfileEvent>, fired: seq<ProfileEvent>, thrown: Option<string>)
    modifies p, cache, if user.Some? then {user.value} else {}
    ensures var o := TryBlock(NeedsCheck(reading, old(p.NeedsAssessment(now))), auth);
      && p.Attrs() == AttemptedAttributes(old(p.Attrs()), o, now, expiryMonths, reading)
      && fired == AttemptedEvents(old(p.Attrs()), o, now, expiryMonths, reading)
      && thrown == AttemptedThrown(old(p.Attrs()), o, now, expiryMonths, reading)
      && (o.Skip? ==> cache.entries == old(cache.entries) && observed == [])
  {
    var original := p.Attrs();
    var o := TryBlock(NeedsCheck(reading, p.NeedsAssessment(now)), auth);
    match o
    case Skip =>
      observed, fired, thrown := [], [], None;
    case Assess(r) =>
      var t;
      observed, fired, t := UpdateRiskProfile(p, cache, user, r, now, expiryMonths, reading);
      thrown := None;
      if t.Some? {
        var caught;
        caught, thrown := RecordFailure(p, original, cache, user, t.value, now, expiryMonths, reading);
        observed := observed + caught;
      }
    case Fail(m) =>
      observed, thrown := RecordFailure(p, original, cache, user, m, now, expiryMonths, reading);
      fired := [];
  }

  /** As written, a login never changes the profile, fires nothing and throws nothing. */
  lemma AsWrittenAttemptKeepsProfile(a: Attributes, needsAssessment: bool, auth: Result<AuthResponse, string>,
                                     now: int, expiryMonths: Option<int>)
    ensures var o := TryBlock(NeedsCheck(ListenerAsWritten, needsAssessment), auth);
      && AttemptedAttributes(a, o, now, expiryMonths, ListenerAsWritten) == a
      && AttemptedEvents(a, o, now, expiryMonths, ListenerAsWritten) == []
      && AttemptedThrown(a, o, now, expiryMonths, ListenerAsWritten).None?
  {
    AuthenticationNeverRuns(auth);
  }

  /**
   * With only `needsVerification()` answered, a Real login with a low score on a stored
   * Pending profile stores the decision but not the status, and the exception of the
   * `updated` hook leaves the listener: the catch's save runs the hooks again on the
   * still-unsynchronised profile.
   */
  method DeclaredCheckLoginThrows() returns (status: Option<RiskStatus>, decision: Option<VerisoulDecision>,
                                              fired: seq<ProfileEvent>, thrown: Option<string>)
    ensures status == Some(Pending) && decision == Some(Real)
    ensures fired == []
    ensures thrown == Some(StatusValueError(Some(Pending)))
  {
    var p := new RiskProfile(NewAttributes(7).(status := Some(Pending)));
    var cache := new Cache<string>();
    var observed;
    observed, fired, thrown := AttemptAssessment(p, cache, None, Success(AuthResponse(Real, 0.2, [])), 100, None,
                                                 Reading(true, true, HooksAsWritten));
    status, decision := p.status, p.decision;
  }

  /** With the corrected listener and hooks, the same login ends Verified and announces the completion. */
  method VerifiedLoginCompletes() returns (status: Option<RiskStatus>, fired: seq<ProfileEvent>, thrown: Option<string>)
    ensures status == Some(Verified)
    ensures fired == [VerificationCompleted(7)]
    ensures thrown.None?
  {
    var p := new RiskProfile(NewAttributes(7).(status := Some(Pending)));
    var cache := new Cache<string>();
    var observed;
    observed, fired, thrown := AttemptAssessment(p, cache, None, Success(AuthResponse(Real, 0.2, [])), 100, None,
                                                 ListenerCorrected);
    status := p.status;
  }

  /**
   * `handle`, reading the session slot with the corrected `SlotSessionId` (as written the
   * read fails; see `SlotSessionIdAsWritten`): a user who is not risk-profilable, or a
   * login without valid Verisoul session data, changes nothing. Otherwise the profile is found or created, the
   * session is stored again under the user, and the assessment is attempted when the
   * profile needs one; an exception from the catch's save leaves the listener as `thrown`.
   */
  method Handle(profilable: bool, userId: int, sessions: SessionManager, existing: Option<RiskProfile>,
                cache: Cache<string>, user: Option<User>, auth: Result<AuthResponse, string>, now: int,
                expiryMonths: Option<int>, reading: Reading)
    returns (profile: Option<RiskProfile>, observed: seq<ProfileEvent>, fired: seq<ProfileEvent>, thrown: Option<string>)
    modifies sessions, sessions.cache, cache, if existing.Some? then {existing.value} else {}
    modifies if user.Some? then {user.value} else {}
    ensures var sid := SlotSessionId(old(sessions.slot));
      var data := if sid.Some? then old(sessions.GetSessionDataBySessionId(sid.value, now)) else None;
      if !profilable || data.None? then
        && profile.None? && observed == [] && fired == [] && thrown.None?
        && sessions.slot == old(sessions.slot) && sessions.cache.entries == old(sessions.cache.entries)
        && cache.entries == old(cache.entries)
        && (existing.Some? ==> existing.value.Attrs() == old(existing.value.Attrs()))
        && (user.Some? ==> user.value.emailVerifiedAt == old(user.value.emailVerifiedAt))
      else
        var d := data.value;
        && profile.Some?
        && (existing.Some? ==> profile.value == existing.value)
        && (existing.None? ==> fresh(profile.value) && profile.value.userId == userId)
        && sessions.slot == Some(SlotData(StoredData(d.sessionId, Some(userId), d.metadata, None, now)))
        && Read(sessions.cache.entries, SessionKey(sessions.prefix, d.sessionId), now)
             == Some(StoredData(d.sessionId, Some(userId), d.metadata, None, now))
        && var base := if existing.Some? then old(existing.value.Attrs())
                       else NewAttributes(userId).(expiresAt := Some(AddMonths(now, expiryMonths.GetOr(DefaultExpiryMonths))));
           var o := TryBlock(NeedsCheck(reading, existing.None? || old(existing.value.NeedsAssessment(now))), auth);
           && profile.value.Attrs() == AttemptedAttributes(base, o, now, expiryMonths, reading)
           && fired == AttemptedEvents(base, o, now, expiryMonths, reading)
           && thrown == AttemptedThrown(base, o, now, expiryMonths, reading)
  {
    profile, observed, fired, thrown := None, [], [], None;
    if !profilable {
      return;
    }
    var sid := SlotSessionId(sessions.slot);
    if sid.None? {
      return;
    }
    var data := sessions.GetSessionDataBySessionId(sid.value, now);
    if data.None? {
      return;
    }
    var p, created := ResolveProfile(userId, existing, cache, now, expiryMonths);
    sessions.StoreSessionId(data.value.sessionId, Some(userId), data.value.metadata, None, now);
    var saved;
    saved, fired, thrown := AttemptAssessment(p, cache, user, auth, now, expiryMonths, reading);
    profile, observed := Some(p), created + saved;
  }
}
