/**
 * VerisoulSessionManager: remembers the Verisoul session of the current visitor in the
 * Laravel session and in the cache, by user and by session id. Time is an integer
 * number of seconds supplied by the caller.
 */
module SessionManagers {
  import opened Wrappers
  import opened Text
  import opened Json
  import opened TtlCache

  /** `DEFAULT_TTL`. */
  const DefaultTtl: int := 3600

  /** The array `storeSessionId` builds; `expiresAt` is absent in data not written here. */
  datatype SessionData = SessionData(
    sessionId: string,
    userId: Option<int>,
    metadata: map<string, Json>,
    createdAt: int,
    expiresAt: Option<int>)

  /**
   * What the Laravel session holds under the configured name: the array written by
   * `storeSessionId`, or a bare session id written by the session controllers.
   */
  datatype Slot = SlotData(data: SessionData) | SlotId(id: string)

  /** PHP truthiness of an optional user id. */
  predicate UserGiven(userId: Option<int>) {
    userId.Some? && userId.value != 0
  }

  /** `getCacheKey`: `prefix_user_id`. */
  function UserKey(prefix: string, userId: int): (k: string)
    ensures StartsWith(k, prefix + "_user_")
  {
    prefix + "_user_" + IntToString(userId)
  }

  /** `getSessionCacheKey`: `prefix_session_id`. */
  function SessionKey(prefix: string, sessionId: string): (k: string)
    ensures StartsWith(k, prefix + "_session_")
  {
    prefix + "_session_" + sessionId
  }

  /** A user key and a session key never coincide: they differ just after the prefix. */
  lemma KeysNeverCollide(prefix: string, userId: int, sessionId: string)
    ensures UserKey(prefix, userId) != SessionKey(prefix, sessionId)
  {
    var i := |prefix| + 1;
    assert UserKey(prefix, userId)[i] == 'u';
    assert SessionKey(prefix, sessionId)[i] == 's';
  }

  /**
   * `isValidSessionData`: a PHP-empty session id is invalid; without an expiry the data
   * is valid; otherwise it is valid until its expiry instant.
   */
  predicate IsValidSessionData(d: SessionData, now: int)
    ensures IsValidSessionData(d, now) ==> !PhpEmpty(d.sessionId)
    ensures !PhpEmpty(d.sessionId) && d.expiresAt.None? ==> IsValidSessionData(d, now)
    ensures !PhpEmpty(d.sessionId) && d.expiresAt.Some? ==> (IsValidSessionData(d, now) <==> d.expiresAt.value > now)
  {
    if PhpEmpty(d.sessionId) then false
    else if d.expiresAt.None? then true
    else d.expiresAt.value > now
  }

  /** The data `storeSessionId` writes, expiring `ttl` (default one hour) seconds from now. */
  function StoredData(sessionId: string, userId: Option<int>, metadata: map<string, Json>, ttl: Option<int>, now: int)
    : (d: SessionData)
    ensures d.sessionId == sessionId && d.userId == userId && d.metadata == metadata
    ensures d.expiresAt == Some(now + ttl.GetOr(DefaultTtl))
  {
    SessionData(sessionId, userId, metadata, now, Some(now + ttl.GetOr(DefaultTtl)))
  }

  /** Freshly stored data with a positive lifetime is valid at once when its id is not PHP-empty. */
  lemma StoredDataValid(sessionId: string, userId: Option<int>, metadata: map<string, Json>, ttl: Option<int>, now: int)
    requires !PhpEmpty(sessionId) && ttl.GetOr(DefaultTtl) > 0
    ensures IsValidSessionData(StoredData(sessionId, userId, metadata, ttl, now), now)
  {
  }

  /**
   * The cache after `storeSessionId`: the by-user entry (when a user id is given) and then
   * the by-session-id entry are put with lifetime `ttl` (default one hour); every other
   * key is left as it was.
   */
  function StoreEntries(entries: map<string, Entry<SessionData>>, prefix: string, sessionId: string,
                        userId: Option<int>, metadata: map<string, Json>, ttl: Option<int>, now: int)
    : map<string, Entry<SessionData>>
  {
    var d, t := StoredData(sessionId, userId, metadata, ttl, now), ttl.GetOr(DefaultTtl);
    var afterUser := if UserGiven(userId)
                     then (if t > 0 then entries[UserKey(prefix, userId.value) := Entry(d, now + t)]
                           else entries - {UserKey(prefix, userId.value)})
                     else entries;
    if t > 0 then afterUser[SessionKey(prefix, sessionId) := Entry(d, now + t)]
    else afterUser - {SessionKey(prefix, sessionId)}
  }

  /** Storing touches the session's key and the user's key only. */
  lemma StoreEntriesFrame(entries: map<string, Entry<SessionData>>, prefix: string, sessionId: string,
                          userId: Option<int>, metadata: map<string, Json>, ttl: Option<int>, now: int, k: string)
    requires k != SessionKey(prefix, sessionId)
    requires !(UserGiven(userId) && k == UserKey(prefix, userId.value))
    ensures var r := StoreEntries(entries, prefix, sessionId, userId, metadata, ttl, now);
      (k in r <==> k in entries) && (k in r ==> r[k] == entries[k])
  {
  }

  class SessionManager {
    /** The Laravel session entry under `larasoul.session.verisoul_session_id`. */
    var slot: Option<Slot>
    /** The cache shared by the by-user and the by-session entries. */
    const cache: Cache<SessionData>
    /** `larasoul.session.cache_key_prefix`. */
    const prefix: string

    constructor (cache: Cache<SessionData>, prefix: string)
      ensures slot.None? && this.cache == cache && this.prefix == prefix
    {
      slot := None;
      this.cache := cache;
      this.prefix := prefix;
    }

    /**
     * `storeSessionId`: the session entry and the by-session-id cache entry are always
     * written; the by-user entry only when a user id is given and is not 0.
     */
    method StoreSessionId(sessionId: string, userId: Option<int>, metadata: map<string, Json>, ttl: Option<int>, now: int)
      modifies this, cache
      ensures slot == Some(SlotData(StoredData(sessionId, userId, metadata, ttl, now)))
      ensures cache.entries == StoreEntries(old(cache.entries), prefix, sessionId, userId, metadata, ttl, now)
      ensures var t := ttl.GetOr(DefaultTtl);
        Read(cache.entries, SessionKey(prefix, sessionId), now)
          == (if t > 0 then Some(StoredData(sessionId, userId, metadata, ttl, now)) else None)
      ensures var t := ttl.GetOr(DefaultTtl);
        UserGiven(userId) ==>
          Read(cache.entries, UserKey(prefix, userId.value), now)
            == (if t > 0 then Some(StoredData(sessionId, userId, metadata, ttl, now)) else None)
    {
      var t := ttl.GetOr(DefaultTtl);
      var data := StoredData(sessionId, userId, metadata, ttl, now);
      slot := Some(SlotData(data));
      if UserGiven(userId) {
        cache.Put(UserKey(prefix, userId.value), data, t, now);
        KeysNeverCollide(prefix, userId.value, sessionId);
      }
      cache.Put(SessionKey(prefix, sessionId), data, t, now);
    }

    /**
     * `getSessionData`: valid data in the Laravel session wins; otherwise, when a user id
     * is given, valid data cached for that user. A bare id in the session is passed to
     * `isValidSessionData`, whose array parameter refuses it with a TypeError.
     */
    function GetSessionData(userId: Option<int>, now: int): (r: Result<Option<SessionData>, string>)
      reads this, cache
      ensures slot.Some? && slot.value.SlotData? && IsValidSessionData(slot.value.data, now) ==>
        r == Success(Some(slot.value.data))
      ensures r.Failure? <==> slot.Some? && slot.value.SlotId? && !PhpEmpty(slot.value.id)
      ensures r.Success? && r.value.Some? ==> IsValidSessionData(r.value.value, now)
      ensures r.Success? && r.value.Some? && !(slot.Some? && slot.value.SlotData? && slot.value.data == r.value.value) ==>
        UserGiven(userId) && Read(cache.entries, UserKey(prefix, userId.value), now) == r.value
      ensures !UserGiven(userId) && r.Success? && r.value.Some? ==> slot == Some(SlotData(r.value.value))
      ensures var cached := Read(cache.entries, UserKey(prefix, userId.GetOr(0)), now);
        && !(slot.Some? && slot.value.SlotData? && IsValidSessionData(slot.value.data, now))
        && !(slot.Some? && slot.value.SlotId? && !PhpEmpty(slot.value.id))
        && UserGiven(userId) ==>
          r == Success(if cached.Some? && IsValidSessionData(cached.value, now) then cached else None)
    {
      if slot.Some? && slot.value.SlotData? && IsValidSessionData(slot.value.data, now) then
        Success(Some(slot.value.data))
      else if slot.Some? && slot.value.SlotId? && !PhpEmpty(slot.value.id) then
        Failure("TypeError: isValidSessionData expects an array")
      else if UserGiven(userId) then
        var cached := cache.Get(UserKey(prefix, userId.value), now);
        if cached.Some? && IsValidSessionData(cached.value, now) then Success(cached) else Success(None)
      else Success(None)
    }

    /** `getSessionDataBySessionId`: valid data cached under the session id, if any. */
    function GetSessionDataBySessionId(sessionId: string, now: int): (r: Option<SessionData>)
      reads this, cache
      ensures r.Some? <==>
        && Read(cache.entries, SessionKey(prefix, sessionId), now).Some?
        && IsValidSessionData(Read(cache.entries, SessionKey(prefix, sessionId), now).value, now)
      ensures r.Some? ==> r == Read(cache.entries, SessionKey(prefix, sessionId), now)
    {
      var cached := cache.Get(SessionKey(prefix, sessionId), now);
      if cached.Some? && IsValidSessionData(cached.value, now) then cached else None
    }

    /** `getCurrentSessionId`. */
    function GetCurrentSessionId(userId: Option<int>, now: int): (r: Result<Option<string>, string>)
      reads this, cache
      ensures r.Failure? <==> GetSessionData(userId, now).Failure?
      ensures r.Success? ==> (r.value.Some? <==> GetSessionData(userId, now).value.Some?)
      ensures r.Success? && r.value.Some? ==> r.value.value == GetSessionData(userId, now).value.value.sessionId
                                              && !PhpEmpty(r.value.value)
    {
      var data := GetSessionData(userId, now);
      if data.Failure? then Failure(data.error)
      else if data.value.Some? then Success(Some(data.value.value.sessionId))
      else Success(None)
    }

    /** `hasSessionId`: there is a current session id. */
    function HasSessionId(userId: Option<int>, now: int): (r: Result<bool, string>)
      reads this, cache
      ensures r.Success? <==> GetCurrentSessionId(userId, now).Success?
      ensures r.Success? ==> (r.value <==> GetCurrentSessionId(userId, now).value != None)
    {
      var current := GetCurrentSessionId(userId, now);
      if current.Failure? then Failure(current.error) else Success(current.value != None)
    }

    /**
     * `clearSessionId`: forgets the Laravel session entry and, when a user id is given, the
     * user's cache entry. The by-session-id entry stays.
     */
    method ClearSessionId(userId: Option<int>)
      modifies this, cache
      ensures slot.None?
      ensures cache.entries == if UserGiven(userId) then old(cache.entries) - {UserKey(prefix, userId.value)}
                               else old(cache.entries)
      ensures forall s :: SessionKey(prefix, s) in old(cache.entries) ==>
        SessionKey(prefix, s) in cache.entries && cache.entries[SessionKey(prefix, s)] == old(cache.entries)[SessionKey(prefix, s)]
    {
      slot := None;
      if UserGiven(userId) {
        cache.Forget(UserKey(prefix, userId.value));
        forall s ensures SessionKey(prefix, s) != UserKey(prefix, userId.value) {
          KeysNeverCollide(prefix, userId.value, s);
        }
      }
    }

    /**
     * `clearSessionIdBySessionId`: when valid data is cached under the id and names a user,
     * that user's session is cleared first; the by-session-id entry is then forgotten.
     */
    method ClearSessionIdBySessionId(sessionId: string, now: int)
      modifies this, cache
      ensures SessionKey(prefix, sessionId) !in cache.entries
      ensures var data := old(GetSessionDataBySessionId(sessionId, now));
        if data.Some? && data.value.userId.Some? then
          && slot.None?
          && cache.entries == (if UserGiven(data.value.userId)
                               then old(cache.entries) - {UserKey(prefix, data.value.userId.value)}
                               else old(cache.entries)) - {SessionKey(prefix, sessionId)}
        else slot == old(slot) && cache.entries == old(cache.entries) - {SessionKey(prefix, sessionId)}
    {
      var data := GetSessionDataBySessionId(sessionId, now);
      if data.Some? && data.value.userId.Some? {
        ClearSessionId(data.value.userId);
      }
      cache.Forget(SessionKey(prefix, sessionId));
    }

    /**
     * `updateMetadata`: without current data nothing happens and the answer is false;
     * otherwise the metadata is merged, new keys winning, and the data is stored again
     * with the default lifetime.
     */
    method UpdateMetadata(userId: Option<int>, metadata: map<string, Json>, now: int) returns (r: Result<bool, string>)
      modifies this, cache
      ensures r.Failure? <==> old(GetSessionData(userId, now)).Failure?
      ensures r.Success? ==> (r.value <==> old(GetSessionData(userId, now)).value.Some?)
      ensures r.Success? && !r.value ==> slot == old(slot) && cache.entries == old(cache.entries)
      ensures r.Success? && r.value ==>
        var d := old(GetSessionData(userId, now)).value.value;
        && slot == Some(SlotData(StoredData(d.sessionId, d.userId, d.metadata + metadata, None, now)))
        && Read(cache.entries, SessionKey(prefix, d.sessionId), now)
             == Some(StoredData(d.sessionId, d.userId, d.metadata + metadata, None, now))
        && cache.entries == StoreEntries(old(cache.entries), prefix, d.sessionId, d.userId, d.metadata + metadata, None, now)
    {
      var current := GetSessionData(userId, now);
      if current.Failure? {
        return Failure(current.error);
      }
      if current.value.None? {
        return Success(false);
      }
      var d := current.value.value;
      StoreSessionId(d.sessionId, d.userId, d.metadata + metadata, None, now);
      r := Success(true);
    }
  }
}
