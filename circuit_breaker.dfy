/**
 * CircuitBreaker: a three-state breaker (closed, open, half-open) whose state,
 * failure counter and last-failure time live under three keys of a shared
 * expiring cache. The guarded callback is not run here: its outcome (a value, or an
 * error and how long the call took) is a parameter, and the clock is an integer.
 */
module CircuitBreakers {
  import opened Wrappers
  import opened TtlCache

  /** What the breaker stores in the cache: a state name or a number. */
  datatype CacheValue = Text(text: string) | Number(n: int)

  datatype BreakerState = Closed | Open | HalfOpen {
    /** The stored name of the state. */
    function Name(): string {
      match this
      case Closed => "closed"
      case Open => "open"
      case HalfOpen => "half_open"
    }
  }

  /** The `switch` over the stored state: anything other than "open" or "half_open" acts as closed. */
  function ParseState(stored: Option<CacheValue>): (s: BreakerState)
    ensures stored.None? ==> s == Closed
    ensures forall b: BreakerState :: stored == Some(Text(b.Name())) ==> s == b
  {
    match stored
    case Some(Text(t)) => if t == "open" then Open else if t == "half_open" then HalfOpen else Closed
    case _ => Closed
  }

  function StateKey(service: string): string { "circuit_breaker:" + service + ":state" }
  function FailureCountKey(service: string): string { "circuit_breaker:" + service + ":failures" }
  function LastFailureKey(service: string): string { "circuit_breaker:" + service + ":last_failure" }

  function Keys(service: string): set<string> {
    {StateKey(service), FailureCountKey(service), LastFailureKey(service)}
  }

  /** The three keys of one service are pairwise distinct. */
  lemma KeysDistinct(service: string)
    ensures StateKey(service) != FailureCountKey(service)
    ensures StateKey(service) != LastFailureKey(service)
    ensures FailureCountKey(service) != LastFailureKey(service)
  {
    assert |StateKey(service)| != |FailureCountKey(service)|;
    assert |StateKey(service)| != |LastFailureKey(service)|;
    assert |FailureCountKey(service)| != |LastFailureKey(service)|;
  }

  /** Two caches that differ at most at one breaker key differ at most at the breaker keys. */
  lemma OutsideKeys(a: map<string, Entry<CacheValue>>, b: map<string, Entry<CacheValue>>, k: string, service: string)
    requires k in Keys(service) && a - {k} == b - {k}
    ensures a - Keys(service) == b - Keys(service)
  {
    forall x | x in a - Keys(service) ensures x in b - Keys(service) && (a - Keys(service))[x] == (b - Keys(service))[x] {
      assert x in a - {k};
    }
    forall x | x in b - Keys(service) ensures x in a - Keys(service) {
      assert x in b - {k};
    }
  }

  /** The breaker as seen through the cache at one instant. */
  datatype View = View(state: BreakerState, failures: int, lastFailure: Option<int>)

  function NumberOr(stored: Option<CacheValue>, default: int): int {
    match stored
    case Some(Number(n)) => n
    case _ => default
  }

  function ViewOf(entries: map<string, Entry<CacheValue>>, service: string, now: int): View {
    var last := Read(entries, LastFailureKey(service), now);
    View(ParseState(Read(entries, StateKey(service), now)),
         NumberOr(Read(entries, FailureCountKey(service), now), 0),
         if last.Some? && last.value.Number? then Some(last.value.n) else None)
  }

  /** An empty cache, or one whose breaker keys have all expired, shows a closed breaker. */
  lemma EmptyCacheIsClosed(service: string, now: int)
    ensures ViewOf(map[], service, now) == View(Closed, 0, None)
  {
  }

  datatype Config = Config(service: string, failureThreshold: int, timeoutSeconds: int, recoveryTime: int)

  /** The constructor's defaults: 5 failures, 60 seconds, 300 seconds of recovery. */
  function DefaultConfig(service: string): (c: Config)
    ensures c.failureThreshold == 5 && c.timeoutSeconds == 60 && c.recoveryTime == 300
  {
    Config(service, 5, 60, 300)
  }

  /** How long the failure counter lives: ten minutes. */
  const FailureTtl: int := 600

  /** The outcome of the guarded callback. */
  datatype Outcome<T, E> = Returned(value: T) | Threw(error: E, duration: real)

  /** What `call` throws. */
  datatype BreakerError<E> =
    | CircuitOpen(service: string)          // status 503
    | TimedOut(duration: real, previous: E)  // status 504
    | Propagated(error: E)                  // the callback's own exception

  function StatusCode<E>(e: BreakerError<E>): Option<int> {
    match e
    case CircuitOpen(_) => Some(503)
    case TimedOut(_, _) => Some(504)
    case Propagated(_) => None
  }

  predicate ShouldAttemptRecovery(cfg: Config, v: View, now: int) {
    v.lastFailure.None? || now - v.lastFailure.value >= cfg.recoveryTime
  }

  /** The state read back after `setState(s)`: a non-positive recovery time forgets the key. */
  function Stored(cfg: Config, s: BreakerState): BreakerState {
    if cfg.recoveryTime > 0 then s else Closed
  }

  /** The result of `executeCall`: a failure that lasted at least the timeout becomes a 504. */
  function ExecuteResult<T, E>(cfg: Config, o: Outcome<T, E>): (r: Result<T, BreakerError<E>>)
    ensures o.Returned? ==> r == Success(o.value)
    ensures o.Threw? ==> r.Failure? && (StatusCode(r.error) == Some(504) <==> o.duration >= cfg.timeoutSeconds as real)
    ensures o.Threw? && r.error.Propagated? ==> r.error.error == o.error
  {
    match o
    case Returned(v) => Success(v)
    case Threw(e, d) => if d >= cfg.timeoutSeconds as real then Failure(TimedOut(d, e)) else Failure(Propagated(e))
  }

  /** The failure count after `recordSuccess`: one less, floored at zero. */
  function Decremented(f: int): (r: int)
    ensures r >= 0 && (f > 0 ==> r == f - 1)
  {
    if f - 1 > 0 then f - 1 else 0
  }

  /** The result of `call`. */
  function CallResult<T, E>(cfg: Config, v: View, o: Outcome<T, E>, now: int): (r: Result<T, BreakerError<E>>)
    ensures (r.Failure? && r.error.CircuitOpen?) <==> v.state == Open && !ShouldAttemptRecovery(cfg, v, now)
    ensures !(v.state == Open && !ShouldAttemptRecovery(cfg, v, now)) ==> r == ExecuteResult(cfg, o)
  {
    if v.state == Open && !ShouldAttemptRecovery(cfg, v, now) then Failure(CircuitOpen(cfg.service))
    else ExecuteResult(cfg, o)
  }

  /** The breaker after `call`. */
  function NextView<T, E>(cfg: Config, v: View, o: Outcome<T, E>, now: int): (r: View)
    ensures r.lastFailure == v.lastFailure
    ensures v.state == Closed && o.Threw? ==>
      r.failures == v.failures + 1 && r.state == (if v.failures + 1 >= cfg.failureThreshold then Stored(cfg, Open) else Closed)
    ensures v.state == Closed && o.Returned? ==> r == v.(failures := Decremented(v.failures))
    ensures v.state == HalfOpen ==>
      if o.Returned? then r.state == Stored(cfg, Closed) && r.failures == 0
      else r.state == Stored(cfg, Open) && r.failures == v.failures + 1
    ensures v.state == Open && ShouldAttemptRecovery(cfg, v, now) ==>
      r.state == Stored(cfg, HalfOpen) && r.failures == (if o.Returned? then Decremented(v.failures) else v.failures)
    ensures v.state == Open && !ShouldAttemptRecovery(cfg, v, now) ==> r == v
  {
    match v.state
    case Open =>
      if ShouldAttemptRecovery(cfg, v, now) then
        v.(state := Stored(cfg, HalfOpen), failures := if o.Returned? then Decremented(v.failures) else v.failures)
      else v
    case HalfOpen =>
      if o.Returned? then v.(state := Stored(cfg, Closed), failures := 0)
      else v.(state := Stored(cfg, Open), failures := v.failures + 1)
    case Closed =>
      if o.Returned? then v.(failures := Decremented(v.failures))
      else
        var f := v.failures + 1;
        v.(state := if f >= cfg.failureThreshold then Stored(cfg, Open) else Closed, failures := f)
  }

  /** The breaker after a series of calls at one instant. */
  function Run<T, E>(cfg: Config, v: View, outcomes: seq<Outcome<T, E>>, now: int): View
    decreases |outcomes|
  {
    if outcomes == [] then v
    else Run(cfg, NextView(cfg, v, outcomes[0], now), outcomes[1..], now)
  }

  predicate AllThrew<T, E>(outcomes: seq<Outcome<T, E>>) {
    forall i :: 0 <= i < |outcomes| ==> outcomes[i].Threw?
  }

  /**
   * Consecutive failures from a closed breaker count up one by one, and the breaker
   * opens exactly when the count reaches the threshold.
   */
  lemma {:induction false} FailuresOpenAtThreshold<T, E>(cfg: Config, v: View, outcomes: seq<Outcome<T, E>>, now: int)
    requires cfg.recoveryTime > 0
    requires v.state == Closed && v.failures + |outcomes| <= cfg.failureThreshold
    requires AllThrew(outcomes)
    ensures Run(cfg, v, outcomes, now).failures == v.failures + |outcomes|
    ensures Run(cfg, v, outcomes, now).state == (if v.failures + |outcomes| >= cfg.failureThreshold && outcomes != [] then Open else Closed)
    decreases |outcomes|
  {
    if outcomes != [] {
      var next := NextView(cfg, v, outcomes[0], now);
      assert outcomes[0].Threw?;
      if |outcomes| > 1 {
        assert next.state == Closed;
        assert AllThrew(outcomes[1..]) by {
          forall i | 0 <= i < |outcomes[1..]| ensures outcomes[1..][i].Threw? {
            assert outcomes[1..][i] == outcomes[i + 1];
          }
        }
        FailuresOpenAtThreshold(cfg, next, outcomes[1..], now);
      }
    }
  }

  /** From a fresh cache, `failureThreshold` failed calls open the breaker. */
  lemma ThresholdFailuresOpen<T, E>(cfg: Config, outcomes: seq<Outcome<T, E>>, now: int)
    requires cfg.recoveryTime > 0 && cfg.failureThreshold >= 1
    requires |outcomes| == cfg.failureThreshold && AllThrew(outcomes)
    ensures Run(cfg, ViewOf(map[], cfg.service, now), outcomes, now).state == Open
  {
    FailuresOpenAtThreshold(cfg, ViewOf(map[], cfg.service, now), outcomes, now);
  }

  /**
   * Without a last-failure entry no call is ever rejected with 503: nothing writes that
   * key, so every later call still finds it absent and attempts recovery.
   */
  lemma {:induction false} NeverRejectedWithoutLastFailure<T, E>(cfg: Config, v: View, outcomes: seq<Outcome<T, E>>, now: int, i: nat)
    requires v.lastFailure.None?
    requires i < |outcomes|
    ensures CallResult(cfg, Run(cfg, v, outcomes[..i], now), outcomes[i], now) == ExecuteResult(cfg, outcomes[i])
    decreases i
  {
    if i > 0 {
      var next := NextView(cfg, v, outcomes[0], now);
      assert outcomes[..i] == [outcomes[0]] + outcomes[1..][..i - 1];
      assert outcomes[1..][i - 1] == outcomes[i];
      NeverRejectedWithoutLastFailure(cfg, next, outcomes[1..], now, i - 1);
    }
  }

  class CircuitBreaker {
    const config: Config
    const cache: Cache<CacheValue>

    constructor (config: Config, cache: Cache<CacheValue>)
      ensures this.config == config && this.cache == cache
    {
      this.config := config;
      this.cache := cache;
    }

    function Current(now: int): View
      reads cache
    {
      ViewOf(cache.entries, config.service, now)
    }

    method GetState(now: int) returns (s: BreakerState)
      ensures s == Current(now).state
    {
      s := ParseState(cache.Get(StateKey(config.service), now));
    }

    /** `setState`: the state lives for `recoveryTime` seconds. */
    method SetState(s: BreakerState, now: int)
      modifies cache
      ensures Current(now) == old(Current(now)).(state := Stored(config, s))
      ensures cache.entries - {StateKey(config.service)} == old(cache.entries) - {StateKey(config.service)}
      ensures cache.entries - Keys(config.service) == old(cache.entries) - Keys(config.service)
    {
      KeysDistinct(config.service);
      cache.Put(StateKey(config.service), Text(s.Name()), config.recoveryTime, now);
      OutsideKeys(cache.entries, old(cache.entries), StateKey(config.service), config.service);
    }

    method GetFailureCount(now: int) returns (n: int)
      ensures n == Current(now).failures
    {
      n := NumberOr(cache.Get(FailureCountKey(config.service), now), 0);
    }

    /** `recordFailure`: one more failure, kept for ten minutes. */
    method RecordFailure(now: int)
      modifies cache
      ensures Current(now) == old(Current(now)).(failures := old(Current(now)).failures + 1)
      ensures cache.entries - {FailureCountKey(config.service)} == old(cache.entries) - {FailureCountKey(config.service)}
      ensures cache.entries - Keys(config.service) == old(cache.entries) - Keys(config.service)
    {
      KeysDistinct(config.service);
      var count := GetFailureCount(now);
      cache.Put(FailureCountKey(config.service), Number(count + 1), FailureTtl, now);
      OutsideKeys(cache.entries, old(cache.entries), FailureCountKey(config.service), config.service);
    }

    /** `recordSuccess`: one failure fewer; the key is dropped when none remain. */
    method RecordSuccess(now: int)
      modifies cache
      ensures Current(now) == old(Current(now)).(failures := Decremented(old(Current(now)).failures))
      ensures cache.entries - {FailureCountKey(config.service)} == old(cache.entries) - {FailureCountKey(config.service)}
      ensures cache.entries - Keys(config.service) == old(cache.entries) - Keys(config.service)
    {
      KeysDistinct(config.service);
      var count := GetFailureCount(now);
      count := if count - 1 > 0 then count - 1 else 0;
      if count > 0 {
        cache.Put(FailureCountKey(config.service), Number(count), FailureTtl, now);
      } else {
        cache.Forget(FailureCountKey(config.service));
      }
      OutsideKeys(cache.entries, old(cache.entries), FailureCountKey(config.service), config.service);
    }

    method ResetFailureCount(now: int)
      modifies cache
      ensures Current(now) == old(Current(now)).(failures := 0)
      ensures cache.entries - {FailureCountKey(config.service)} == old(cache.entries) - {FailureCountKey(config.service)}
      ensures cache.entries - Keys(config.service) == old(cache.entries) - Keys(config.service)
    {
      KeysDistinct(config.service);
      cache.Forget(FailureCountKey(config.service));
      OutsideKeys(cache.entries, old(cache.entries), FailureCountKey(config.service), config.service);
    }

    method AttemptRecovery(now: int) returns (b: bool)
      ensures b == ShouldAttemptRecovery(config, Current(now), now)
    {
      var last := cache.Get(LastFailureKey(config.service), now);
      b := !(last.Some? && last.value.Number?) || now - last.value.n >= config.recoveryTime;
    }

    /** `executeCall`: a success is recorded and returned; a failure is rethrown, as a 504 if it was slow. */
    method ExecuteCall<T, E>(o: Outcome<T, E>, now: int) returns (r: Result<T, BreakerError<E>>)
      modifies cache
      ensures r == ExecuteResult(config, o)
      ensures Current(now) == if o.Returned? then old(Current(now)).(failures := Decremented(old(Current(now)).failures))
                              else old(Current(now))
      ensures cache.entries - Keys(config.service) == old(cache.entries) - Keys(config.service)
    {
      match o {
        case Returned(v) =>
          RecordSuccess(now);
          r := Success(v);
        case Threw(e, duration) =>
          if duration >= config.timeoutSeconds as real {
            r := Failure(TimedOut(duration, e));
          } else {
            r := Failure(Propagated(e));
          }
      }
    }

    /** `call`: dispatch on the stored state. */
    method Call<T, E>(o: Outcome<T, E>, now: int) returns (r: Result<T, BreakerError<E>>)
      modifies cache
      ensures r == CallResult(config, old(Current(now)), o, now)
      ensures Current(now) == NextView(config, old(Current(now)), o, now)
      ensures cache.entries - Keys(config.service) == old(cache.entries) - Keys(config.service)
    {
      var state := GetState(now);
      match state {
        case Open =>
          var recover := AttemptRecovery(now);
          if recover {
            SetState(HalfOpen, now);
            r := ExecuteCall(o, now);
          } else {
            r := Failure(CircuitOpen(config.service));
          }
        case HalfOpen =>
          r := ExecuteCall(o, now);
          if r.Success? {
            SetState(Closed, now);
            ResetFailureCount(now);
          } else {
            SetState(Open, now);
            RecordFailure(now);
          }
        case Closed =>
          r := ExecuteCall(o, now);
          if r.Failure? {
            RecordFailure(now);
            var count := GetFailureCount(now);
            if count >= config.failureThreshold {
              SetState(Open, now);
            }
          }
      }
    }
  }
}
