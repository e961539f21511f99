/**
 * VerisoulApi: the entry point that hands out one client per service, built on first
 * use from the package configuration and kept for later calls.
 */
module Registry {
  import opened Wrappers
  import opened Text
  import opened Json
  import opened TtlCache
  import opened Environments
  import opened CircuitBreakers
  import opened ApiClients

  /** The six accessors and the registry key each one memoises under. */
  datatype Service = Account | Session | Phone | ListService | FaceMatch | IdCheck {
    function Key(): string {
      match this
      case Account => "account"
      case Session => "session"
      case Phone => "phone"
      case ListService => "list"
      case FaceMatch => "faceMatch"
      case IdCheck => "idCheck"
    }

    /** `static::class` of the client built, which names its circuit breaker. */
    function ClassName(): string {
      match this
      case Account => "Ninja\\Larasoul\\Api\\Clients\\AccountClient"
      case Session => "Ninja\\Larasoul\\Api\\Clients\\SessionClient"
      case Phone => "Ninja\\Larasoul\\Api\\Clients\\PhoneClient"
      case ListService => "Ninja\\Larasoul\\Api\\Clients\\ListClient"
      case FaceMatch => "Ninja\\Larasoul\\Api\\Clients\\Liveness\\FaceMatchClient"
      case IdCheck => "Ninja\\Larasoul\\Api\\Clients\\Liveness\\IDCheckClient"
    }
  }

  /** Why an accessor throws. */
  datatype AccessError =
    | SettingNotInteger(key: string)          // a configured value the `int` parameter refuses
    | Rejected(reason: ConstructionError)     // the client constructor's own validation

  /** The four numbers a client is built with. */
  datatype ClientSettings = ClientSettings(timeout: int, connectTimeout: int, retryAttempts: int, retryDelay: int)

  /** PHP's `(int)` of a float: the fractional part is dropped, rounding toward zero. */
  function TruncateToInt(f: real): (r: int)
    ensures f >= 0.0 ==> r as real <= f < r as real + 1.0
    ensures f < 0.0 ==> r as real - 1.0 < f <= r as real
  {
    if f >= 0.0 then f.Floor else -((-f).Floor)
  }

  /**
   * `$config[key] ?? default` passed to an `int` parameter in PHP's coercive typing mode:
   * an int passes as is, a bool becomes 0 or 1, a float loses its fractional part,
   * and anything else is a type error.
   */
  function IntSetting(config: map<string, Json>, key: string, default: int): (r: Result<int, string>)
    ensures (key !in config || config[key] == JNull) ==> r == Success(default)
    ensures key in config && config[key].JInt? ==> r == Success(config[key].i)
    ensures key in config && config[key].JBool? ==> r == Success(if config[key].b then 1 else 0)
    ensures key in config && config[key].JFloat? ==> r == Success(TruncateToInt(config[key].f))
    ensures r.Failure? <==>
      key in config && (config[key].JString? || config[key].JList? || config[key].JObject?)
    ensures r.Failure? ==> r.error == key
  {
    if key !in config then Success(default)
    else match config[key]
      case JNull => Success(default)
      case JInt(i) => Success(i)
      case JBool(b) => Success(if b then 1 else 0)
      case JFloat(f) => Success(TruncateToInt(f))
      case _ => Failure(key)
  }

  /** The settings every accessor reads, with defaults 30, 10, 3 and 1000. */
  function Settings(config: map<string, Json>): (r: Result<ClientSettings, string>)
    ensures r.Success? <==>
      && IntSetting(config, "timeout", 30).Success?
      && IntSetting(config, "connect_timeout", 10).Success?
      && IntSetting(config, "retry_attempts", 3).Success?
      && IntSetting(config, "retry_delay", 1000).Success?
    ensures r.Success? ==>
      && r.value.timeout == IntSetting(config, "timeout", 30).value
      && r.value.connectTimeout == IntSetting(config, "connect_timeout", 10).value
      && r.value.retryAttempts == IntSetting(config, "retry_attempts", 3).value
      && r.value.retryDelay == IntSetting(config, "retry_delay", 1000).value
  {
    var t := IntSetting(config, "timeout", 30);
    var c := IntSetting(config, "connect_timeout", 10);
    var a := IntSetting(config, "retry_attempts", 3);
    var d := IntSetting(config, "retry_delay", 1000);
    if t.Failure? then Failure(t.error)
    else if c.Failure? then Failure(c.error)
    else if a.Failure? then Failure(a.error)
    else if d.Failure? then Failure(d.error)
    else Success(ClientSettings(t.value, c.value, a.value, d.value))
  }

  /** With nothing configured, clients get the defaults, and those pass the client's validation. */
  lemma DefaultSettings(apiKey: string)
    ensures Settings(map[]) == Success(ClientSettings(30, 10, 3, 1000))
    ensures !PhpEmpty(apiKey) ==> ValidateConstructorParams(apiKey, 30, 10).None?
  {
  }

  /** The type name PHP prints for a value in a type error. */
  function PhpTypeName(j: Json): string {
    match j
    case JNull => "null"
    case JBool(_) => "bool"
    case JInt(_) => "int"
    case JFloat(_) => "float"
    case JString(_) => "string"
    case JList(_) => "array"
    case JObject(_) => "array"
  }

  /** The TypeError a method of this class raises when its return value does not fit its declared type. */
  function ReturnTypeError(name: string, declared: string, j: Json): string {
    "Ninja\\Larasoul\\Services\\VerisoulApi::" + name + "(): Return value must be of type "
      + declared + ", " + PhpTypeName(j) + " returned"
  }

  /**
   * `getConfig($service)`: the service's section, or an empty array when it is missing or
   * null; a section that is not an array does not fit the `array` return type and throws.
   */
  function GetConfig(config: map<string, Json>, service: string): (r: Result<Json, string>)
    ensures service !in config || config[service] == JNull ==> r == Success(JList([]))
    ensures service in config && config[service].IsArray() ==> r == Success(config[service])
    ensures r.Success? ==> r.value.IsArray()
    ensures r.Failure? <==> service in config && config[service] != JNull && !config[service].IsArray()
    ensures r.Failure? ==> r.error == ReturnTypeError("getConfig", "array", config[service])
  {
    if service !in config || config[service] == JNull then Success(JList([]))
    else if config[service].IsArray() then Success(config[service])
    else Failure(ReturnTypeError("getConfig", "array", config[service]))
  }

  /**
   * `isEnabled($service)`: the section's `enabled` entry, false when the section or the entry
   * is missing or null. The `bool` return type converts a scalar by PHP's truthiness and
   * refuses an array, which throws.
   */
  function IsEnabled(config: map<string, Json>, service: string): (r: Result<bool, string>)
    ensures r.Failure? <==> service in config && config[service].IsSet("enabled")
                            && config[service].fields["enabled"].IsArray()
    ensures r.Failure? ==> r.error == ReturnTypeError("isEnabled", "bool", config[service].fields["enabled"])
    ensures r.Success? ==> (r.value <==> service in config && config[service].IsSet("enabled")
                                         && Truthy(config[service].fields["enabled"]))
  {
    var enabled := if service in config then config[service].Field("enabled") else None;
    if enabled.None? then Success(false)
    else if enabled.value.IsArray() then Failure(ReturnTypeError("isEnabled", "bool", enabled.value))
    else Success(Truthy(enabled.value))
  }

  /** A service whose section is missing is never enabled. */
  lemma MissingServiceDisabled(config: map<string, Json>, service: string)
    requires service !in config
    ensures IsEnabled(config, service) == Success(false) && GetConfig(config, service) == Success(JList([]))
  {
  }

  /** A section configured as a list is never enabled: only a keyed section has an `enabled` entry. */
  lemma ListSectionDisabled(config: map<string, Json>, service: string)
    requires service in config && config[service].JList?
    ensures IsEnabled(config, service) == Success(false)
    ensures GetConfig(config, service) == Success(config[service])
  {
  }

  class VerisoulApi {
    const apiKey: string
    const environment: Environment
    const config: map<string, Json>
    /** The store the clients' circuit breakers keep their state in. */
    const store: Cache<CacheValue>
    var clients: map<Service, Client>

    constructor (apiKey: string, environment: Environment, config: map<string, Json>, store: Cache<CacheValue>)
      ensures this.apiKey == apiKey && this.environment == environment && this.config == config
      ensures this.store == store && clients == map[]
    {
      this.apiKey := apiKey;
      this.environment := environment;
      this.config := config;
      this.store := store;
      clients := map[];
    }

    /** `isSandbox()`. */
    predicate IsSandbox()
      reads this
      ensures IsSandbox() <==> environment.BaseUrl() == Sandbox.BaseUrl()
    {
      BaseUrlsDistinct();
      environment == Sandbox
    }

    /**
     * The accessor for `service` (`$this->clients[key] ??= new ...Client(...)`): a client
     * already built is returned as it is; otherwise one is built from the settings and
     * remembered, unless the settings or the client's validation make construction throw.
     */
    method ClientFor(service: Service) returns (r: Result<Client, AccessError>)
      modifies this
      ensures old(service in clients) ==> r == Success(old(clients[service])) && clients == old(clients)
      ensures old(service !in clients) && r.Failure? ==> clients == old(clients)
      ensures old(service !in clients) && r.Success? ==>
        && fresh(r.value) && clients == old(clients)[service := r.value]
      ensures old(service !in clients) ==> (r.Failure? <==>
        Settings(config).Failure? ||
        ValidateConstructorParams(apiKey, Settings(config).value.timeout, Settings(config).value.connectTimeout).Some?)
      ensures old(service !in clients) && r.Success? ==>
        && r.value.apiKey == apiKey && r.value.environment == environment
        && r.value.timeout == Settings(config).value.timeout
        && r.value.connectTimeout == Settings(config).value.connectTimeout
        && r.value.breaker.config == Config(service.ClassName(), 5, Settings(config).value.timeout, 300)
        && r.value.breaker.cache == store
      ensures clients.Keys <= old(clients.Keys) + {service}
    {
      if service in clients {
        return Success(clients[service]);
      }
      var settings := Settings(config);
      if settings.Failure? {
        return Failure(SettingNotInteger(settings.error));
      }
      var s := settings.value;
      var invalid := ValidateConstructorParams(apiKey, s.timeout, s.connectTimeout);
      if invalid.Some? {
        return Failure(Rejected(invalid.value));
      }
      var c := new Client(apiKey, environment, s.timeout, s.connectTimeout, service.ClassName(), store);
      clients := clients[service := c];
      r := Success(c);
    }
  }

  /** `new VerisoulApi(...)`: `None` stands for the exception thrown on a PHP-empty key. */
  method NewVerisoulApi(apiKey: string, environment: Environment, config: map<string, Json>, store: Cache<CacheValue>)
    returns (r: Option<VerisoulApi>)
    ensures r.None? <==> PhpEmpty(apiKey)
    ensures r.Some? ==> fresh(r.value) && r.value.apiKey == apiKey && r.value.clients == map[]
    ensures r.Some? ==> (r.value.IsSandbox() <==> environment == Sandbox)
  {
    if PhpEmpty(apiKey) {
      return None;
    }
    var api := new VerisoulApi(apiKey, environment, config, store);
    r := Some(api);
  }

  /** Asking twice for the same service yields the same instance and at most one new entry. */
  method AskTwice(api: VerisoulApi, service: Service) returns (first: Result<Client, AccessError>, second: Result<Client, AccessError>)
    modifies api
    ensures first.Success? ==> second == first
    ensures |api.clients.Keys| <= |old(api.clients.Keys)| + 1
  {
    first := api.ClientFor(service);
    second := api.ClientFor(service);
    assert api.clients.Keys <= old(api.clients.Keys) + {service};
    if service !in old(api.clients.Keys) {
      assert api.clients.Keys - {service} <= old(api.clients.Keys);
    }
  }
}
