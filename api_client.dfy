/**
 * Client: the shared base of the API clients. Modelled here are the constructor's
 * validation, the request headers, the translation of an HTTP response into a
 * decoded body or an API error, and how `call` turns an endpoint into a request that
 * runs through the circuit breaker. The HTTP transport, the retry strategy, logging
 * and metrics are not modelled: the transport's outcome is a parameter.
 */
module ApiClients {
  import opened Wrappers
  import opened Text
  import opened Json
  import opened TtlCache
  import opened Endpoints
  import opened Environments
  import opened CircuitBreakers

  /** Why the constructor throws `InvalidArgumentException`. */
  datatype ConstructionError =
    | ApiKeyRequired            // 'API key is required'
    | TimeoutOutOfRange         // 'Timeout must be between 1 and 300 seconds'
    | ConnectTimeoutInvalid     // 'Connect timeout must be positive and <= timeout'

  /** `validateConstructorParams`: the first failing check, in source order. */
  function ValidateConstructorParams(apiKey: string, timeout: int, connectTimeout: int): (r: Option<ConstructionError>)
    ensures r.None? <==> !PhpEmpty(apiKey) && 1 <= timeout <= 300 && 0 < connectTimeout <= timeout
    ensures r == Some(ApiKeyRequired) <==> PhpEmpty(apiKey)
    ensures r == Some(TimeoutOutOfRange) <==> !PhpEmpty(apiKey) && !(1 <= timeout <= 300)
  {
    if PhpEmpty(apiKey) then Some(ApiKeyRequired)
    else if timeout <= 0 || timeout > 300 then Some(TimeoutOutOfRange)
    else if connectTimeout <= 0 || connectTimeout > timeout then Some(ConnectTimeoutInvalid)
    else None
  }

  /** The errors the client raises. */
  datatype ApiError =
    | AuthenticationFailed(url: string)                                // 401
    | BadRequest(url: string, response: map<string, Json>)             // 400
    | NotFound(url: string, response: map<string, Json>)               // 404, 'Resource not found'
    | ValidationFailed(message: Json, field: Json, value: Json)        // 422
    | RateLimitExceeded(url: string, response: map<string, Json>)      // 429
    | ServerError(url: string, status: int, response: map<string, Json>)
    | BusinessLogic(kind: BusinessErrorKind, detail: Json, body: Json, url: string)  // status 200
    | InvalidResponse(url: string, reason: InvalidReason)
    | NetworkError(url: string, reasonText: string)
    | ConnectionFailed(url: string, cause: ApiError)

  /** The three business-error checks of a 2xx body. */
  datatype BusinessErrorKind =
    | ErrorField     // "Business logic error: ..."
    | SuccessFalse   // "Operation failed: ..."
    | ErrorStatus    // "API returned error status: ..."

  datatype InvalidReason = NotJson(contentType: string) | NotAnObject

  /** The HTTP status attached to an error. */
  function StatusOf(e: ApiError): Option<int> {
    match e
    case AuthenticationFailed(_) => Some(401)
    case BadRequest(_, _) => Some(400)
    case NotFound(_, _) => Some(404)
    case ValidationFailed(_, _, _) => Some(422)
    case RateLimitExceeded(_, _) => Some(429)
    case ServerError(_, s, _) => Some(s)
    case BusinessLogic(_, _, _, _) => Some(200)
    case _ => None
  }

  /**
   * The decoded body of an error response, `$response->json() ?? []`, with
   * `request_id` added; a body that is not a JSON object counts as empty.
   */
  function ResponseData(body: Option<Json>, requestId: string): (r: map<string, Json>)
    ensures "request_id" in r && r["request_id"] == JString(requestId)
    ensures forall k :: k != "request_id" ==>
      (k in r <==> body.Some? && body.value.JObject? && k in body.value.fields)
    ensures forall k :: k in r && k != "request_id" ==> r[k] == body.value.fields[k]
  {
    var fields := if body.Some? && body.value.JObject? then body.value.fields else map[];
    fields["request_id" := JString(requestId)]
  }

  /** `$data[key] ?? default` on a decoded array. */
  function Coalesce(data: map<string, Json>, key: string, default: Json): Json {
    if key in data && data[key] != JNull then data[key] else default
  }

  /** A field of the decoded response body when it is set, or `default`. */
  function BodyFieldOr(body: Option<Json>, key: string, default: Json): Json {
    if body.Some? && body.value.IsSet(key) then body.value.fields[key] else default
  }

  /** `createApiExceptionFromResponse`: the error for a failed status. */
  function ErrorForStatus(url: string, status: int, body: Option<Json>, requestId: string): (r: ApiError)
    ensures status == 401 ==> r == AuthenticationFailed(url)
    ensures status == 400 ==> r == BadRequest(url, ResponseData(body, requestId))
    ensures status == 404 ==> r == NotFound(url, ResponseData(body, requestId))
    ensures status == 422 ==> r == ValidationFailed(BodyFieldOr(body, "message", JString("Validation failed")),
                                                    BodyFieldOr(body, "field", JString("unknown")),
                                                    BodyFieldOr(body, "value", JNull))
    ensures status == 422 && (body.None? || !body.value.IsSet("field")) ==> r.field == JString("unknown")
    ensures status == 429 ==> r == RateLimitExceeded(url, ResponseData(body, requestId))
    ensures status !in {400, 401, 404, 422, 429} ==> r == ServerError(url, status, ResponseData(body, requestId))
    ensures !r.ValidationFailed? ==> StatusOf(r) == Some(status)
  {
    var data := ResponseData(body, requestId);
    if status == 401 then AuthenticationFailed(url)
    else if status == 400 then BadRequest(url, data)
    else if status == 404 then NotFound(url, data)
    else if status == 422 then
      ValidationFailed(Coalesce(data, "message", JString("Validation failed")),
                       Coalesce(data, "field", JString("unknown")),
                       Coalesce(data, "value", JNull))
    else if status == 429 then RateLimitExceeded(url, data)
    else ServerError(url, status, data)
  }

  /** `validateBusinessLogicResponse`: the first business error a 2xx body reports. */
  function BusinessError(data: Json, url: string): (r: Option<ApiError>)
    ensures data.IsSet("error") ==> r.Some? && r.value.BusinessLogic? && r.value.kind == ErrorField
    ensures !data.IsSet("error") && data.IsSet("success") && data.fields["success"] == JBool(false) ==>
      r.Some? && r.value.BusinessLogic? && r.value.kind == SuccessFalse
    ensures r.Some? ==> r.value.BusinessLogic? && StatusOf(r.value) == Some(200) && r.value.body == data
    ensures r.None? <==>
      !data.IsSet("error")
      && !(data.IsSet("success") && data.fields["success"] == JBool(false))
      && !(data.IsSet("status") && data.fields["status"] == JString("error"))
  {
    if data.IsSet("error") then
      var e := data.fields["error"];
      Some(BusinessLogic(ErrorField, if e.JString? then e else JString("Unknown error"), data, url))
    else if data.IsSet("success") && data.fields["success"] == JBool(false) then
      Some(BusinessLogic(SuccessFalse, data.Field("message").GetOr(JString("Operation failed")), data, url))
    else if data.IsSet("status") && data.fields["status"] == JString("error") then
      var message := if data.IsSet("message") then data.fields["message"]
                     else data.Field("error_message").GetOr(JString("Unknown error"));
      Some(BusinessLogic(ErrorStatus, message, data, url))
    else None
  }

  /** An HTTP response: its status, `content-type` header ("" when absent) and decoded body (None when not JSON). */
  datatype HttpResponse = HttpResponse(status: int, contentType: string, body: Option<Json>)

  predicate Successful(r: HttpResponse) {
    200 <= r.status < 300
  }

  /** `handleHttpResponse`. */
  function HandleHttpResponse(resp: HttpResponse, url: string, requestId: string): (r: Result<Json, ApiError>)
    ensures !Successful(resp) ==> r == Failure(ErrorForStatus(url, resp.status, resp.body, requestId))
    ensures Successful(resp) && !Contains(resp.contentType, "application/json") ==>
      r == Failure(InvalidResponse(url, NotJson(resp.contentType)))
    ensures r.Success? <==>
      Successful(resp) && Contains(resp.contentType, "application/json")
      && resp.body.Some? && resp.body.value.IsArray() && BusinessError(resp.body.value, url).None?
    ensures r.Success? ==> r.value == resp.body.value
  {
    if !Successful(resp) then Failure(ErrorForStatus(url, resp.status, resp.body, requestId))
    else if !Contains(resp.contentType, "application/json") then Failure(InvalidResponse(url, NotJson(resp.contentType)))
    else if resp.body.None? || !resp.body.value.IsArray() then Failure(InvalidResponse(url, NotAnObject))
    else
      var err := BusinessError(resp.body.value, url);
      if err.Some? then Failure(err.value) else Success(resp.body.value)
  }

  /** What the HTTP layer did with one request (the client is configured to throw on non-2xx). */
  datatype Transport =
    | Received(response: HttpResponse)         // a 2xx response
    | RequestFailed(response: HttpResponse)    // RequestException: a non-2xx response
    | ConnectionLost(message: string)          // ConnectionException

  /**
   * `performHttpRequest` as written: errors raised by `handleHttpResponse` inside the
   * `try` fall into the final `catch (Exception $e)` and come out as connection failures.
   */
  function PerformAsWritten(t: Transport, url: string, requestId: string): (r: Result<Json, ApiError>)
    ensures t.Received? && HandleHttpResponse(t.response, url, requestId).Failure? ==>
      r == Failure(ConnectionFailed(url, HandleHttpResponse(t.response, url, requestId).error))
    ensures t.Received? && HandleHttpResponse(t.response, url, requestId).Success? ==>
      r == HandleHttpResponse(t.response, url, requestId)
    ensures t.RequestFailed? ==> r == Failure(ErrorForStatus(url, t.response.status, t.response.body, requestId))
    ensures t.ConnectionLost? ==> r == Failure(NetworkError(url, t.message))
  {
    match t
    case Received(resp) =>
      var handled := HandleHttpResponse(resp, url, requestId);
      if handled.Failure? then Failure(ConnectionFailed(url, handled.error)) else handled
    case RequestFailed(resp) => Failure(ErrorForStatus(url, resp.status, resp.body, requestId))
    case ConnectionLost(m) => Failure(NetworkError(url, m))
  }

  /** A 200 response carrying `"error"` surfaces as a connection failure instead of a 200 business error. */
  lemma BusinessErrorRewrapped(url: string, requestId: string)
    ensures var body := JObject(map["error" := JString("denied")]);
      var t := Received(HttpResponse(200, "application/json", Some(body)));
      PerformAsWritten(t, url, requestId).error.ConnectionFailed?
      && StatusOf(PerformAsWritten(t, url, requestId).error).None?
  {
    var body := JObject(map["error" := JString("denied")]);
    assert Contains("application/json", "application/json");
    assert body.IsSet("error");
  }

  /** `performHttpRequest` with the client's own API errors passed through unchanged. */
  function Perform(t: Transport, url: string, requestId: string): (r: Result<Json, ApiError>)
    ensures t.Received? ==> r == HandleHttpResponse(t.response, url, requestId)
    ensures t.RequestFailed? ==> r == Failure(ErrorForStatus(url, t.response.status, t.response.body, requestId))
    ensures t.ConnectionLost? ==> r == Failure(NetworkError(url, t.message))
    ensures r.Failure? && r.error.BusinessLogic? ==> StatusOf(r.error) == Some(200)
  {
    match t
    case Received(resp) => HandleHttpResponse(resp, url, requestId)
    case RequestFailed(resp) => Failure(ErrorForStatus(url, resp.status, resp.body, requestId))
    case ConnectionLost(m) => Failure(NetworkError(url, m))
  }

  /** The callback's outcome as the breaker sees it: a value returned, or an error thrown after `duration` seconds. */
  function AsOutcome(res: Result<Json, ApiError>, duration: real): (o: Outcome<Json, ApiError>)
    ensures o.Returned? <==> res.Success?
    ensures o.Returned? ==> o.value == res.value
    ensures o.Threw? ==> o.error == res.error && o.duration == duration
  {
    match res
    case Success(v) => Returned(v)
    case Failure(err) => Threw(err, duration)
  }

  /** `buildDefaultHeaders`. */
  function DefaultHeaders(apiKey: string): (h: map<string, string>)
    ensures h.Keys == {"Content-Type", "Accept", "x-api-key", "User-Agent", "X-Client-Version"}
    ensures h["x-api-key"] == apiKey && h["Content-Type"] == "application/json" && h["Accept"] == "application/json"
  {
    map["Content-Type" := "application/json",
        "Accept" := "application/json",
        "x-api-key" := apiKey,
        "User-Agent" := "Larasoul/1.0 (Laravel PHP SDK)",
        "X-Client-Version" := "1.0.0"]
  }

  /** `array_merge($this->headers, $headers)` followed by setting `X-Request-ID`. */
  function RequestHeaders(defaults: map<string, string>, extra: map<string, string>, requestId: string): (h: map<string, string>)
    ensures h.Keys == defaults.Keys + extra.Keys + {"X-Request-ID"}
    ensures h["X-Request-ID"] == requestId
    ensures forall k :: k in extra && k != "X-Request-ID" ==> h[k] == extra[k]
    ensures forall k :: k in defaults && k !in extra && k != "X-Request-ID" ==> h[k] == defaults[k]
  {
    (defaults + extra)["X-Request-ID" := requestId]
  }

  /** One HTTP request as `makeRequest` issues it. */
  datatype Request = Request(verb: HttpMethod, url: string, headers: map<string, string>, data: Json)

  class Client {
    var apiKey: string
    var environment: Environment
    const timeout: int
    const connectTimeout: int
    const headers: map<string, string>
    const breaker: CircuitBreaker

    /** The assignments after validation: the headers capture the key given here. */
    constructor (apiKey: string, environment: Environment, timeout: int, connectTimeout: int,
                 service: string, cache: Cache<CacheValue>)
      ensures this.apiKey == apiKey && this.environment == environment
      ensures this.timeout == timeout && this.connectTimeout == connectTimeout
      ensures headers == DefaultHeaders(apiKey)
      ensures fresh(breaker) && breaker.config == Config(service, 5, timeout, 300) && breaker.cache == cache
    {
      this.apiKey := apiKey;
      this.environment := environment;
      this.timeout := timeout;
      this.connectTimeout := connectTimeout;
      this.headers := DefaultHeaders(apiKey);
      this.breaker := new CircuitBreaker(Config(service, 5, timeout, 300), cache);
    }

    /** `setApiKey` changes the key but not the headers built at construction. */
    method SetApiKey(key: string)
      modifies this
      ensures apiKey == key && environment == old(environment)
    {
      apiKey := key;
    }

    method SetEnvironment(env: Environment)
      modifies this
      ensures environment == env && apiKey == old(apiKey)
    {
      environment := env;
    }

    function BaseUrl(): string
      reads this
    {
      environment.BaseUrl()
    }

    /** The request `makeRequest` sends. */
    method BuildRequest(verb: HttpMethod, path: string, data: Json, extra: map<string, string>, requestId: string)
      returns (req: Request)
      ensures req.verb == verb && req.data == data
      ensures req.url == BaseUrl() + path
      ensures req.headers == RequestHeaders(headers, extra, requestId)
    {
      req := Request(verb, environment.BaseUrl() + path, RequestHeaders(headers, extra, requestId), data);
    }

    /** The request `call` sends for an endpoint: its method, and the base URL plus the filled-in path. */
    method PlanCall(e: Endpoint, params: seq<(string, string)>, data: Json, requestId: string)
      returns (req: Request)
      ensures req.verb == e.Method()
      ensures req.url == BaseUrl() + Substituted(e.Url(), params)
      ensures req.headers == RequestHeaders(headers, map[], requestId) && req.data == data
    {
      var path := WithParameters(e, params);
      req := BuildRequest(e.Method(), path, data, map[], requestId);
    }

    /**
     * `call`: the planned request goes through the HTTP layer, whose answer `t` and
     * elapsed time `duration` are parameters, inside the circuit breaker; the breaker sees
     * what the corrected `Perform` returns or throws, in which the client's own API errors
     * pass through unchanged (as written they are rewrapped; see `PerformAsWritten`).
     */
    method Call(e: Endpoint, params: seq<(string, string)>, data: Json, requestId: string,
                t: Transport, duration: real, now: int)
      returns (req: Request, r: Result<Json, BreakerError<ApiError>>)
      modifies breaker.cache
      ensures req.verb == e.Method() && req.url == BaseUrl() + Substituted(e.Url(), params)
      ensures req.headers == RequestHeaders(headers, map[], requestId) && req.data == data
      ensures r == CallResult(breaker.config, old(breaker.Current(now)), AsOutcome(Perform(t, req.url, requestId), duration), now)
      ensures breaker.Current(now) ==
        NextView(breaker.config, old(breaker.Current(now)), AsOutcome(Perform(t, req.url, requestId), duration), now)
    {
      req := PlanCall(e, params, data, requestId);
      r := breaker.Call(AsOutcome(Perform(t, req.url, requestId), duration), now);
    }
  }

  /** `new static(...)`: validation first; on success a client with those settings. */
  method NewClient(apiKey: string, environment: Environment, timeout: int, connectTimeout: int,
                   service: string, cache: Cache<CacheValue>)
    returns (r: Result<Client, ConstructionError>)
    ensures r.Failure? <==> ValidateConstructorParams(apiKey, timeout, connectTimeout).Some?
    ensures r.Failure? ==> r.error == ValidateConstructorParams(apiKey, timeout, connectTimeout).value
    ensures r.Success? ==>
      && fresh(r.value) && r.value.apiKey == apiKey && r.value.environment == environment
      && r.value.headers == DefaultHeaders(apiKey) && r.value.breaker.config.timeoutSeconds == timeout
  {
    var invalid := ValidateConstructorParams(apiKey, timeout, connectTimeout);
    if invalid.Some? {
      return Failure(invalid.value);
    }
    var client := new Client(apiKey, environment, timeout, connectTimeout, service, cache);
    r := Success(client);
  }

  /** After `setApiKey`, requests still carry the key given at construction. */
  method StaleKeyAfterSetApiKey(cache: Cache<CacheValue>) returns (sent: string)
    ensures sent == "key-one"
  {
    var c := new Client("key-one", Sandbox, 30, 10, "client", cache);
    c.SetApiKey("key-two");
    var req := c.BuildRequest(Get, "/phone", JNull, map[], "req_1");
    sent := req.headers["x-api-key"];
  }
}
