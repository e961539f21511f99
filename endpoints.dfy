/**
 * VerisoulApiEndpoint: the table of API paths, with `{name}` placeholders, and the
 * HTTP method of each endpoint.
 */
module Endpoints {
  import opened Wrappers
  import opened Text

  datatype Endpoint =
    | AccountGet | AccountSessions | AccountLinked | AccountUpdate | AccountDelete
    | SessionAuthenticate | SessionUnauthenticated | SessionGet
    | SessionStart | Enroll | VerifyFace | VerifyIdentity | VerifyId
    | VerifyPhone
    | ListCreate | ListGetAll | ListGet | ListAddAccount | ListDelete | ListRemoveAccount
  {
    /** The path template; every path is absolute. */
    function Url(): (r: string)
      ensures |r| > 0 && r[0] == '/'
    {
      match this
      case AccountGet | AccountUpdate | AccountDelete => "/account/{account_id}"
      case AccountSessions => "/account/{account_id}/sessions"
      case AccountLinked => "/account/{account_id}/accounts-linked"
      case SessionAuthenticate => "/session/authenticate"
      case SessionUnauthenticated => "/session/unauthenticated"
      case SessionGet => "/session/{session_id}"
      case SessionStart => "/liveness/session"
      case Enroll => "/liveness/enroll"
      case VerifyFace => "/liveness/verify-face"
      case VerifyIdentity => "/liveness/verify-identity"
      case VerifyId => "/liveness/verify-id"
      case VerifyPhone => "/phone"
      case ListCreate | ListGet | ListDelete => "/list/{list_name}"
      case ListGetAll => "/list"
      case ListAddAccount | ListRemoveAccount => "/list/{list_name}/account/{account_id}"
    }

    function Method(): HttpMethod {
      match this
      case AccountGet | AccountSessions | AccountLinked | SessionGet | SessionStart | ListGetAll | ListGet => Get
      case SessionAuthenticate | SessionUnauthenticated | Enroll | VerifyFace | VerifyId | VerifyIdentity
         | VerifyPhone | ListCreate | ListAddAccount => Post
      case AccountUpdate => Put
      case AccountDelete | ListDelete | ListRemoveAccount => Delete
    }
  }

  datatype HttpMethod = Get | Post | Put | Delete {
    function Name(): string {
      match this
      case Get => "GET"
      case Post => "POST"
      case Put => "PUT"
      case Delete => "DELETE"
    }
  }

  /** `'{' . key . '}'`. */
  function Placeholder(key: string): (r: string)
    ensures r != [] && r[0] == '{'
  {
    "{" + key + "}"
  }

  /**
   * `withParameters`: each parameter, in order, replaces every occurrence of its
   * placeholder in the path produced so far.
   */
  function Substituted(path: string, params: seq<(string, string)>): string {
    if params == [] then path
    else
      var last := params[|params| - 1];
      ReplaceAll(Substituted(path, params[..|params| - 1]), Placeholder(last.0), last.1)
  }

  method WithParameters(e: Endpoint, params: seq<(string, string)>) returns (path: string)
    ensures path == Substituted(e.Url(), params)
  {
    path := e.Url();
    var i := 0;
    while i < |params|
      invariant 0 <= i <= |params|
      invariant path == Substituted(e.Url(), params[..i])
    {
      assert params[..i + 1][..i] == params[..i];
      path := ReplaceAll(path, Placeholder(params[i].0), params[i].1);
      i := i + 1;
    }
    assert params[..|params|] == params;
  }

  /** `withParameters([])` is `url()`. */
  lemma NoParameters(e: Endpoint)
    ensures Substituted(e.Url(), []) == e.Url()
  {
  }

  /** Parameters whose placeholders the path does not contain leave it unchanged. */
  lemma {:induction false} AbsentParametersIgnored(path: string, params: seq<(string, string)>)
    requires forall i :: 0 <= i < |params| ==> !Contains(path, Placeholder(params[i].0))
    ensures Substituted(path, params) == path
    decreases |params|
  {
    if params != [] {
      var init := params[..|params| - 1];
      AbsentParametersIgnored(path, init);
      ReplaceAbsent(path, Placeholder(params[|params| - 1].0), params[|params| - 1].1);
    }
  }

  /** AccountGet with `account_id` 42 resolves to `/account/42`. */
  lemma AccountGetExample()
    ensures Substituted(AccountGet.Url(), [("account_id", "42")]) == "/account/42"
  {
    var params := [("account_id", "42")];
    assert params[..0] == [];
    ReplaceSkip("/account/", Placeholder("account_id"), Placeholder("account_id"), "42");
    assert "/account/" + Placeholder("account_id") == AccountGet.Url();
    var pat := Placeholder("account_id");
    assert ReplaceAll(pat, pat, "42") == "42" + ReplaceAll([], pat, "42");
  }

  const GetEndpoints: set<Endpoint> :=
    {AccountGet, AccountSessions, AccountLinked, SessionGet, SessionStart, ListGetAll, ListGet}
  const PostEndpoints: set<Endpoint> :=
    {SessionAuthenticate, SessionUnauthenticated, Enroll, VerifyFace, VerifyId, VerifyIdentity,
     VerifyPhone, ListCreate, ListAddAccount}
  const PutEndpoints: set<Endpoint> := {AccountUpdate}
  const DeleteEndpoints: set<Endpoint> := {AccountDelete, ListDelete, ListRemoveAccount}

  /** `getMethod` sorts the twenty endpoints into 7 GET, 9 POST, 1 PUT and 3 DELETE. */
  lemma MethodTable(e: Endpoint)
    ensures e.Method() == Get <==> e in GetEndpoints
    ensures e.Method() == Post <==> e in PostEndpoints
    ensures e.Method() == Put <==> e in PutEndpoints
    ensures e.Method() == Delete <==> e in DeleteEndpoints
    ensures |GetEndpoints| == 7 && |PostEndpoints| == 9 && |PutEndpoints| == 1 && |DeleteEndpoints| == 3
  {
  }

  /**
   * The routing table read backwards: a path and a method name the endpoint, if any,
   * that has both.
   */
  function Resolve(path: string, m: HttpMethod): (r: Option<Endpoint>)
    ensures r.Some? ==> r.value.Url() == path && r.value.Method() == m
  {
    match m
    case Get => ResolveGet(path)
    case Post => ResolvePost(path)
    case Put => if path == "/account/{account_id}" then Some(AccountUpdate) else None
    case Delete => ResolveDelete(path)
  }

  function ResolveGet(path: string): (r: Option<Endpoint>)
    ensures r.Some? ==> r.value.Url() == path && r.value.Method() == Get
  {
    match path
    case "/account/{account_id}" => Some(AccountGet)
    case "/account/{account_id}/sessions" => Some(AccountSessions)
    case "/account/{account_id}/accounts-linked" => Some(AccountLinked)
    case "/session/{session_id}" => Some(SessionGet)
    case "/liveness/session" => Some(SessionStart)
    case "/list/{list_name}" => Some(ListGet)
    case "/list" => Some(ListGetAll)
    case _ => None
  }

  function ResolvePost(path: string): (r: Option<Endpoint>)
    ensures r.Some? ==> r.value.Url() == path && r.value.Method() == Post
  {
    match path
    case "/session/authenticate" => Some(SessionAuthenticate)
    case "/session/unauthenticated" => Some(SessionUnauthenticated)
    case "/liveness/enroll" => Some(Enroll)
    case "/liveness/verify-face" => Some(VerifyFace)
    case "/liveness/verify-identity" => Some(VerifyIdentity)
    case "/liveness/verify-id" => Some(VerifyId)
    case "/phone" => Some(VerifyPhone)
    case "/list/{list_name}" => Some(ListCreate)
    case "/list/{list_name}/account/{account_id}" => Some(ListAddAccount)
    case _ => None
  }

  function ResolveDelete(path: string): (r: Option<Endpoint>)
    ensures r.Some? ==> r.value.Url() == path && r.value.Method() == Delete
  {
    match path
    case "/account/{account_id}" => Some(AccountDelete)
    case "/list/{list_name}" => Some(ListDelete)
    case "/list/{list_name}/account/{account_id}" => Some(ListRemoveAccount)
    case _ => None
  }

  /** Every endpoint is found again from its path and method. */
  lemma ResolveFindsEndpoint(e: Endpoint)
    ensures Resolve(e.Url(), e.Method()) == Some(e)
  {
    match e.Method()
    case Get => ResolveGetFinds(e);
    case Post => ResolvePostFinds(e);
    case Put =>
    case Delete => ResolveDeleteFinds(e);
  }

  lemma ResolveGetFinds(e: Endpoint)
    requires e.Method() == Get
    ensures ResolveGet(e.Url()) == Some(e)
  {
  }

  lemma ResolvePostFinds(e: Endpoint)
    requires e.Method() == Post
    ensures ResolvePost(e.Url()) == Some(e)
  {
  }

  lemma ResolveDeleteFinds(e: Endpoint)
    requires e.Method() == Delete
    ensures ResolveDelete(e.Url()) == Some(e)
  {
  }

  /** Endpoints that share a path differ in method. */
  lemma SharedPathsDifferInMethod(e1: Endpoint, e2: Endpoint)
    requires e1 != e2 && e1.Url() == e2.Url()
    ensures e1.Method() != e2.Method()
  {
    ResolveFindsEndpoint(e1);
    ResolveFindsEndpoint(e2);
  }
}
