/** VerisoulEnvironment: the two API environments and their base URLs. */
module Environments {
  import opened Wrappers
  import opened Text

  datatype Environment = Sandbox | Production {
    /** The enum's backing value. */
    function Value(): string {
      match this
      case Sandbox => "sandbox"
      case Production => "production"
    }

    function BaseUrl(): (r: string)
      ensures StartsWith(r, "https://")
      ensures !EndsWith(r, "/")
    {
      match this
      case Sandbox => "https://api.sandbox.verisoul.ai"
      case Production => "https://api.verisoul.ai"
    }
  }

  /** `VerisoulEnvironment::from`: the environment whose value is `s`, if any. */
  function FromValue(s: string): (r: Option<Environment>)
    ensures r.Some? <==> s == "sandbox" || s == "production"
    ensures r.Some? ==> r.value.Value() == s
  {
    if s == "sandbox" then Some(Sandbox) else if s == "production" then Some(Production) else None
  }

  /** The two environments talk to different hosts. */
  lemma BaseUrlsDistinct()
    ensures Sandbox.BaseUrl() != Production.BaseUrl()
  {
    assert |Sandbox.BaseUrl()| != |Production.BaseUrl()|;
  }

  /**
   * Appending an absolute endpoint path to a base URL puts exactly one slash at the
   * seam, and the base URL is a prefix of the result.
   */
  lemma SingleSlashAtSeam(env: Environment, path: string)
    requires |path| > 0 && path[0] == '/'
    ensures var url := env.BaseUrl() + path;
      && url[|env.BaseUrl()| - 1] != '/'
      && url[|env.BaseUrl()|] == '/'
      && StartsWith(url, env.BaseUrl())
  {
    var b := env.BaseUrl();
    assert b[|b| - 1..] == [b[|b| - 1]];
    assert (b + path)[..|b|] == b;
  }
}
