/** The environment registry: named deployments of the marketplace API and the OAuth
    endpoint URLs derived from their two base URLs. */
module Config {
  import opened Common
  import opened Strings

  const RequestTokenSuffix := "/Oauth/RequestToken"
  const AccessTokenSuffix := "/Oauth/AccessToken"
  const AuthorizeSuffix := "/Oauth/Authorize"

  /** One deployment: the REST API host and the web host that serves the OAuth pages. */
  datatype Environment = Environment(apiBase: string, oauthBase: string) {

    /** Endpoint for the first leg of OAuth 1.0a (temporary credentials). */
    function RequestTokenUrl(): (u: string)
      ensures StripSuffix(u, RequestTokenSuffix) == Some(apiBase)
    {
      StripSuffixOfConcat(apiBase, RequestTokenSuffix);
      apiBase + RequestTokenSuffix
    }

    /** Endpoint for the third leg (token credentials). */
    function AccessTokenUrl(): (u: string)
      ensures StripSuffix(u, AccessTokenSuffix) == Some(apiBase)
    {
      StripSuffixOfConcat(apiBase, AccessTokenSuffix);
      apiBase + AccessTokenSuffix
    }

    /** Page the resource owner is sent to; it lives on the web host, not the API host. */
    function AuthorizeUrl(): (u: string)
      ensures StripSuffix(u, AuthorizeSuffix) == Some(oauthBase)
    {
      StripSuffixOfConcat(oauthBase, AuthorizeSuffix);
      oauthBase + AuthorizeSuffix
    }
  }

  const Sandbox := Environment("https://api.tmsandbox.co.nz", "https://www.tmsandbox.co.nz")
  const Production := Environment("https://api.trademe.co.nz", "https://www.trademe.co.nz")

  /** `ENVIRONMENTS`, in the dictionary's insertion order. */
  const Environments: seq<(string, Environment)> := [("sandbox", Sandbox), ("production", Production)]

  const DefaultEnvironment := "sandbox"

  /** The keys of an ordered registry, in order. */
  function Names(entries: seq<(string, Environment)>): (ns: seq<string>)
    ensures |ns| == |entries|
    ensures forall k :: 0 <= k < |entries| ==> ns[k] == entries[k].0
  {
    if entries == [] then [] else [entries[0].0] + Names(entries[1..])
  }

  /** Dictionary lookup in an ordered registry: the value of the first entry with that key. */
  function Find(entries: seq<(string, Environment)>, name: string): (r: Option<Environment>)
    ensures r.None? <==> name !in Names(entries)
    ensures r.Some? ==> exists k :: 0 <= k < |entries| && entries[k] == (name, r.value)
  {
    if entries == [] then None
    else if entries[0].0 == name then Some(entries[0].1)
    else Find(entries[1..], name)
  }

  /** The `ValueError` text for a name that is not registered. */
  function UnknownEnvironmentMessage(name: string): string {
    "Unknown environment '" + name + "'. Available: " + Join(", ", Names(Environments))
  }

  /** `get_environment(name)`: the registered entry, or `ValueError` naming the
      registered keys. Called without an argument it looks up `DefaultEnvironment`. */
  function GetEnvironment(name: string := DefaultEnvironment): (r: Result<Environment>)
    ensures r.Ok? <==> name in Names(Environments)
    ensures r.Ok? ==> (name, r.value) in Environments
    ensures r.Err? ==> r.error == UnknownEnvironment(UnknownEnvironmentMessage(name))
  {
    match Find(Environments, name)
    case Some(env) => Ok(env)
    case None => Err(UnknownEnvironment(UnknownEnvironmentMessage(name)))
  }

  // ---------------------------------------------------------------------------
  // Facts about the registry
  // ---------------------------------------------------------------------------

  /** The registry holds exactly `sandbox` and `production`, in that order, and each
      name resolves to its own entry. */
  lemma RegistryContents()
    ensures Names(Environments) == ["sandbox", "production"]
    ensures GetEnvironment("sandbox") == Ok(Sandbox)
    ensures GetEnvironment("production") == Ok(Production)
  {
  }

  /** With no argument, `get_environment` gives the sandbox. */
  lemma DefaultIsSandbox()
    ensures GetEnvironment() == Ok(Sandbox)
  {
  }

  /** Any other name fails, and the message lists the registered names, in registry
      order, joined by ", ". */
  lemma UnknownNameFails(name: string)
    requires name != "sandbox" && name != "production"
    ensures GetEnvironment(name)
         == Err(UnknownEnvironment("Unknown environment '" + name + "'. Available: sandbox, production"))
  {
    RegistryContents();
  }

  /** The three derived URLs of any environment are pairwise distinct, whatever the two
      base URLs are: the two API endpoints differ right after "/Oauth/", and the authorize
      URL differs from both in the ninth character from the end. */
  lemma EndpointsDistinct(env: Environment)
    ensures env.RequestTokenUrl() != env.AccessTokenUrl()
    ensures env.AuthorizeUrl() != env.RequestTokenUrl()
    ensures env.AuthorizeUrl() != env.AccessTokenUrl()
  {
    assert |env.RequestTokenUrl()| == |env.apiBase| + 19;
    assert |env.AccessTokenUrl()| == |env.apiBase| + 18;
    var r, a := env.RequestTokenUrl(), env.AccessTokenUrl();
    assert r[|env.apiBase| + 7] == 'R' && a[|env.apiBase| + 7] == 'A';
    var z := env.AuthorizeUrl();
    assert z[|z| - 9] == 'A' && r[|r| - 9] == 'u' && a[|a| - 9] == 'c';
  }
}
