/** `ensure_auth`: the precedence chain that finds credentials for the client. It tries,
    in order, the stored record; explicit arguments and environment variables; an
    interactive out-of-band login; and otherwise raises `AuthenticationRequired`. */
module AuthHelpers {
  import opened Common
  import opened Strings
  import opened Config
  import opened AuthFlow
  import opened Client

  const ConsumerKeyVar := "TM_CONSUMER_KEY"
  const ConsumerSecretVar := "TM_CONSUMER_SECRET"
  const AccessTokenVar := "TM_ACCESS_TOKEN"
  const AccessSecretVar := "TM_ACCESS_SECRET"

  const ConsumerKeyPrompt := "Consumer key: "
  const ConsumerSecretPrompt := "Consumer secret: "

  const AuthRequiredMessage :=
    "No credentials found. Run `python -m trademe_sdk.login` or call login() interactively."

  /** Which source `ensure_auth` settles on. */
  datatype Resolution =
    /** A record loaded from the store, returned as it is. */
    | FromStore(auth: TMAuth)
    /** All four values found among the arguments and environment variables. */
    | FromSources(auth: TMAuth)
    /** An out-of-band `login` with these consumer credentials is to be run; `prompted`
        tells whether they were typed at the two prompts. */
    | LoginWith(consumerKey: string, consumerSecret: string, prompted: bool)
    /** An exception propagates: a corrupt store, or `AuthenticationRequired`. */
    | Raise(error: Error)

  /** `TMAuth(creds.consumer_key, creds.consumer_secret, ...)`. */
  function ToAuth(c: Credentials): TMAuth {
    TMAuth(c.consumerKey, c.consumerSecret, c.accessToken, c.accessTokenSecret)
  }

  /** `explicit or os.getenv(name)`. */
  function ArgOrEnv(explicit: Option<string>, environ: map<string, string>, name: string): Option<string> {
    Or(explicit, Get(environ, name))
  }

  /** The decision `ensure_auth` makes, given what `load_credentials()` gave, its
      arguments, the environment, whether stdin is a TTY, and the two lines the user would
      type at the consumer key and secret prompts. */
  function Resolve(loaded: Result<Option<Credentials>>,
                   consumerKey: Option<string>, consumerSecret: Option<string>, autoLogin: bool,
                   environ: map<string, string>, isTty: bool,
                   typedKey: string, typedSecret: string): Resolution
  {
    match loaded
    case Err(e) => Raise(e)
    // A dataclass instance is always truthy, so any loaded record is used.
    case Ok(Some(c)) => FromStore(ToAuth(c))
    case Ok(None) =>
      var ck := ArgOrEnv(consumerKey, environ, ConsumerKeyVar);
      var cs := ArgOrEnv(consumerSecret, environ, ConsumerSecretVar);
      var at := Get(environ, AccessTokenVar);
      var asec := Get(environ, AccessSecretVar);
      if Truthy(ck) && Truthy(cs) && Truthy(at) && Truthy(asec) then
        FromSources(TMAuth(ck.value, cs.value, at.value, asec.value))
      else if autoLogin && isTty then
        if !Truthy(ck) || !Truthy(cs) then LoginWith(Strip(typedKey), Strip(typedSecret), true)
        else LoginWith(ck.value, cs.value, false)
      else Raise(AuthenticationRequired(AuthRequiredMessage))
  }

  /** `ck and cs and at and asec`, after the argument-or-environment fallback. */
  predicate AllFourAvailable(consumerKey: Option<string>, consumerSecret: Option<string>, environ: map<string, string>) {
    && Truthy(ArgOrEnv(consumerKey, environ, ConsumerKeyVar))
    && Truthy(ArgOrEnv(consumerSecret, environ, ConsumerSecretVar))
    && Truthy(Get(environ, AccessTokenVar))
    && Truthy(Get(environ, AccessSecretVar))
  }

  // ---------------------------------------------------------------------------
  // The precedence chain, source by source
  // ---------------------------------------------------------------------------

  /** A record that loads is returned unchanged, even one with empty fields, and no
      argument, environment variable, prompt or login is consulted. */
  lemma StoredRecordWins(c: Credentials, consumerKey: Option<string>, consumerSecret: Option<string>,
                         autoLogin: bool, environ: map<string, string>, isTty: bool,
                         typedKey: string, typedSecret: string)
    ensures Resolve(Ok(Some(c)), consumerKey, consumerSecret, autoLogin, environ, isTty, typedKey, typedSecret)
         == FromStore(TMAuth(c.consumerKey, c.consumerSecret, c.accessToken, c.accessTokenSecret))
  {
  }

  /** A store that fails to load makes `ensure_auth` fail with that error; there is no
      fallback to the environment. */
  lemma CorruptStorePropagates(e: Error, consumerKey: Option<string>, consumerSecret: Option<string>,
                               autoLogin: bool, environ: map<string, string>, isTty: bool,
                               typedKey: string, typedSecret: string)
    ensures Resolve(Err(e), consumerKey, consumerSecret, autoLogin, environ, isTty, typedKey, typedSecret) == Raise(e)
  {
  }

  /** An explicit consumer key or secret is used only when it is non-empty; None and ""
      both fall back to the environment variable. */
  lemma ExplicitArgumentFallback(explicit: Option<string>, environ: map<string, string>, name: string)
    ensures explicit.Some? && explicit.value != "" ==> ArgOrEnv(explicit, environ, name) == explicit
    ensures explicit == None || explicit == Some("") ==>
      ArgOrEnv(explicit, environ, name) == (if name in environ then Some(environ[name]) else None)
  {
  }

  /** With no stored record and all four values non-empty, the result is built from them
      directly, with no login. */
  lemma SourcesWhenAllFour(consumerKey: Option<string>, consumerSecret: Option<string>, autoLogin: bool,
                           environ: map<string, string>, isTty: bool, typedKey: string, typedSecret: string)
    requires AllFourAvailable(consumerKey, consumerSecret, environ)
    ensures Resolve(Ok(None), consumerKey, consumerSecret, autoLogin, environ, isTty, typedKey, typedSecret)
         == FromSources(TMAuth(
              ArgOrEnv(consumerKey, environ, ConsumerKeyVar).value,
              ArgOrEnv(consumerSecret, environ, ConsumerSecretVar).value,
              environ[AccessTokenVar], environ[AccessSecretVar]))
  {
  }

  /** Credentials taken from arguments and the environment never have an empty field. */
  lemma SourcesAreNonEmpty(loaded: Result<Option<Credentials>>, consumerKey: Option<string>,
                           consumerSecret: Option<string>, autoLogin: bool,
                           environ: map<string, string>, isTty: bool, typedKey: string, typedSecret: string)
    requires Resolve(loaded, consumerKey, consumerSecret, autoLogin, environ, isTty, typedKey, typedSecret).FromSources?
    ensures var a := Resolve(loaded, consumerKey, consumerSecret, autoLogin, environ, isTty, typedKey, typedSecret).auth;
      a.consumerKey != "" && a.consumerSecret != "" && a.accessToken != "" && a.accessTokenSecret != ""
  {
  }

  /** Login is reached exactly when nothing is stored, the four values are not all
      available, `auto_login` is set and stdin is a TTY. */
  lemma LoginExactlyWhenInteractive(loaded: Result<Option<Credentials>>, consumerKey: Option<string>,
                                    consumerSecret: Option<string>, autoLogin: bool,
                                    environ: map<string, string>, isTty: bool, typedKey: string, typedSecret: string)
    ensures Resolve(loaded, consumerKey, consumerSecret, autoLogin, environ, isTty, typedKey, typedSecret).LoginWith?
        <==> loaded == Ok(None) && !AllFourAvailable(consumerKey, consumerSecret, environ) && autoLogin && isTty
  {
  }

  /** In the login branch the consumer credentials come from the sources when both are
      available; if either is missing, both are prompted for, replacing even the one that
      was present. */
  lemma LoginCredentials(consumerKey: Option<string>, consumerSecret: Option<string>,
                         environ: map<string, string>, typedKey: string, typedSecret: string)
    requires !AllFourAvailable(consumerKey, consumerSecret, environ)
    ensures var ck := ArgOrEnv(consumerKey, environ, ConsumerKeyVar);
      var cs := ArgOrEnv(consumerSecret, environ, ConsumerSecretVar);
      Resolve(Ok(None), consumerKey, consumerSecret, true, environ, true, typedKey, typedSecret)
        == if Truthy(ck) && Truthy(cs) then LoginWith(ck.value, cs.value, false)
           else LoginWith(Strip(typedKey), Strip(typedSecret), true)
  {
  }

  /** When the store loads, `AuthenticationRequired` is raised in every case but the three
      above, with a message naming the login command and the `login()` function. */
  lemma RequiredOtherwise(loaded: Result<Option<Credentials>>, consumerKey: Option<string>,
                          consumerSecret: Option<string>, autoLogin: bool,
                          environ: map<string, string>, isTty: bool, typedKey: string, typedSecret: string)
    requires loaded.Ok?
    ensures Resolve(loaded, consumerKey, consumerSecret, autoLogin, environ, isTty, typedKey, typedSecret)
         == Raise(AuthenticationRequired(AuthRequiredMessage))
        <==> loaded == Ok(None) && !AllFourAvailable(consumerKey, consumerSecret, environ) && !(autoLogin && isTty)
  {
  }

  /** Without `auto_login` the resolver never starts a login, interactive or not. */
  lemma NoLoginWithoutAutoLogin(loaded: Result<Option<Credentials>>, consumerKey: Option<string>,
                                consumerSecret: Option<string>, environ: map<string, string>,
                                isTty: bool, typedKey: string, typedSecret: string)
    ensures !Resolve(loaded, consumerKey, consumerSecret, false, environ, isTty, typedKey, typedSecret).LoginWith?
  {
  }

  // ---------------------------------------------------------------------------
  // ensure_auth
  // ---------------------------------------------------------------------------

  /** What the terminal shows before the login branch calls `login`. */
  function ConsumerPrompts(prompted: bool): seq<Event> {
    if prompted then [Prompted(ConsumerKeyPrompt), Prompted(ConsumerSecretPrompt)] else []
  }

  /** `ensure_auth(*, consumer_key, consumer_secret, auto_login, environment)`. A login
      runs with the out-of-band callback and the default scope, after the consumer prompts
      when they are needed; its credentials are returned field by field. Nothing but a
      login writes the store. */
  method EnsureAuth(store: CredentialStore, slot: CallbackSlot, provider: OAuthProvider,
                    environ: map<string, string>, isTty: bool,
                    typedKey: string, typedSecret: string, typedVerifier: string, chmodFails: bool,
                    nameonly consumerKey: Option<string> := None,
                    nameonly consumerSecret: Option<string> := None,
                    nameonly autoLogin: bool := false,
                    nameonly environment: string := DefaultEnvironment)
    returns (r: Result<TMAuth>, trace: seq<Event>)
    modifies store, slot
    ensures unchanged(slot)
    ensures var res := Resolve(old(store.Load()), consumerKey, consumerSecret, autoLogin, environ, isTty, typedKey, typedSecret);
      match res
      case FromStore(a) => r == Ok(a) && trace == [] && unchanged(store)
      case FromSources(a) => r == Ok(a) && trace == [] && unchanged(store)
      case Raise(e) => r == Err(e) && trace == [] && unchanged(store)
      case LoginWith(ck, cs, prompted) =>
        var run := RunLogin(provider, [], typedVerifier, ck, cs, DefaultScope, false, environment);
        && trace == ConsumerPrompts(prompted) + run.trace
        && (run.result.Err? ==> r == Err(run.result.error) && store.file == old(store.file))
        && (run.result.Ok? ==>
              var c := run.result.value;
              && r == Ok(TMAuth(c.consumerKey, c.consumerSecret, c.accessToken, c.accessTokenSecret))
              && store.file == Some(Encode(c)))
  {
    var loaded := store.Load();
    var res := Resolve(loaded, consumerKey, consumerSecret, autoLogin, environ, isTty, typedKey, typedSecret);
    match res
    case FromStore(a) =>
      r, trace := Ok(a), [];
    case FromSources(a) =>
      r, trace := Ok(a), [];
    case Raise(e) =>
      r, trace := Err(e), [];
    case LoginWith(ck, cs, prompted) =>
      var creds, loginTrace := Login(store, slot, provider, [], typedVerifier, chmodFails, ck, cs,
                                     preferLocalCallback := false, environment := environment);
      trace := ConsumerPrompts(prompted) + loginTrace;
      if creds.Ok? {
        r := Ok(ToAuth(creds.value));
      } else {
        r := Err(creds.error);
      }
  }
}
