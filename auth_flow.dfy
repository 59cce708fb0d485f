/** The OAuth 1.0a login flow (RFC 5849) and the credential file it writes: where the
    file lives, what is written to it and read back, the loopback callback's verifier
    slot, and the three-legged `login` procedure. The OAuth endpoints, the terminal and
    the requests that reach the loopback listener are inputs. */
module AuthFlow {
  import opened Common
  import opened Strings
  import opened Config

  // ---------------------------------------------------------------------------
  // Credential file location (`_default_cred_path`)
  // ---------------------------------------------------------------------------

  /** A `pathlib.Path` as the sequence of parts it was built from; `p / name` appends
      a part. A string turned into a path is one part, kept verbatim. */
  datatype Path = Path(parts: seq<string>) {
    function Child(name: string): (p: Path)
      ensures p.Parent() == this && p.Name() == name
    {
      Path(parts + [name])
    }

    /** The last part (`Path.name`), or "" for the empty path. */
    function Name(): string {
      if parts == [] then "" else parts[|parts| - 1]
    }

    /** Everything but the last part (`Path.parent`). */
    function Parent(): Path {
      if parts == [] then this else Path(parts[..|parts| - 1])
    }
  }

  function PathOf(s: string): Path {
    Path([s])
  }

  const CredFileVar := "TM_CRED_FILE"
  const AppDataVar := "APPDATA"
  const XdgConfigVar := "XDG_CONFIG_HOME"
  const AppDirName := "trademe-sdk"
  const CredFileName := "credentials.json"

  /** The per-platform configuration directory: `%APPDATA%` (default `~/AppData/Roaming`)
      when `os.name == "nt"`, otherwise `$XDG_CONFIG_HOME` (default `~/.config`). */
  function ConfigBase(osName: string, environ: map<string, string>, home: Path): Path {
    if osName == "nt" then
      if AppDataVar in environ then PathOf(environ[AppDataVar]) else home.Child("AppData").Child("Roaming")
    else
      if XdgConfigVar in environ then PathOf(environ[XdgConfigVar]) else home.Child(".config")
  }

  /** `_default_cred_path()`, with `os.name`, `os.environ` and `Path.home()` as inputs. */
  function DefaultCredPath(osName: string, environ: map<string, string>, home: Path): Path {
    if CredFileVar in environ then PathOf(environ[CredFileVar])
    else ConfigBase(osName, environ, home).Child(AppDirName).Child(CredFileName)
  }

  /** `TM_CRED_FILE`, when set, is the path verbatim, whatever the platform, the home
      directory and the other variables are. */
  lemma CredPathOverride(osName: string, environ: map<string, string>, home: Path)
    requires CredFileVar in environ
    ensures DefaultCredPath(osName, environ, home) == PathOf(environ[CredFileVar])
    ensures forall os2: string, home2: Path {:trigger DefaultCredPath(os2, environ, home2)} ::
      DefaultCredPath(os2, environ, home2) == DefaultCredPath(osName, environ, home)
  {
  }

  /** Without the override the file is `credentials.json` in the `trademe-sdk`
      directory under the platform's configuration directory. */
  lemma CredPathLayout(osName: string, environ: map<string, string>, home: Path)
    requires CredFileVar !in environ
    ensures DefaultCredPath(osName, environ, home).Name() == CredFileName
    ensures DefaultCredPath(osName, environ, home).Parent().Name() == AppDirName
    ensures DefaultCredPath(osName, environ, home).Parent().Parent() == ConfigBase(osName, environ, home)
  {
  }

  /** The platform's configuration directory: an environment variable when set, else a
      directory under home. Windows reads only `APPDATA`, everything else only
      `XDG_CONFIG_HOME`. */
  lemma ConfigBaseByPlatform(osName: string, environ: map<string, string>, home: Path)
    ensures osName == "nt" && AppDataVar in environ ==>
      ConfigBase(osName, environ, home) == PathOf(environ[AppDataVar])
    ensures osName == "nt" && AppDataVar !in environ ==>
      ConfigBase(osName, environ, home) == Path(home.parts + ["AppData", "Roaming"])
    ensures osName != "nt" && XdgConfigVar in environ ==>
      ConfigBase(osName, environ, home) == PathOf(environ[XdgConfigVar])
    ensures osName != "nt" && XdgConfigVar !in environ ==>
      ConfigBase(osName, environ, home) == Path(home.parts + [".config"])
  {
    assert home.parts + ["AppData"] + ["Roaming"] == home.parts + ["AppData", "Roaming"];
  }

  /** The variables the path depends on on a given platform. */
  function PathVars(osName: string): set<string> {
    {CredFileVar, if osName == "nt" then AppDataVar else XdgConfigVar}
  }

  /** Two environments that agree on `PathVars(osName)` give the same path: no other
      variable is consulted. */
  lemma CredPathReadsOnlyPathVars(osName: string, e1: map<string, string>, e2: map<string, string>, home: Path)
    requires forall v :: v in PathVars(osName) ==> Get(e1, v) == Get(e2, v)
    ensures DefaultCredPath(osName, e1, home) == DefaultCredPath(osName, e2, home)
  {
    assert Get(e1, CredFileVar) == Get(e2, CredFileVar);
    if osName == "nt" {
      assert Get(e1, AppDataVar) == Get(e2, AppDataVar);
    } else {
      assert Get(e1, XdgConfigVar) == Get(e2, XdgConfigVar);
    }
  }

  // ---------------------------------------------------------------------------
  // The stored record (`Credentials`, `save_credentials`, `load_credentials`)
  // ---------------------------------------------------------------------------

  datatype Credentials = Credentials(
    consumerKey: string,
    consumerSecret: string,
    accessToken: string,
    accessTokenSecret: string)

  const ConsumerKeyField := "consumer_key"
  const ConsumerSecretField := "consumer_secret"
  const AccessTokenField := "access_token"
  const AccessTokenSecretField := "access_token_secret"

  /** The keys of the stored record, in the order `load_credentials` reads them. */
  const RecordFields: seq<string> := [ConsumerKeyField, ConsumerSecretField, AccessTokenField, AccessTokenSecretField]

  /** A stored JSON object, seen as its string-valued members. */
  type Record = map<string, string>

  /** The object `save_credentials` serialises. */
  function Encode(c: Credentials): (m: Record)
    ensures m.Keys == set f | f in RecordFields
  {
    map[ConsumerKeyField := c.consumerKey, ConsumerSecretField := c.consumerSecret,
        AccessTokenField := c.accessToken, AccessTokenSecretField := c.accessTokenSecret]
  }

  /** The keyword arguments of `Credentials(...)` in `load_credentials`, evaluated in
      order: the first missing key raises `KeyError`, extra keys are ignored. */
  function Decode(m: Record): (r: Result<Credentials>)
    ensures r.Ok? <==> forall f :: f in RecordFields ==> f in m
    ensures r.Ok? ==>
      && r.value.consumerKey == m[ConsumerKeyField] && r.value.consumerSecret == m[ConsumerSecretField]
      && r.value.accessToken == m[AccessTokenField] && r.value.accessTokenSecret == m[AccessTokenSecretField]
    ensures r.Err? ==> exists i :: (
      && 0 <= i < |RecordFields| && r.error == MissingKey(RecordFields[i])
      && RecordFields[i] !in m && forall j :: 0 <= j < i ==> RecordFields[j] in m)
  {
    if ConsumerKeyField !in m then
      assert RecordFields[0] == ConsumerKeyField;
      Err(MissingKey(ConsumerKeyField))
    else if ConsumerSecretField !in m then
      assert RecordFields[1] == ConsumerSecretField;
      Err(MissingKey(ConsumerSecretField))
    else if AccessTokenField !in m then
      assert RecordFields[2] == AccessTokenField;
      Err(MissingKey(AccessTokenField))
    else if AccessTokenSecretField !in m then
      assert RecordFields[3] == AccessTokenSecretField;
      Err(MissingKey(AccessTokenSecretField))
    else Ok(Credentials(m[ConsumerKeyField], m[ConsumerSecretField], m[AccessTokenField], m[AccessTokenSecretField]))
  }

  /** Reading back what was saved gives the same credentials, field by field. */
  lemma DecodeEncode(c: Credentials)
    ensures Decode(Encode(c)) == Ok(c)
  {
  }

  /** Conversely, a record that loads is, on the four keys, exactly what saving the
      loaded credentials writes. */
  lemma EncodeDecode(m: Record)
    requires Decode(m).Ok?
    ensures forall f :: f in RecordFields ==> Encode(Decode(m).value)[f] == m[f]
  {
  }

  /** The file behind `CRED_PATH`: its location, fixed when the store is made, and its
      contents, absent while no file exists. */
  class CredentialStore {
    const path: Path
    var file: Option<Record>

    /** `CRED_PATH = _default_cred_path()`, evaluated once at import with the platform,
        environment and home directory of that moment; `file` is what the file at that
        path holds then. */
    constructor (osName: string, environ: map<string, string>, home: Path, file: Option<Record>)
      ensures path == DefaultCredPath(osName, environ, home) && this.file == file
    {
      path := DefaultCredPath(osName, environ, home);
      this.file := file;
    }

    /** `load_credentials()`: "absent" without a file, `KeyError` for a record that lacks
        a key, otherwise the four stored values. */
    function Load(): (r: Result<Option<Credentials>>)
      reads this
      ensures r == Ok(None) <==> file.None?
      ensures r.Err? <==> file.Some? && exists f :: f in RecordFields && f !in file.value
      ensures r.Ok? && r.value.Some? ==>
        file.Some? && forall f :: f in RecordFields ==> Encode(r.value.value)[f] == file.value[f]
    {
      match file
      case None => Ok(None)
      case Some(m) =>
        match Decode(m)
        case Ok(c) => Ok(Some(c))
        case Err(e) => Err(e)
    }

    /** `save_credentials(creds)`: the file afterwards holds exactly the four keys.
        `chmodFails` tells whether the best-effort `os.chmod` raises; that error is
        swallowed, so the outcome is the same either way. */
    method Save(creds: Credentials, chmodFails: bool)
      modifies this
      ensures file == Some(Encode(creds))
      ensures Load() == Ok(Some(creds))
    {
      file := Some(Encode(creds));
      DecodeEncode(creds);
    }
  }

  // ---------------------------------------------------------------------------
  // Loopback callback (`_CallbackHandler`, `_capture_verifier_via_local_callback`)
  // ---------------------------------------------------------------------------

  /** `parse_qs(urlparse(path).query)`: each parameter name with its values. */
  type Query = map<string, seq<string>>

  const VerifierParam := "oauth_verifier"

  /** `(qs.get("oauth_verifier") or [""])[0]`: the first value of the parameter, or ""
      when it is absent. */
  function QueryVerifier(q: Query): string {
    if VerifierParam in q && q[VerifierParam] != [] then q[VerifierParam][0] else ""
  }

  /** What the capture returns when the listener handled `handled`, in order, before it
      was shut down: the verifier written by the last of them, or None if none came. */
  function Captured(handled: seq<Query>): (v: Option<string>)
    ensures v.None? <==> handled == []
  {
    if handled == [] then None else Some(QueryVerifier(handled[|handled| - 1]))
  }

  /** A later request overwrites the verifier of an earlier one (any GET is handled,
      whatever its path): the capture gives the first `oauth_verifier` value of the last
      request, or "" when that request has none. */
  lemma CapturedLastWins(handled: seq<Query>, q: Query)
    ensures VerifierParam in q && q[VerifierParam] != [] ==> Captured(handled + [q]) == Some(q[VerifierParam][0])
    ensures VerifierParam !in q || q[VerifierParam] == [] ==> Captured(handled + [q]) == Some("")
  {
    assert (handled + [q])[|handled + [q]| - 1] == q;
  }

  /** A single redirect within the timeout yields its verifier. */
  lemma CapturedSingle(q: Query)
    ensures VerifierParam in q && q[VerifierParam] != [] ==> Captured([q]) == Some(q[VerifierParam][0])
    ensures VerifierParam !in q || q[VerifierParam] == [] ==> Captured([q]) == Some("")
  {
    CapturedLastWins([], q);
    assert [] + [q] == [q];
  }

  /** The handler's class-level slot: the verifier and the `done` event. */
  class CallbackSlot {
    var verifier: Option<string>
    var done: bool

    /** The class attributes' initial values: no verifier, event clear. */
    constructor ()
      ensures verifier == None && !done
    {
      verifier := None;
      done := false;
    }

    /** `do_GET`: record the request's verifier (the first `oauth_verifier` value, or ""
        without one), then signal completion. */
    method HandleGet(q: Query)
      modifies this
      ensures VerifierParam in q && q[VerifierParam] != [] ==> verifier == Some(q[VerifierParam][0])
      ensures VerifierParam !in q || q[VerifierParam] == [] ==> verifier == Some("")
      ensures verifier == Some(QueryVerifier(q)) && done
    {
      verifier := Some(QueryVerifier(q));
      done := true;
    }

    /** `_capture_verifier_via_local_callback()`: reset the slot, let the listener handle
        the requests that reach it before shutdown, and return the slot's verifier. */
    method Capture(handled: seq<Query>) returns (v: Option<string>)
      modifies this
      ensures v == Captured(handled) && verifier == v
      ensures done <==> handled != []
    {
      verifier := None;
      done := false;
      var i := 0;
      while i < |handled|
        invariant 0 <= i <= |handled|
        invariant verifier == Captured(handled[..i])
        invariant done <==> i > 0
      {
        HandleGet(handled[i]);
        i := i + 1;
      }
      assert handled[..i] == handled;
      v := verifier;
    }
  }

  // ---------------------------------------------------------------------------
  // The login flow (`login`)
  // ---------------------------------------------------------------------------

  const LoopbackCallback := "http://127.0.0.1:8765/callback"
  const OutOfBand := "oob"
  const DefaultScope := "MyTradeMeRead,MyTradeMeWrite"
  const PinPrompt := "Enter the PIN / oauth_verifier from the browser: "
  const PastePrompt := "Paste the oauth_verifier: "
  const TokenKey := "oauth_token"
  const TokenSecretKey := "oauth_token_secret"

  /** The `oauth_callback` sent with the temporary-credential request (section 2.1 of
      RFC 5849): the loopback listener, or the out-of-band marker. */
  function CallbackUri(preferLocalCallback: bool): string {
    if preferLocalCallback then LoopbackCallback else OutOfBand
  }

  /** Whether the user is asked to type the verifier: always out of band, and with the
      loopback callback exactly when the capture gave None or "". */
  predicate UsesManualEntry(callbackUri: string, captured: Option<string>) {
    callbackUri == OutOfBand || !Truthy(captured)
  }

  /** The verifier `login` sends: the typed line, stripped, out of band; otherwise
      `captured or typed.strip()`. */
  function SelectVerifier(callbackUri: string, captured: Option<string>, typed: string): (v: string)
    ensures UsesManualEntry(callbackUri, captured) ==> v == Strip(typed)
    ensures !UsesManualEntry(callbackUri, captured) ==> captured == Some(v) && v != ""
  {
    if callbackUri == OutOfBand then Strip(typed)
    else if Truthy(captured) then captured.value
    else Strip(typed)
  }

  /** Out of band, what the listener would have captured plays no part. */
  lemma OutOfBandIgnoresCallback(c1: Option<string>, c2: Option<string>, typed: string)
    ensures SelectVerifier(OutOfBand, c1, typed) == SelectVerifier(OutOfBand, c2, typed) == Strip(typed)
  {
  }

  /** With the loopback callback, the manual fallback is taken exactly when the capture
      returned None or "". */
  lemma LoopbackFallback(captured: Option<string>, typed: string)
    ensures UsesManualEntry(LoopbackCallback, captured) <==> captured == None || captured == Some("")
    ensures captured == None || captured == Some("") ==> SelectVerifier(LoopbackCallback, captured, typed) == Strip(typed)
    ensures captured != None && captured != Some("") ==> SelectVerifier(LoopbackCallback, captured, typed) == captured.value
  {
  }

  /** The temporary-credential request (`fetch_request_token`), as the OAuth library
      would send it. */
  datatype RequestTokenCall = RequestTokenCall(
    url: string, consumerKey: string, consumerSecret: string, callbackUri: string, scope: string)

  /** The token-credential request (`fetch_access_token`). */
  datatype AccessTokenCall = AccessTokenCall(
    url: string, consumerKey: string, consumerSecret: string,
    token: string, tokenSecret: string, verifier: string)

  /** A decoded token response: form-encoded parameter names and values. */
  type TokenResponse = map<string, string>

  /** The OAuth service as seen through the library: each request either fails or yields
      a response. */
  datatype OAuthProvider = OAuthProvider(
    fetchRequestToken: RequestTokenCall -> Result<TokenResponse>,
    fetchAccessToken: AccessTokenCall -> Result<TokenResponse>)

  /** What `login` does that can be observed, in order. */
  datatype Event =
    | RequestedToken(requestCall: RequestTokenCall)
    | OpenedBrowser(authorizeUrl: string)
    | ListenedForCallback(handled: seq<Query>)
    | Prompted(prompt: string)
    | RequestedAccessToken(accessCall: AccessTokenCall)
    | Saved(creds: Credentials)

  /** The outcome of one `login` call and what it did. */
  datatype LoginRun = LoginRun(result: Result<Credentials>, trace: seq<Event>)

  /** The events of step 3, obtaining the verifier. */
  function VerifierEvents(preferLocalCallback: bool, handled: seq<Query>): seq<Event> {
    if !preferLocalCallback then [Prompted(PinPrompt)]
    else if UsesManualEntry(LoopbackCallback, Captured(handled)) then [ListenedForCallback(handled), Prompted(PastePrompt)]
    else [ListenedForCallback(handled)]
  }

  /** Step 4 of `login` and the save: exchange for the token credentials and assemble them.
      `rt` is the temporary-credential response. */
  function Exchange(provider: OAuthProvider, env: Environment, consumerKey: string, consumerSecret: string,
                    rt: TokenResponse, verifier: string, before: seq<Event>): LoginRun
  {
    if TokenKey !in rt then LoginRun(Err(MissingKey(TokenKey)), before)
    else if TokenSecretKey !in rt then LoginRun(Err(MissingKey(TokenSecretKey)), before)
    else
      var call := AccessTokenCall(env.AccessTokenUrl(), consumerKey, consumerSecret, rt[TokenKey], rt[TokenSecretKey], verifier);
      var sent := before + [RequestedAccessToken(call)];
      match provider.fetchAccessToken(call)
      case Err(e) => LoginRun(Err(e), sent)
      case Ok(at) =>
        if TokenKey !in at then LoginRun(Err(MissingKey(TokenKey)), sent)
        else if TokenSecretKey !in at then LoginRun(Err(MissingKey(TokenSecretKey)), sent)
        else
          var creds := Credentials(consumerKey, consumerSecret, at[TokenKey], at[TokenSecretKey]);
          LoginRun(Ok(creds), sent + [Saved(creds)])
  }

  /** What `login(...)` returns and does, given the OAuth service, the requests the
      loopback listener handles and the line the user types when asked. */
  function RunLogin(provider: OAuthProvider, handled: seq<Query>, typed: string,
                    consumerKey: string, consumerSecret: string,
                    scope: string, preferLocalCallback: bool, environment: string): LoginRun
  {
    match GetEnvironment(environment)
    case Err(e) => LoginRun(Err(e), [])
    case Ok(env) =>
      var uri := CallbackUri(preferLocalCallback);
      var call := RequestTokenCall(env.RequestTokenUrl(), consumerKey, consumerSecret, uri, scope);
      match provider.fetchRequestToken(call)
      case Err(e) => LoginRun(Err(e), [RequestedToken(call)])
      case Ok(rt) =>
        var captured := if preferLocalCallback then Captured(handled) else None;
        var verifier := SelectVerifier(uri, captured, typed);
        var before := [RequestedToken(call), OpenedBrowser(env.AuthorizeUrl())] + VerifierEvents(preferLocalCallback, handled);
        Exchange(provider, env, consumerKey, consumerSecret, rt, verifier, before)
  }

  /** `login(consumer_key, consumer_secret, *, scope, prefer_local_callback, environment)`.
      The callback slot is used only with the loopback callback; the store is written
      only when the flow succeeds, and then with the credentials returned. */
  method Login(store: CredentialStore, slot: CallbackSlot, provider: OAuthProvider,
               handled: seq<Query>, typed: string, chmodFails: bool,
               consumerKey: string, consumerSecret: string,
               nameonly scope: string := DefaultScope,
               nameonly preferLocalCallback: bool := true,
               nameonly environment: string := DefaultEnvironment)
    returns (r: Result<Credentials>, trace: seq<Event>)
    modifies store, slot
    ensures LoginRun(r, trace) == RunLogin(provider, handled, typed, consumerKey, consumerSecret, scope, preferLocalCallback, environment)
    ensures r.Ok? ==> store.file == Some(Encode(r.value))
    ensures r.Err? ==> store.file == old(store.file)
    ensures !preferLocalCallback ==> unchanged(slot)
    ensures ListenedForCallback(handled) in trace ==>
      slot.verifier == Captured(handled) && (slot.done <==> handled != [])
    ensures ListenedForCallback(handled) !in trace ==> unchanged(slot)
  {
    var envResult := GetEnvironment(environment);
    if envResult.Err? {
      return Err(envResult.error), [];
    }
    var env := envResult.value;
    var callbackUri := CallbackUri(preferLocalCallback);

    // 1) temporary credentials
    var call := RequestTokenCall(env.RequestTokenUrl(), consumerKey, consumerSecret, callbackUri, scope);
    trace := [RequestedToken(call)];
    var rt := provider.fetchRequestToken(call);
    if rt.Err? {
      return Err(rt.error), trace;
    }

    // 2) to 4)
    r, trace := Authorize(store, slot, provider, env, call, rt.value, handled, typed, chmodFails, preferLocalCallback);
  }

  /** Steps 2 to 4 of `login` and the save, once the temporary credentials `rt` have
      been issued for `call`: send the user to the authorize page, obtain the verifier,
      and exchange and save. */
  method Authorize(store: CredentialStore, slot: CallbackSlot, provider: OAuthProvider, env: Environment,
                   call: RequestTokenCall, rt: TokenResponse, handled: seq<Query>, typed: string,
                   chmodFails: bool, preferLocalCallback: bool)
    returns (r: Result<Credentials>, trace: seq<Event>)
    modifies store, slot
    ensures LoginRun(r, trace) == Exchange(provider, env, call.consumerKey, call.consumerSecret, rt,
      SelectVerifier(CallbackUri(preferLocalCallback), if preferLocalCallback then Captured(handled) else None, typed),
      [RequestedToken(call), OpenedBrowser(env.AuthorizeUrl())] + VerifierEvents(preferLocalCallback, handled))
    ensures r.Ok? ==> store.file == Some(Encode(r.value))
    ensures r.Err? ==> store.file == old(store.file)
    ensures ListenedForCallback(handled) in trace <==> preferLocalCallback
    ensures preferLocalCallback ==> slot.verifier == Captured(handled) && (slot.done <==> handled != [])
    ensures !preferLocalCallback ==> unchanged(slot)
  {
    var verifier, events := ObtainVerifier(slot, handled, typed, preferLocalCallback);
    var before := [RequestedToken(call), OpenedBrowser(env.AuthorizeUrl())] + events;
    r, trace := ExchangeAndSave(store, provider, env, call.consumerKey, call.consumerSecret, rt, verifier, chmodFails, before);
    ExchangeListensOnlyWhenPreferred(provider, env, call, rt, verifier, preferLocalCallback, handled);
  }

  /** Step 3 of `login`: out of band, the typed PIN; with the loopback callback, the
      capture, then the typed fallback when it gave nothing. */
  method ObtainVerifier(slot: CallbackSlot, handled: seq<Query>, typed: string, preferLocalCallback: bool)
    returns (verifier: string, events: seq<Event>)
    modifies slot
    ensures verifier == SelectVerifier(CallbackUri(preferLocalCallback), if preferLocalCallback then Captured(handled) else None, typed)
    ensures events == VerifierEvents(preferLocalCallback, handled)
    ensures preferLocalCallback ==> slot.verifier == Captured(handled) && (slot.done <==> handled != [])
    ensures !preferLocalCallback ==> unchanged(slot)
  {
    var callbackUri := CallbackUri(preferLocalCallback);
    if callbackUri == OutOfBand {
      events := [Prompted(PinPrompt)];
      verifier := SelectVerifier(callbackUri, None, typed);
    } else {
      var captured := slot.Capture(handled);
      events := [ListenedForCallback(handled)];
      if UsesManualEntry(callbackUri, captured) {
        events := events + [Prompted(PastePrompt)];
      }
      verifier := SelectVerifier(callbackUri, captured, typed);
    }
  }

  /** The listener event is among a run's events exactly when the loopback callback is
      used: the exchange adds only the access request and the save. */
  lemma ExchangeListensOnlyWhenPreferred(provider: OAuthProvider, env: Environment, call: RequestTokenCall,
                                         rt: TokenResponse, verifier: string, prefer: bool, handled: seq<Query>)
    ensures var before := [RequestedToken(call), OpenedBrowser(env.AuthorizeUrl())] + VerifierEvents(prefer, handled);
      ListenedForCallback(handled) in Exchange(provider, env, call.consumerKey, call.consumerSecret, rt, verifier, before).trace
      <==> prefer
  {
    var before := [RequestedToken(call), OpenedBrowser(env.AuthorizeUrl())] + VerifierEvents(prefer, handled);
    var trace := Exchange(provider, env, call.consumerKey, call.consumerSecret, rt, verifier, before).trace;
    ExchangeExtends(provider, env, call.consumerKey, call.consumerSecret, rt, verifier, before);
    if prefer {
      assert trace[2] == before[2] == ListenedForCallback(handled);
    } else {
      forall k | 0 <= k < |trace|
        ensures !trace[k].ListenedForCallback?
      {
        if k < |before| {
          assert trace[k] == before[k];
        }
      }
    }
  }

  /** Step 4 of `login` and the save, as `Exchange` describes them, saving the credentials
      when the exchange succeeds. */
  method ExchangeAndSave(store: CredentialStore, provider: OAuthProvider, env: Environment,
                         consumerKey: string, consumerSecret: string,
                         rt: TokenResponse, verifier: string, chmodFails: bool, before: seq<Event>)
    returns (r: Result<Credentials>, trace: seq<Event>)
    modifies store
    ensures LoginRun(r, trace) == Exchange(provider, env, consumerKey, consumerSecret, rt, verifier, before)
    ensures r.Ok? ==> store.file == Some(Encode(r.value))
    ensures r.Err? ==> store.file == old(store.file)
  {
    trace := before;
    if TokenKey !in rt {
      return Err(MissingKey(TokenKey)), trace;
    }
    if TokenSecretKey !in rt {
      return Err(MissingKey(TokenSecretKey)), trace;
    }
    var accessCall := AccessTokenCall(env.AccessTokenUrl(), consumerKey, consumerSecret,
                                      rt[TokenKey], rt[TokenSecretKey], verifier);
    trace := trace + [RequestedAccessToken(accessCall)];
    var at := provider.fetchAccessToken(accessCall);
    if at.Err? {
      return Err(at.error), trace;
    }
    if TokenKey !in at.value {
      return Err(MissingKey(TokenKey)), trace;
    }
    if TokenSecretKey !in at.value {
      return Err(MissingKey(TokenSecretKey)), trace;
    }
    var creds := Credentials(consumerKey, consumerSecret, at.value[TokenKey], at.value[TokenSecretKey]);
    store.Save(creds, chmodFails);
    trace := trace + [Saved(creds)];
    r := Ok(creds);
  }

  // ---------------------------------------------------------------------------
  // Facts about the login flow
  // ---------------------------------------------------------------------------

  /** An unknown environment name fails before anything is sent. */
  lemma LoginUnknownEnvironment(provider: OAuthProvider, handled: seq<Query>, typed: string,
                                ck: string, cs: string, scope: string, prefer: bool, environment: string)
    requires GetEnvironment(environment).Err?
    ensures RunLogin(provider, handled, typed, ck, cs, scope, prefer, environment)
         == LoginRun(Err(UnknownEnvironment(UnknownEnvironmentMessage(environment))), [])
  {
  }

  /** The first request of a run is the temporary-credential request to the environment's
      request-token URL, carrying the caller's consumer credentials, the callback chosen
      by `prefer` and the scope. */
  lemma LoginStartsWithRequestToken(provider: OAuthProvider, handled: seq<Query>, typed: string,
                                    ck: string, cs: string, scope: string, prefer: bool, environment: string)
    requires GetEnvironment(environment).Ok?
    ensures var run := RunLogin(provider, handled, typed, ck, cs, scope, prefer, environment);
      |run.trace| > 0 && run.trace[0]
        == RequestedToken(RequestTokenCall(GetEnvironment(environment).value.RequestTokenUrl(), ck, cs, CallbackUri(prefer), scope))
    ensures prefer <==> CallbackUri(prefer) == "http://127.0.0.1:8765/callback"
    ensures !prefer <==> CallbackUri(prefer) == "oob"
  {
    var env := GetEnvironment(environment).value;
    var call := RequestTokenCall(env.RequestTokenUrl(), ck, cs, CallbackUri(prefer), scope);
    match provider.fetchRequestToken(call)
    case Err(_) =>
    case Ok(rt) =>
      var captured := if prefer then Captured(handled) else None;
      var before := [RequestedToken(call), OpenedBrowser(env.AuthorizeUrl())] + VerifierEvents(prefer, handled);
      ExchangeExtends(provider, env, ck, cs, rt, SelectVerifier(CallbackUri(prefer), captured, typed), before);
  }

  /** `Exchange` only appends to the events it is given, and only the access-token
      request and the save. */
  lemma ExchangeExtends(provider: OAuthProvider, env: Environment, ck: string, cs: string,
                        rt: TokenResponse, verifier: string, before: seq<Event>)
    ensures var run := Exchange(provider, env, ck, cs, rt, verifier, before);
      |before| <= |run.trace| && run.trace[..|before|] == before
    ensures var run := Exchange(provider, env, ck, cs, rt, verifier, before);
      forall k :: |before| <= k < |run.trace| ==> run.trace[k].RequestedAccessToken? || run.trace[k].Saved?
  {
  }

  /** A successful run: the caller's consumer credentials with the token pair of the
      access response; the access request is the second-to-last event and carries the
      temporary token pair and the selected verifier; the last event saves exactly the
      credentials returned; and the verifier was obtained after the temporary token and
      before the exchange. */
  lemma LoginSuccess(provider: OAuthProvider, handled: seq<Query>, typed: string,
                     ck: string, cs: string, scope: string, prefer: bool, environment: string)
    requires RunLogin(provider, handled, typed, ck, cs, scope, prefer, environment).result.Ok?
    ensures var run := RunLogin(provider, handled, typed, ck, cs, scope, prefer, environment);
      var creds := run.result.value;
      var env := GetEnvironment(environment).value;
      var n := |run.trace|;
      && GetEnvironment(environment).Ok?
      && creds.consumerKey == ck && creds.consumerSecret == cs
      && n >= 5
      && run.trace[0].RequestedToken?
      && run.trace[1] == OpenedBrowser(env.AuthorizeUrl())
      && run.trace[2..n - 2] == VerifierEvents(prefer, handled)
      && run.trace[n - 1] == Saved(creds)
      && run.trace[n - 2].RequestedAccessToken?
      && var call := run.trace[n - 2].accessCall;
      && var rt := provider.fetchRequestToken(run.trace[0].requestCall);
      && call.url == env.AccessTokenUrl()
      && call.verifier == SelectVerifier(CallbackUri(prefer), if prefer then Captured(handled) else None, typed)
      && rt.Ok? && rt.value[TokenKey] == call.token && rt.value[TokenSecretKey] == call.tokenSecret
      && provider.fetchAccessToken(call).Ok?
      && provider.fetchAccessToken(call).value[TokenKey] == creds.accessToken
      && provider.fetchAccessToken(call).value[TokenSecretKey] == creds.accessTokenSecret
  {
    var env := GetEnvironment(environment).value;
    var uri := CallbackUri(prefer);
    var call0 := RequestTokenCall(env.RequestTokenUrl(), ck, cs, uri, scope);
    var rt := provider.fetchRequestToken(call0).value;
    var before := [RequestedToken(call0), OpenedBrowser(env.AuthorizeUrl())] + VerifierEvents(prefer, handled);
    var verifier := SelectVerifier(uri, if prefer then Captured(handled) else None, typed);
    var call := AccessTokenCall(env.AccessTokenUrl(), ck, cs, rt[TokenKey], rt[TokenSecretKey], verifier);
    var run := RunLogin(provider, handled, typed, ck, cs, scope, prefer, environment);
    assert run.trace == before + [RequestedAccessToken(call), Saved(run.result.value)];
    assert run.trace[2..|run.trace| - 2] == VerifierEvents(prefer, handled);
  }

  /** No event of `trace` is a save. */
  predicate SavesNothing(trace: seq<Event>) {
    forall k :: 0 <= k < |trace| ==> !trace[k].Saved?
  }

  /** A failing exchange adds no save to the events it is given. */
  lemma ExchangeFailureSavesNothing(provider: OAuthProvider, env: Environment, ck: string, cs: string,
                                    rt: TokenResponse, verifier: string, before: seq<Event>)
    requires SavesNothing(before)
    requires Exchange(provider, env, ck, cs, rt, verifier, before).result.Err?
    ensures SavesNothing(Exchange(provider, env, ck, cs, rt, verifier, before).trace)
  {
    var run := Exchange(provider, env, ck, cs, rt, verifier, before);
    if TokenKey in rt && TokenSecretKey in rt {
      var call := AccessTokenCall(env.AccessTokenUrl(), ck, cs, rt[TokenKey], rt[TokenSecretKey], verifier);
      assert run.trace == before + [RequestedAccessToken(call)];
    }
  }

  /** A run that fails saves nothing. */
  lemma LoginFailureSavesNothing(provider: OAuthProvider, handled: seq<Query>, typed: string,
                                 ck: string, cs: string, scope: string, prefer: bool, environment: string)
    requires RunLogin(provider, handled, typed, ck, cs, scope, prefer, environment).result.Err?
    ensures SavesNothing(RunLogin(provider, handled, typed, ck, cs, scope, prefer, environment).trace)
  {
    var run := RunLogin(provider, handled, typed, ck, cs, scope, prefer, environment);
    match GetEnvironment(environment)
    case Err(_) =>
      assert run.trace == [];
    case Ok(env) =>
      var uri := CallbackUri(prefer);
      var call := RequestTokenCall(env.RequestTokenUrl(), ck, cs, uri, scope);
      match provider.fetchRequestToken(call)
      case Err(_) =>
        assert run.trace == [RequestedToken(call)];
      case Ok(rt) =>
        var captured := if prefer then Captured(handled) else None;
        var verifier := SelectVerifier(uri, captured, typed);
        var before := [RequestedToken(call), OpenedBrowser(env.AuthorizeUrl())] + VerifierEvents(prefer, handled);
        assert SavesNothing(before);
        assert run == Exchange(provider, env, ck, cs, rt, verifier, before);
        ExchangeFailureSavesNothing(provider, env, ck, cs, rt, verifier, before);
  }

  /** Out of band, the listener is never started and the paste prompt is never shown,
      whatever requests would reach it and however the run ends. */
  lemma OutOfBandNeverListens(provider: OAuthProvider, handled: seq<Query>, typed: string,
                              ck: string, cs: string, scope: string, environment: string)
    ensures var run := RunLogin(provider, handled, typed, ck, cs, scope, false, environment);
      forall k :: 0 <= k < |run.trace| ==> !run.trace[k].ListenedForCallback? && run.trace[k] != Prompted(PastePrompt)
  {
    match GetEnvironment(environment)
    case Err(_) =>
    case Ok(env) =>
      var call := RequestTokenCall(env.RequestTokenUrl(), ck, cs, OutOfBand, scope);
      match provider.fetchRequestToken(call)
      case Err(_) =>
      case Ok(rt) =>
        var verifier := SelectVerifier(OutOfBand, None, typed);
        var before := [RequestedToken(call), OpenedBrowser(env.AuthorizeUrl())] + VerifierEvents(false, handled);
        assert before == [RequestedToken(call), OpenedBrowser(env.AuthorizeUrl()), Prompted(PinPrompt)];
        var trace := Exchange(provider, env, ck, cs, rt, verifier, before).trace;
        ExchangeExtends(provider, env, ck, cs, rt, verifier, before);
        forall k | 0 <= k < |trace|
          ensures !trace[k].ListenedForCallback? && trace[k] != Prompted(PastePrompt)
        {
          if k < |before| {
            assert trace[k] == before[k];
          }
        }
  }

  /** A provider that issues the temporary pair ("rt1", "rts1") and grants ("at1", "ats1")
      only for that temporary token and the verifier `expected`. */
  function ExampleProvider(expected: string): OAuthProvider {
    OAuthProvider(
      (call: RequestTokenCall) => Ok(map[TokenKey := "rt1", TokenSecretKey := "rts1"]),
      (call: AccessTokenCall) => if call.token == "rt1" && call.tokenSecret == "rts1" && call.verifier == expected
              then Ok(map[TokenKey := "at1", TokenSecretKey := "ats1"])
              else Err(OAuthFailure("invalid verifier")))
  }

  /** The typed PIN line of the out-of-band example, stripped. */
  lemma StripTypedPin()
    ensures Strip(" 9999") == "9999"
  {
    var typed, pin := " 9999", "9999";
    assert IsSpace(typed[0]) && typed[1..] == pin;
    assert !IsSpace(pin[0]);
    assert TrimStart(pin) == pin;
    assert TrimStart(typed) == pin;
    assert !IsSpace(pin[|pin| - 1]);
    assert TrimEnd(pin) == pin;
  }

  /** The example provider redeems its own temporary pair and the expected verifier. */
  lemma ExampleExchange(expected: string, env: Environment, before: seq<Event>)
    ensures Exchange(ExampleProvider(expected), env, "ck", "cs", map[TokenKey := "rt1", TokenSecretKey := "rts1"],
                     expected, before).result
         == Ok(Credentials("ck", "cs", "at1", "ats1"))
  {
    var provider := ExampleProvider(expected);
    var access := AccessTokenCall(env.AccessTokenUrl(), "ck", "cs", "rt1", "rts1", expected);
    assert provider.fetchAccessToken(access) == Ok(map[TokenKey := "at1", TokenSecretKey := "ats1"]);
  }

  /** Out of band: the PIN typed as " 9999" is stripped and redeemed, and
      the result carries the access pair. */
  lemma OutOfBandExample()
    ensures RunLogin(ExampleProvider("9999"), [], " 9999", "ck", "cs", DefaultScope, false, "sandbox").result
         == Ok(Credentials("ck", "cs", "at1", "ats1"))
  {
    RegistryContents();
    StripTypedPin();
    var provider := ExampleProvider("9999");
    var call := RequestTokenCall(Sandbox.RequestTokenUrl(), "ck", "cs", OutOfBand, DefaultScope);
    assert provider.fetchRequestToken(call) == Ok(map[TokenKey := "rt1", TokenSecretKey := "rts1"]);
    assert SelectVerifier(OutOfBand, None, " 9999") == "9999";
    ExampleExchange("9999", Sandbox, [RequestedToken(call), OpenedBrowser(Sandbox.AuthorizeUrl())] + VerifierEvents(false, []));
  }

  /** Loopback: a redirect carrying `oauth_verifier=ABC123` supplies the verifier, and the
      typed line is not used. */
  lemma LoopbackExample()
    ensures RunLogin(ExampleProvider("ABC123"), [map[VerifierParam := ["ABC123"]]], "", "ck", "cs",
                     DefaultScope, true, "sandbox").result
         == Ok(Credentials("ck", "cs", "at1", "ats1"))
  {
    RegistryContents();
    var handled := [map[VerifierParam := ["ABC123"]]];
    CapturedSingle(handled[0]);
    var provider := ExampleProvider("ABC123");
    var call := RequestTokenCall(Sandbox.RequestTokenUrl(), "ck", "cs", LoopbackCallback, DefaultScope);
    assert provider.fetchRequestToken(call) == Ok(map[TokenKey := "rt1", TokenSecretKey := "rts1"]);
    assert SelectVerifier(LoopbackCallback, Some("ABC123"), "") == "ABC123";
    ExampleExchange("ABC123", Sandbox, [RequestedToken(call), OpenedBrowser(Sandbox.AuthorizeUrl())] + VerifierEvents(true, handled));
  }
}
