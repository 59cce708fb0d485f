# trademe-sdk: a Dafny model of the OAuth 1.0a client's decision logic

The SDK is a small client for the Trade Me REST API. It authenticates with three-legged
OAuth 1.0a (RFC 5849). This project models the logic under its plumbing and proves
properties of it:

- **Environment registry** (`config.dfy`, module `Config`). The fixed table that maps
  `sandbox` and `production` to an API host and a web host. The three OAuth endpoint URLs
  are derived from those hosts. `GetEnvironment` fails, with the registered names in its
  message, on any other name.
- **Login flow and credential file** (`auth_flow.dfy`, module `AuthFlow`):
  - where the credential file lives (`TM_CRED_FILE`, then `APPDATA` or `XDG_CONFIG_HOME`,
    then a directory under home);
  - the four-key record that is saved and loaded (class `CredentialStore`);
  - the loopback handler's verifier/done slot (class `CallbackSlot`);
  - `login`: the request token, the browser step, the verifier (loopback capture or
    typed PIN), the access token, and saving the result.
- **Credential resolver** (`auth_helpers.dfy`, module `AuthHelpers`). `ensure_auth`'s
  precedence chain is the pure function `Resolve`, which returns a `Resolution`. It tries
  the stored record, then arguments and environment variables (with Python truthiness),
  then an interactive out-of-band login, and otherwise gives `AuthenticationRequired`.
  The method `EnsureAuth` acts on that decision.
- **API client** (`client.dfy`, module `Client`). `TMClient` takes its base URL from the
  environment. Every request URL is the base URL followed by the path. A 4xx or 5xx status
  is an error. The paths and query parameters of the listing and watchlist endpoints are
  built here; `category` is sent only when it is truthy.
- `common.dfy` (`Option`, `Result`, the error kinds, Python's `or` on optional strings)
  and `strings.dfy` (`str.join`, `str.strip`, `str(int)` and its inverse, prefix and suffix
  removal) hold what the four modules share.

Inputs the model does not compute:
- The OAuth service is an `OAuthProvider`: two functions from the request a call would
  send to the response or failure it gets back.
- The HTTP transport of the client is a function from request to response.
- These are parameters: `os.name`, `os.environ`, the home directory, whether stdin is a
  TTY (`sys.stdin.isatty()`), the lines the user types, whether `os.chmod` raises, and the
  requests that reach the loopback listener before it shuts down.
- `login` and `ensure_auth` return a trace of `Event`s: the requests sent, the browser
  opened, the listener run, each `input` prompt shown (the PIN or paste prompt, and
  `ensure_auth`'s two consumer prompts) and the save. The order of the steps can be read
  from that trace. `print` output is not part of it.

Behaviour of the code that is easy to misread, kept as written:
- An unknown environment raises `ValueError` whose message lists the registered names
  (config.py:36-38).
- A stored record that lacks a key raises `KeyError` for the first missing key, in the
  order `consumer_key`, `consumer_secret`, `access_token`, `access_token_secret`
  (auth_flow.py:44-49).
- The handler takes the verifier from every GET it serves, whatever the path, and uses
  `""` when the parameter is absent (auth_flow.py:56-62). So the last request handled
  before shutdown decides what the capture returns (`CapturedLastWins`).
- The manual fallback is taken when the capture gives None (timeout) and also when it
  gives `""` (auth_flow.py:115).
- The resolver returns any record that loads, even one with empty fields, because a
  `Credentials` instance is always truthy (auth_helpers.py:21-24).
- When either consumer value is missing in the login branch, both are prompted for and
  both replaced (auth_helpers.py:34-36).

## Model

| member | source | states |
|---|---|---|
| `Config.Environment.RequestTokenUrl` | src/trademe_sdk/config.py:9-10 | the URL is exactly `api_base` followed by `/Oauth/RequestToken`: removing that suffix gives back `api_base` |
| `Config.Environment.AccessTokenUrl` | src/trademe_sdk/config.py:13-14 | the URL is exactly `api_base` followed by `/Oauth/AccessToken` |
| `Config.Environment.AuthorizeUrl` | src/trademe_sdk/config.py:17-18 | the URL is built from `oauth_base`, not `api_base`: `oauth_base` followed by `/Oauth/Authorize` |
| `Config.EndpointsDistinct` | src/trademe_sdk/config.py:8-18 | for any environment the three derived endpoint URLs are pairwise different |
| `Config.Names` | src/trademe_sdk/config.py:37 | `ENVIRONMENTS.keys()`: one name per registry entry, in registry order |
| `Config.Find` | src/trademe_sdk/config.py:36-39 | the lookup fails exactly when the name is not a key; a found value is that key's own entry |
| `Config.UnknownEnvironmentMessage` | src/trademe_sdk/config.py:37-38 | the `ValueError` text; its wording is stated by `Config.UnknownNameFails` |
| `Config.GetEnvironment` | src/trademe_sdk/config.py:34-39 | succeeds exactly on a registered name and returns that name's own entry; otherwise a `ValueError` whose message lists the registered names |
| `Config.RegistryContents` | src/trademe_sdk/config.py:21-30 | the registry holds exactly `sandbox` and `production`, in that order, each with its own hosts |
| `Config.DefaultIsSandbox` | src/trademe_sdk/config.py:32-34 | called without an argument, `get_environment` returns the sandbox entry |
| `Config.UnknownNameFails` | src/trademe_sdk/config.py:36-38 | any other name fails with the text `Unknown environment '<name>'. Available: sandbox, production` |
| `Common.Truthy` | src/trademe_sdk/auth_helpers.py:26-30 | Python truthiness of an optional string; stated by `AuthHelpers.ExplicitArgumentFallback` and `AuthHelpers.SourcesAreNonEmpty` |
| `Common.Or` | src/trademe_sdk/auth_helpers.py:26-27 | Python's `a or b`: the result is truthy exactly when either operand is; stated by `AuthHelpers.ExplicitArgumentFallback` and `AuthHelpers.SourcesAreNonEmpty` |
| `Common.Get` | src/trademe_sdk/auth_flow.py:13-16 | `os.environ.get` and `os.getenv`; stated by `AuthFlow.CredPathReadsOnlyPathVars` and `AuthHelpers.ExplicitArgumentFallback` |
| `AuthFlow.Path.Child` | src/trademe_sdk/auth_flow.py:13-16 | pathlib's `p / name`: the result's parent is `p` and its name is `name`; stated by `AuthFlow.CredPathLayout` |
| `AuthFlow.PathOf` | src/trademe_sdk/auth_flow.py:13-16 | `Path(s)` as one part; stated by `AuthFlow.CredPathOverride` and `AuthFlow.CredPathLayout` |
| `AuthFlow.CredPathOverride` | src/trademe_sdk/auth_flow.py:16 | when `TM_CRED_FILE` is set its value is the path verbatim, whatever the platform and home directory |
| `AuthFlow.CredPathLayout` | src/trademe_sdk/auth_flow.py:16 | otherwise the path is `<base>/trademe-sdk/credentials.json` |
| `AuthFlow.ConfigBaseByPlatform` | src/trademe_sdk/auth_flow.py:12-15 | `base` is `APPDATA` (default `home/AppData/Roaming`) on `nt`, else `XDG_CONFIG_HOME` (default `home/.config`) |
| `AuthFlow.CredPathReadsOnlyPathVars` | src/trademe_sdk/auth_flow.py:11-16 | the path depends on no environment variable besides `TM_CRED_FILE` and the platform's base variable |
| `AuthFlow.ConfigBase` | src/trademe_sdk/auth_flow.py:12-15 | the per-platform configuration directory; its cases are stated by `AuthFlow.ConfigBaseByPlatform` |
| `AuthFlow.DefaultCredPath` | src/trademe_sdk/auth_flow.py:11-16 | `_default_cred_path()`; stated by `AuthFlow.CredPathOverride`, `AuthFlow.CredPathLayout` and `AuthFlow.CredPathReadsOnlyPathVars` |
| `AuthFlow.CredentialStore.constructor` | src/trademe_sdk/auth_flow.py:18 | `CRED_PATH` is `DefaultCredPath` of the platform, environment and home directory when the module is imported |
| `AuthFlow.Encode` | src/trademe_sdk/auth_flow.py:29-34 | the saved record has exactly the four keys |
| `AuthFlow.Decode` | src/trademe_sdk/auth_flow.py:43-49 | loading succeeds exactly when all four keys are present and takes each field from its key; otherwise `KeyError` for the first missing key in argument order; extra keys are ignored |
| `AuthFlow.DecodeEncode` | src/trademe_sdk/auth_flow.py:27-49 | loading what was saved gives the same credentials, field by field |
| `AuthFlow.EncodeDecode` | src/trademe_sdk/auth_flow.py:27-49 | a record that loads agrees on the four keys with what saving the loaded credentials would write |
| `AuthFlow.CredentialStore.Load` | src/trademe_sdk/auth_flow.py:40-49 | absent when no file exists; fails exactly when the record lacks a key; otherwise the credentials agree with the stored record on all four keys |
| `AuthFlow.CredentialStore.Save` | src/trademe_sdk/auth_flow.py:27-38 | afterwards the file holds exactly the encoded record, and loading gives the saved credentials back, whether or not `os.chmod` raised |
| `AuthFlow.Captured` | src/trademe_sdk/auth_flow.py:67-79 | the capture returns None exactly when no request was handled |
| `AuthFlow.QueryVerifier` | src/trademe_sdk/auth_flow.py:59 | the first `oauth_verifier` value or `""`; stated by `AuthFlow.CallbackSlot.HandleGet` and `AuthFlow.CapturedLastWins` |
| `AuthFlow.CapturedSingle` | src/trademe_sdk/auth_flow.py:56-62 | one redirect within the timeout yields its first `oauth_verifier` value, or `""` when it carries none |
| `AuthFlow.CapturedLastWins` | src/trademe_sdk/auth_flow.py:56-62 | each GET overwrites the slot, so the last request handled decides the result: its first `oauth_verifier` value, or `""` when it carries none |
| `AuthFlow.CallbackSlot.constructor` | src/trademe_sdk/auth_flow.py:53-54 | the slot starts with no verifier and `done` clear |
| `AuthFlow.CallbackSlot.HandleGet` | src/trademe_sdk/auth_flow.py:56-62 | `do_GET` sets the verifier to the query's first `oauth_verifier` value, or `""` when the parameter is absent or empty, and then sets `done` |
| `AuthFlow.CallbackSlot.Capture` | src/trademe_sdk/auth_flow.py:67-79 | the slot is reset first, then every handled request runs `do_GET`; the capture returns the slot's verifier, and `done` is set exactly when some request came |
| `AuthFlow.CallbackUri` | src/trademe_sdk/auth_flow.py:94 | the callback chosen by `prefer_local_callback`; stated by `AuthFlow.LoginStartsWithRequestToken` |
| `AuthFlow.UsesManualEntry` | src/trademe_sdk/auth_flow.py:111-115 | whether the verifier is typed: out of band, or when the capture gave nothing; stated by `AuthFlow.SelectVerifier` and `AuthFlow.LoopbackFallback` |
| `AuthFlow.SelectVerifier` | src/trademe_sdk/auth_flow.py:111-115 | the stripped typed line when manual entry is used; otherwise the captured verifier, which is then non-empty |
| `AuthFlow.OutOfBandIgnoresCallback` | src/trademe_sdk/auth_flow.py:111-112 | with `oob` the verifier comes only from manual entry |
| `AuthFlow.LoopbackFallback` | src/trademe_sdk/auth_flow.py:113-115 | with the loopback callback, manual entry is used exactly when the capture gave None or `""` |
| `AuthFlow.OutOfBandNeverListens` | src/trademe_sdk/auth_flow.py:82-136 | out of band no event of the whole run, successful or not, is the listener or the paste prompt: the verifier comes from the PIN prompt alone |
| `AuthFlow.VerifierEvents` | src/trademe_sdk/auth_flow.py:110-115 | step 3's events: the PIN prompt out of band; the listener, then the paste prompt only when the capture gave nothing, with the loopback callback |
| `AuthFlow.Exchange` | src/trademe_sdk/auth_flow.py:117-136 | step 4 and the save; stated by `AuthFlow.ExchangeExtends`, `AuthFlow.ExchangeFailureSavesNothing` and `AuthFlow.LoginSuccess` |
| `AuthFlow.RunLogin` | src/trademe_sdk/auth_flow.py:82-136 | the whole of `login` on values; stated by `AuthFlow.LoginUnknownEnvironment`, `AuthFlow.LoginStartsWithRequestToken`, `AuthFlow.LoginSuccess`, `AuthFlow.LoginFailureSavesNothing` and `AuthFlow.OutOfBandNeverListens` |
| `AuthFlow.Login` | src/trademe_sdk/auth_flow.py:82-136 | the result and trace are those of `RunLogin`; the store holds the returned credentials after a success and is untouched after a failure; the listener runs only with the loopback callback, and then the slot holds the capture and `done` is set exactly when a request came; otherwise the slot is untouched |
| `AuthFlow.Authorize` | src/trademe_sdk/auth_flow.py:105-136 | steps 2 to 4 and the save, after the temporary credentials arrive: as `RunLogin` describes them, with the same effect on the store and the slot |
| `AuthFlow.ObtainVerifier` | src/trademe_sdk/auth_flow.py:110-115 | the verifier is `SelectVerifier` of the capture (loopback) or of nothing (out of band) and the typed line; the events are `VerifierEvents`; only the loopback branch touches the slot |
| `AuthFlow.ExchangeAndSave` | src/trademe_sdk/auth_flow.py:117-136 | step 4 and the save, as `Exchange` describes them; the credentials are saved exactly when the exchange succeeds |
| `AuthFlow.ExchangeListensOnlyWhenPreferred` | src/trademe_sdk/auth_flow.py:110-136 | the listener event is in a run's events exactly when the loopback callback is used |
| `AuthFlow.ExchangeExtends` | src/trademe_sdk/auth_flow.py:117-136 | the exchange only appends to the events before it, and only the access-token request and the save |
| `AuthFlow.ExchangeFailureSavesNothing` | src/trademe_sdk/auth_flow.py:121-134 | a failing exchange adds no save to events that had none |
| `AuthFlow.LoginUnknownEnvironment` | src/trademe_sdk/auth_flow.py:93 | an unknown environment fails with `ValueError` before any request is sent |
| `AuthFlow.LoginStartsWithRequestToken` | src/trademe_sdk/auth_flow.py:94-103 | the first request is the request-token call to the environment's URL, carrying the caller's consumer pair, the chosen callback and the scope; the callback is `http://127.0.0.1:8765/callback` exactly when the local callback is preferred and `oob` exactly when it is not |
| `AuthFlow.LoginSuccess` | src/trademe_sdk/auth_flow.py:103-136 | on success: the request token first, then the browser, then the verifier steps, then the access-token call carrying the temporary pair and the selected verifier, then the save of exactly the returned credentials; those are the caller's consumer pair plus the access response's `oauth_token` and `oauth_token_secret` |
| `AuthFlow.LoginFailureSavesNothing` | src/trademe_sdk/auth_flow.py:103-134 | a failing run never reaches the save |
| `AuthFlow.OutOfBandExample` | src/trademe_sdk/auth_flow.py:82-136 | PIN flow end to end: tokens `rt1`/`rts1`, typed PIN `" 9999"` (stripped to `9999`), access pair `at1`/`ats1` give credentials with access token `at1` |
| `AuthFlow.LoopbackExample` | src/trademe_sdk/auth_flow.py:82-136 | loopback flow end to end: a redirect carrying `oauth_verifier=ABC123` supplies the verifier that is redeemed |
| `AuthHelpers.StoredRecordWins` | src/trademe_sdk/auth_helpers.py:21-24 | a record that loads is returned field by field as `TMAuth`, even with empty fields, whatever the arguments, environment and terminal |
| `AuthHelpers.CorruptStorePropagates` | src/trademe_sdk/auth_helpers.py:21 | a failing load propagates; there is no fallback to the environment |
| `AuthHelpers.ExplicitArgumentFallback` | src/trademe_sdk/auth_helpers.py:26-27 | a non-empty explicit key or secret is used; None and `""` both fall back to the environment variable |
| `AuthHelpers.SourcesWhenAllFour` | src/trademe_sdk/auth_helpers.py:26-31 | with no record and all four values non-empty, the result is `TMAuth(ck, cs, at, asec)` with no login |
| `AuthHelpers.SourcesAreNonEmpty` | src/trademe_sdk/auth_helpers.py:30-31 | credentials from arguments and the environment never have an empty field |
| `AuthHelpers.LoginExactlyWhenInteractive` | src/trademe_sdk/auth_helpers.py:21-33 | login is reached exactly when nothing is stored, the four values are not all present, `auto_login` is set and stdin is a TTY |
| `AuthHelpers.LoginCredentials` | src/trademe_sdk/auth_helpers.py:33-37 | in the login branch, if either consumer value is missing both are prompted for (stripped), replacing the one that was present |
| `AuthHelpers.RequiredOtherwise` | src/trademe_sdk/auth_helpers.py:41-43 | when the store loads, `AuthenticationRequired` with the login hint is raised exactly in the remaining case |
| `AuthHelpers.NoLoginWithoutAutoLogin` | src/trademe_sdk/auth_helpers.py:33 | without `auto_login` no login is started, whether or not stdin is a TTY |
| `AuthHelpers.Resolve` | src/trademe_sdk/auth_helpers.py:21-43 | `ensure_auth`'s decision on values; stated by the `AuthHelpers` lemmas above |
| `AuthHelpers.ConsumerPrompts` | src/trademe_sdk/auth_helpers.py:35-36 | the two consumer prompts, in order, exactly when they are shown |
| `AuthHelpers.ToAuth` | src/trademe_sdk/auth_helpers.py:23-24 | a loaded record as `TMAuth`, field by field (also at lines 38-39); stated by `AuthHelpers.StoredRecordWins` and `AuthHelpers.EnsureAuth` |
| `AuthHelpers.ArgOrEnv` | src/trademe_sdk/auth_helpers.py:26-27 | `value or os.getenv(name)`; stated by `AuthHelpers.ExplicitArgumentFallback` |
| `AuthHelpers.AllFourAvailable` | src/trademe_sdk/auth_helpers.py:30 | `ck and cs and at and asec`; stated by `AuthHelpers.SourcesWhenAllFour` and `AuthHelpers.LoginExactlyWhenInteractive` |
| `AuthHelpers.EnsureAuth` | src/trademe_sdk/auth_helpers.py:7-43 | carries out the `Resolve` decision. A login shows the consumer prompts when needed, then runs out of band with the default scope and the caller's environment; its four fields are returned and the store then holds them. A failed login leaves the store as it was, and only the login branch writes the store |
| `Client.ListingPathNamesListing` | src/trademe_sdk/client.py:40-42 | the listing path is `/v1/listings/<id>.json` and the id can be read back from it |
| `Client.ListingPath` | src/trademe_sdk/client.py:42 | the listing path; stated by `Client.ListingPathNamesListing` and `Client.ListingPathInjective` |
| `Client.ListingPathInjective` | src/trademe_sdk/client.py:40-42 | different listing ids give different paths |
| `Client.WatchlistPathNamesFilter` | src/trademe_sdk/client.py:44-50 | the watchlist path is `/v1/mytrademe/watchlist/<filter>.json` and the filter can be read back from it |
| `Client.WatchlistPath` | src/trademe_sdk/client.py:50 | the watchlist path; stated by `Client.WatchlistPathNamesFilter` |
| `Client.ListingAndWatchlistPathsDiffer` | src/trademe_sdk/client.py:40-50 | the two endpoints never produce the same path |
| `Client.TMClient.constructor` | src/trademe_sdk/client.py:16-32 | the fields are the environment's `api_base`, the environment name, the signing credentials and the session headers |
| `Client.NewClient` | src/trademe_sdk/client.py:16-31 | construction fails exactly on an unknown environment name, with its error; otherwise the base URL is that environment's `api_base`, and the client keeps the environment name, the signing credentials and the session headers |
| `Client.TMClient.Get` | src/trademe_sdk/client.py:34-37 | the request URL is `base_url` immediately followed by the path, with the given params and the session's credentials and headers; a transport failure propagates; a response fails exactly when its status is 400-599, with that status, and otherwise gives its body |
| `Client.CheckStatus` | src/trademe_sdk/client.py:36-37 | `raise_for_status()` then the body; stated by `Client.TMClient.Get` |
| `Client.TMClient.GetListing` | src/trademe_sdk/client.py:40-42 | requests exactly `base_url` + `/v1/listings/<id>.json`, with no query parameters and the session's credentials and headers; outcome as for `Get` |
| `Client.TMClient.GetWatchlist` | src/trademe_sdk/client.py:44-50 | requests exactly `base_url` + the filter's path (default `All`), with the session's credentials and headers; the params are `page` and `rows` as given (defaults 1 and 50), then `category` exactly when it is truthy, with its value; outcome as for `Get` |
| `Strings.StripSlice` | src/trademe_sdk/auth_flow.py:112 | `str.strip()` gives the slice left after removing leading and trailing whitespace; that slice neither starts nor ends with whitespace |
| `Strings.ParseIntToString` | src/trademe_sdk/client.py:42 | `str(listing_id)` loses nothing: the integer can be read back from its decimal form |
| `Strings.Join` | src/trademe_sdk/config.py:37 | `", ".join(...)`: a single item is itself, no items give `""` |
| `Strings.Strip` | src/trademe_sdk/auth_flow.py:112 | `str.strip()`; its properties are stated by `Strings.StripSlice` |
| `Strings.IntToString` | src/trademe_sdk/client.py:42 | `str(int)`: an optional `-` and decimal digits; stated by `Strings.IntToStringCanonical` and `Strings.ParseIntToString`, which reads it back |
| `Strings.NoLeadingZero` | src/trademe_sdk/client.py:42 | the decimal digits of a number start with `0` only for zero |
| `Strings.IntToStringCanonical` | src/trademe_sdk/client.py:42 | `str(int)` is canonical: it starts with `0` only as `"0"`, and a `-` is followed by a non-zero digit |

## Left out

- Threaded loopback listener: socket binding on port 8765, the serving thread, the
  180-second `done.wait`, `shutdown`, `server_close` and `join`. Timing and concurrency
  are replaced by the list of requests handled before shutdown, which `Capture` receives.
- `_CallbackHandler.do_GET`'s HTTP response (status 200 and the text body) and
  `log_message`: output only.
- OAuth 1.0a signing with PLAINTEXT (section 3.4.4 of RFC 5849), `OAuth1Session`,
  `fetch_request_token`, `fetch_access_token` and `authorization_url`. These are library
  calls; their responses come from `OAuthProvider`. The browser event records the
  authorize endpoint but not the `oauth_token` query parameter the library appends.
- JSON encoding and decoding of the credential file. The file is a map from key to
  string, so malformed JSON and non-string values are not modelled. `parse_qs`/`urlparse`
  are abstracted to a map from parameter name to its values.
- AuthFlow.CredentialStore.Save: does not model `mkdir` or `write_text` raising (for
  example a read-only directory or a full disk), because the file system is one `file`
  field; the model's save always stores the record. `os.chmod` is modelled only as the
  `chmodFails` input, whose error is swallowed; file permission bits are not modelled.
- `print` (the progress messages of `login`, including the saved path): output only, not
  in the trace. `webbrowser.open` is the `OpenedBrowser` event, and its return value,
  which the source ignores, is not modelled.
- The store's `file` is the content at `CRED_PATH`; the file system is not addressed
  by path. `Path.home()` is an input, so its failure is not modelled. Path
  normalisation by `pathlib` is not modelled either: a string becomes a one-part path
  as is.
- `str.strip()` is modelled with Python's `str.isspace()` character set written out.
- `requests` details: the session's default headers beyond the two the SDK sets, URL
  quoting of the path and query, the `timeout` value, and JSON decoding of the response
  (the body is returned as text).
- The interactive demos (`src/examples/demo.py`, `src/examples/login_demo.py`), the
  command-line entry point (`src/trademe_sdk/__main__.py`) and the re-exports in
  `src/trademe_sdk/__init__.py`.
- `errors.py` is not part of this model. `AuthenticationRequired` is one opaque error
  kind carrying its message.
