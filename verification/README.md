# Turnstile gateway model

Turnstile is an authenticating reverse proxy. It sits in front of a backend and
sends visitors through Railway's OAuth 2.0 / OpenID Connect sign-in. When the
signed-in user belongs to the configured Railway workspace, it issues an
encrypted session cookie. Every later request that carries a valid cookie is
forwarded to the backend, with the user's identity in `X-Auth-*` headers.

This Dafny project models that core. It has one module per Go package, except
that the `config` package is split into `Config` and `Routes`:

- `Config` covers `config.Load`: environment defaults, `strconv.Atoi` on `PORT`,
  and validation of the required settings.
- `Routes` covers the rest of the `config` package: `Config.URI` and the route
  table.
- `Https` covers `httpx.IsHTTPS`, including Go's `strings.EqualFold` on
  `X-Forwarded-Proto`.
- `Session` covers the session manager: key derivation, session creation, the
  nonce‖AES-GCM‖base64url cookie format, `GetSession` with its failure stages
  and expiry, and setting and clearing the cookie.
- `Railway` covers the Railway API client: status and GraphQL error handling,
  plus the workspace-membership loop.
- `OAuth` covers the login, callback and logout handlers, `handleAuthError`,
  `exchangeCode` and `isSafeRedirect`.
- `Auth` covers the `RequireAuth` middleware and `isAPIRequest`.
- `Proxy` covers the reverse proxy's `Director`, its `ErrorHandler`, and the
  IPv6-first `DialContext`.
- `Url` and `Http` model the standard-library pieces these use:
  - `url.QueryEscape` over UTF-8, and `url.Values.Encode`;
  - header and query lookup;
  - cookies;
  - a `ResponseWriter` class. It records `Set-Cookie` headers in order, and
    only its first terminal write (a page, plain text, JSON error or redirect)
    takes effect.

Each handler is given twice:

- a pure *outcome* function (cookies set, upstream calls made, terminal
  response);
- an imperative method on a `Handler` class that writes to a `ResponseWriter`
  and calls an `Upstream` object.

Each method is proved equal to its outcome function. The security properties
are proved as lemmas about the outcome functions:

- forged or missing state is rejected before any upstream call;
- the state cookie is single-use;
- no session is issued unless every step succeeded;
- the post-login redirect always passes the open-redirect guard, and, as
  `http.SetCookie` drops a backslash from the stored target, never holds one.

A browser cookie jar (`Http.ApplyCookies`) lets lemmas state what the browser
holds after a response. It stores each value as net/http will read it back:
the cookie writer drops characters outside the cookie-value set, and the
cookie reader skips a value that holds one. Encryption, base64 and JSON are abstract values of a
`Primitives` datatype. Two predicates state their laws:

- `Lawful`: decrypting an encryption yields the plaintext, decoding an
  encoding yields the value, and every encoding is a valid cookie value (the
  base64url alphabet survives `http.SetCookie` unchanged);
- `Authentic`: AEAD integrity, so only sealed data opens.

Lemmas that need the laws require them.

## Model

| member | source | states |
|---|---|---|
| Url.QueryEscape | internal/auth/middleware.go:40 | every character of the escaped text is an unreserved character, `%`, a hex digit or `+`, so no `&`, `=`, `?`, `#` or `/` reaches the login URL |
| Url.QueryEscapeAppend | internal/auth/middleware.go:40 | escaping distributes over concatenation |
| Url.QueryEscapeUnreserved | internal/auth/middleware.go:40 | text made of unreserved characters escapes to itself |
| Url.EncodeQuery | internal/oauth/handler.go:104 | `url.Values.Encode` on parameters listed in ascending key order: escaped `key=value` pairs joined by `&`; its contract is stated by Url.EncodeQueryChars and OAuth.AuthorizeParamsContent |
| Url.EncodeQueryChars | internal/oauth/handler.go:104 | an encoded query holds only escaped characters, `=` and `&`, so no parameter value can add a fragment or another parameter |
| Http.CookieValueAsRead | internal/oauth/handler.go:78-87 | the value read back for a written cookie holds only cookie-value characters (printable ASCII other than `"`, `;` and backslash), is no longer than the value written, and equals it when the value written was already valid |
| Http.BackslashDropped | internal/oauth/handler.go:78-87 | a `/` followed by a backslash and a valid rest is read back as `/` followed by that rest |
| Http.ApplyCookies | internal/oauth/handler.go:137-160 | a browser jar keeps every cookie the response does not name, unchanged; its use is stated by OAuth.StateIsSingleUse, OAuth.LogoutEndsSession and Session.IssuedCookieStored |
| Http.ResponseWriter.SetCookie | internal/oauth/handler.go:66-86 | appends the cookie to the response's Set-Cookie headers while nothing has been written yet, and otherwise changes nothing |
| Http.ResponseWriter.Write | internal/views/views.go:54-61 | records the status and body only for the first write; the cookies are left as they are |
| Https.EqualFoldHttpsIsFolding | internal/httpx/https.go:16 | the header matches exactly when it has five characters that fold, character by character, to `https` |
| Https.IsHTTPS | internal/httpx/https.go:8-19 | the HTTPS test; its contract is stated by Https.IsHTTPSCharacterized, Https.TlsOverridesHeader and Https.NoSignalIsPlain |
| Https.IsHTTPSCharacterized | internal/httpx/https.go:8-19 | a request is HTTPS iff its URL scheme is `https`, it arrived over TLS, or `X-Forwarded-Proto` equals `https` under case folding |
| Https.TlsOverridesHeader | internal/httpx/https.go:12-14 | a TLS connection is HTTPS even if the proxy header says `http` |
| Https.NoSignalIsPlain | internal/httpx/https.go:18 | with no scheme, no TLS and no header, the request is not HTTPS |
| Https.HeaderFoldExamples | internal/httpx/https.go:15-17 | `HTTPS`, `Https` and `http` + long s match; `http`, `https ` and the empty header do not |
| Config.CombineGrows | internal/config/config.go:30 | accumulating decimal digits never decreases the value, and a non-empty run of digits at least multiplies it by ten |
| Config.Atoi | internal/config/config.go:30-33 | `strconv.Atoi` on 64-bit `int`; its contract is stated by Config.AtoiValue and Config.ScanUintValue |
| Config.ScanUintValue | internal/config/config.go:30 | the digit scan succeeds iff every character is a digit and the value fits in 64 bits, and it then yields the decimal value |
| Config.AtoiValue | internal/config/config.go:30-33 | `Atoi` accepts exactly an optional sign followed by one or more digits whose value lies in the signed 64-bit range, and returns the signed decimal value |
| Config.FirstMissing | internal/config/config.go:52-68 | no setting is reported iff every setting is non-empty; otherwise the reported one is empty and every earlier one is set |
| Config.Validate | internal/config/config.go:52-69 | the required-settings check; its contract is stated by Config.ValidateIsFirstMissing |
| Config.Load | internal/config/config.go:19-50 | loading from the environment; its contract is stated by Config.LoadDefaults |
| Config.ValidateIsFirstMissing | internal/config/config.go:52-68 | `Validate` names the first empty setting in the order client id, client secret, workspace id, backend URL, public URL, and accepts iff all five are set |
| Config.DefaultPortParses | internal/config/config.go:20-23 | the default port text parses to 8080 |
| Config.LoadDefaults | internal/config/config.go:19-50 | a loaded config takes every setting from the environment, with the `/_turnstile` prefix and port 8080 as defaults; an unparsable `PORT` is an error carrying the parse error; when `PORT` is unset or parses, the load succeeds iff all five required settings are non-empty; a missing-setting error names the first one missing in check order |
| Routes.URI | internal/config/routes.go:26-32 | the endpoint URI; its contract is stated by Routes.RoutesUnderPrefix, Routes.RouteTable and Routes.RoutesDistinct |
| Routes.RoutesUnderPrefix | internal/config/routes.go:19-32 | every known endpoint's path lies strictly below the prefix, starting a new `/` segment, so it is never the bare prefix; the full URL ends with the path form |
| Routes.RouteTable | internal/config/routes.go:19-24 | the login, logout, callback and health routes sit at `/oauth/login`, `/oauth/logout`, `/oauth/callback` and `/health` under the prefix; an unknown key maps to the bare prefix |
| Routes.RoutesDistinct | internal/config/routes.go:19-32 | two different known routes never share a URI |
| Session.NewManager | internal/session/session.go:34-40 | a secret shorter than 32 bytes is refused; otherwise the key is exactly the secret's first 32 bytes |
| Session.NewManagerIgnoresTail | internal/session/session.go:38 | secrets that agree on their first 32 bytes give the same manager |
| Session.CreateSession | internal/session/session.go:42-52 | a new session holds the user's identity and token, and expires one hour after it was created |
| Session.Encrypt | internal/session/session.go:123-141 | nonce followed by the sealed plaintext; its contract is stated by Session.DecryptEncrypt |
| Session.Decrypt | internal/session/session.go:143-166 | data shorter than the 12-byte nonce is refused; a plaintext is only returned when the AEAD opens the ciphertext after the leading nonce |
| Session.DecryptEncrypt | internal/session/session.go:123-166 | decrypting what `encrypt` produced gives back the plaintext |
| Session.Issue | internal/session/session.go:55-65 | the cookie value for a session; its contract is stated by Session.GetSessionIssue and Session.IssuedCookieStored |
| Session.Unseal | internal/session/session.go:89-102 | the decode, decrypt and unmarshal stages; its contract is stated by Session.UnsealStages and Session.OnlySealedCookiesParse |
| Session.GetSession | internal/session/session.go:80-109 | no cookie means no session; the lookup errors iff the cookie fails to unseal, and carries that failure; a session is returned only when it unseals and has not expired; an unsealed but expired session reads as no session |
| Session.UnsealStages | internal/session/session.go:89-102 | undecodable base64 is a decode failure, too-short data is a decrypt failure, and a successful unseal is the JSON decoding of the decrypted bytes |
| Session.GetSessionIssue | internal/session/session.go:54-109 | a cookie issued for a session reads back as that session until it expires, and as no session afterwards |
| Session.SessionLifetime | internal/session/session.go:42-52 | a fresh session's cookie reads back as that session up to one hour after creation, and as no session afterwards |
| Session.OnlySealedCookiesParse | internal/session/session.go:89-102 | with authentic encryption, a cookie that yields a session is the encoding of a nonce and a ciphertext sealed under the manager's key |
| Session.SessionCookieAttributes | internal/session/session.go:67-75 | the session cookie is HttpOnly, SameSite=Lax and lives one hour, and the browser stores its value as read back; the cleared cookie is empty with Max-Age -1 and removes the session from the browser |
| Session.IssuedCookieStored | internal/session/session.go:65-75 | an issued value consists of cookie-value characters only, so the browser stores exactly the sealed session |
| Session.SetSessionCookie | internal/session/session.go:54-78 | setting fails iff no nonce could be generated; otherwise it appends one session cookie holding the sealed session, marked Secure iff the request is HTTPS; it never writes a response |
| Session.ClearSessionCookie | internal/session/session.go:111-121 | appends the expiring session cookie, Secure iff the request is HTTPS, and writes no response |
| Railway.FetchUserInfo | internal/railway/client.go:53-77 | the user info is returned iff the call got a 200 with a decodable body; any other status is an error carrying that status |
| Railway.FetchUserWorkspaces | internal/railway/client.go:79-116 | the workspaces are returned iff the call got a 200 with a decodable body and no GraphQL errors; a non-200 status and GraphQL errors each give their own error |
| Railway.UserHasWorkspaceAccess | internal/railway/client.go:118-131 | a fetch failure is reported and denies access; otherwise access is granted iff some workspace id equals the configured one |
| Railway.NoWorkspacesNoAccess | internal/railway/client.go:124-130 | an account with no workspaces is denied access without an error |
| OAuth.IsSafeRedirectCharacterized | internal/oauth/handler.go:304-306 | a redirect target is accepted iff it starts with `/` and not with `//` |
| OAuth.IsSafeRedirect | internal/oauth/handler.go:304-306 | the open-redirect guard; its contract is stated by OAuth.IsSafeRedirectCharacterized and OAuth.SafeRedirectExamples |
| OAuth.SafeRedirectExamples | internal/oauth/handler.go:304-306 | local paths are accepted; protocol-relative, absolute and empty targets are refused |
| OAuth.ExchangeResult | internal/oauth/handler.go:264-301 | the token exchange succeeds iff the endpoint answered 200 with decodable JSON; a non-200 answer is an error that quotes the body |
| OAuth.AuthorizeParamsContent | internal/oauth/handler.go:89-104 | the authorize URL carries the client id, the callback URL, `response_type=code` and the state, and it asks for `prompt=consent` iff reconsent was requested |
| OAuth.AuthErrorPage | internal/oauth/handler.go:241-262 | the page for a login `error`; its contract is stated by OAuth.LoginErrorShortCircuits and OAuth.Handler.HandleAuthError |
| OAuth.LoginOutcome | internal/oauth/handler.go:52-106 | the login handler's outcome; its contract is stated by OAuth.LoginErrorShortCircuits and OAuth.LoginStartsTransaction |
| OAuth.LoginErrorShortCircuits | internal/oauth/handler.go:55-58 | a login request carrying `error` renders the auth error page, sets no cookie and contacts nothing |
| OAuth.LoginStartsTransaction | internal/oauth/handler.go:60-105 | a login sets the state cookie (HttpOnly, ten minutes, Secure iff HTTPS), then the redirect cookie iff the `redirect` target is safe, and answers 307 to Railway's authorize URL carrying that state, with re-consent iff `reconsent=true` |
| OAuth.CallbackOutcome | internal/oauth/handler.go:108-178 | the callback handler's outcome; its contract is stated by OAuth.CallbackRejectsForgedState, OAuth.CallbackConsumesTransaction, OAuth.StateIsSingleUse, OAuth.CallbackCookieNames and OAuth.CallbackWithoutCode |
| OAuth.SignIn | internal/oauth/handler.go:180-230 | the callback after the code arrives; its contract is stated by OAuth.CallbackCallOrder, OAuth.CallbackDenied, OAuth.SessionOnlyAfterFullSuccess and OAuth.CallbackSignsIn |
| OAuth.StateError | internal/oauth/handler.go:113-135 | the callback's state check; its contract is stated by OAuth.CallbackRejectsForgedState and OAuth.StateIsSingleUse |
| OAuth.ConsumedCookies | internal/oauth/handler.go:137-160 | the cookies that clear the login transaction; its contract is stated by OAuth.CallbackConsumesTransaction and OAuth.Handler.ConsumeTransaction |
| OAuth.PostLoginRedirect | internal/oauth/handler.go:146-151 | the landing target after sign-in; its contract is stated by OAuth.PostLoginRedirectIsSafe and OAuth.RedirectSurvivesRoundTrip |
| OAuth.ProviderMessage | internal/oauth/handler.go:162-170 | the message for a callback without a code; its contract is stated by OAuth.CallbackWithoutCode |
| OAuth.CallbackRejectsForgedState | internal/oauth/handler.go:113-135 | a missing state cookie, a missing state parameter or a mismatch between them is answered with 400, with no cookie set and no upstream call |
| OAuth.CallbackConsumesTransaction | internal/oauth/handler.go:137-160 | once the state matches, the first cookie written clears the state cookie; the redirect cookie is cleared next iff the browser sent one, and never touched otherwise |
| OAuth.StateIsSingleUse | internal/oauth/handler.go:137-144 | after a callback whose state matched, replaying it with the browser's new cookies fails the state check as missing, whatever the outcome |
| OAuth.CallbackCookieNames | internal/oauth/handler.go:108-231 | after its first cookie, the callback only sets the redirect and session cookies |
| OAuth.PostLoginRedirectIsSafe | internal/oauth/handler.go:147-151 | the post-login target always passes the open-redirect guard, holds only printable ASCII and no backslash, and differs from `/` only when the redirect cookie carried it |
| OAuth.RedirectSurvivesRoundTrip | internal/oauth/handler.go:77-87 | after a login with a safe `redirect` target, a callback from the resulting browser jar lands on the target as the cookie writer sanitised it when that still passes the guard, and on `/` otherwise |
| OAuth.BackslashTargetStaysLocal | internal/oauth/handler.go:77-87 | a login with `redirect=/\evil.example.com` (a backslash after the leading slash) leads the callback to the local `/evil.example.com` |
| OAuth.CallbackWithoutCode | internal/oauth/handler.go:162-178 | a callback without a code makes no upstream call and answers 400 with the provider's `error_description`, else its `error`, else a generic message |
| OAuth.CallbackCallOrder | internal/oauth/handler.go:180-211 | upstream calls happen in the order token exchange, user info, access check; each happens only after the previous one succeeded, and each uses the exchanged access token |
| OAuth.CallbackDenied | internal/oauth/handler.go:213-217 | a user without access is sent to the login page with `error=no_access` and gets no session cookie |
| OAuth.SessionOnlyAfterFullSuccess | internal/oauth/handler.go:219-230 | a session cookie is set only when the state matched, a code was present, every upstream call succeeded, access was granted and a nonce was available; it seals the new user's session and the response is a 307 to the post-login target |
| OAuth.CallbackSignsIn | internal/oauth/handler.go:219-230 | a fully successful callback redirects to the post-login target, and the browser then holds a cookie that reads back as the new user's session at any time within the session's hour |
| OAuth.LogoutOutcome | internal/oauth/handler.go:233-236 | the logout handler's outcome; its contract is stated by OAuth.LogoutEndsSession |
| OAuth.LogoutEndsSession | internal/oauth/handler.go:233-236 | logout redirects to `/`, and afterwards the browser holds no session cookie, so no session is found |
| OAuth.Upstream.ExchangeCode | internal/oauth/handler.go:264-301 | returns the scripted token result and records one exchange of that code |
| OAuth.Upstream.FetchUserInfo | internal/oauth/handler.go:191 | returns the client's user-info result and records the call with its access token |
| OAuth.Upstream.CheckAccess | internal/oauth/handler.go:202 | returns the access-check result and records the call with its access token |
| OAuth.Handler.HandleAuthError | internal/oauth/handler.go:241-262 | renders the no-access page (403) for `no_access` and the generic auth error page (500) otherwise, and sets no cookie |
| OAuth.Handler.Login | internal/oauth/handler.go:52-106 | writes exactly the cookies and the response of the login outcome |
| OAuth.Handler.Callback | internal/oauth/handler.go:108-231 | writes the cookies and the response of the callback outcome, and makes exactly its upstream calls |
| OAuth.Handler.ConsumeTransaction | internal/oauth/handler.go:137-160 | appends the state-clearing cookie, then the redirect-clearing cookie iff the browser sent a redirect cookie, and returns the safe post-login target |
| OAuth.Handler.CompleteSignIn | internal/oauth/handler.go:180-230 | writes the cookies and the response of the sign-in outcome, and makes exactly its upstream calls |
| OAuth.Handler.Logout | internal/oauth/handler.go:233-236 | clears the session cookie and redirects to `/` |
| Auth.IsAPIRequestExamples | internal/auth/middleware.go:52-56 | `/api/…` paths, an `Accept` of exactly `application/json` and a `Content-Type` of exactly `application/json` each make API requests; `/api`, `/apix/…`, `/dashboard` and an `Accept` with parameters do not |
| Auth.IsAPIRequest | internal/auth/middleware.go:52-56 | the API classifier; its contract is stated by Auth.IsAPIRequestExamples and Auth.GateFailureFormat |
| Auth.LoginRedirect | internal/auth/middleware.go:38-41 | the login location for a browser; its contract is stated by Auth.LoginRedirectShape and Auth.LoginRedirectSegment |
| Auth.LoginRedirectShape | internal/auth/middleware.go:38-41 | the root path goes to the bare login path; any other path goes to the login path plus `?redirect=` and the escaped request URI, whose characters cannot start another parameter |
| Auth.LoginRedirectSegment | internal/auth/middleware.go:38-41 | a path of unreserved characters comes back as `%2F` followed by that path |
| Auth.Gate | internal/auth/middleware.go:21-49 | the middleware's decision; its contract is stated by Auth.GateRejectsBadSession, Auth.GateWithoutSession, Auth.GateFailureFormat, Auth.GateForwardsExactlyAuthenticated, Auth.GateForwardsOnlySealedCookies, Auth.GateAdmitsIssuedSession and Auth.RequireAuth |
| Auth.GateRejectsBadSession | internal/auth/middleware.go:23-27 | a cookie that fails to unseal gets a 401 `session_error` JSON response |
| Auth.GateWithoutSession | internal/auth/middleware.go:29-43 | without a session, an API request gets a 401 `unauthorized` JSON response and any other request a 307 to the login URL |
| Auth.GateFailureFormat | internal/auth/middleware.go:23-43 | an API request is only ever refused with a 401 JSON error, never redirected; a browser request gets a JSON error only for an unreadable cookie, and otherwise a 307 to the login URL |
| Auth.GateForwardsExactlyAuthenticated | internal/auth/middleware.go:21-49 | a request is forwarded iff a live session is found, and it is forwarded with that session |
| Auth.GateForwardsOnlySealedCookies | internal/auth/middleware.go:21-49 | with authentic encryption, only a cookie sealed under the manager's key gets a request through |
| Auth.GateAdmitsIssuedSession | internal/auth/middleware.go:21-49 | a request carrying a cookie the gateway issued is forwarded with that session until it expires; afterwards it is refused with 401 (API) or redirected to login |
| Auth.RequireAuth | internal/auth/middleware.go:21-49 | either passes the request on with its session and writes nothing, or writes the gate's response and stops |
| Proxy.ForwardingHeaders | internal/proxy/handler.go:78-83 | `X-Forwarded-Host` and `X-Forwarded-Proto` are kept when the client sent them, and otherwise set to the original host and to `https` |
| Proxy.DirectorHeaders | internal/proxy/handler.go:78-90 | the director's header rewrite; its contract is stated by Proxy.ForwardingHeaders, Proxy.IdentityHeaders and Proxy.OtherHeadersUnchanged |
| Proxy.IdentityHeaders | internal/proxy/handler.go:85-90 | with a session, the Director's output carries exactly the user's email, id and name in `X-Auth-Email`, `X-Auth-User-Id` and `X-Auth-Name` (the canonical keys `Header.Set` writes), replacing whatever the client sent; without one, those headers are left as the client sent them |
| Proxy.OtherHeadersUnchanged | internal/proxy/handler.go:71-91 | in the Director's output, every other header is as the client sent it |
| Proxy.Director | internal/proxy/handler.go:71-91 | retargets scheme, URL host and Host to the backend, and rewrites the headers as above |
| Proxy.ErrorHandler | internal/proxy/handler.go:96-100 | an upstream failure is answered with 502 `Bad Gateway` |
| Proxy.To4 | internal/proxy/handler.go:44 | a recognised IPv4 address is the last four bytes of the input |
| Proxy.AddressFamily | internal/proxy/handler.go:44 | 4-byte addresses are IPv4; 16-byte addresses are IPv4 iff they are IPv4-mapped; any other length counts as IPv6 |
| Proxy.SortIPv6First | internal/proxy/handler.go:43-45 | reorders the resolved addresses, as a permutation, so that every IPv6 address precedes every IPv4 address |
| Proxy.FirstConnected | internal/proxy/handler.go:52-59 | reports the first address whose dial succeeded, after only failures; no address is reported iff every dial failed |
| Proxy.DialInOrder | internal/proxy/handler.go:50-60 | the dial loop's result; its contract is stated by Proxy.FirstConnected, Proxy.IPv4OnlyAfterIPv6Failed and Proxy.DialContext |
| Proxy.IPv4OnlyAfterIPv6Failed | internal/proxy/handler.go:42-59 | when the dial lands on an IPv4 address, every IPv6 address was tried and failed |
| Proxy.DialContext | internal/proxy/handler.go:30-61 | a failed lookup is an error that makes no dial attempt; otherwise it dials the IPv6-first permutation in order, stops at the first success, and reports the last error when all fail |

## Left out

- Encryption (AES-256-GCM), base64url and JSON are abstract functions. `Lawful` and `Authentic` state the laws the proofs rely on, not the algorithms.
- The random sources are inputs: the state token (`generateState`, handler.go:308-314) and the GCM nonce. `None` models a failed `crypto/rand` read.
- The clock (`time.Now`) is an input.
- The network is not modelled:
  - token-exchange replies, Railway API replies and the access-check result are scripted replies;
  - DNS results and per-address dial results are inputs.
- The access check is an abstract `Result<bool, string>`. The callback calls `UserHasProjectAccess` with `cfg.RailwayProjectID` (handler.go:202), but neither exists in the client (client.go:118) or in the config. The membership test itself is modelled separately, as `Railway.UserHasWorkspaceAccess`.
- HTTP request-construction errors are not modelled. `http.NewRequest` and `json.Marshal` errors (client.go, handler.go:264-301) cannot arise for the fixed URLs and bodies used.
- Session.SetSessionCookie: only the nonce failure is modelled. The `json.Marshal` error (session.go:55-58) cannot arise for a `Session` value, and the `aes.NewCipher` and `cipher.NewGCM` errors (session.go:124-132) cannot arise for the 32-byte key `NewManager` keeps.
- Request bodies sent upstream, HTTP headers sent upstream and transport timeouts are not modelled.
- `http.Redirect`'s cleaning of relative paths, and the HTML body it writes, are not modelled. A redirect is recorded with the URL passed to it.
- Header-name canonicalisation is not modelled: headers are keyed by their canonical names, so the director's `X-Auth-User-ID` is the key `X-Auth-User-Id`.
- Duplicate cookies of one name are not modelled: cookies are a map, as `r.Cookie` returns the first valid one.
- The quoting `http.SetCookie` applies to a value with a space or a comma is not modelled, because `r.Cookie` strips it again; the jar holds values as read back.
- `r.URL.RequestURI()` is taken as given on the request.
- Url.EncodeQuery: the key sort inside `url.Values.Encode` is not modelled; the authorization parameters are listed already in ascending key order.
- Page rendering is left out. `views` templates are recorded as the page data handed to the renderer.
- Logging is left out.
- The reverse proxy's transport is left out: `FlushInterval`, connection pooling, TLS settings, and the `X-Forwarded-For` header that `httputil.ReverseProxy` itself adds.
- `net.SplitHostPort` and the re-joining of the port in `DialContext` are left out. Addresses are dialled as IP values, and a host without a port is not modelled.
- Proxy.SortIPv6First: `sort.Slice` is not stable, so the model fixes one allowed order, a partition. The proofs only use the permutation and IPv6-first properties, which every order `sort.Slice` may produce satisfies.
- Proxy.IdentityHeaders, Proxy.OtherHeadersUnchanged: both state the Director's output only. `httputil.ReverseProxy` afterwards removes the hop-by-hop headers (`Connection`, `Keep-Alive`, `Proxy-Connection`, `Te`, `Trailer`, `Transfer-Encoding`, `Upgrade`) and every header the client names in its own `Connection` header. That removal is not modelled, so a client that lists `X-Auth-User-Id` in `Connection` makes the backend receive no such header.
- Proxy.Director: caller-supplied `X-Auth-*` headers are not removed when there is no session, just as in the source. The middleware never forwards without a session, so the case does not arise behind `RequireAuth`.
- Proxy.Director: a missing `X-Forwarded-Proto` is set to `https` whatever scheme the client used, as in the source.
- `cmd/server/main.go` (wiring and listeners), `auth/context.go` (context plumbing) and `httpx/logging.go` are not part of this model.
