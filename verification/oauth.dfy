/** oauth.Handler: the login, callback and logout endpoints of the OAuth2
    authorization-code flow. Each handler appends Set-Cookie headers and then
    makes one terminal write (an error page, a plain error or a redirect).

    The `...Outcome` functions state what a handler does for a request: the
    cookies it sets, in order, the external calls it makes, in order, and its
    terminal write. The `Handler` class performs the same steps imperatively on
    a ResponseWriter and is proved to agree with them. */
module OAuth {
  import opened Wrappers
  import opened Http
  import opened Url
  import Https
  import opened Config
  import opened Routes
  import Session
  import Railway

  const OAuthAuthURL := "https://backboard.railway.com/oauth/auth"
  const OAuthTokenURL := "https://backboard.railway.com/oauth/token"
  const StateCookieName := "oauth_state"
  const RedirectCookieName := "oauth_redirect"
  const TransactionMaxAge := 600
  const Scope := "openid email profile project:viewer"
  const NoAccessError := "no_access"
  const UnknownErrorMessage := "An unknown error occurred during authentication. Try again below. If the issue persists, consult the Turnstile logs or submit an issue."

  // The messages the handlers show.
  const MissingStateMessage := "Missing state cookie."
  const InvalidStateMessage := "Invalid state parameter."
  const AuthorizationFailedMessage := "Authorization failed."
  const UserInfoFailedMessage := "Failed to fetch user info."
  const AccessCheckFailedMessage := "Failed to check project access."
  const SessionFailedMessage := "Failed to create session."
  const StateGenerationFailedMessage := "Failed to generate state\n"

  // The texts of the error pages.
  const BadRequestTitle := "Bad Request: 400"
  const BadRequestSubtitle := "Something went wrong with the login request."
  const BackToLoginText := "Back to login"
  const ServerErrorTitle := "Internal Server Error: 500"
  const SignInFailedSubtitle := "Something went wrong when signing you in."
  const TryAgainText := "Try again"
  const ForbiddenTitle := "Forbidden: 403"
  const ForbiddenSubtitle := "You don't have permission to view this application."
  const ForbiddenNote := "Make sure you authorized Turnstile against the correct Railway project."
  const ReauthenticateText := "Reauthenticate & change permissions"
  const ReconsentQuery := "?reconsent=true"
  const NoAccessQuery := "?error=no_access"

  // ---------------------------------------------------------------------
  // The open-redirect guard

  /** isSafeRedirect: a path that starts with one slash, not two. */
  predicate IsSafeRedirect(url: string) {
    HasPrefix(url, "/") && !HasPrefix(url, "//")
  }

  lemma IsSafeRedirectCharacterized(url: string)
    ensures IsSafeRedirect(url) <==> |url| >= 1 && url[0] == '/' && (|url| == 1 || url[1] != '/')
  {
    if |url| >= 2 {
      assert url[..2] == [url[0], url[1]];
    }
  }

  /** Relative paths pass (path traversal is the backend's concern); absolute
      and protocol-relative URLs and the empty string do not. */
  lemma SafeRedirectExamples()
    ensures IsSafeRedirect("/dashboard") && IsSafeRedirect("/") && IsSafeRedirect("/a/../../etc")
    ensures !IsSafeRedirect("//evil.example.com") && !IsSafeRedirect("https://evil.example.com")
    ensures !IsSafeRedirect("")
  {
    IsSafeRedirectCharacterized("/dashboard");
    IsSafeRedirectCharacterized("/a/../../etc");
    IsSafeRedirectCharacterized("//evil.example.com");
    IsSafeRedirectCharacterized("https://evil.example.com");
  }

  // ---------------------------------------------------------------------
  // External calls: the token endpoint, and the scripted upstream replies

  datatype TokenResponse = TokenResponse(
    accessToken: string,
    tokenType: string,
    expiresIn: int,
    idToken: string,
    scope: string)

  /** What the POST to the token endpoint produced. */
  datatype TokenReply =
    | TokenTransportFailed(reason: string)
    | TokenReadFailed(reason: string)
    | TokenReplied(status: int, body: string, decoded: Result<TokenResponse, string>)

  /** exchangeCode's checks: the tokens come only from a 200 reply whose body
      decodes; the error text is what the 500 page shows. */
  function ExchangeResult(reply: TokenReply): (r: Result<TokenResponse, string>)
    ensures r.Ok? <==> reply.TokenReplied? && reply.status == 200 && reply.decoded.Ok?
    ensures r.Ok? ==> r.value == reply.decoded.value
    ensures reply.TokenReplied? && reply.status != 200 ==> r == Err("token exchange failed: " + reply.body)
  {
    match reply
    case TokenTransportFailed(reason) => Err("do request: " + reason)
    case TokenReadFailed(reason) => Err("read body: " + reason)
    case TokenReplied(status, body, decoded) =>
      if status != 200 then Err("token exchange failed: " + body)
      else match decoded
        case Err(reason) => Err("decode response: " + reason)
        case Ok(tokens) => Ok(tokens)
  }

  /** The replies the external services give during one callback. The access
      check is one abstract yes/no-or-error answer. */
  datatype Replies = Replies(
    token: TokenReply,
    userInfo: Railway.Reply<Railway.UserInfo>,
    access: Result<bool, string>)

  /** An external call, with the argument that identifies it. */
  datatype Call = TokenExchange(code: string) | UserInfoFetch(accessToken: string) | AccessCheck(accessToken: string)

  /** What one handler invocation does. */
  datatype Outcome = Outcome(cookies: seq<Cookie>, calls: seq<Call>, terminal: Terminal)

  /** The fixed parts of the handler: configuration, session manager, and the
      encoding/cipher primitives the manager uses. */
  datatype Context = Context(cfg: Config, manager: Session.Manager, prim: Session.Primitives)

  // ---------------------------------------------------------------------
  // Pages and cookies

  function LoginURL(cfg: Config): string {
    URI(cfg, RouteLogin, PathOnly)
  }

  function BadRequestPage(loginURL: string, message: string): Terminal {
    RenderPage(StatusBadRequest, ErrorPage(BadRequestTitle, BadRequestSubtitle,
      message, "", [Button(BackToLoginText, loginURL)]))
  }

  function SignInFailedPage(loginURL: string, message: string): Terminal {
    RenderPage(StatusInternalServerError, ErrorPage(ServerErrorTitle, SignInFailedSubtitle,
      message, "", [Button(TryAgainText, loginURL + ReconsentQuery)]))
  }

  function StateCookie(state: string, secure: bool): Cookie {
    Cookie(StateCookieName, state, "/", TransactionMaxAge, true, secure, SameSiteLax)
  }

  function RedirectCookie(path: string, secure: bool): Cookie {
    Cookie(RedirectCookieName, path, "/", TransactionMaxAge, true, secure, SameSiteLax)
  }

  /** The clearing cookies of the callback carry no SameSite attribute. */
  function ClearedStateCookie(secure: bool): Cookie {
    Cookie(StateCookieName, "", "/", -1, true, secure, SameSiteDefault)
  }

  function ClearedRedirectCookie(secure: bool): Cookie {
    Cookie(RedirectCookieName, "", "/", -1, true, secure, SameSiteDefault)
  }

  // ---------------------------------------------------------------------
  // handleAuthError and LoginHandler

  /** The 403 page for a user the provider did not grant access to. */
  function NoAccessPage(reconsentURL: string): Terminal {
    RenderPage(StatusForbidden, ErrorPage(ForbiddenTitle, ForbiddenSubtitle,
      "", ForbiddenNote,
      [Button(ReauthenticateText, reconsentURL)]))
  }

  /** The 500 page for any other provider error. */
  function UnknownAuthErrorPage(reconsentURL: string): Terminal {
    RenderPage(StatusInternalServerError, ErrorPage(ServerErrorTitle, SignInFailedSubtitle,
      UnknownErrorMessage,
      "", [Button(TryAgainText, reconsentURL)]))
  }

  /** handleAuthError: "no_access" is a 403 denial page, anything else a 500;
      both offer to log in again with forced re-consent. */
  function AuthErrorPage(cfg: Config, errType: string): Terminal {
    var reconsentURL := LoginURL(cfg) + ReconsentQuery;
    if errType == NoAccessError then NoAccessPage(reconsentURL) else UnknownAuthErrorPage(reconsentURL)
  }

  /** The authorization request's parameters, in the ascending key order in
      which url.Values.Encode writes them. */
  function AuthorizeParams(cfg: Config, state: string, reconsent: bool): seq<(string, string)> {
    [("client_id", cfg.railwayClientID)]
    + (if reconsent then [("prompt", "consent")] else [])
    + [ ("redirect_uri", URI(cfg, RouteCallback, FullURL)),
        ("response_type", "code"),
        ("scope", Scope),
        ("state", state) ]
  }

  function AuthorizeURL(cfg: Config, state: string, reconsent: bool): string {
    OAuthAuthURL + "?" + EncodeQuery(AuthorizeParams(cfg, state, reconsent))
  }

  /** The authorization request asks for a code, returns to the callback
      endpoint, carries the state token, and forces consent exactly when asked. */
  lemma AuthorizeParamsContent(cfg: Config, state: string, reconsent: bool)
    ensures ("prompt", "consent") in AuthorizeParams(cfg, state, reconsent) <==> reconsent
    ensures ("response_type", "code") in AuthorizeParams(cfg, state, reconsent)
    ensures ("state", state) in AuthorizeParams(cfg, state, reconsent)
    ensures ("client_id", cfg.railwayClientID) in AuthorizeParams(cfg, state, reconsent)
    ensures ("redirect_uri", cfg.publicURL + cfg.authPrefix + "/oauth/callback") in AuthorizeParams(cfg, state, reconsent)
  {
    var ps := AuthorizeParams(cfg, state, reconsent);
    var base := if reconsent then 2 else 1;
    assert ps[base] == ("redirect_uri", URI(cfg, RouteCallback, FullURL));
    assert ps[base + 1] == ("response_type", "code");
    assert ps[base + 3] == ("state", state);
    assert URI(cfg, RouteCallback, FullURL) == cfg.publicURL + (cfg.authPrefix + "/oauth/callback");
    assert cfg.publicURL + (cfg.authPrefix + "/oauth/callback") == cfg.publicURL + cfg.authPrefix + "/oauth/callback";
    if !reconsent {
      forall i | 0 <= i < |ps| ensures ps[i] != ("prompt", "consent") {
        assert ps[i].0 in {"client_id", "redirect_uri", "response_type", "scope", "state"};
      }
    } else {
      assert ps[1] == ("prompt", "consent");
    }
  }

  /** LoginHandler. `state` is the random state token, None when the entropy
      source failed. */
  function LoginOutcome(cfg: Config, r: Request, state: Option<string>): Outcome {
    var errType := Get(r.query, "error");
    if errType != "" then Outcome([], [], AuthErrorPage(cfg, errType))
    else match state
      case None => Outcome([], [], PlainText(StatusInternalServerError, StateGenerationFailedMessage))
      case Some(token) =>
        var secure := Https.IsHTTPS(r);
        var redirectTo := Get(r.query, "redirect");
        var cookies :=
          if IsSafeRedirect(redirectTo) then [StateCookie(token, secure), RedirectCookie(redirectTo, secure)]
          else [StateCookie(token, secure)];
        Outcome(cookies, [], Redirect(StatusTemporaryRedirect, AuthorizeURL(cfg, token, Get(r.query, "reconsent") == "true")))
  }

  /** A login request carrying `error` renders a page, 403 for "no_access" and
      500 otherwise: no cookie, no redirect to the provider. */
  lemma LoginErrorShortCircuits(cfg: Config, r: Request, state: Option<string>)
    requires Get(r.query, "error") != ""
    ensures var o := LoginOutcome(cfg, r, state);
      && o.cookies == [] && o.calls == [] && o.terminal.RenderPage?
      && o.terminal.status == (if Get(r.query, "error") == "no_access" then 403 else 500)
  {
  }

  /** A login starts the transaction: the state cookie (10 minutes), then the
      redirect cookie only for a safe `redirect`, then a 307 to the provider,
      with re-consent forced exactly when `reconsent` is "true". */
  lemma LoginStartsTransaction(cfg: Config, r: Request, token: string)
    requires Get(r.query, "error") == ""
    ensures var o := LoginOutcome(cfg, r, Some(token));
      var secure := Https.IsHTTPS(r);
      var redirectTo := Get(r.query, "redirect");
      && 1 <= |o.cookies| <= 2
      && o.cookies[0].name == StateCookieName && o.cookies[0].value == token
      && o.cookies[0].maxAge == 600 && o.cookies[0].httpOnly && o.cookies[0].secure == secure
      && (|o.cookies| == 2 <==> IsSafeRedirect(redirectTo))
      && (|o.cookies| == 2 ==> o.cookies[1].name == RedirectCookieName && o.cookies[1].value == redirectTo
                               && o.cookies[1].maxAge == 600)
      && o.terminal == Redirect(307, AuthorizeURL(cfg, token, Get(r.query, "reconsent") == "true"))
  {
  }

  // ---------------------------------------------------------------------
  // CallbackHandler

  /** The 400 message when the state check fails, None when it passes: the
      state cookie must exist and equal a non-empty `state` parameter. */
  function StateError(r: Request): Option<string> {
    if StateCookieName !in r.cookies then Some(MissingStateMessage)
    else
      var state := Get(r.query, "state");
      if state == "" || state != r.cookies[StateCookieName] then Some(InvalidStateMessage)
      else None
  }

  /** Where a successful login lands: the redirect cookie when it is safe, else "/". */
  function PostLoginRedirect(r: Request): string {
    if RedirectCookieName in r.cookies && IsSafeRedirect(r.cookies[RedirectCookieName])
    then r.cookies[RedirectCookieName] else "/"
  }

  /** The transaction cookies the callback clears once the state matches. */
  function ConsumedCookies(r: Request): seq<Cookie> {
    var secure := Https.IsHTTPS(r);
    [ClearedStateCookie(secure)] + (if RedirectCookieName in r.cookies then [ClearedRedirectCookie(secure)] else [])
  }

  /** The message for a callback without `code`: the provider's description,
      else its error code, else a generic text. */
  function ProviderMessage(query: Values): string {
    var desc := Get(query, "error_description");
    if desc != "" then desc
    else
      var err := Get(query, "error");
      if err != "" then err else AuthorizationFailedMessage
  }

  /** The callback once a code is present: exchange, user info, access check,
      then the session. */
  function SignIn(ctx: Context, r: Request, code: string, replies: Replies, now: int, nonce: Option<seq<Byte>>): Outcome
    requires nonce.Some? ==> |nonce.value| == Session.NonceSize
  {
    var loginURL := LoginURL(ctx.cfg);
    match ExchangeResult(replies.token)
    case Err(msg) => Outcome([], [TokenExchange(code)], SignInFailedPage(loginURL, msg))
    case Ok(tokens) =>
      var fetched := [TokenExchange(code), UserInfoFetch(tokens.accessToken)];
      match Railway.FetchUserInfo(replies.userInfo)
      case Err(_) => Outcome([], fetched, SignInFailedPage(loginURL, UserInfoFailedMessage))
      case Ok(user) =>
        var calls := fetched + [AccessCheck(tokens.accessToken)];
        match replies.access
        case Err(_) => Outcome([], calls, SignInFailedPage(loginURL, AccessCheckFailedMessage))
        case Ok(hasAccess) =>
          if !hasAccess then Outcome([], calls, Redirect(StatusTemporaryRedirect, loginURL + NoAccessQuery))
          else
            var s := Session.CreateSession(now, user.sub, user.email, user.name, tokens.accessToken);
            match nonce
            case None => Outcome([], calls, SignInFailedPage(loginURL, SessionFailedMessage))
            case Some(n) =>
              Outcome([Session.SessionCookie(Session.Issue(ctx.prim, ctx.manager, n, s), Https.IsHTTPS(r))], calls,
                Redirect(StatusTemporaryRedirect, PostLoginRedirect(r)))
  }

  /** CallbackHandler at instant `now`; `nonce` is what crypto/rand produced
      for sealing the session (None when it failed). */
  function CallbackOutcome(ctx: Context, r: Request, replies: Replies, now: int, nonce: Option<seq<Byte>>): Outcome
    requires nonce.Some? ==> |nonce.value| == Session.NonceSize
  {
    var loginURL := LoginURL(ctx.cfg);
    match StateError(r)
    case Some(msg) => Outcome([], [], BadRequestPage(loginURL, msg))
    case None =>
      var consumed := ConsumedCookies(r);
      var code := Get(r.query, "code");
      if code == "" then Outcome(consumed, [], BadRequestPage(loginURL, ProviderMessage(r.query)))
      else
        var rest := SignIn(ctx, r, code, replies, now, nonce);
        Outcome(consumed + rest.cookies, rest.calls, rest.terminal)
  }

  /** CSRF rejection: without the state cookie, or with an empty or different
      `state`, the callback renders 400 and does nothing else. */
  lemma CallbackRejectsForgedState(ctx: Context, r: Request, replies: Replies, now: int, nonce: Option<seq<Byte>>)
    requires nonce.Some? ==> |nonce.value| == Session.NonceSize
    requires StateCookieName !in r.cookies || Get(r.query, "state") == ""
             || Get(r.query, "state") != r.cookies[StateCookieName]
    ensures var o := CallbackOutcome(ctx, r, replies, now, nonce);
      o.cookies == [] && o.calls == [] && o.terminal.RenderPage? && o.terminal.status == 400
  {
  }

  /** Once the state matches, the first cookie written clears the state cookie,
      whatever happens later; the redirect cookie is cleared exactly when one
      was sent, safe or not. */
  lemma CallbackConsumesTransaction(ctx: Context, r: Request, replies: Replies, now: int, nonce: Option<seq<Byte>>)
    requires nonce.Some? ==> |nonce.value| == Session.NonceSize
    requires StateError(r).None?
    ensures var o := CallbackOutcome(ctx, r, replies, now, nonce);
      var secure := Https.IsHTTPS(r);
      && |o.cookies| >= 1 && o.cookies[0] == ClearedStateCookie(secure)
      && (RedirectCookieName in r.cookies ==> |o.cookies| >= 2 && o.cookies[1] == ClearedRedirectCookie(secure))
      && (RedirectCookieName !in r.cookies ==> forall i :: 0 <= i < |o.cookies| ==> o.cookies[i].name != RedirectCookieName)
  {
    var o := CallbackOutcome(ctx, r, replies, now, nonce);
    if RedirectCookieName !in r.cookies && Get(r.query, "code") != "" {
      var rest := SignIn(ctx, r, Get(r.query, "code"), replies, now, nonce);
      assert o.cookies == [ClearedStateCookie(Https.IsHTTPS(r))] + rest.cookies;
    }
  }

  /** The state token is single-use: after the browser applies the callback's
      cookies, replaying the same callback fails the state check. */
  lemma {:induction false} StateIsSingleUse(ctx: Context, r: Request, replies: Replies, now: int, nonce: Option<seq<Byte>>)
    requires nonce.Some? ==> |nonce.value| == Session.NonceSize
    requires StateError(r).None?
    ensures var o := CallbackOutcome(ctx, r, replies, now, nonce);
      var replay := r.(cookies := ApplyCookies(r.cookies, o.cookies));
      StateError(replay) == Some(MissingStateMessage)
  {
    var o := CallbackOutcome(ctx, r, replies, now, nonce);
    CallbackConsumesTransaction(ctx, r, replies, now, nonce);
    CallbackCookieNames(ctx, r, replies, now, nonce);
    ExpiredFirstStaysGone(r.cookies, o.cookies);
  }

  /** A cookie expired by the first Set-Cookie and not named again is absent
      from the jar afterwards. */
  lemma ExpiredFirstStaysGone(jar: CookieMap, cs: seq<Cookie>)
    requires |cs| >= 1 && cs[0].maxAge < 0
    requires forall i :: 1 <= i < |cs| ==> cs[i].name != cs[0].name
    ensures cs[0].name !in ApplyCookies(jar, cs)
  {
    var tail := cs[1..];
    assert forall i :: 0 <= i < |tail| ==> tail[i].name != cs[0].name by {
      forall i | 0 <= i < |tail| ensures tail[i].name != cs[0].name {
        assert tail[i] == cs[i + 1];
      }
    }
    assert ApplyCookies(jar, cs) == ApplyCookies(jar - {cs[0].name}, tail);
  }

  /** After the first, the callback writes only redirect and session cookies. */
  lemma CallbackCookieNames(ctx: Context, r: Request, replies: Replies, now: int, nonce: Option<seq<Byte>>)
    requires nonce.Some? ==> |nonce.value| == Session.NonceSize
    ensures var o := CallbackOutcome(ctx, r, replies, now, nonce);
      forall i :: 1 <= i < |o.cookies| ==>
        o.cookies[i].name == RedirectCookieName || o.cookies[i].name == Session.SessionCookieName
  {
  }

  /** The post-login destination always passes the open-redirect guard, and,
      being a cookie value or "/", holds only printable ASCII and no backslash
      (which browsers would read as a second slash). */
  lemma PostLoginRedirectIsSafe(r: Request)
    ensures IsSafeRedirect(PostLoginRedirect(r))
    ensures PostLoginRedirect(r) != "/" ==> RedirectCookieName in r.cookies
    ensures forall i :: 0 <= i < |PostLoginRedirect(r)| ==>
      ' ' <= PostLoginRedirect(r)[i] <= '~' && PostLoginRedirect(r)[i] != '\\'
  {
    IsSafeRedirectCharacterized("/");
  }

  /** From login to callback: the browser stores the `redirect` target as the
      cookie writer sanitised it, and the callback lands there when the
      sanitised target still passes the guard, else on "/". */
  lemma RedirectSurvivesRoundTrip(cfg: Config, r: Request, token: string, cb: Request)
    requires Get(r.query, "error") == "" && IsSafeRedirect(Get(r.query, "redirect"))
    requires cb.cookies == ApplyCookies(r.cookies, LoginOutcome(cfg, r, Some(token)).cookies)
    ensures var stored := CookieValueAsRead(Get(r.query, "redirect"));
      PostLoginRedirect(cb) == if IsSafeRedirect(stored) then stored else "/"
  {
    LoginCookies(cfg, r, token);
    TransactionCookiesStored(r.cookies, token, Get(r.query, "redirect"), Https.IsHTTPS(r));
  }

  lemma LoginCookies(cfg: Config, r: Request, token: string)
    requires Get(r.query, "error") == "" && IsSafeRedirect(Get(r.query, "redirect"))
    ensures LoginOutcome(cfg, r, Some(token)).cookies
            == [StateCookie(token, Https.IsHTTPS(r)), RedirectCookie(Get(r.query, "redirect"), Https.IsHTTPS(r))]
  {
  }

  lemma TransactionCookiesStored(jar: CookieMap, token: string, target: string, secure: bool)
    ensures var j := ApplyCookies(jar, [StateCookie(token, secure), RedirectCookie(target, secure)]);
      RedirectCookieName in j && j[RedirectCookieName] == CookieValueAsRead(target)
  {
    var sc, rc := StateCookie(token, secure), RedirectCookie(target, secure);
    ApplyAppend(jar, [sc], [rc]);
    assert [sc] + [rc] == [sc, rc];
    var jar1 := ApplyCookies(jar, [sc]);
    assert ApplyCookies(jar1, [rc]) == ApplyCookies(jar1[rc.name := CookieValueAsRead(rc.value)], []);
  }

  /** A backslash after the leading slash, which browsers would read as a
      second slash, is dropped by the cookie writer: a login with
      `redirect=/\\evil.example.com` lands on the local "/evil.example.com". */
  lemma BackslashTargetStaysLocal(cfg: Config, r: Request, token: string, cb: Request, rest: string)
    requires ValidCookieValue(rest) && rest != "" && rest[0] != '/'
    requires Get(r.query, "error") == "" && Get(r.query, "redirect") == "/\\" + rest
    requires cb.cookies == ApplyCookies(r.cookies, LoginOutcome(cfg, r, Some(token)).cookies)
    ensures PostLoginRedirect(cb) == "/" + rest
  {
    BackslashDropped(rest);
    IsSafeRedirectCharacterized("/\\" + rest);
    IsSafeRedirectCharacterized("/" + rest);
    RedirectSurvivesRoundTrip(cfg, r, token, cb);
  }

  /** A callback without `code` renders 400 with the provider's message and
      makes no external call. */
  lemma CallbackWithoutCode(ctx: Context, r: Request, replies: Replies, now: int, nonce: Option<seq<Byte>>)
    requires nonce.Some? ==> |nonce.value| == Session.NonceSize
    requires StateError(r).None? && Get(r.query, "code") == ""
    ensures var o := CallbackOutcome(ctx, r, replies, now, nonce);
      var msg :=
        if Get(r.query, "error_description") != "" then Get(r.query, "error_description")
        else if Get(r.query, "error") != "" then Get(r.query, "error")
        else AuthorizationFailedMessage;
      o.calls == [] && o.terminal == BadRequestPage(LoginURL(ctx.cfg), msg)
  {
  }

  /** External calls happen in order, each only after the previous one
      succeeded, and only after the state check passed and a code arrived. */
  lemma CallbackCallOrder(ctx: Context, r: Request, replies: Replies, now: int, nonce: Option<seq<Byte>>)
    requires nonce.Some? ==> |nonce.value| == Session.NonceSize
    ensures var o := CallbackOutcome(ctx, r, replies, now, nonce);
      var code := Get(r.query, "code");
      && |o.calls| <= 3
      && (|o.calls| > 0 ==> StateError(r).None? && code != "" && o.calls[0] == TokenExchange(code))
      && (|o.calls| > 1 ==>
            ExchangeResult(replies.token).Ok?
            && o.calls[1] == UserInfoFetch(ExchangeResult(replies.token).value.accessToken))
      && (|o.calls| > 2 ==>
            Railway.FetchUserInfo(replies.userInfo).Ok?
            && o.calls[2] == AccessCheck(ExchangeResult(replies.token).value.accessToken))
  {
  }

  /** A definite "no access" sends the browser back to login with
      error=no_access and creates no session. */
  lemma CallbackDenied(ctx: Context, r: Request, replies: Replies, now: int, nonce: Option<seq<Byte>>)
    requires nonce.Some? ==> |nonce.value| == Session.NonceSize
    requires StateError(r).None? && Get(r.query, "code") != ""
    requires ExchangeResult(replies.token).Ok? && Railway.FetchUserInfo(replies.userInfo).Ok?
    requires replies.access == Ok(false)
    ensures var o := CallbackOutcome(ctx, r, replies, now, nonce);
      && o.terminal == Redirect(307, LoginURL(ctx.cfg) + NoAccessQuery)
      && forall i :: 0 <= i < |o.cookies| ==> o.cookies[i].name != Session.SessionCookieName
  {
  }

  /** A session cookie is written only when the exchange, the user-info fetch
      and the access check all succeeded; it holds the session for that user,
      and the response is a 307 to the post-login destination. */
  lemma SessionOnlyAfterFullSuccess(ctx: Context, r: Request, replies: Replies, now: int, nonce: Option<seq<Byte>>, i: int)
    requires nonce.Some? ==> |nonce.value| == Session.NonceSize
    requires var o := CallbackOutcome(ctx, r, replies, now, nonce);
      0 <= i < |o.cookies| && o.cookies[i].name == Session.SessionCookieName
    ensures StateError(r).None? && Get(r.query, "code") != ""
    ensures ExchangeResult(replies.token).Ok? && Railway.FetchUserInfo(replies.userInfo).Ok?
    ensures replies.access == Ok(true) && nonce.Some?
    ensures var o := CallbackOutcome(ctx, r, replies, now, nonce);
      var tokens := ExchangeResult(replies.token).value;
      var user := Railway.FetchUserInfo(replies.userInfo).value;
      var s := Session.CreateSession(now, user.sub, user.email, user.name, tokens.accessToken);
      && o.cookies[i] == Session.SessionCookie(Session.Issue(ctx.prim, ctx.manager, nonce.value, s), Https.IsHTTPS(r))
      && o.terminal == Redirect(307, PostLoginRedirect(r))
  {
  }

  /** End to end: a successful callback leaves the browser holding a session
      cookie that the same manager reads back, for one hour, as the signed-in
      user's identity. */
  lemma {:induction false} CallbackSignsIn(ctx: Context, r: Request, replies: Replies, now: int, nonce: seq<Byte>, later: int)
    requires Session.Lawful(ctx.prim) && |nonce| == Session.NonceSize
    requires StateError(r).None? && Get(r.query, "code") != ""
    requires ExchangeResult(replies.token).Ok? && Railway.FetchUserInfo(replies.userInfo).Ok?
    requires replies.access == Ok(true)
    requires now <= later <= now + Session.SessionDuration
    ensures var o := CallbackOutcome(ctx, r, replies, now, Some(nonce));
      var jar := ApplyCookies(r.cookies, o.cookies);
      var user := Railway.FetchUserInfo(replies.userInfo).value;
      var got := Session.GetSession(ctx.prim, ctx.manager, jar, later);
      && o.terminal == Redirect(307, PostLoginRedirect(r))
      && got.Found? && got.session.userID == user.sub && got.session.email == user.email
      && got.session.name == user.name
  {
    var o := CallbackOutcome(ctx, r, replies, now, Some(nonce));
    var tokens := ExchangeResult(replies.token).value;
    var user := Railway.FetchUserInfo(replies.userInfo).value;
    var s := Session.CreateSession(now, user.sub, user.email, user.name, tokens.accessToken);
    var secure := Https.IsHTTPS(r);
    var sc := Session.SessionCookie(Session.Issue(ctx.prim, ctx.manager, nonce, s), secure);
    var consumed := ConsumedCookies(r);
    assert o.cookies == consumed + [sc];
    var mid := ApplyCookies(r.cookies, consumed);
    ApplyAppend(r.cookies, consumed, [sc]);
    var jar := ApplyCookies(mid, [sc]);
    Session.IssuedCookieStored(ctx.prim, ctx.manager, nonce, s, secure, mid);
    Session.GetSessionIssue(ctx.prim, ctx.manager, nonce, s, jar, later);
  }

  lemma {:induction false} ApplyAppend(jar: CookieMap, a: seq<Cookie>, b: seq<Cookie>)
    ensures ApplyCookies(jar, a + b) == ApplyCookies(ApplyCookies(jar, a), b)
    decreases |a|
  {
    if a != [] {
      assert (a + b)[0] == a[0] && (a + b)[1..] == a[1..] + b;
      var c := a[0];
      var next: CookieMap := if c.maxAge < 0 then jar - {c.name} else jar[c.name := CookieValueAsRead(c.value)];
      ApplyAppend(next, a[1..], b);
    } else {
      assert a + b == b;
    }
  }

  // ---------------------------------------------------------------------
  // LogoutHandler

  function LogoutOutcome(r: Request): Outcome {
    Outcome([Session.ClearedSessionCookie(Https.IsHTTPS(r))], [], Redirect(StatusTemporaryRedirect, "/"))
  }

  /** Logout always clears the session cookie and redirects to "/"; afterwards
      the browser presents no session, whatever it held before. */
  lemma LogoutEndsSession(p: Session.Primitives, m: Session.Manager, r: Request, now: int)
    ensures LogoutOutcome(r).terminal == Redirect(307, "/")
    ensures var jar := ApplyCookies(r.cookies, LogoutOutcome(r).cookies);
      Session.GetSession(p, m, jar, now) == Session.Absent
  {
    var c := Session.ClearedSessionCookie(Https.IsHTTPS(r));
    assert ApplyCookies(r.cookies, [c]) == ApplyCookies(r.cookies - {c.name}, []);
  }

  // ---------------------------------------------------------------------
  // The imperative handlers

  /** The external services, answering with their scripted replies and
      recording each call made to them. */
  class Upstream {
    const replies: Replies
    var calls: seq<Call>

    constructor (replies: Replies)
      ensures this.replies == replies && calls == []
    {
      this.replies := replies;
      calls := [];
    }

    /** exchangeCode */
    method ExchangeCode(code: string) returns (r: Result<TokenResponse, string>)
      modifies this
      ensures r == ExchangeResult(replies.token) && calls == old(calls) + [TokenExchange(code)]
    {
      r := ExchangeResult(replies.token);
      calls := calls + [TokenExchange(code)];
    }

    /** railway.Client.FetchUserInfo */
    method FetchUserInfo(accessToken: string) returns (r: Result<Railway.UserInfo, Railway.ClientError>)
      modifies this
      ensures r == Railway.FetchUserInfo(replies.userInfo) && calls == old(calls) + [UserInfoFetch(accessToken)]
    {
      r := Railway.FetchUserInfo(replies.userInfo);
      calls := calls + [UserInfoFetch(accessToken)];
    }

    /** The access check */
    method CheckAccess(accessToken: string) returns (r: Result<bool, string>)
      modifies this
      ensures r == replies.access && calls == old(calls) + [AccessCheck(accessToken)]
    {
      r := replies.access;
      calls := calls + [AccessCheck(accessToken)];
    }
  }

  class Handler {
    const cfg: Config
    const manager: Session.Manager
    const prim: Session.Primitives
    const upstream: Upstream

    constructor (cfg: Config, manager: Session.Manager, prim: Session.Primitives, upstream: Upstream)
      ensures this.cfg == cfg && this.manager == manager && this.prim == prim && this.upstream == upstream
    {
      this.cfg := cfg;
      this.manager := manager;
      this.prim := prim;
      this.upstream := upstream;
    }

    /** handleAuthError */
    method HandleAuthError(w: ResponseWriter, errType: string)
      requires w.terminal.None?
      modifies w
      ensures w.cookies == old(w.cookies) && w.terminal == Some(AuthErrorPage(cfg, errType))
    {
      var reconsentURL := LoginURL(cfg) + ReconsentQuery;
      if errType == NoAccessError {
        w.Write(NoAccessPage(reconsentURL));
        return;
      }
      w.Write(UnknownAuthErrorPage(reconsentURL));
    }

    /** LoginHandler */
    method Login(w: ResponseWriter, r: Request, state: Option<string>)
      requires w.terminal.None?
      modifies w
      ensures w.cookies == old(w.cookies) + LoginOutcome(cfg, r, state).cookies
      ensures w.terminal == Some(LoginOutcome(cfg, r, state).terminal)
    {
      var errType := Get(r.query, "error");
      if errType != "" {
        HandleAuthError(w, errType);
        return;
      }
      if state.None? {
        w.Write(PlainText(StatusInternalServerError, StateGenerationFailedMessage));
        return;
      }
      var secure := Https.IsHTTPS(r);
      w.SetCookie(StateCookie(state.value, secure));
      var redirectTo := Get(r.query, "redirect");
      if IsSafeRedirect(redirectTo) {
        w.SetCookie(RedirectCookie(redirectTo, secure));
        assert w.cookies == old(w.cookies) + [StateCookie(state.value, secure), RedirectCookie(redirectTo, secure)];
      }
      var reconsent := Get(r.query, "reconsent") == "true";
      w.Write(Redirect(StatusTemporaryRedirect, AuthorizeURL(cfg, state.value, reconsent)));
    }

    /** CallbackHandler: the state check and the consumption of the
        transaction cookies; the rest is `CompleteSignIn`. */
    method Callback(w: ResponseWriter, r: Request, now: int, nonce: Option<seq<Byte>>)
      requires nonce.Some? ==> |nonce.value| == Session.NonceSize
      requires w.terminal.None?
      modifies w, upstream
      ensures var o := CallbackOutcome(Context(cfg, manager, prim), r, upstream.replies, now, nonce);
        && w.cookies == old(w.cookies) + o.cookies
        && w.terminal == Some(o.terminal)
        && upstream.calls == old(upstream.calls) + o.calls
    {
      var loginURL := URI(cfg, RouteLogin, PathOnly);
      if StateCookieName !in r.cookies {
        w.Write(BadRequestPage(loginURL, MissingStateMessage));
        return;
      }
      var state := Get(r.query, "state");
      if state == "" || state != r.cookies[StateCookieName] {
        w.Write(BadRequestPage(loginURL, InvalidStateMessage));
        return;
      }
      var redirectURL := ConsumeTransaction(w, r);
      var code := Get(r.query, "code");
      if code == "" {
        var errorDesc := Get(r.query, "error_description");
        if errorDesc == "" {
          errorDesc := Get(r.query, "error");
        }
        if errorDesc == "" {
          errorDesc := AuthorizationFailedMessage;
        }
        w.Write(BadRequestPage(loginURL, errorDesc));
        return;
      }
      CompleteSignIn(w, r, code, redirectURL, now, nonce);
      assert w.cookies == old(w.cookies) + (ConsumedCookies(r) + SignIn(Context(cfg, manager, prim), r, code, upstream.replies, now, nonce).cookies);
    }

    /** The part of CallbackHandler after a matching state: clear the state
        cookie and any redirect cookie, and pick the post-login destination. */
    method ConsumeTransaction(w: ResponseWriter, r: Request) returns (redirectURL: string)
      requires w.terminal.None?
      modifies w
      ensures w.terminal == old(w.terminal)
      ensures w.cookies == old(w.cookies) + ConsumedCookies(r)
      ensures redirectURL == PostLoginRedirect(r)
    {
      var secure := Https.IsHTTPS(r);
      w.SetCookie(ClearedStateCookie(secure));
      redirectURL := "/";
      if RedirectCookieName in r.cookies {
        if IsSafeRedirect(r.cookies[RedirectCookieName]) {
          redirectURL := r.cookies[RedirectCookieName];
        }
        w.SetCookie(ClearedRedirectCookie(secure));
        assert w.cookies == old(w.cookies) + [ClearedStateCookie(secure), ClearedRedirectCookie(secure)];
      }
    }

    /** The callback after the state check, once a code is present: exchange
        it, fetch the user, check access, then seal the session. */
    method CompleteSignIn(w: ResponseWriter, r: Request, code: string, redirectURL: string, now: int, nonce: Option<seq<Byte>>)
      requires nonce.Some? ==> |nonce.value| == Session.NonceSize
      requires w.terminal.None? && redirectURL == PostLoginRedirect(r)
      modifies w, upstream
      ensures var o := SignIn(Context(cfg, manager, prim), r, code, upstream.replies, now, nonce);
        && w.cookies == old(w.cookies) + o.cookies
        && w.terminal == Some(o.terminal)
        && upstream.calls == old(upstream.calls) + o.calls
    {
      ghost var o := SignIn(Context(cfg, manager, prim), r, code, upstream.replies, now, nonce);
      var loginURL := URI(cfg, RouteLogin, PathOnly);
      var tokens := upstream.ExchangeCode(code);
      if tokens.Err? {
        assert o == Outcome([], [TokenExchange(code)], SignInFailedPage(loginURL, tokens.error));
        w.Write(SignInFailedPage(loginURL, tokens.error));
        return;
      }
      var userInfo := upstream.FetchUserInfo(tokens.value.accessToken);
      ghost var fetched := [TokenExchange(code), UserInfoFetch(tokens.value.accessToken)];
      assert upstream.calls == old(upstream.calls) + fetched;
      if userInfo.Err? {
        assert o == Outcome([], fetched, SignInFailedPage(loginURL, UserInfoFailedMessage));
        w.Write(SignInFailedPage(loginURL, UserInfoFailedMessage));
        return;
      }
      var hasAccess := upstream.CheckAccess(tokens.value.accessToken);
      assert upstream.calls == old(upstream.calls) + o.calls;
      if hasAccess.Err? {
        w.Write(SignInFailedPage(loginURL, AccessCheckFailedMessage));
        return;
      }
      if !hasAccess.value {
        w.Write(Redirect(StatusTemporaryRedirect, loginURL + NoAccessQuery));
        return;
      }
      var user := userInfo.value;
      var sess := Session.CreateSession(now, user.sub, user.email, user.name, tokens.value.accessToken);
      var err := Session.SetSessionCookie(prim, manager, w, r, sess, nonce);
      if err.Some? {
        w.Write(SignInFailedPage(loginURL, SessionFailedMessage));
        return;
      }
      w.Write(Redirect(StatusTemporaryRedirect, redirectURL));
    }

    /** LogoutHandler */
    method Logout(w: ResponseWriter, r: Request)
      requires w.terminal.None?
      modifies w
      ensures w.cookies == old(w.cookies) + LogoutOutcome(r).cookies
      ensures w.terminal == Some(LogoutOutcome(r).terminal)
    {
      Session.ClearSessionCookie(w, r);
      w.Write(Redirect(StatusTemporaryRedirect, "/"));
    }
  }
}
