/** auth.Middleware: the gate in front of the proxied backend. A request with
    a readable, unexpired session passes on with that identity attached; any
    other request is answered here, with JSON for API clients and a redirect
    to the login endpoint for browsers. */
module Auth {
  import opened Wrappers
  import opened Http
  import opened Url
  import Session

  const ContentTypeJSON := "application/json"
  const APIPrefix := "/api/"
  const SessionErrorCode := "session_error"
  const SessionErrorMessage := "Invalid session. Please log in again."
  const UnauthorizedCode := "unauthorized"
  const UnauthorizedMessage := "Session expired. Please log in again."

  /** NewMiddleware: the session manager (with the primitives it reads cookies
      with) and the path of the login endpoint. */
  datatype Middleware = Middleware(manager: Session.Manager, prim: Session.Primitives, loginPath: string)

  /** The request handed to `next`, carrying the session in its context. */
  datatype AuthedRequest = AuthedRequest(request: Request, session: Session.Session)

  /** isAPIRequest: an /api/ path, or a JSON Accept or Content-Type header
      (exact values, so a charset parameter does not count). */
  predicate IsAPIRequest(r: Request) {
    HasPrefix(r.path, APIPrefix)
    || Get(r.header, "Accept") == ContentTypeJSON
    || Get(r.header, "Content-Type") == ContentTypeJSON
  }

  /** The classifier on its edge cases: the prefix needs its trailing slash,
      and a header only counts with the exact media type. */
  lemma IsAPIRequestExamples(r: Request)
    requires Get(r.header, "Accept") == "" && Get(r.header, "Content-Type") == ""
    ensures r.path == "/api/users" ==> IsAPIRequest(r)
    ensures r.path == "/api" ==> !IsAPIRequest(r)
    ensures r.path == "/apix/users" ==> !IsAPIRequest(r)
    ensures r.path == "/dashboard" ==> !IsAPIRequest(r)
    ensures IsAPIRequest(r.(header := map["Accept" := [ContentTypeJSON]]))
    ensures IsAPIRequest(r.(header := map["Content-Type" := [ContentTypeJSON]]))
    ensures r.path == "/" ==> !IsAPIRequest(r.(header := map["Accept" := ["application/json; charset=utf-8"]]))
  {
    if r.path == "/api/users" {
      assert r.path[..5] == APIPrefix;
    }
    if r.path == "/apix/users" {
      assert r.path[..5] != APIPrefix by { assert r.path[4] != APIPrefix[4]; }
    }
    if r.path == "/dashboard" {
      assert r.path[..5] != APIPrefix by { assert r.path[1] != APIPrefix[1]; }
    }
    assert Get(map["Content-Type" := [ContentTypeJSON]], "Content-Type") == ContentTypeJSON;
    var h := map["Accept" := ["application/json; charset=utf-8"]];
    assert Get(h, "Accept") != ContentTypeJSON by { assert |Get(h, "Accept")| != |ContentTypeJSON|; }
    assert Get(h, "Content-Type") == "";
  }

  /** Where an unauthenticated browser is sent: the login endpoint, carrying
      the original request URI as `redirect` unless the path is the root. */
  function LoginRedirect(loginPath: string, r: Request): string {
    if r.path != "/" then loginPath + "?redirect=" + QueryEscape(r.requestURI) else loginPath
  }

  /** The redirect location is the login path plus, off the root, exactly one
      query parameter: the escaped request URI contains no '&', '=', '?', '#'
      or '/', so it cannot add parameters or change the target. */
  lemma LoginRedirectShape(loginPath: string, r: Request)
    ensures r.path == "/" ==> LoginRedirect(loginPath, r) == loginPath
    ensures r.path != "/" ==>
      var loc := LoginRedirect(loginPath, r);
      var head := loginPath + "?redirect=";
      && HasPrefix(loc, head)
      && loc[|head|..] == QueryEscape(r.requestURI)
      && forall i :: |head| <= i < |loc| ==> IsEscapedChar(loc[i])
  {
    if r.path != "/" {
      var loc := LoginRedirect(loginPath, r);
      var head := loginPath + "?redirect=";
      assert loc == head + QueryEscape(r.requestURI);
      assert loc[..|head|] == head;
      assert loc[|head|..] == QueryEscape(r.requestURI);
      forall i | |head| <= i < |loc| ensures IsEscapedChar(loc[i]) {
        assert loc[i] == QueryEscape(r.requestURI)[i - |head|];
      }
    }
  }

  /** A visit to a one-segment path such as /dashboard is sent to
      `<login>?redirect=%2Fdashboard`: only the slash needs escaping. */
  lemma {:induction false} LoginRedirectSegment(loginPath: string, r: Request, segment: string)
    requires forall i :: 0 <= i < |segment| ==> IsUnreserved(segment[i])
    requires r.path != "/" && r.requestURI == "/" + segment
    ensures LoginRedirect(loginPath, r) == loginPath + "?redirect=%2F" + segment
  {
    QueryEscapeAppend("/", segment);
    QueryEscapeUnreserved(segment);
    assert Utf8('/') == [47];
    assert EscapeBytes([47]) == EscapeByte(47) + EscapeBytes([]);
    assert EscapeByte(47) == "%2F";
    assert QueryEscape("/") == "%2F" + QueryEscape("");
  }

  /** The gate's verdict: answer the request here, or forward it with a session. */
  datatype Decision = Respond(response: Terminal) | Forward(session: Session.Session)

  /** RequireAuth's decision for a request at instant `now`. */
  function Gate(m: Middleware, r: Request, now: int): Decision {
    match Session.GetSession(m.prim, m.manager, r.cookies, now)
    case Invalid(_) => Respond(JsonError(StatusUnauthorized, SessionErrorCode, SessionErrorMessage))
    case Absent =>
      if IsAPIRequest(r) then Respond(JsonError(StatusUnauthorized, UnauthorizedCode, UnauthorizedMessage))
      else Respond(Redirect(StatusTemporaryRedirect, LoginRedirect(m.loginPath, r)))
    case Found(s) => Forward(s)
  }

  /** The classifier decides the failure format: an API client is never sent
      to the login page, only answered with a 401 JSON error, and a browser
      request is refused only with a JSON error when its cookie is unreadable;
      every other browser refusal is a redirect to login. */
  lemma GateFailureFormat(m: Middleware, r: Request, now: int)
    requires Gate(m, r, now).Respond?
    ensures IsAPIRequest(r) ==>
      Gate(m, r, now).response.JsonError? && Gate(m, r, now).response.status == StatusUnauthorized
    ensures !IsAPIRequest(r) && Gate(m, r, now).response.JsonError? ==>
      Gate(m, r, now).response.code == SessionErrorCode
    ensures !IsAPIRequest(r) && !Gate(m, r, now).response.JsonError? ==>
      Gate(m, r, now).response == Redirect(StatusTemporaryRedirect, LoginRedirect(m.loginPath, r))
  {
  }

  /** A cookie that fails to decode, decrypt or unmarshal is a 401
      "session_error", even on a browser request: no redirect, no forwarding. */
  lemma GateRejectsBadSession(m: Middleware, r: Request, now: int)
    requires Session.SessionCookieName in r.cookies
    requires Session.Unseal(m.prim, m.manager, r.cookies[Session.SessionCookieName]).Err?
    ensures Gate(m, r, now) == Respond(JsonError(401, SessionErrorCode, SessionErrorMessage))
  {
  }

  /** Without a session (no cookie, or an expired one), an API request gets a
      401 "unauthorized" and a browser request a 307 to the login endpoint. */
  lemma GateWithoutSession(m: Middleware, r: Request, now: int)
    requires Session.GetSession(m.prim, m.manager, r.cookies, now).Absent?
    ensures IsAPIRequest(r) ==> Gate(m, r, now) == Respond(JsonError(401, UnauthorizedCode, UnauthorizedMessage))
    ensures !IsAPIRequest(r) ==> Gate(m, r, now) == Respond(Redirect(307, LoginRedirect(m.loginPath, r)))
    ensures Session.SessionCookieName !in r.cookies ==> Gate(m, r, now).Respond?
  {
  }

  /** The request is forwarded exactly when the session cookie reads back as a
      session that has not expired, and it is forwarded with that session. */
  lemma GateForwardsExactlyAuthenticated(m: Middleware, r: Request, now: int)
    ensures Gate(m, r, now).Forward? <==> Session.GetSession(m.prim, m.manager, r.cookies, now).Found?
    ensures Gate(m, r, now).Forward? ==>
      && Session.SessionCookieName in r.cookies
      && Session.Unseal(m.prim, m.manager, r.cookies[Session.SessionCookieName]) == Ok(Gate(m, r, now).session)
      && now <= Gate(m, r, now).session.expiresAt
  {
  }

  /** With a tamper-evident cipher, only a cookie sealed under this manager's
      key gets a request through. */
  lemma GateForwardsOnlySealedCookies(m: Middleware, r: Request, now: int)
    requires Session.Authentic(m.prim)
    requires Gate(m, r, now).Forward?
    ensures exists nonce: seq<Byte>, plaintext: seq<Byte> ::
      |nonce| == Session.NonceSize
      && m.prim.decode(r.cookies[Session.SessionCookieName]) == Some(Session.Encrypt(m.prim, m.manager.secretKey, nonce, plaintext))
      && m.prim.unmarshal(plaintext) == Some(Gate(m, r, now).session)
  {
    Session.OnlySealedCookiesParse(m.prim, m.manager, r.cookies, now);
  }

  /** A session issued by the same manager passes the gate until it expires. */
  lemma GateAdmitsIssuedSession(m: Middleware, r: Request, nonce: seq<Byte>, s: Session.Session, now: int)
    requires Session.Lawful(m.prim) && |nonce| == Session.NonceSize
    requires Session.SessionCookieName in r.cookies
    requires r.cookies[Session.SessionCookieName] == Session.Issue(m.prim, m.manager, nonce, s)
    ensures Gate(m, r, now) == if now <= s.expiresAt then Forward(s)
      else if IsAPIRequest(r) then Respond(JsonError(401, UnauthorizedCode, UnauthorizedMessage))
      else Respond(Redirect(307, LoginRedirect(m.loginPath, r)))
  {
    Session.GetSessionIssue(m.prim, m.manager, nonce, s, r.cookies, now);
  }

  /** RequireAuth(next) serving one request: either it answers on `w` and
      `next` is not called (None), or it writes nothing and calls `next` with
      the request carrying the session. */
  method RequireAuth(m: Middleware, w: ResponseWriter, r: Request, now: int) returns (next: Option<AuthedRequest>)
    requires w.terminal.None?
    modifies w
    ensures w.cookies == old(w.cookies)
    ensures match Gate(m, r, now)
      case Respond(t) => w.terminal == Some(t) && next.None?
      case Forward(s) => w.terminal.None? && next == Some(AuthedRequest(r, s))
  {
    var sess := Session.GetSession(m.prim, m.manager, r.cookies, now);
    if sess.Invalid? {
      w.Write(JsonError(StatusUnauthorized, SessionErrorCode, SessionErrorMessage));
      return None;
    }
    if sess.Absent? {
      if IsAPIRequest(r) {
        w.Write(JsonError(StatusUnauthorized, UnauthorizedCode, UnauthorizedMessage));
        return None;
      }
      var loginURL := m.loginPath;
      if r.path != "/" {
        loginURL := loginURL + "?redirect=" + QueryEscape(r.requestURI);
      }
      w.Write(Redirect(StatusTemporaryRedirect, loginURL));
      return None;
    }
    return Some(AuthedRequest(r, sess.session));
  }
}
