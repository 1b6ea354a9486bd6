/** The slice of net/http the gateway's decisions read and write: the inbound
    request record, Set-Cookie values, the one terminal write of a handler, and
    a response writer that collects them in order. */
module Http {
  import opened Wrappers

  /** strings.HasPrefix */
  predicate HasPrefix(s: string, prefix: string) {
    |prefix| <= |s| && s[..|prefix|] == prefix
  }

  /** url.Values and http.Header: every key maps to its list of values. */
  type Values = map<string, seq<string>>

  /** `Values.Get` / `Header.Get`: the first value under the key, or "". */
  function Get(v: Values, key: string): (r: string)
    ensures r != "" ==> key in v && |v[key]| > 0 && v[key][0] == r
  {
    if key in v && |v[key]| > 0 then v[key][0] else ""
  }

  /** `Header.Set`: the key now holds exactly one value. */
  function Set(v: Values, key: string, value: string): (r: Values)
    ensures key in r && r[key] == [value] && Get(r, key) == value
    ensures forall k :: k != key ==> (k in r <==> k in v) && (k in v ==> r[k] == v[k])
  {
    v[key := [value]]
  }

  /** net/http's validCookieValueByte: printable ASCII other than the double
      quote, the semicolon and the backslash. */
  predicate IsCookieValueChar(c: char) {
    ' ' <= c <= '~' && c != '"' && c != ';' && c != '\\'
  }

  predicate ValidCookieValue(v: string) {
    forall i :: 0 <= i < |v| ==> IsCookieValueChar(v[i])
  }

  /** The cookies of a request as `r.Cookie` returns them. A cookie whose value
      holds a character outside the cookie-value set is skipped by the parser,
      so every value present is valid. */
  type CookieMap = m: map<string, string> | forall k :: k in m ==> ValidCookieValue(m[k])
    witness map[]

  /** The value `r.Cookie` reads back for a cookie that `http.SetCookie` wrote:
      the writer drops every character outside the cookie-value set (for a
      non-ASCII character, all of its UTF-8 bytes) and quotes a value holding a
      space or a comma; the reader strips those quotes again. */
  function CookieValueAsRead(v: string): (r: string)
    ensures ValidCookieValue(r)
    ensures ValidCookieValue(v) ==> r == v
    ensures |r| <= |v|
  {
    if v == [] then []
    else (if IsCookieValueChar(v[0]) then [v[0]] else []) + CookieValueAsRead(v[1..])
  }

  /** The cookie writer drops a backslash and keeps the valid rest, so a
      target "/\\evil.example.com" is read back as "/evil.example.com". */
  lemma {:induction false} BackslashDropped(rest: string)
    requires ValidCookieValue(rest)
    ensures CookieValueAsRead("/\\" + rest) == "/" + rest
  {
    assert ("/\\" + rest)[1..] == "\\" + rest;
    assert ("\\" + rest)[1..] == rest;
    assert CookieValueAsRead("\\" + rest) == CookieValueAsRead(rest);
  }

  /** An inbound request as the handlers see it. `cookies` holds, per name, the
      value `r.Cookie(name)` returns (the first valid cookie of that name). */
  datatype Request = Request(
    path: string,           // r.URL.Path
    requestURI: string,     // r.URL.RequestURI()
    scheme: string,         // r.URL.Scheme
    tls: bool,              // r.TLS != nil
    query: Values,          // r.URL.Query()
    header: Values,         // r.Header
    cookies: CookieMap)

  datatype SameSite = SameSiteDefault | SameSiteLax

  datatype Cookie = Cookie(
    name: string,
    value: string,
    path: string,
    maxAge: int,
    httpOnly: bool,
    secure: bool,
    sameSite: SameSite)

  datatype Button = Button(text: string, url: string)

  /** views.ErrorPageData without the static asset root. */
  datatype ErrorPage = ErrorPage(
    title: string,
    subtitle: string,
    message: string,
    note: string,
    buttons: seq<Button>)

  /** The single terminal write of a handler. */
  datatype Terminal =
    | RenderPage(status: int, page: ErrorPage)                // views.RenderErrorPage
    | PlainText(status: int, body: string)                    // http.Error and raw writes
    | JsonError(status: int, code: string, message: string)   // httpx.WriteJSONError
    | Redirect(status: int, location: string)                 // http.Redirect
  {
    function Status(): int {
      match this
      case RenderPage(s, _) => s
      case PlainText(s, _) => s
      case JsonError(s, _, _) => s
      case Redirect(s, _) => s
    }
  }

  /** How a browser applies Set-Cookie headers to its cookie jar: a negative
      Max-Age deletes the cookie, any other value stores it; the jar is kept as
      the server will read it back. */
  function ApplyCookies(jar: CookieMap, cs: seq<Cookie>): (r: CookieMap)
    ensures forall name :: (forall i :: 0 <= i < |cs| ==> cs[i].name != name) ==>
      (name in r <==> name in jar) && (name in jar ==> r[name] == jar[name])
    decreases |cs|
  {
    if cs == [] then jar
    else
      var c := cs[0];
      var next: CookieMap := if c.maxAge < 0 then jar - {c.name} else jar[c.name := CookieValueAsRead(c.value)];
      ApplyCookies(next, cs[1..])
  }

  const StatusTemporaryRedirect := 307
  const StatusBadRequest := 400
  const StatusUnauthorized := 401
  const StatusForbidden := 403
  const StatusInternalServerError := 500
  const StatusBadGateway := 502

  /** http.ResponseWriter as the handlers use it: Set-Cookie headers appended in
      order, then one terminal write. Headers added after the status line has
      been written are not sent, and a second write is ignored. */
  class ResponseWriter {
    var cookies: seq<Cookie>
    var terminal: Option<Terminal>

    constructor ()
      ensures cookies == [] && terminal == None
    {
      cookies := [];
      terminal := None;
    }

    /** http.SetCookie */
    method SetCookie(c: Cookie)
      modifies this
      ensures terminal == old(terminal)
      ensures cookies == if old(terminal).None? then old(cookies) + [c] else old(cookies)
    {
      if terminal.None? {
        cookies := cookies + [c];
      }
    }

    /** WriteHeader plus body: only the first one takes effect. */
    method Write(t: Terminal)
      modifies this
      ensures cookies == old(cookies)
      ensures terminal == if old(terminal).None? then Some(t) else old(terminal)
    {
      if terminal.None? {
        terminal := Some(t);
      }
    }
  }
}
