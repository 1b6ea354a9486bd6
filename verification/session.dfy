/** session.Manager: a stateless session carried in one cookie. A session is
    serialised, sealed with an AEAD under a key cut from the configured secret,
    laid out as nonce followed by sealed data, and base64-encoded. The cipher,
    the encoding and the serialisation are abstract `Primitives`; only the laws
    in `Lawful` (and `Authentic` for tamper resistance) are assumed of them. */
module Session {
  import opened Wrappers
  import opened Http
  import Https

  const SessionCookieName := "railway_session"
  const NanosPerSecond := 1_000_000_000
  /** time.Hour; instants are nanoseconds on a fixed epoch. */
  const SessionDuration := 3600 * NanosPerSecond
  /** int(sessionDuration.Seconds()) */
  const SessionMaxAge := SessionDuration / NanosPerSecond
  const KeySize := 32
  /** gcm.NonceSize() of the standard AES-GCM construction. */
  const NonceSize := 12

  datatype Session = Session(
    userID: string,
    email: string,
    name: string,
    accessToken: string,
    expiresAt: int,
    createdAt: int)

  /** The key never changes after construction. */
  datatype Manager = Manager(secretKey: seq<Byte>)

  /** Stand-ins for base64.URLEncoding, encoding/json and AES-GCM. */
  datatype Primitives = Primitives(
    encode: seq<Byte> -> string,
    decode: string -> Option<seq<Byte>>,
    marshal: Session -> seq<Byte>,
    unmarshal: seq<Byte> -> Option<Session>,
    seal: (seq<Byte>, seq<Byte>, seq<Byte>) -> seq<Byte>,
    open: (seq<Byte>, seq<Byte>, seq<Byte>) -> Option<seq<Byte>>)

  /** Decoding undoes encoding, unmarshalling undoes marshalling, and opening
      under the key and nonce used to seal gives the plaintext back. The
      base64url alphabet (letters, digits, '-', '_' and '=') lies inside the
      cookie-value set, so an encoding is stored in a cookie unchanged. */
  ghost predicate Lawful(p: Primitives) {
    && (forall b :: p.decode(p.encode(b)) == Some(b))
    && (forall b :: ValidCookieValue(p.encode(b)))
    && (forall s :: p.unmarshal(p.marshal(s)) == Some(s))
    && (forall k, n, m :: p.open(k, n, p.seal(k, n, m)) == Some(m))
  }

  /** AEAD integrity: the only data that opens is data sealed under that key
      and nonce. */
  ghost predicate Authentic(p: Primitives) {
    forall k, n, c :: p.open(k, n, c).Some? ==> c == p.seal(k, n, p.open(k, n, c).value)
  }

  datatype DecryptError = CiphertextTooShort | OpenFailed
  datatype SessionError = DecodeFailed | DecryptFailed(cause: DecryptError) | UnmarshalFailed

  /** What GetSession reports: (nil, nil), (session, nil) or (nil, err). */
  datatype Lookup = Absent | Found(session: Session) | Invalid(reason: SessionError)

  /** NewManager: the secret (as bytes) must be at least 32 long, and the key is
      its first 32 bytes. */
  function NewManager(secret: seq<Byte>): (r: Result<Manager, string>)
    ensures r.Err? <==> |secret| < KeySize
    ensures r.Ok? ==> |r.value.secretKey| == KeySize && r.value.secretKey + secret[KeySize..] == secret
  {
    if |secret| < KeySize then Err("secret must be at least 32 characters")
    else Ok(Manager(secret[..KeySize]))
  }

  /** Bytes of the secret beyond the 32nd have no influence on the key. */
  lemma NewManagerIgnoresTail(a: seq<Byte>, b: seq<Byte>)
    requires |a| >= KeySize && |b| >= KeySize && a[..KeySize] == b[..KeySize]
    ensures NewManager(a) == NewManager(b)
  {
  }

  /** CreateSession at instant `now`. */
  function CreateSession(now: int, userID: string, email: string, name: string, accessToken: string): (s: Session)
    ensures s.userID == userID && s.email == email && s.name == name && s.accessToken == accessToken
    ensures s.createdAt == now && s.expiresAt - s.createdAt == SessionDuration
  {
    Session(userID, email, name, accessToken, now + SessionDuration, now)
  }

  /** encrypt: gcm.Seal(nonce, nonce, plaintext, nil) appends the sealed data to the nonce. */
  function Encrypt(p: Primitives, key: seq<Byte>, nonce: seq<Byte>, plaintext: seq<Byte>): seq<Byte>
    requires |nonce| == NonceSize
  {
    nonce + p.seal(key, nonce, plaintext)
  }

  /** decrypt: split at the nonce size and open the rest. */
  function Decrypt(p: Primitives, key: seq<Byte>, data: seq<Byte>): (r: Result<seq<Byte>, DecryptError>)
    ensures |data| < NonceSize ==> r == Err(CiphertextTooShort)
    ensures r.Ok? ==> p.open(key, data[..NonceSize], data[NonceSize..]) == Some(r.value)
  {
    if |data| < NonceSize then Err(CiphertextTooShort)
    else match p.open(key, data[..NonceSize], data[NonceSize..])
      case Some(m) => Ok(m)
      case None => Err(OpenFailed)
  }

  /** Decryption inverts encryption under the same key. */
  lemma DecryptEncrypt(p: Primitives, key: seq<Byte>, nonce: seq<Byte>, m: seq<Byte>)
    requires Lawful(p) && |nonce| == NonceSize
    ensures Decrypt(p, key, Encrypt(p, key, nonce, m)) == Ok(m)
  {
    var c := Encrypt(p, key, nonce, m);
    assert c[..NonceSize] == nonce && c[NonceSize..] == p.seal(key, nonce, m);
  }

  /** The cookie value for a session: encode(nonce ‖ seal(marshal(s))). */
  function Issue(p: Primitives, m: Manager, nonce: seq<Byte>, s: Session): string
    requires |nonce| == NonceSize
  {
    p.encode(Encrypt(p, m.secretKey, nonce, p.marshal(s)))
  }

  /** The decode, decrypt, unmarshal stages of GetSession for a cookie value. */
  function Unseal(p: Primitives, m: Manager, value: string): Result<Session, SessionError>
  {
    match p.decode(value)
    case None => Err(DecodeFailed)
    case Some(decoded) =>
      match Decrypt(p, m.secretKey, decoded)
      case Err(e) => Err(DecryptFailed(e))
      case Ok(plaintext) =>
        match p.unmarshal(plaintext)
        case None => Err(UnmarshalFailed)
        case Some(s) => Ok(s)
  }

  /** GetSession at instant `now`: no cookie and an expired session both read
      as absent; a cookie that does not decode, decrypt or unmarshal is an
      error; a session is returned only up to and including its expiry. */
  function GetSession(p: Primitives, m: Manager, cookies: map<string, string>, now: int): (r: Lookup)
    ensures SessionCookieName !in cookies ==> r == Absent
    ensures r.Invalid? <==> SessionCookieName in cookies && Unseal(p, m, cookies[SessionCookieName]).Err?
    ensures r.Invalid? ==> r.reason == Unseal(p, m, cookies[SessionCookieName]).error
    ensures r.Found? ==>
      SessionCookieName in cookies && Unseal(p, m, cookies[SessionCookieName]) == Ok(r.session)
      && now <= r.session.expiresAt
    ensures SessionCookieName in cookies && r == Absent ==>
      Unseal(p, m, cookies[SessionCookieName]).Ok? && now > Unseal(p, m, cookies[SessionCookieName]).value.expiresAt
  {
    if SessionCookieName !in cookies then Absent
    else match Unseal(p, m, cookies[SessionCookieName])
      case Err(e) => Invalid(e)
      case Ok(s) => if now > s.expiresAt then Absent else Found(s)
  }

  /** Which stage rejected a cookie. */
  lemma UnsealStages(p: Primitives, m: Manager, value: string)
    ensures p.decode(value).None? ==> Unseal(p, m, value) == Err(DecodeFailed)
    ensures p.decode(value).Some? && |p.decode(value).value| < NonceSize ==>
      Unseal(p, m, value) == Err(DecryptFailed(CiphertextTooShort))
    ensures Unseal(p, m, value).Ok? ==>
      p.decode(value).Some? && Decrypt(p, m.secretKey, p.decode(value).value).Ok?
      && p.unmarshal(Decrypt(p, m.secretKey, p.decode(value).value).value) == Some(Unseal(p, m, value).value)
  {
  }

  /** Round trip: a cookie issued for `s` reads back as `s` until its expiry
      and as absent afterwards. */
  lemma GetSessionIssue(p: Primitives, m: Manager, nonce: seq<Byte>, s: Session, cookies: map<string, string>, now: int)
    requires Lawful(p) && |nonce| == NonceSize
    requires SessionCookieName in cookies && cookies[SessionCookieName] == Issue(p, m, nonce, s)
    ensures GetSession(p, m, cookies, now) == if now > s.expiresAt then Absent else Found(s)
  {
    DecryptEncrypt(p, m.secretKey, nonce, p.marshal(s));
    assert Unseal(p, m, Issue(p, m, nonce, s)) == Ok(s);
  }

  /** A freshly created session stays readable for exactly one hour. */
  lemma {:induction false} SessionLifetime(p: Primitives, mgr: Manager, nonce: seq<Byte>, created: int, now: int,
                                           userID: string, email: string, name: string, token: string)
    requires Lawful(p) && |nonce| == NonceSize
    ensures var s := CreateSession(created, userID, email, name, token);
      GetSession(p, mgr, map[SessionCookieName := Issue(p, mgr, nonce, s)], now)
        == if now <= created + SessionDuration then Found(s) else Absent
  {
    var s := CreateSession(created, userID, email, name, token);
    GetSessionIssue(p, mgr, nonce, s, map[SessionCookieName := Issue(p, mgr, nonce, s)], now);
  }

  /** Tamper resistance: whatever cookie yields a session, its bytes are a nonce
      followed by data sealed under this manager's key, of a plaintext that
      unmarshals to that session. */
  lemma {:induction false} OnlySealedCookiesParse(p: Primitives, m: Manager, cookies: map<string, string>, now: int)
    requires Authentic(p)
    requires GetSession(p, m, cookies, now).Found?
    ensures exists nonce: seq<Byte>, plaintext: seq<Byte> ::
      |nonce| == NonceSize
      && p.decode(cookies[SessionCookieName]) == Some(Encrypt(p, m.secretKey, nonce, plaintext))
      && p.unmarshal(plaintext) == Some(GetSession(p, m, cookies, now).session)
  {
    var d := p.decode(cookies[SessionCookieName]).value;
    var nonce, rest := d[..NonceSize], d[NonceSize..];
    var plaintext := p.open(m.secretKey, nonce, rest).value;
    assert rest == p.seal(m.secretKey, nonce, plaintext);
    assert d == Encrypt(p, m.secretKey, nonce, plaintext);
  }

  /** The session cookie as SetSessionCookie writes it. */
  function SessionCookie(value: string, secure: bool): Cookie {
    Cookie(SessionCookieName, value, "/", SessionMaxAge, true, secure, SameSiteLax)
  }

  /** The session cookie as ClearSessionCookie writes it. */
  function ClearedSessionCookie(secure: bool): Cookie {
    Cookie(SessionCookieName, "", "/", -1, true, secure, SameSiteLax)
  }

  /** The session cookie lives one hour, is HttpOnly and SameSite=Lax, and is
      Secure exactly on HTTPS; clearing it empties it and expires it at once, so
      a browser drops it. */
  lemma SessionCookieAttributes(value: string, secure: bool, jar: CookieMap)
    ensures SessionCookie(value, secure).maxAge == 3600
    ensures SessionCookie(value, secure).httpOnly && SessionCookie(value, secure).sameSite == SameSiteLax
    ensures ApplyCookies(jar, [SessionCookie(value, secure)]) == jar[SessionCookieName := CookieValueAsRead(value)]
    ensures ClearedSessionCookie(secure).value == "" && ClearedSessionCookie(secure).maxAge == -1
    ensures ApplyCookies(jar, [ClearedSessionCookie(secure)]) == jar - {SessionCookieName}
  {
  }

  /** An issued cookie survives the cookie writer unchanged, so a browser stores
      exactly the sealed value. */
  lemma IssuedCookieStored(p: Primitives, m: Manager, nonce: seq<Byte>, s: Session, secure: bool, jar: CookieMap)
    requires Lawful(p) && |nonce| == NonceSize
    ensures ApplyCookies(jar, [SessionCookie(Issue(p, m, nonce, s), secure)])
            == jar[SessionCookieName := Issue(p, m, nonce, s)]
  {
    var v := Issue(p, m, nonce, s);
    assert ValidCookieValue(v);
    SessionCookieAttributes(v, secure, jar);
  }

  /** SetSessionCookie; `nonce` is what crypto/rand produced, None when it failed. */
  method SetSessionCookie(p: Primitives, m: Manager, w: ResponseWriter, r: Request, s: Session,
                          nonce: Option<seq<Byte>>) returns (err: Option<string>)
    requires nonce.Some? ==> |nonce.value| == NonceSize
    modifies w
    ensures err.Some? <==> nonce.None?
    ensures w.terminal == old(w.terminal)
    ensures w.cookies ==
      if nonce.Some? && old(w.terminal).None?
      then old(w.cookies) + [SessionCookie(Issue(p, m, nonce.value, s), Https.IsHTTPS(r))]
      else old(w.cookies)
  {
    var data := p.marshal(s);
    if nonce.None? {
      return Some("encrypt session: entropy source failed");
    }
    var encrypted := Encrypt(p, m.secretKey, nonce.value, data);
    var encoded := p.encode(encrypted);
    w.SetCookie(SessionCookie(encoded, Https.IsHTTPS(r)));
    err := None;
  }

  /** ClearSessionCookie */
  method ClearSessionCookie(w: ResponseWriter, r: Request)
    modifies w
    ensures w.terminal == old(w.terminal)
    ensures w.cookies ==
      if old(w.terminal).None? then old(w.cookies) + [ClearedSessionCookie(Https.IsHTTPS(r))] else old(w.cookies)
  {
    w.SetCookie(ClearedSessionCookie(Https.IsHTTPS(r)));
  }
}
