/** proxy.Handler: the reverse-proxy policy towards the backend. The director
    rewrites each outbound request (target, forwarding headers, identity
    headers); the dialer resolves the backend host, puts IPv6 addresses first
    and connects to the first address that accepts; proxy failures are 502. */
module Proxy {
  import opened Wrappers
  import opened Http
  import Session

  const XForwardedHost := "X-Forwarded-Host"
  const XForwardedProto := "X-Forwarded-Proto"
  const XAuthEmail := "X-Auth-Email"
  const XAuthUserID := "X-Auth-User-Id"
  const XAuthName := "X-Auth-Name"
  const BadGatewayBody := "Bad Gateway"

  /** The parsed backend URL: only its scheme and host are used. */
  datatype Target = Target(scheme: string, host: string)

  // ---------------------------------------------------------------------
  // Director

  /** The header rewrite of the director: forwarding headers filled in only
      when empty, identity headers overwritten when a session is attached. */
  function DirectorHeaders(h: Values, originalHost: string, session: Option<Session.Session>): Values {
    WithIdentity(WithForwarding(h, originalHost), session)
  }

  function WithForwarding(h: Values, originalHost: string): Values {
    var h1 := if Get(h, XForwardedHost) == "" then Set(h, XForwardedHost, originalHost) else h;
    if Get(h1, XForwardedProto) == "" then Set(h1, XForwardedProto, "https") else h1
  }

  function WithIdentity(h: Values, session: Option<Session.Session>): Values {
    match session
    case None => h
    case Some(s) => Set(Set(Set(h, XAuthEmail, s.email), XAuthUserID, s.userID), XAuthName, s.name)
  }

  /** The forwarding headers: a value the client sent is kept as it was;
      otherwise X-Forwarded-Host becomes the original Host and
      X-Forwarded-Proto becomes "https". */
  lemma ForwardingHeaders(h: Values, originalHost: string, session: Option<Session.Session>)
    ensures var h' := DirectorHeaders(h, originalHost, session);
      && (Get(h, XForwardedHost) != "" ==> XForwardedHost in h' && h'[XForwardedHost] == h[XForwardedHost])
      && (Get(h, XForwardedHost) == "" ==> XForwardedHost in h' && h'[XForwardedHost] == [originalHost])
      && (Get(h, XForwardedProto) != "" ==> XForwardedProto in h' && h'[XForwardedProto] == h[XForwardedProto])
      && (Get(h, XForwardedProto) == "" ==> XForwardedProto in h' && h'[XForwardedProto] == ["https"])
  {
  }

  /** The identity headers: with a session, exactly its e-mail, user ID and
      name; without one, whatever the client sent (they are not stripped). */
  lemma IdentityHeaders(h: Values, originalHost: string, session: Option<Session.Session>)
    ensures var h' := DirectorHeaders(h, originalHost, session);
      && (session.Some? ==>
            && XAuthEmail in h' && h'[XAuthEmail] == [session.value.email]
            && XAuthUserID in h' && h'[XAuthUserID] == [session.value.userID]
            && XAuthName in h' && h'[XAuthName] == [session.value.name])
      && (session.None? ==>
            forall k :: k in {XAuthEmail, XAuthUserID, XAuthName} ==>
              (k in h' <==> k in h) && (k in h ==> h'[k] == h[k]))
  {
  }

  /** Every other header passes through untouched. */
  lemma OtherHeadersUnchanged(h: Values, originalHost: string, session: Option<Session.Session>, k: string)
    requires k !in {XForwardedHost, XForwardedProto, XAuthEmail, XAuthUserID, XAuthName}
    ensures var h' := DirectorHeaders(h, originalHost, session);
      (k in h' <==> k in h) && (k in h ==> h'[k] == h[k])
  {
  }

  /** The outbound request as the director sees it; the session is the one
      the auth middleware attached to the request context. */
  class OutboundRequest {
    var urlScheme: string
    var urlHost: string
    var host: string
    var header: Values
    const session: Option<Session.Session>

    constructor (urlScheme: string, urlHost: string, host: string, header: Values, session: Option<Session.Session>)
      ensures this.urlScheme == urlScheme && this.urlHost == urlHost && this.host == host
      ensures this.header == header && this.session == session
    {
      this.urlScheme := urlScheme;
      this.urlHost := urlHost;
      this.host := host;
      this.header := header;
      this.session := session;
    }
  }

  /** proxy.Director: aim the request at the backend and rewrite its headers. */
  method Director(target: Target, req: OutboundRequest)
    modifies req
    ensures req.urlScheme == target.scheme && req.urlHost == target.host && req.host == target.host
    ensures req.header == DirectorHeaders(old(req.header), old(req.host), req.session)
  {
    var originalHost := req.host;
    req.urlScheme := target.scheme;
    req.urlHost := target.host;
    req.host := target.host;
    if Get(req.header, XForwardedHost) == "" {
      req.header := Set(req.header, XForwardedHost, originalHost);
    }
    if Get(req.header, XForwardedProto) == "" {
      req.header := Set(req.header, XForwardedProto, "https");
    }
    assert req.header == WithForwarding(old(req.header), originalHost);
    if req.session.Some? {
      var s := req.session.value;
      req.header := Set(req.header, XAuthEmail, s.email);
      req.header := Set(req.header, XAuthUserID, s.userID);
      req.header := Set(req.header, XAuthName, s.name);
    }
  }

  /** proxy.ErrorHandler: whatever went wrong, the client sees 502 "Bad Gateway". */
  method ErrorHandler(w: ResponseWriter)
    modifies w
    ensures w.cookies == old(w.cookies)
    ensures old(w.terminal).None? ==> w.terminal == Some(PlainText(StatusBadGateway, BadGatewayBody))
    ensures old(w.terminal).Some? ==> w.terminal == old(w.terminal)
  {
    w.Write(PlainText(StatusBadGateway, BadGatewayBody));
  }

  // ---------------------------------------------------------------------
  // Address family

  /** A net.IP: 4 or 16 bytes. */
  type IP = seq<Byte>

  predicate IsZeros(s: seq<Byte>) {
    forall i :: 0 <= i < |s| ==> s[i] == 0
  }

  /** net.IP.To4: the 4-byte form of an IPv4 address, whether given in 4
      bytes or IPv4-mapped in 16 (ten zero bytes, then 0xff 0xff). */
  function To4(ip: IP): (r: Option<IP>)
    ensures r.Some? ==> |ip| >= 4 && r.value == ip[|ip| - 4..] && |r.value| == 4
  {
    if |ip| == 4 then Some(ip)
    else if |ip| == 16 && IsZeros(ip[..10]) && ip[10] == 0xff && ip[11] == 0xff then Some(ip[12..16])
    else None
  }

  /** The dialer's test for IPv6: `To4() == nil`. */
  predicate IsIPv6(ip: IP) {
    To4(ip).None?
  }

  /** Which addresses count as IPv4: every 4-byte address, and a 16-byte one
      exactly when it is IPv4-mapped. */
  lemma {:induction false} AddressFamily(ip: IP)
    ensures |ip| == 4 ==> !IsIPv6(ip)
    ensures |ip| == 16 ==>
      (!IsIPv6(ip) <==> ip[..12] == [0, 0, 0, 0, 0, 0, 0, 0, 0, 0, 0xff, 0xff])
    ensures |ip| != 4 && |ip| != 16 ==> IsIPv6(ip)
  {
    if |ip| == 16 {
      var mapped: seq<Byte> := [0, 0, 0, 0, 0, 0, 0, 0, 0, 0, 0xff, 0xff];
      if ip[..12] == mapped {
        assert ip[..10] == mapped[..10];
        assert ip[10] == mapped[10] && ip[11] == mapped[11];
      }
      if !IsIPv6(ip) {
        assert forall i :: 0 <= i < 10 ==> ip[..10][i] == 0;
        assert ip[..12] == mapped;
      }
    }
  }

  /** The order sort.Slice leaves the addresses in: no IPv4 address before an
      IPv6 one. */
  ghost predicate IPv6First(s: seq<IP>) {
    forall i, j :: 0 <= i < j < |s| && IsIPv6(s[j]) ==> IsIPv6(s[i])
  }

  /** sort.Slice(ips, IPv6 before IPv4) in place. The comparison leaves the
      order within each family unspecified, so this partition is one of the
      orders it may produce. */
  method SortIPv6First(a: array<IP>)
    modifies a
    ensures multiset(a[..]) == multiset(old(a[..]))
    ensures IPv6First(a[..])
  {
    var lo, hi := 0, a.Length;
    while lo < hi
      invariant 0 <= lo <= hi <= a.Length
      invariant forall k :: 0 <= k < lo ==> IsIPv6(a[k])
      invariant forall k :: hi <= k < a.Length ==> !IsIPv6(a[k])
      invariant multiset(a[..]) == multiset(old(a[..]))
    {
      if IsIPv6(a[lo]) {
        lo := lo + 1;
      } else {
        hi := hi - 1;
        ghost var before := a[..];
        a[lo], a[hi] := a[hi], a[lo];
        SwapIsPermutation(before, lo, hi);
        assert a[..] == before[lo := before[hi]][hi := before[lo]];
      }
    }
  }

  /** Exchanging two elements keeps the same elements. */
  lemma SwapIsPermutation(s: seq<IP>, i: nat, j: nat)
    requires i < |s| && j < |s|
    ensures multiset(s[i := s[j]][j := s[i]]) == multiset(s)
  {
  }

  // ---------------------------------------------------------------------
  // Dialing

  /** What dialing one address gives: a connection, or the dial error. */
  datatype DialResult = Connected(conn: nat) | DialFailed(err: string)

  datatype DialError =
    | LookupFailed(host: string, reason: string)                  // "dns lookup %q: %w"
    | AllFailed(host: string, tried: nat, last: Option<string>)   // "all addresses failed for %q (tried %d): %w"

  /** The position of the first address that accepts, if any. */
  function FirstConnected(order: seq<IP>, dial: IP -> DialResult): (r: Option<nat>)
    ensures r.Some? ==> r.value < |order| && dial(order[r.value]).Connected?
    ensures r.Some? ==> forall k :: 0 <= k < r.value ==> dial(order[k]).DialFailed?
    ensures r.None? <==> forall k :: 0 <= k < |order| ==> dial(order[k]).DialFailed?
  {
    if order == [] then None
    else if dial(order[0]).Connected? then Some(0)
    else match FirstConnected(order[1..], dial)
      case None => None
      case Some(i) => Some(i + 1)
  }

  /** Trying the addresses in order: the first connection wins; if none
      connects, the error reports how many were tried and the last failure. */
  function DialInOrder(host: string, order: seq<IP>, dial: IP -> DialResult): Result<nat, DialError> {
    match FirstConnected(order, dial)
    case Some(i) => Ok(dial(order[i]).conn)
    case None => Err(AllFailed(host, |order|, if order == [] then None else Some(dial(order[|order| - 1]).err)))
  }

  /** How many addresses are dialled: up to and including the first that
      accepts, or all of them. */
  function Attempts(order: seq<IP>, dial: IP -> DialResult): nat {
    match FirstConnected(order, dial)
    case Some(i) => i + 1
    case None => |order|
  }

  /** Once the IPv6 addresses come first, an IPv4 address is used only after
      every IPv6 address failed. */
  lemma IPv4OnlyAfterIPv6Failed(order: seq<IP>, dial: IP -> DialResult)
    requires IPv6First(order)
    requires FirstConnected(order, dial).Some? && !IsIPv6(order[FirstConnected(order, dial).value])
    ensures forall k :: 0 <= k < |order| && IsIPv6(order[k]) ==> dial(order[k]).DialFailed?
  {
  }

  /** The transport's DialContext for one connection. `lookup` is what the
      resolver returned for the host and `dial` what connecting to each
      address gives. Returns the outcome, the order the addresses were put
      in, and how many were dialled. */
  method DialContext(host: string, lookup: Result<seq<IP>, string>, dial: IP -> DialResult)
    returns (r: Result<nat, DialError>, order: seq<IP>, attempts: nat)
    ensures lookup.Err? ==> r == Err(LookupFailed(host, lookup.error)) && attempts == 0
    ensures lookup.Ok? ==>
      && multiset(order) == multiset(lookup.value)
      && IPv6First(order)
      && r == DialInOrder(host, order, dial)
      && attempts == Attempts(order, dial)
  {
    if lookup.Err? {
      return Err(LookupFailed(host, lookup.error)), [], 0;
    }
    var candidates := lookup.value;
    var ips := new IP[|candidates|](i requires 0 <= i < |candidates| => candidates[i]);
    assert ips[..] == candidates;
    SortIPv6First(ips);
    order := ips[..];
    var lastErr: Option<string> := None;
    var i := 0;
    while i < ips.Length
      invariant 0 <= i <= ips.Length && order == ips[..]
      invariant forall k :: 0 <= k < i ==> dial(order[k]).DialFailed?
      invariant lastErr == if i == 0 then None else Some(dial(order[i - 1]).err)
    {
      var res := dial(ips[i]);
      if res.Connected? {
        assert FirstConnected(order, dial) == Some(i) by {
          FirstConnectedAt(order, dial, i);
        }
        return Ok(res.conn), order, i + 1;
      }
      lastErr := Some(res.err);
      i := i + 1;
    }
    assert FirstConnected(order, dial).None?;
    r := Err(AllFailed(host, ips.Length, lastErr));
    attempts := ips.Length;
  }

  /** The first accepting position is unique: an accepting address with only
      failures before it is the one FirstConnected finds. */
  lemma FirstConnectedAt(order: seq<IP>, dial: IP -> DialResult, i: nat)
    requires i < |order| && dial(order[i]).Connected?
    requires forall k :: 0 <= k < i ==> dial(order[k]).DialFailed?
    ensures FirstConnected(order, dial) == Some(i)
  {
  }
}
