/** Config.URI and the route table: every gateway endpoint lives under the
    configurable prefix, optionally behind the public origin. */
module Routes {
  import opened Config

  type RouteKey = string

  const RouteLogin: RouteKey := "login"
  const RouteLogout: RouteKey := "logout"
  const RouteCallback: RouteKey := "callback"
  const RouteHealth: RouteKey := "health"

  const RoutePaths: map<RouteKey, string> := map[
    RouteLogin := "/oauth/login",
    RouteLogout := "/oauth/logout",
    RouteCallback := "/oauth/callback",
    RouteHealth := "/health"]

  datatype URLType = PathOnly | FullURL

  /** A Go map read: a missing key yields the zero value "". */
  function RoutePath(key: RouteKey): string {
    if key in RoutePaths then RoutePaths[key] else ""
  }

  function URI(c: Config, key: RouteKey, urlType: URLType): string {
    var path := c.authPrefix + RoutePath(key);
    if urlType == FullURL then c.publicURL + path else path
  }

  /** Every known endpoint is mounted strictly below the prefix, as a new path
      segment, so none of them is the bare prefix; the full URL ends with the
      path form, so both forms name the same endpoint. */
  lemma RoutesUnderPrefix(c: Config, key: RouteKey)
    requires key in RoutePaths
    ensures var path := URI(c, key, PathOnly);
      && |path| > |c.authPrefix|
      && path[..|c.authPrefix|] == c.authPrefix
      && path[|c.authPrefix|] == '/'
    ensures var path := URI(c, key, PathOnly);
      var full := URI(c, key, FullURL);
      |full| >= |path| && full[|full| - |path|..] == path
  {
    var path := URI(c, key, PathOnly);
    var full := URI(c, key, FullURL);
    assert RoutePath(key)[0] == '/';
    assert path[|c.authPrefix|] == RoutePath(key)[0];
    assert full == c.publicURL + path;
    assert full[|c.publicURL|..] == path;
  }

  /** The route table, and a missing key contributing nothing. */
  lemma RouteTable(c: Config, key: RouteKey)
    ensures URI(c, RouteLogin, PathOnly) == c.authPrefix + "/oauth/login"
    ensures URI(c, RouteLogout, PathOnly) == c.authPrefix + "/oauth/logout"
    ensures URI(c, RouteCallback, PathOnly) == c.authPrefix + "/oauth/callback"
    ensures URI(c, RouteHealth, PathOnly) == c.authPrefix + "/health"
    ensures key !in RoutePaths ==> URI(c, key, PathOnly) == c.authPrefix
  {
    if key !in RoutePaths {
      assert c.authPrefix + "" == c.authPrefix;
    }
  }

  /** Under one configuration the four endpoints never share a path. */
  lemma {:induction false} RoutesDistinct(c: Config, k1: RouteKey, k2: RouteKey, urlType: URLType)
    requires k1 in RoutePaths && k2 in RoutePaths && k1 != k2
    ensures URI(c, k1, urlType) != URI(c, k2, urlType)
  {
    var p1, p2 := RoutePath(k1), RoutePath(k2);
    var pre := if urlType == FullURL then c.publicURL + c.authPrefix else c.authPrefix;
    assert URI(c, k1, urlType) == pre + p1 && URI(c, k2, urlType) == pre + p2;
    assert p1 != p2;
    assert (pre + p1)[|pre|..] == p1 && (pre + p2)[|pre|..] == p2;
  }
}
