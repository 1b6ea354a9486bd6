/** config.Load and Config.Validate: the gateway's settings come from the
    environment (an input map here), with defaults for the port and the route
    prefix, and startup fails unless the five required settings are present. */
module Config {
  import opened Wrappers

  datatype Config = Config(
    railwayClientID: string,
    railwayClientSecret: string,
    railwayWorkspaceID: string,
    backendURL: string,
    publicURL: string,
    port: int,
    authPrefix: string)

  const DefaultPort := "8080"
  const DefaultAuthPrefix := "/_turnstile"

  /** os.Getenv: an unset variable reads as "". */
  function Getenv(env: map<string, string>, name: string): string {
    if name in env then env[name] else ""
  }

  // ---------------------------------------------------------------------
  // strconv.Atoi (base 10, 64-bit int)

  datatype NumError = ErrSyntax | ErrRange

  datatype ConfigError = InvalidPort(cause: NumError) | Required(variable: string)

  const MaxUint64 := 0xFFFF_FFFF_FFFF_FFFF
  const Cutoff := MaxUint64 / 10 + 1
  const Int64Bound := 0x8000_0000_0000_0000

  predicate IsDigit(c: char) { '0' <= c <= '9' }

  function Digit(c: char): nat
    requires IsDigit(c)
  {
    c as int - '0' as int
  }

  predicate AllDigits(s: string) { forall i :: 0 <= i < |s| ==> IsDigit(s[i]) }

  /** The number the decimal digits of `s` denote, read after `acc`. */
  function Combine(acc: nat, s: string): nat
    requires AllDigits(s)
    decreases |s|
  {
    if s == "" then acc else Combine(acc * 10 + Digit(s[0]), s[1..])
  }

  /** ParseUint's digit loop: a non-digit is a syntax error, and the scan stops
      with a range error as soon as the value would exceed 64 bits. */
  function ScanUint(s: string, n: nat): Result<nat, NumError>
  {
    if s == "" then Ok(n)
    else if !IsDigit(s[0]) then Err(ErrSyntax)
    else if n >= Cutoff then Err(ErrRange)
    else
      var n1 := n * 10 + Digit(s[0]);
      if n1 > MaxUint64 then Err(ErrRange) else ScanUint(s[1..], n1)
  }

  function StripSign(s: string): string {
    if s != "" && (s[0] == '+' || s[0] == '-') then s[1..] else s
  }

  /** strconv.Atoi(s) on a 64-bit platform: an optional sign, then at least
      one decimal digit, and the value must fit an int64. (Atoi's fast path for
      short strings gives the same outcome as this general path.) */
  function Atoi(s: string): Result<int, NumError>
  {
    if s == "" then Err(ErrSyntax)
    else
      var neg := s[0] == '-';
      var digits := StripSign(s);
      var un := if digits == "" then Err(ErrSyntax) else ScanUint(digits, 0);
      match un
      case Err(e) => Err(e)
      case Ok(u) =>
        if !neg && u >= Int64Bound then Err(ErrRange)
        else if neg && u > Int64Bound then Err(ErrRange)
        else Ok(if neg then -u else u)
  }

  lemma {:induction false} CombineGrows(acc: nat, s: string)
    requires AllDigits(s)
    ensures Combine(acc, s) >= acc
    ensures s != "" ==> Combine(acc, s) >= acc * 10
    decreases |s|
  {
    if s != "" {
      CombineGrows(acc * 10 + Digit(s[0]), s[1..]);
    }
  }

  /** The early range exit of the digit loop loses nothing: the scan succeeds
      exactly when all characters are digits and the full value fits 64 bits. */
  lemma {:induction false} ScanUintValue(s: string, n: nat)
    requires n <= MaxUint64
    ensures ScanUint(s, n).Ok? <==> AllDigits(s) && Combine(n, s) <= MaxUint64
    ensures ScanUint(s, n).Ok? ==> ScanUint(s, n).value == Combine(n, s)
  {
    if s != "" {
      if !IsDigit(s[0]) {
        assert !AllDigits(s);
      } else {
        assert AllDigits(s) <==> AllDigits(s[1..]);
        var n1 := n * 10 + Digit(s[0]);
        if AllDigits(s) {
          CombineGrows(n1, s[1..]);
        }
        if n1 <= MaxUint64 && n < Cutoff {
          ScanUintValue(s[1..], n1);
        }
      }
    }
  }

  /** Atoi accepts exactly a signed decimal numeral whose value fits an int64,
      and returns that value. */
  lemma AtoiValue(s: string)
    ensures Atoi(s).Ok? <==>
      var d := StripSign(s);
      s != "" && d != "" && AllDigits(d)
      && (if s[0] == '-' then Combine(0, d) <= Int64Bound else Combine(0, d) < Int64Bound)
    ensures Atoi(s).Ok? ==>
      Atoi(s).value == (if s[0] == '-' then -(Combine(0, StripSign(s)) as int) else Combine(0, StripSign(s)) as int)
  {
    if s != "" && StripSign(s) != "" {
      ScanUintValue(StripSign(s), 0);
    }
  }

  // ---------------------------------------------------------------------
  // Validate and Load

  /** The required settings, by environment variable name, in the order
      Validate checks them. */
  function RequiredSettings(c: Config): seq<(string, string)> {
    [ ("RAILWAY_CLIENT_ID", c.railwayClientID),
      ("RAILWAY_CLIENT_SECRET", c.railwayClientSecret),
      ("RAILWAY_WORKSPACE_ID", c.railwayWorkspaceID),
      ("TURNSTILE_BACKEND_URL", c.backendURL),
      ("TURNSTILE_PUBLIC_URL", c.publicURL) ]
  }

  /** Reference definition: the name of the first empty setting in a list. */
  function FirstMissing(settings: seq<(string, string)>): (r: Option<string>)
    ensures r.None? <==> forall i :: 0 <= i < |settings| ==> settings[i].1 != ""
    ensures r.Some? ==> exists i :: (0 <= i < |settings| && settings[i].1 == ""
      && r.value == settings[i].0 && forall j :: 0 <= j < i ==> settings[j].1 != "")
  {
    if settings == [] then None
    else if settings[0].1 == "" then Some(settings[0].0)
    else
      var rest := FirstMissing(settings[1..]);
      if rest.Some? then
        var i :| 0 <= i < |settings| - 1 && settings[1..][i].1 == ""
          && rest.value == settings[1..][i].0 && forall j :: 0 <= j < i ==> settings[1..][j].1 != "";
        assert settings[i + 1].1 == "" && forall j :: 0 <= j < i + 1 ==> settings[j].1 != "";
        rest
      else rest
  }

  /** Config.Validate: the name of the first missing required setting, or None. */
  function Validate(c: Config): (r: Option<string>)
  {
    if c.railwayClientID == "" then Some("RAILWAY_CLIENT_ID")
    else if c.railwayClientSecret == "" then Some("RAILWAY_CLIENT_SECRET")
    else if c.railwayWorkspaceID == "" then Some("RAILWAY_WORKSPACE_ID")
    else if c.backendURL == "" then Some("TURNSTILE_BACKEND_URL")
    else if c.publicURL == "" then Some("TURNSTILE_PUBLIC_URL")
    else None
  }

  /** Validate reports the first missing setting in the fixed check order, and
      succeeds exactly when all five are non-empty. */
  lemma ValidateIsFirstMissing(c: Config)
    ensures Validate(c) == FirstMissing(RequiredSettings(c))
    ensures Validate(c).None? <==>
      c.railwayClientID != "" && c.railwayClientSecret != "" && c.railwayWorkspaceID != ""
      && c.backendURL != "" && c.publicURL != ""
  {
    var s := RequiredSettings(c);
    assert FirstMissing(s[1..][1..][1..][1..][1..]) == None;
    assert FirstMissing(s[1..][1..][1..][1..]) == if c.publicURL == "" then Some("TURNSTILE_PUBLIC_URL") else None;
    assert FirstMissing(s[1..][1..][1..]) == if c.backendURL == "" then Some("TURNSTILE_BACKEND_URL")
      else FirstMissing(s[1..][1..][1..][1..]);
    assert FirstMissing(s[1..][1..]) == if c.railwayWorkspaceID == "" then Some("RAILWAY_WORKSPACE_ID")
      else FirstMissing(s[1..][1..][1..]);
    assert FirstMissing(s[1..]) == if c.railwayClientSecret == "" then Some("RAILWAY_CLIENT_SECRET")
      else FirstMissing(s[1..][1..]);
  }

  /** The required settings as read from the environment, in check order. */
  function RequiredFromEnv(env: map<string, string>): seq<(string, string)> {
    [ ("RAILWAY_CLIENT_ID", Getenv(env, "RAILWAY_CLIENT_ID")),
      ("RAILWAY_CLIENT_SECRET", Getenv(env, "RAILWAY_CLIENT_SECRET")),
      ("RAILWAY_WORKSPACE_ID", Getenv(env, "RAILWAY_WORKSPACE_ID")),
      ("TURNSTILE_BACKEND_URL", Getenv(env, "TURNSTILE_BACKEND_URL")),
      ("TURNSTILE_PUBLIC_URL", Getenv(env, "TURNSTILE_PUBLIC_URL")) ]
  }

  /** config.Load: defaults first, then the port must parse, then Validate. */
  function Load(env: map<string, string>): Result<Config, ConfigError>
  {
    var portStr := if Getenv(env, "PORT") == "" then DefaultPort else Getenv(env, "PORT");
    var authPrefix :=
      if Getenv(env, "TURNSTILE_AUTH_PREFIX") == "" then DefaultAuthPrefix
      else Getenv(env, "TURNSTILE_AUTH_PREFIX");
    match Atoi(portStr)
    case Err(e) => Err(InvalidPort(e))
    case Ok(port) =>
      var cfg := Config(
        Getenv(env, "RAILWAY_CLIENT_ID"),
        Getenv(env, "RAILWAY_CLIENT_SECRET"),
        Getenv(env, "RAILWAY_WORKSPACE_ID"),
        Getenv(env, "TURNSTILE_BACKEND_URL"),
        Getenv(env, "TURNSTILE_PUBLIC_URL"),
        port,
        authPrefix);
      match Validate(cfg)
      case Some(name) => Err(Required(name))
      case None => Ok(cfg)
  }

  /** An unset PORT means 8080. */
  lemma DefaultPortParses()
    ensures Atoi(DefaultPort) == Ok(8080)
  {
    AtoiValue(DefaultPort);
    assert StripSign(DefaultPort) == DefaultPort;
    assert "8080"[1..] == "080" && "080"[1..] == "80" && "80"[1..] == "0" && "0"[1..] == "";
    assert Combine(0, "8080") == Combine(8, "080") == Combine(80, "80") == Combine(808, "0") == 8080;
  }

  /** What a successful Load holds: the five settings as read, the port parsed
      from PORT or 8080, and the prefix from the environment or "/_turnstile";
      Load fails whenever the port does not parse or a setting is missing, and
      succeeds whenever the port parses and all five settings are present; a
      missing-setting error names the first one missing in check order. */
  lemma LoadDefaults(env: map<string, string>)
    ensures Load(env).Ok? ==>
      var c := Load(env).value;
      && c.authPrefix == (if Getenv(env, "TURNSTILE_AUTH_PREFIX") == "" then DefaultAuthPrefix
                          else Getenv(env, "TURNSTILE_AUTH_PREFIX"))
      && (Getenv(env, "PORT") == "" ==> c.port == 8080)
      && (Getenv(env, "PORT") != "" ==> Atoi(Getenv(env, "PORT")) == Ok(c.port))
      && c.railwayClientID == Getenv(env, "RAILWAY_CLIENT_ID")
      && c.railwayClientSecret == Getenv(env, "RAILWAY_CLIENT_SECRET")
      && c.railwayWorkspaceID == Getenv(env, "RAILWAY_WORKSPACE_ID")
      && c.backendURL == Getenv(env, "TURNSTILE_BACKEND_URL")
      && c.publicURL == Getenv(env, "TURNSTILE_PUBLIC_URL")
      && Validate(c).None?
    ensures Getenv(env, "PORT") != "" && Atoi(Getenv(env, "PORT")).Err? ==>
      Load(env) == Err(InvalidPort(Atoi(Getenv(env, "PORT")).error))
    ensures Getenv(env, "RAILWAY_CLIENT_ID") == "" ==> Load(env).Err?
    ensures (Getenv(env, "PORT") == "" || Atoi(Getenv(env, "PORT")).Ok?) ==>
      (Load(env).Ok? <==>
        && Getenv(env, "RAILWAY_CLIENT_ID") != "" && Getenv(env, "RAILWAY_CLIENT_SECRET") != ""
        && Getenv(env, "RAILWAY_WORKSPACE_ID") != "" && Getenv(env, "TURNSTILE_BACKEND_URL") != ""
        && Getenv(env, "TURNSTILE_PUBLIC_URL") != "")
    ensures Load(env).Err? && Load(env).error.Required? ==>
      Some(Load(env).error.variable) == FirstMissing(RequiredFromEnv(env))
  {
    DefaultPortParses();
    var portStr := if Getenv(env, "PORT") == "" then DefaultPort else Getenv(env, "PORT");
    if Atoi(portStr).Ok? {
      var cfg := Config(
        Getenv(env, "RAILWAY_CLIENT_ID"),
        Getenv(env, "RAILWAY_CLIENT_SECRET"),
        Getenv(env, "RAILWAY_WORKSPACE_ID"),
        Getenv(env, "TURNSTILE_BACKEND_URL"),
        Getenv(env, "TURNSTILE_PUBLIC_URL"),
        Atoi(portStr).value,
        if Getenv(env, "TURNSTILE_AUTH_PREFIX") == "" then DefaultAuthPrefix
        else Getenv(env, "TURNSTILE_AUTH_PREFIX"));
      ValidateIsFirstMissing(cfg);
      assert RequiredSettings(cfg) == RequiredFromEnv(env);
    }
  }
}
