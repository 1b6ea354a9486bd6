/** httpx.IsHTTPS: whether the inbound connection counts as HTTPS, which decides
    the Secure attribute of every cookie the gateway writes. */
module Https {
  import opened Http

  const ForwardedProto := "X-Forwarded-Proto"

  /** Simple Unicode case folding restricted to what can equal a lower-case
      ASCII letter: the letter, its upper case, and for 's' also U+017F
      (LATIN SMALL LETTER LONG S), which folds to 's'. */
  predicate FoldsTo(c: char, lower: char)
    requires 'a' <= lower <= 'z'
  {
    c == lower || c as int == lower as int - 32 || (lower == 's' && c == '\U{017F}')
  }

  /** strings.EqualFold(proto, "https"). */
  predicate EqualFoldHttps(proto: string) {
    |proto| == 5
    && FoldsTo(proto[0], 'h') && FoldsTo(proto[1], 't') && FoldsTo(proto[2], 't')
    && FoldsTo(proto[3], 'p') && FoldsTo(proto[4], 's')
  }

  /** Lower-casing under simple case folding, for the characters that matter. */
  function Fold(c: char): (r: char)
    ensures 'A' <= c <= 'Z' ==> r as int == c as int + 32
  {
    if 'A' <= c <= 'Z' then (c as int + 32) as char
    else if c == '\U{017F}' then 's'
    else c
  }

  /** Reference definition: the folded string is "https". */
  lemma EqualFoldHttpsIsFolding(proto: string)
    ensures EqualFoldHttps(proto) <==> |proto| == 5 && forall i :: 0 <= i < 5 ==> Fold(proto[i]) == "https"[i]
  {
    if |proto| == 5 && forall i :: 0 <= i < 5 ==> Fold(proto[i]) == "https"[i] {
      assert Fold(proto[0]) == 'h' && Fold(proto[1]) == 't' && Fold(proto[2]) == 't';
      assert Fold(proto[3]) == 'p' && Fold(proto[4]) == 's';
    }
  }

  /** Scheme first, then the TLS state, then a non-empty X-Forwarded-Proto. */
  predicate IsHTTPS(r: Request) {
    if r.scheme == "https" then true
    else if r.tls then true
    else
      var proto := Get(r.header, ForwardedProto);
      if proto != "" then EqualFoldHttps(proto) else false
  }

  /** The precedence chain collapses to one disjunction: a direct TLS signal
      wins, and otherwise only a header folding to "https" says yes. */
  lemma IsHTTPSCharacterized(r: Request)
    ensures IsHTTPS(r) <==> r.scheme == "https" || r.tls || EqualFoldHttps(Get(r.header, ForwardedProto))
  {
  }

  /** A TLS connection counts as HTTPS whatever X-Forwarded-Proto claims. */
  lemma TlsOverridesHeader(r: Request)
    requires r.tls
    requires ForwardedProto in r.header && r.header[ForwardedProto] == ["http"]
    ensures IsHTTPS(r)
  {
  }

  /** Without scheme, TLS or header the connection is plain HTTP. */
  lemma NoSignalIsPlain(r: Request)
    requires r.scheme != "https" && !r.tls && Get(r.header, ForwardedProto) == ""
    ensures !IsHTTPS(r)
  {
  }

  /** The header comparison ignores case, but is not a prefix or substring test. */
  lemma HeaderFoldExamples()
    ensures EqualFoldHttps("HTTPS") && EqualFoldHttps("Https") && EqualFoldHttps("http\U{017F}")
    ensures !EqualFoldHttps("http") && !EqualFoldHttps("https ") && !EqualFoldHttps("")
  {
  }
}
