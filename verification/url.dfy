/** The part of Go's net/url the gateway relies on to build redirect locations:
    `url.QueryEscape` and `url.Values.Encode`. */
module Url {
  import opened Wrappers

  /** RFC 3986 unreserved characters: the only ones QueryEscape leaves alone. */
  predicate IsUnreserved(c: char) {
    ('A' <= c <= 'Z') || ('a' <= c <= 'z') || ('0' <= c <= '9')
    || c == '-' || c == '_' || c == '.' || c == '~'
  }

  /** What may appear in an escaped query component. */
  predicate IsEscapedChar(c: char) {
    IsUnreserved(c) || c == '%' || c == '+'
  }

  /** The UTF-8 encoding of one Unicode scalar value (Go strings are UTF-8 bytes). */
  function Utf8(c: char): (r: seq<Byte>)
    ensures 1 <= |r| <= 4
    ensures |r| == 1 <==> (c as int) < 0x80
    ensures |r| == 1 ==> r[0] == c as int
    ensures |r| > 1 ==> forall i :: 0 <= i < |r| ==> r[i] >= 0x80
  {
    var n := c as int;
    if n < 0x80 then [n]
    else if n < 0x800 then [0xC0 + n / 64, 0x80 + n % 64]
    else if n < 0x1_0000 then [0xE0 + n / 4096, 0x80 + (n / 64) % 64, 0x80 + n % 64]
    else [0xF0 + n / 262144, 0x80 + (n / 4096) % 64, 0x80 + (n / 64) % 64, 0x80 + n % 64]
  }

  function HexDigit(d: int): (c: char)
    requires 0 <= d < 16
    ensures IsUnreserved(c)
  {
    if d < 10 then ('0' as int + d) as char else ('A' as int + d - 10) as char
  }

  /** Escaping of one byte in query-component mode: unreserved ASCII is kept,
      a space becomes '+', every other byte becomes %XX with upper-case hex. */
  function EscapeByte(b: Byte): (r: string)
    ensures forall i :: 0 <= i < |r| ==> IsEscapedChar(r[i])
  {
    if b == 32 then "+"
    else if b < 0x80 && IsUnreserved(b as char) then [b as char]
    else ['%', HexDigit(b / 16), HexDigit(b % 16)]
  }

  function EscapeBytes(bs: seq<Byte>): (r: string)
    ensures forall i :: 0 <= i < |r| ==> IsEscapedChar(r[i])
  {
    if bs == [] then "" else EscapeByte(bs[0]) + EscapeBytes(bs[1..])
  }

  /** url.QueryEscape: the result can never carry a query separator
      ('&', '=', '?', '#') or a slash, so it stays one parameter value. */
  function QueryEscape(s: string): (r: string)
    ensures forall i :: 0 <= i < |r| ==> IsEscapedChar(r[i])
  {
    if s == "" then "" else EscapeBytes(Utf8(s[0])) + QueryEscape(s[1..])
  }

  /** Escaping distributes over concatenation: it works character by character. */
  lemma {:induction false} QueryEscapeAppend(a: string, b: string)
    ensures QueryEscape(a + b) == QueryEscape(a) + QueryEscape(b)
  {
    if a == "" {
      assert a + b == b;
    } else {
      assert (a + b)[0] == a[0];
      assert (a + b)[1..] == a[1..] + b;
      QueryEscapeAppend(a[1..], b);
    }
  }

  /** A string made only of unreserved characters is its own escape. */
  lemma {:induction false} QueryEscapeUnreserved(s: string)
    requires forall i :: 0 <= i < |s| ==> IsUnreserved(s[i])
    ensures QueryEscape(s) == s
  {
    if s != "" {
      QueryEscapeUnreserved(s[1..]);
      var n := s[0] as int;
      assert Utf8(s[0]) == [n];
      assert (n as char) == s[0];
      assert EscapeBytes([n]) == EscapeByte(n) + EscapeBytes([]);
      assert QueryEscape(s) == [s[0]] + s[1..];
    }
  }

  /** url.Values.Encode for parameters already listed in ascending key order,
      which is the order Encode sorts them into: `k=v` pairs joined by '&'. */
  function EncodeQuery(params: seq<(string, string)>): string
  {
    if params == [] then ""
    else
      var head := QueryEscape(params[0].0) + "=" + QueryEscape(params[0].1);
      if |params| == 1 then head else head + "&" + EncodeQuery(params[1..])
  }

  /** An encoded query holds only escaped characters and the '=' and '&'
      separators, so no parameter value can end the query with '#' or start a
      new one with a stray '&' or '='. */
  lemma {:induction false} EncodeQueryChars(params: seq<(string, string)>)
    ensures forall i :: 0 <= i < |EncodeQuery(params)| ==>
      var c := EncodeQuery(params)[i];
      IsEscapedChar(c) || c == '=' || c == '&'
    decreases |params|
  {
    if params != [] {
      var head := QueryEscape(params[0].0) + "=" + QueryEscape(params[0].1);
      assert forall i :: 0 <= i < |head| ==> IsEscapedChar(head[i]) || head[i] == '=';
      if |params| > 1 {
        EncodeQueryChars(params[1..]);
      }
    }
  }
}
