/**
 * The root URL the browser is sent to: `"%s://%s:%d%s"` with the scheme
 * `http`, the host address, the port the connector was bound to (in decimal,
 * locale-independent) and the path. `ParseUrl` reads such a URL back.
 */
module Url {
  import opened Wrappers
  import opened Text

  const Scheme: string := "http://"

  datatype Parts = Parts(host: string, port: int, path: string)

  function DigitChar(d: nat): char
    requires d < 10
  {
    ('0' as int + d) as char
  }

  function DigitValue(c: char): (r: Option<nat>)
    ensures r.Some? ==> r.value < 10 && DigitChar(r.value) == c
  {
    if '0' <= c <= '9' then Some(c as int - '0' as int) else None
  }

  /** `%d` of a non-negative number: its shortest decimal digits. */
  function Digits(n: nat): (s: string)
    ensures 0 < |s|
    ensures forall i :: 0 <= i < |s| ==> '0' <= s[i] <= '9'
  {
    if n < 10 then [DigitChar(n)] else Digits(n / 10) + [DigitChar(n % 10)]
  }

  /** `%d` under the root locale: a minus sign, then the digits of the magnitude. */
  function Decimal(n: int): string
  {
    if n < 0 then "-" + Digits(-n) else Digits(n)
  }

  /** `%d` text is a minus sign exactly for negative numbers, then a non-empty run of digits. */
  lemma DecimalFormat(n: int)
    ensures var s := Decimal(n); 0 < |s| && (s[0] == '-' <==> n < 0)
    ensures var s := Decimal(n); forall i :: (if n < 0 then 1 else 0) <= i < |s| ==> '0' <= s[i] <= '9'
    ensures n < 0 ==> |Decimal(n)| > 1
  {
  }

  /** The value of a non-empty run of decimal digits. */
  function DigitsValue(s: string): Option<nat>
  {
    if s == [] then None
    else
      match DigitValue(s[|s| - 1])
      case None => None
      case Some(d) =>
        if |s| == 1 then Some(d)
        else
          match DigitsValue(s[..|s| - 1])
          case None => None
          case Some(v) => Some(10 * v + d)
  }

  /** The value of a decimal number with an optional leading minus sign. */
  function DecimalValue(s: string): Option<int>
  {
    if s != [] && s[0] == '-' then
      match DigitsValue(s[1..])
      case None => None
      case Some(v) => Some(-(v as int))
    else
      match DigitsValue(s)
      case None => None
      case Some(v) => Some(v)
  }

  /** `getUrl(path)` for the given host address and bound port. */
  function GetUrl(host: string, port: int, path: string): (u: string)
    ensures StartsWith(u, Scheme)
  {
    Scheme + host + ":" + Decimal(port) + path
  }

  /** Reads a URL made by `GetUrl` back into its host, port and path. */
  function ParseUrl(u: string): Option<Parts>
  {
    if !StartsWith(u, Scheme) then None
    else
      var rest := u[|Scheme|..];
      match IndexOf(rest, ':')
      case None => None
      case Some(i) =>
        var after := rest[i + 1..];
        match IndexOf(after, '/')
        case None => None
        case Some(j) =>
          match DecimalValue(after[..j])
          case None => None
          case Some(port) => Some(Parts(rest[..i], port, after[j..]))
  }

  lemma {:induction false} DigitsRoundTrip(n: nat)
    ensures DigitsValue(Digits(n)) == Some(n)
    decreases n
  {
    var s := Digits(n);
    assert DigitValue(DigitChar(n % 10)) == Some(n % 10);
    if n >= 10 {
      DigitsRoundTrip(n / 10);
      assert s[..|s| - 1] == Digits(n / 10);
    }
  }

  lemma NegativeRoundTrip(n: int)
    requires n < 0
    ensures DecimalValue(Decimal(n)) == Some(n)
  {
    var m: nat := -n;
    var ds := Digits(m);
    DigitsRoundTrip(m);
    var s := "-" + ds;
    assert Decimal(n) == s;
    SplitAt("-", ds);
    assert s[0] == '-' && s[1..] == ds;
    assert DigitsValue(s[1..]) == Some(m);
  }

  lemma NonNegativeRoundTrip(n: int)
    requires n >= 0
    ensures DecimalValue(Decimal(n)) == Some(n)
  {
    var ds := Digits(n);
    DigitsRoundTrip(n);
    assert Decimal(n) == ds;
    assert ds[0] != '-';
  }

  lemma DecimalRoundTrip(n: int)
    ensures DecimalValue(Decimal(n)) == Some(n)
  {
    if n < 0 {
      NegativeRoundTrip(n);
    } else {
      NonNegativeRoundTrip(n);
    }
  }

  /**
   * A host without a colon, any port and a path starting with a slash are
   * recovered from the URL. (An IPv6 address, written without brackets,
   * contains colons and is not covered.)
   */
  lemma UrlRoundTrip(host: string, port: int, path: string)
    requires ':' !in host
    requires path != [] && path[0] == '/'
    ensures ParseUrl(GetUrl(host, port, path)) == Some(Parts(host, port, path))
  {
    DecimalHasNoSlash(port);
    DecimalRoundTrip(port);
    ParseAuthority(host, Decimal(port), port, path);
  }

  /** The URL text splits at the first colon after the host and the first slash after the port text. */
  lemma ParseAuthority(host: string, dec: string, port: int, path: string)
    requires ':' !in host && '/' !in dec
    requires path != [] && path[0] == '/'
    requires DecimalValue(dec) == Some(port)
    ensures ParseUrl(Scheme + host + ":" + dec + path) == Some(Parts(host, port, path))
  {
    var u := Scheme + host + ":" + dec + path;
    var authority := ":" + (dec + path);
    var rest := host + authority;
    AppendAssoc(":", dec, path);
    AppendAssoc(Scheme, host, ":");
    AppendAssoc(Scheme + host, ":", dec);
    AppendAssoc(Scheme + host + ":", dec, path);
    AppendAssoc(Scheme + host, ":", dec + path);
    AppendAssoc(Scheme, host, authority);
    assert u == Scheme + rest;
    SplitAt(Scheme, rest);
    IndexOfBoundary(host, authority, ':');
    SplitAt(host, authority);
    SplitAt(":", dec + path);
    assert rest[|host| + 1..] == dec + path;
    IndexOfBoundary(dec, path, '/');
    SplitAt(dec, path);
  }

  /** The port text has no slash, so the path begins at the first slash after the colon. */
  lemma DecimalHasNoSlash(n: int)
    ensures '/' !in Decimal(n)
  {
  }
}
