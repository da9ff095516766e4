/**
 * The remote player's endpoint and the `host` string handed to the client's
 * `login` (src/DacpAccessory.js:156): the discovered host, a colon, and the port
 * rendered as a template literal renders a number.
 */
module Endpoints {
  import opened Wrappers

  /** What a discovery event reports for the remote player (`service.host`, `service.port`). */
  datatype Endpoint = Endpoint(host: string, port: nat)

  predicate IsDigit(c: char) {
    '0' <= c <= '9'
  }

  predicate AllDigits(s: string) {
    forall k :: 0 <= k < |s| ==> IsDigit(s[k])
  }

  function DigitValue(c: char): (d: nat)
    requires IsDigit(c)
    ensures d < 10
  {
    c as int - '0' as int
  }

  function DigitChar(d: nat): (c: char)
    requires d < 10
    ensures IsDigit(c) && DigitValue(c) == d
  {
    ('0' as int + d) as char
  }

  /** The decimal numeral of a non-negative integer, without leading zeros. */
  function Decimal(n: nat): (s: string)
    ensures 1 <= |s| && AllDigits(s)
    ensures s[0] == '0' <==> n == 0
    ensures n == 0 ==> s == "0"
    decreases n
  {
    if n < 10 then [DigitChar(n)] else Decimal(n / 10) + [DigitChar(n % 10)]
  }

  /** The value of a numeral (the inverse of Decimal). */
  function ParseDecimal(s: string): nat
    requires AllDigits(s)
    decreases |s|
  {
    if s == [] then 0 else ParseDecimal(s[..|s| - 1]) * 10 + DigitValue(s[|s| - 1])
  }

  lemma {:induction false} ParseDecimalOfDecimal(n: nat)
    ensures ParseDecimal(Decimal(n)) == n
    decreases n
  {
    var s := Decimal(n);
    if n < 10 {
      assert s[..|s| - 1] == [];
    } else {
      assert s[..|s| - 1] == Decimal(n / 10);
      ParseDecimalOfDecimal(n / 10);
    }
  }

  /**
   * The `host` field of the login request: `${host}:${port}`. Before any
   * discovery event both fields are unset, and the template renders them as
   * "undefined".
   */
  function LoginHost(remote: Option<Endpoint>): (r: string)
    ensures remote.None? ==> r == "undefined:undefined"
    ensures remote.Some? ==>
      var k := |remote.value.host|;
      k + 1 < |r| && r[..k] == remote.value.host && r[k] == ':' &&
      AllDigits(r[k + 1..]) && ParseDecimal(r[k + 1..]) == remote.value.port &&
      (r[k + 1] == '0' ==> remote.value.port == 0 && r[k + 1..] == "0")
  {
    match remote
    case None => "undefined:undefined"
    case Some(ep) =>
      var h := ep.host + ":" + Decimal(ep.port);
      ParseDecimalOfDecimal(ep.port);
      assert h[|ep.host| + 1..] == Decimal(ep.port);
      h
  }

  /** The position of the last occurrence of `c` in `s`, if any. */
  function LastIndexOf(s: string, c: char): (r: Option<nat>)
    ensures r.Some? ==> r.value < |s| && s[r.value] == c
    ensures r.Some? ==> forall k :: r.value < k < |s| ==> s[k] != c
    ensures r.None? <==> c !in s
    decreases |s|
  {
    if s == [] then None
    else if s[|s| - 1] == c then Some(|s| - 1)
    else
      var r := LastIndexOf(s[..|s| - 1], c);
      assert forall k :: 0 <= k < |s| - 1 ==> s[..|s| - 1][k] == s[k];
      r
  }

  /** Reads an endpoint back from a login host string, splitting at the last colon. */
  function ParseLoginHost(h: string): Option<Endpoint> {
    match LastIndexOf(h, ':')
    case None => None
    case Some(k) =>
      var digits := h[k + 1..];
      if digits != [] && AllDigits(digits) then Some(Endpoint(h[..k], ParseDecimal(digits))) else None
  }

  /**
   * The login host names the endpoint unambiguously: the host and the port are
   * recovered from it, even when the host itself holds colons (an IPv6 address).
   */
  lemma LoginHostNamesEndpoint(ep: Endpoint)
    ensures ParseLoginHost(LoginHost(Some(ep))) == Some(ep)
  {
    var d := Decimal(ep.port);
    var h := ep.host + ":" + d;
    assert h[|ep.host|] == ':';
    var r := LastIndexOf(h, ':');
    assert r == Some(|ep.host|) by {
      assert ':' in h;
    }
    assert h[..|ep.host|] == ep.host;
    assert h[|ep.host| + 1..] == d;
    ParseDecimalOfDecimal(ep.port);
  }

  /** The login host of the endpoint 10.0.0.5:3689. */
  lemma LoginHostExample()
    ensures LoginHost(Some(Endpoint("10.0.0.5", 3689))) == "10.0.0.5:3689"
  {
    assert Decimal(3689) == "3689" by {
      assert Decimal(3) == "3";
      assert Decimal(36) == "36";
      assert Decimal(368) == "368";
    }
  }
}
