/**
 * How a session turns its stored address and port into the endpoint it dials
 * (ros.go:67-70): the address alone when the port is 0, otherwise the address,
 * a colon and the port written in decimal as Go's "%d" verb writes an int.
 * The parser below is a reference definition used only to state that the
 * endpoint determines the address and port it was built from.
 */
module Addressing {

  datatype Option<T> = None | Some(value: T)

  /** The decimal digit character for `d`. */
  function DigitChar(d: nat): char
    requires d < 10
  {
    ('0' as int + d) as char
  }

  predicate IsDigit(c: char)
  {
    '0' <= c <= '9'
  }

  predicate AllDigits(s: string)
  {
    forall i :: 0 <= i < |s| ==> IsDigit(s[i])
  }

  /** The digits of `n`, most significant first, without leading zeros. */
  function NatDigits(n: nat): string
    decreases n
  {
    if n < 10 then [DigitChar(n)] else NatDigits(n / 10) + [DigitChar(n % 10)]
  }

  /** `n` as Go's "%d" writes it: a minus sign for negatives, then the digits. */
  function Decimal(n: int): (s: string)
    ensures |s| >= 1
    ensures s[0] == '-' <==> n < 0
    ensures AllDigits(if n < 0 then s[1..] else s)
    ensures var d := if n < 0 then s[1..] else s; |d| >= 1 && (d[0] == '0' ==> n == 0)
  {
    NatDigitsRoundTrip(if n < 0 then -n else n);
    NatDigitsNoLeadingZero(if n < 0 then -n else n);
    if n < 0 then "-" + NatDigits(-n) else NatDigits(n)
  }

  /** Like "%d", the digits never start with a zero unless the number is 0. */
  lemma {:induction false} NatDigitsNoLeadingZero(n: nat)
    ensures |NatDigits(n)| >= 1 && (NatDigits(n)[0] == '0' ==> n == 0)
    decreases n
  {
    if n >= 10 {
      NatDigitsNoLeadingZero(n / 10);
      assert NatDigits(n)[0] == NatDigits(n / 10)[0];
    }
  }

  /** The value of a string of decimal digits. */
  function DigitsValue(s: string): nat
    requires AllDigits(s)
  {
    if s == [] then 0 else DigitsValue(s[..|s| - 1]) * 10 + (s[|s| - 1] as int - '0' as int)
  }

  /** Reads an optionally negative decimal integer; None unless `s` is one. */
  function ParseDecimal(s: string): Option<int>
  {
    if |s| > 0 && s[0] == '-' then
      if |s| > 1 && AllDigits(s[1..]) then Some(-(DigitsValue(s[1..]) as int)) else None
    else if |s| > 0 && AllDigits(s) then Some(DigitsValue(s) as int)
    else None
  }

  lemma {:induction false} NatDigitsRoundTrip(n: nat)
    ensures |NatDigits(n)| >= 1 && AllDigits(NatDigits(n))
    ensures DigitsValue(NatDigits(n)) == n
    decreases n
  {
    var s := NatDigits(n);
    if n < 10 {
      assert s[..|s| - 1] == [];
    } else {
      NatDigitsRoundTrip(n / 10);
      assert s[..|s| - 1] == NatDigits(n / 10);
    }
  }

  /** Writing a port in decimal and reading it back gives the port. */
  lemma DecimalRoundTrip(n: int)
    ensures ParseDecimal(Decimal(n)) == Some(n)
  {
    if n < 0 {
      NatDigitsRoundTrip(-n);
      assert Decimal(n)[1..] == NatDigits(-n);
    } else {
      NatDigitsRoundTrip(n);
    }
  }

  /** A decimal number never contains the colon that separates the port. */
  lemma DecimalHasNoColon(n: int)
    ensures forall i :: 0 <= i < |Decimal(n)| ==> Decimal(n)[i] != ':'
    ensures |Decimal(n)| >= 1
  {
  }

  /**
   * The endpoint dialed for a stored address and port (ros.go:67-70): it
   * always starts with the address, and is the bare address exactly when the
   * port is 0.
   */
  function Endpoint(address: string, port: int): (s: string)
    ensures |s| >= |address| && s[..|address|] == address
    ensures s == address <==> port == 0
  {
    if port == 0 then address else address + ":" + Decimal(port)
  }

  /** The position of the last colon in `s`, if any. */
  function LastColon(s: string): (r: Option<nat>)
    ensures r.Some? ==> r.value < |s| && s[r.value] == ':'
    ensures r.Some? ==> forall j :: r.value < j < |s| ==> s[j] != ':'
    ensures r.None? ==> forall j :: 0 <= j < |s| ==> s[j] != ':'
  {
    if s == [] then None
    else if s[|s| - 1] == ':' then Some(|s| - 1)
    else LastColon(s[..|s| - 1])
  }

  /** Reference reading of an "address:port" endpoint: split at the last colon. */
  function SplitEndpoint(s: string): Option<(string, int)>
  {
    match LastColon(s)
    case None => None
    case Some(k) =>
      match ParseDecimal(s[k + 1..])
      case None => None
      case Some(p) => Some((s[..k], p))
  }

  /**
   * With a non-zero port the endpoint is exactly the address, a colon and the
   * port: splitting it at its last colon recovers both, whatever colons the
   * address itself holds.
   */
  lemma EndpointRoundTrip(address: string, port: int)
    requires port != 0
    ensures SplitEndpoint(Endpoint(address, port)) == Some((address, port))
  {
    var d := Decimal(port);
    var s := Endpoint(address, port);
    assert s == address + ":" + d;
    DecimalHasNoColon(port);
    assert s[|address|] == ':';
    forall j | |address| < j < |s|
      ensures s[j] != ':'
    {
      assert s[j] == d[j - |address| - 1];
    }
    var k := LastColon(s);
    assert k == Some(|address|);
    assert s[..|address|] == address;
    assert s[|address| + 1..] == d;
    DecimalRoundTrip(port);
  }
}
