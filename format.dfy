/** `fmt.Sprintf(":%d", pn)` for the port numbers the routers accept, and its inverse. */
module Format {
  import opened Results

  const MAX_PORT: nat := 65535

  /** The listen address both routers start with. */
  const DEFAULT_ADDRESS: string := ":8050"

  predicate IsDigit(c: char) {
    '0' <= c <= '9'
  }

  predicate IsDigits(s: string) {
    forall i :: 0 <= i < |s| ==> IsDigit(s[i])
  }

  /** What `%d` prints: at least one digit, and no leading zero except in "0". */
  predicate IsCanonical(s: string) {
    |s| >= 1 && IsDigits(s) && (s[0] == '0' ==> |s| == 1)
  }

  function DigitChar(d: nat): (c: char)
    requires d < 10
    ensures IsDigit(c) && c as int - '0' as int == d
  {
    ('0' as int + d) as char
  }

  function DigitValue(c: char): (d: nat)
    requires IsDigit(c)
    ensures d < 10 && DigitChar(d) == c
  {
    c as int - '0' as int
  }

  /** `%d` applied to a non-negative integer. */
  function Decimal(n: nat): (s: string)
    ensures IsCanonical(s)
    decreases n
  {
    if n < 10 then [DigitChar(n)] else Decimal(n / 10) + [DigitChar(n % 10)]
  }

  /** The number a string of decimal digits denotes (the inverse of `Decimal`). */
  function Value(s: string): nat
    requires IsDigits(s)
    decreases |s|
  {
    if s == [] then 0 else Value(s[..|s| - 1]) * 10 + DigitValue(s[|s| - 1])
  }

  lemma {:induction false} ValueOfDecimal(n: nat)
    ensures Value(Decimal(n)) == n
    decreases n
  {
    if n >= 10 {
      var prefix := Decimal(n / 10);
      var s := prefix + [DigitChar(n % 10)];
      assert s[..|s| - 1] == prefix;
      ValueOfDecimal(n / 10);
    }
  }

  lemma {:induction false} LeadingDigitBound(s: string)
    requires IsDigits(s) && |s| >= 1 && s[0] != '0'
    ensures Value(s) >= 1
    decreases |s|
  {
    if |s| > 1 {
      var prefix := s[..|s| - 1];
      assert prefix[0] == s[0];
      LeadingDigitBound(prefix);
    }
  }

  lemma {:induction false} DecimalOfValue(s: string)
    requires IsCanonical(s)
    ensures Decimal(Value(s)) == s
    decreases |s|
  {
    if |s| > 1 {
      var prefix := s[..|s| - 1];
      assert prefix[0] == s[0];
      assert IsCanonical(prefix);
      LeadingDigitBound(prefix);
      DecimalOfValue(prefix);
      var v := Value(s);
      assert v / 10 == Value(prefix) && v % 10 == DigitValue(s[|s| - 1]);
      assert s == prefix + [s[|s| - 1]];
    }
  }

  /** `fmt.Sprintf(":%d", pn)` for a port number: a colon, then the canonical digits. */
  function PortAddress(pn: nat): (addr: string)
    ensures |addr| >= 2 && addr[0] == ':' && IsCanonical(addr[1..])
  {
    assert (":" + Decimal(pn))[1..] == Decimal(pn);
    ":" + Decimal(pn)
  }

  /** Reads a listen address of the form ":<port>" back into its port number. */
  function ParsePortAddress(addr: string): Option<nat> {
    if |addr| >= 2 && addr[0] == ':' && IsCanonical(addr[1..]) && Value(addr[1..]) <= MAX_PORT
    then Some(Value(addr[1..]))
    else None
  }

  predicate IsPortAddress(addr: string) {
    ParsePortAddress(addr).Some?
  }

  lemma PortAddressRoundTrip(pn: nat)
    requires pn <= MAX_PORT
    ensures ParsePortAddress(PortAddress(pn)) == Some(pn)
  {
    assert PortAddress(pn)[1..] == Decimal(pn);
    ValueOfDecimal(pn);
  }

  lemma ParsedPortAddressRoundTrip(addr: string)
    requires ParsePortAddress(addr).Some?
    ensures PortAddress(ParsePortAddress(addr).value) == addr
  {
    DecimalOfValue(addr[1..]);
    assert addr == ":" + addr[1..];
  }

  const ERR_PORT_RANGE := "input port number is out of range"

  /**
   * The range check and formatting that `SetPort` performs in both routers:
   * the address to store, or nothing when the port is out of range.
   */
  function CheckedPortAddress(pn: int): (r: Option<string>)
    ensures r.Some? <==> 0 <= pn <= MAX_PORT
    ensures r.Some? ==> ParsePortAddress(r.value) == Some(pn)
  {
    if pn < 0 || pn > MAX_PORT then None
    else
      PortAddressRoundTrip(pn);
      Some(PortAddress(pn))
  }

  /** Distinct ports give distinct addresses. */
  lemma PortAddressInjective(m: nat, n: nat)
    requires PortAddress(m) == PortAddress(n)
    ensures m == n
  {
    assert PortAddress(m)[1..] == Decimal(m);
    assert PortAddress(n)[1..] == Decimal(n);
    ValueOfDecimal(m);
    ValueOfDecimal(n);
  }

  /** The default address is the one `SetPort(8050)` would produce. */
  lemma DefaultAddressIsPort8050()
    ensures PortAddress(8050) == DEFAULT_ADDRESS
    ensures ParsePortAddress(DEFAULT_ADDRESS) == Some(8050)
  {
    PortAddressRoundTrip(8050);
  }
}
