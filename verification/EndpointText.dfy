/** Endpoints as text: how they are written back, and how the two parsers of host and port compare. */
module EndpointText {
  import opened Prelude
  import opened Bytes
  import opened Endpoints
  import Handshake
  import Finding

  // --- numbers -------------------------------------------------------------------------------------------------------

  function DecimalText(n: nat): bytes {
    if n < 10 then [48 + n] else DecimalText(n / 10) + [48 + n % 10]
  }

  lemma {:induction false} DecimalRoundTrip(n: nat)
    ensures DecimalText(n) != [] && Digits(DecimalText(n)) && Decimal(DecimalText(n)) == n
  {
    var s := DecimalText(n);
    if n < 10 {
      assert s[..0] == [];
    } else {
      DecimalRoundTrip(n / 10);
      assert s[..|s| - 1] == DecimalText(n / 10);
    }
  }

  lemma PortRoundTrip(port: nat)
    requires 1 <= port <= PORT_MAX
    ensures Port(DecimalText(port)) == Some(port) && COLON !in DecimalText(port)
  {
    DecimalRoundTrip(port);
  }

  // --- writing an endpoint -------------------------------------------------------------------------------------------

  /** TqFormatEndpoint. */
  function Format(e: Endpoint): bytes {
    if COLON in e.host then [OPEN] + e.host + [CLOSE, COLON] + DecimalText(e.port)
    else e.host + [COLON] + DecimalText(e.port)
  }

  /** What the parser returns: a host in range, and in brackets if it has a colon. */
  predicate EndpointOk(e: Endpoint) {
    e.host != [] && 1 <= e.port <= PORT_MAX && (COLON in e.host ==> CLOSE !in e.host)
  }

  lemma ParsedIsOk(value: bytes)
    requires ParseEndpoint(value).Some?
    ensures EndpointOk(ParseEndpoint(value).value)
  {
    if value[0] == OPEN {
      var close := Find(value, [CLOSE], 0).value;
      FindByte(value, CLOSE, 0);
      var host := value[1..close];
      assert forall i :: 0 <= i < |host| ==> host[i] == value[i + 1];
    } else {
      FindByte(value, COLON, 0);
    }
  }

  lemma BracketRoundTrip(e: Endpoint)
    requires EndpointOk(e) && COLON in e.host
    ensures ParseEndpoint(Format(e)) == Some(e)
  {
    var value, port, n := Format(e), DecimalText(e.port), |e.host|;
    PortRoundTrip(e.port);
    assert value == [] + ([OPEN] + e.host) + [CLOSE] + ([COLON] + port);
    Finding.FoundAfter([], [OPEN] + e.host, [CLOSE], [COLON] + port);
    assert value[1..n + 1] == e.host && value[n + 3..] == port;
  }

  lemma PlainRoundTrip(e: Endpoint)
    requires EndpointOk(e) && COLON !in e.host && e.host[0] != OPEN
    ensures ParseEndpoint(Format(e)) == Some(e)
  {
    var value, port, n := Format(e), DecimalText(e.port), |e.host|;
    PortRoundTrip(e.port);
    assert value == [] + e.host + [COLON] + port;
    Finding.FoundAfter([], e.host, [COLON], port);
    assert value[n + 1..] == port && value[..n] == e.host;
    Finding.NotFound(value, COLON, n + 1);
  }

  /** A host that starts with a bracket and has no colon is written in a way that reads differently. */
  lemma BracketHostIsLost(e: Endpoint)
    requires EndpointOk(e) && COLON !in e.host && e.host[0] == OPEN
    ensures ParseEndpoint(Format(e)) != Some(e)
  {
    var value := Format(e);
    DecimalRoundTrip(e.port);
    assert value[|e.host| + 1] == DecimalText(e.port)[0];
    assert !At(value, [CLOSE], |e.host| + 1);
  }

  /** Writing a parsed endpoint and parsing it again gives it back, if and only if its host has a colon or does not
      start with a bracket. */
  lemma FormatRoundTrip(value: bytes)
    requires ParseEndpoint(value).Some?
    ensures var e := ParseEndpoint(value).value;
            ParseEndpoint(Format(e)) == Some(e) <==> COLON in e.host || e.host[0] != OPEN
  {
    var e := ParseEndpoint(value).value;
    ParsedIsOk(value);
    if COLON in e.host { BracketRoundTrip(e); } else if e.host[0] != OPEN { PlainRoundTrip(e); }
    else { BracketHostIsLost(e); }
  }

  /** The smallest such text, [[a]:1. */
  lemma DoubleBracketIsLost()
    ensures var value: bytes := [OPEN, OPEN, 97, CLOSE, COLON, 49];
            ParseEndpoint(value).Some? && ParseEndpoint(Format(ParseEndpoint(value).value)) != ParseEndpoint(value)
  {
    var value: bytes := [OPEN, OPEN, 97, CLOSE, COLON, 49];
    assert value == [] + [OPEN, OPEN, 97] + [CLOSE] + [COLON, 49];
    Finding.FoundAfter([], [OPEN, OPEN, 97], [CLOSE], [COLON, 49]);
    assert value[1..3] == [OPEN, 97] && value[5..] == DecimalText(1);
    PortRoundTrip(1);
    BracketHostIsLost(Endpoint([OPEN, 97], 1));
  }

  // --- the two parsers -----------------------------------------------------------------------------------------------

  lemma OneColon(value: bytes, first: nat, last: nat)
    requires Find(value, [COLON], 0) == Some(first) && FindLast(value, COLON) == Some(last)
    ensures first <= last && (COLON in value[..last] <==> first < last)
    ensures Find(value, [COLON], first + 1).Some? <==> first < last
  {
    FindByte(value, COLON, 0);
    FindByte(value, COLON, first + 1);
    if first < last { assert value[..last][first] == COLON; }
  }

  /** The CONNECT target parser accepts exactly the endpoints that contain no scheme, with the same host and port. */
  lemma HostPortIsEndpoint(target: bytes)
    ensures var e := ParseEndpoint(target);
            Handshake.ParseHostPort(target) ==
              if e.None? || Find(target, Handshake.SCHEME, 0).Some? then None else Some((e.value.host, e.value.port))
  {
    if target != [] && target[0] != OPEN {
      var first, last := Find(target, [COLON], 0), FindLast(target, COLON);
      FindByte(target, COLON, 0);
      if first.Some? {
        assert last.Some?;
        OneColon(target, first.value, last.value);
      }
    }
  }
}
