/** Endpoints: the parser the session uses and the test the configuration check uses accept the same strings. */
module Endpoints {
  import opened Prelude
  import opened Bytes

  const COLON: byte := 58
  const OPEN: byte := 91
  const CLOSE: byte := 93

  datatype Endpoint = Endpoint(host: bytes, port: nat)

  function MakeEndpoint(host: bytes, portText: bytes): Option<Endpoint> {
    if host == [] || Port(portText).None? then None else Some(Endpoint(host, Port(portText).value))
  }

  /** TqParseEndpoint. */
  function ParseEndpoint(value: bytes): Option<Endpoint> {
    if value == [] then None
    else if value[0] == OPEN then
      var close := Find(value, [CLOSE], 0);
      if close.None? || close.value + 1 >= |value| || value[close.value + 1] != COLON then None
      else MakeEndpoint(value[1..close.value], value[close.value + 2..])
    else
      var colon := Find(value, [COLON], 0);
      if colon.None? || Find(value, [COLON], colon.value + 1).Some? || colon.value == 0 ||
        colon.value + 1 >= |value| then None
      else MakeEndpoint(value[..colon.value], value[colon.value + 1..])
  }

  /** The port loop of IsHostPort, which tests for overflow before it multiplies. */
  method IsPort(text: bytes) returns (ok: bool)
    ensures ok == Port(text).Some?
  {
    var port := 0;
    for i := 0 to |text|
      invariant Digits(text[..i]) && port == Decimal(text[..i]) <= PORT_MAX
    {
      if !Digit(text[i]) {
        return false;
      }
      assert text[..i + 1] == text[..i] + [text[i]];
      var digit := text[i] as int - 48;
      if port > 6553 || (port == 6553 && digit > 5) {
        assert Decimal(text[..i + 1]) > PORT_MAX;
        if Digits(text) {
          DecimalGrows(text, i + 1);
        }
        return false;
      }
      port := port * 10 + digit;
    }
    assert text[..|text|] == text;
    return port != 0;
  }

  /** The configuration test says yes exactly when the session will be able to parse. */
  method IsHostPort(value: bytes) returns (ok: bool)
    ensures ok == ParseEndpoint(value).Some?
  {
    var portStart;
    if value != [] && value[0] == OPEN {
      var close := Find(value, [CLOSE], 0);
      if close.None? || close.value == 1 || close.value + 2 > |value| || value[close.value + 1] != COLON {
        return false;
      }
      portStart := close.value + 2;
    } else {
      var colon := Find(value, [COLON], 0);
      if colon.None? || colon.value == 0 || colon.value + 1 >= |value| || Find(value, [COLON], colon.value + 1).Some? {
        return false;
      }
      portStart := colon.value + 1;
    }
    ok := IsPort(value[portStart..]);
  }
}
