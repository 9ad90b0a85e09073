/** The SOCKS5 request of RFC 1928 section 4: the parser accepts exactly the CONNECT requests, and reads them back. */
module Socks5Requests {
  import opened Prelude
  import opened Bytes
  import opened Handshake

  predicate RequestOk(r: Request) {
    1 <= r.port <= 0xFFFF && r.trace == 1 &&
    match r.kind
    case Ipv4 => |r.host| == 4
    case Ipv6 => |r.host| == 16
    case Domain => 1 <= |r.host| <= 255
    case Text => false
  }

  function AddressBytes(r: Request): bytes
    requires RequestOk(r)
  {
    match r.kind
    case Ipv4 => [1] + r.host
    case Ipv6 => [4] + r.host
    case Domain => [3, |r.host|] + r.host
  }

  function Wire(r: Request): bytes
    requires RequestOk(r)
  {
    [5, 1, 0] + AddressBytes(r) + [r.port / 256, r.port % 256]
  }

  lemma ParsesWritten(r: Request)
    requires RequestOk(r)
    ensures ParseSocks5(Wire(r)) == Some(r)
  {
    var b := Wire(r);
    match r.kind
    case Ipv4 => assert b[4..8] == r.host;
    case Ipv6 => assert b[4..20] == r.host;
    case Domain => assert b[5..5 + |r.host|] == r.host;
  }

  lemma PortBytes(hi: byte, lo: byte)
    ensures (hi as nat * 256 + lo as nat) / 256 == hi && (hi as nat * 256 + lo as nat) % 256 == lo
  {
  }

  /** Head, address and port of a request. */
  lemma Split(b: bytes, address: bytes)
    requires |b| >= 7 && b[0] == 5 && b[1] == 1 && b[2] == 0 && b[3..|b| - 2] == address
    ensures b == [5, 1, 0] + address + [b[|b| - 2], b[|b| - 1]]
  {
  }

  lemma WritesParsed(b: bytes)
    requires ParseSocks5(b).Some?
    ensures RequestOk(ParseSocks5(b).value) && Wire(ParseSocks5(b).value) == b
  {
    var r, n := ParseSocks5(b).value, |b|;
    PortBytes(b[n - 2], b[n - 1]);
    AddressRead(b);
    Split(b, AddressBytes(r));
  }

  lemma AddressRead(b: bytes)
    requires ParseSocks5(b).Some?
    ensures RequestOk(ParseSocks5(b).value) && b[3..|b| - 2] == AddressBytes(ParseSocks5(b).value)
  {
    var n := |b|;
    if b[3] == 1 {
      assert b[3..n - 2] == [b[3]] + b[4..8];
    } else if b[3] == 4 {
      assert b[3..n - 2] == [b[3]] + b[4..20];
    } else {
      assert b[3..n - 2] == [b[3], b[4]] + b[5..5 + b[4] as nat];
    }
  }

  /** Bytes parse to a request exactly when they are its wire form. */
  lemma ParseIsExact(b: bytes, r: Request)
    ensures ParseSocks5(b) == Some(r) <==> RequestOk(r) && b == Wire(r)
  {
    if ParseSocks5(b) == Some(r) { WritesParsed(b); }
    if RequestOk(r) { ParsesWritten(r); }
  }
}
