/** The control protocol: eight message types, their encoders and decoders over bytes. */
module WireCodec {
  import opened Prelude
  import opened Bytes

  type u16 = x: int | 0 <= x < 0x1_0000
  type u32 = x: int | 0 <= x < 0x1_0000_0000
  type u64 = x: int | 0 <= x < 0x1_0000_0000_0000_0000

  datatype Kind =
    | OpenRequestKind | OpenResponseKind | ClientHelloKind
    | SpeedStartKind | SpeedReadyKind | SpeedFinishKind | SpeedResultKind | SpeedErrorKind

  datatype Message =
    | OpenRequest(flags: byte, addrType: byte, port: u16, addr: bytes)
    | OpenResponse(ok: bool, error: byte, connId: u32)
    | ClientHello(name: bytes)
    | SpeedStart(session: u32, direction: byte, duration: u32, parallel: u16, flags: byte)
    | SpeedReady(session: u32, addrType: byte, port: u16, addr: bytes)
    | SpeedFinish(session: u32, clientBytes: u64, clientElapsed: u64)
    | SpeedResult(session: u32, serverBytes: u64, serverElapsed: u64, accepted: u32, closed: u32, status: byte)
    | SpeedError(session: u32, error: byte, message: bytes)

  function KindOf(m: Message): Kind {
    match m
    case OpenRequest(_, _, _, _) => OpenRequestKind
    case OpenResponse(_, _, _) => OpenResponseKind
    case ClientHello(_) => ClientHelloKind
    case SpeedStart(_, _, _, _, _) => SpeedStartKind
    case SpeedReady(_, _, _, _) => SpeedReadyKind
    case SpeedFinish(_, _, _) => SpeedFinishKind
    case SpeedResult(_, _, _, _, _, _) => SpeedResultKind
    case SpeedError(_, _, _) => SpeedErrorKind
  }

  // --- validity ------------------------------------------------------------------------------------------------------

  const IPV4: byte := 1
  const IPV6: byte := 2
  const DOMAIN: byte := 3

  /** The flag TQ_FLAG_DNS_REMOTE, bit value 4. */
  predicate DnsRemote(flags: byte) {
    flags / 4 % 2 == 1
  }

  predicate AddrOk(flags: byte, addrType: byte, addr: bytes) {
    if addrType == IPV4 then |addr| == 4
    else if addrType == IPV6 then |addr| == 16
    else addrType == DOMAIN && 1 <= |addr| <= 255 && DnsRemote(flags)
  }

  predicate NameOk(name: bytes) {
    1 <= |name| <= 64 &&
    forall i :: 0 <= i < |name| ==>
      65 <= name[i] <= 90 || 97 <= name[i] <= 122 || 48 <= name[i] <= 58 || name[i] == 46 || name[i] == 95 ||
        name[i] == 45
  }

  predicate StartOk(direction: byte, duration: u32, parallel: u16, flags: byte) {
    1 <= direction <= 2 && 1 <= duration <= 86400 && 1 <= parallel <= 128 && flags == 0
  }

  predicate Valid(m: Message) {
    match m
    case OpenRequest(flags, addrType, _, addr) => AddrOk(flags, addrType, addr)
    case OpenResponse(ok, error, _) => ok == (error == 0)
    case ClientHello(name) => NameOk(name)
    case SpeedStart(_, direction, duration, parallel, flags) => StartOk(direction, duration, parallel, flags)
    case SpeedReady(_, addrType, _, addr) => (addrType == IPV4 && |addr| == 4) || (addrType == IPV6 && |addr| == 16)
    case SpeedFinish(_, _, _) => true
    case SpeedResult(_, _, _, _, _, _) => true
    case SpeedError(_, error, message) => error != 0 && |message| <= 1024
  }

  // --- big-endian numbers --------------------------------------------------------------------------------------------

  function Put(n: nat, v: nat): (s: bytes)
    ensures |s| == n
  {
    if n == 0 then [] else Put(n - 1, v / 256) + [v % 256]
  }

  function Pow256(n: nat): nat {
    if n == 0 then 1 else Pow256(n - 1) * 256
  }

  lemma {:induction false} GetPut(n: nat, v: nat)
    requires v < Pow256(n)
    ensures BigEndian(Put(n, v)) == v
  {
    if n == 0 {
    } else {
      GetPut(n - 1, v / 256);
      var s := Put(n, v);
      assert s[..n - 1] == Put(n - 1, v / 256) && s[n - 1] == v % 256;
    }
  }

  lemma {:induction false} PutGet(s: bytes)
    ensures BigEndian(s) < Pow256(|s|) && Put(|s|, BigEndian(s)) == s
  {
    if s == [] {
    } else {
      var front, last := s[..|s| - 1], s[|s| - 1] as nat;
      PutGet(front);
      assert BigEndian(s) / 256 == BigEndian(front) && BigEndian(s) % 256 == last;
      assert s == front + [s[|s| - 1]];
    }
  }

  lemma Sizes()
    ensures Pow256(2) == 0x1_0000 && Pow256(4) == 0x1_0000_0000 && Pow256(8) == 0x1_0000_0000_0000_0000
  {
    assert Pow256(3) == 0x100_0000 && Pow256(6) == 0x1_0000_0000_0000;
  }

  function Get16(b: bytes, i: nat): (v: u16)
    requires i + 2 <= |b|
    ensures Put(2, v) == b[i..i + 2]
  {
    PutGet(b[i..i + 2]);
    Sizes();
    BigEndian(b[i..i + 2])
  }

  function Get32(b: bytes, i: nat): (v: u32)
    requires i + 4 <= |b|
    ensures Put(4, v) == b[i..i + 4]
  {
    PutGet(b[i..i + 4]);
    Sizes();
    BigEndian(b[i..i + 4])
  }

  function Get64(b: bytes, i: nat): (v: u64)
    requires i + 8 <= |b|
    ensures Put(8, v) == b[i..i + 8]
  {
    PutGet(b[i..i + 8]);
    Sizes();
    BigEndian(b[i..i + 8])
  }

  // --- encoders ------------------------------------------------------------------------------------------------------

  function Head(cmd: byte): bytes {
    [0x54, 0x51, 1, cmd]
  }

  function Body(m: Message): bytes {
    match m
    case OpenRequest(flags, addrType, port, addr) =>
      Head(0x01) + [flags, addrType] + Put(2, port) + Put(2, |addr|) + addr + [0]
    case OpenResponse(ok, error, connId) => Head(if ok then 0x02 else 0x03) + [if ok then 0 else error] + Put(4, connId)
    case ClientHello(name) => Head(0x20) + Put(2, |name|) + name
    case SpeedStart(session, direction, duration, parallel, flags) =>
      Head(0x10) + Put(4, session) + [direction] + Put(4, duration) + Put(2, parallel) + [flags]
    case SpeedReady(session, addrType, port, addr) =>
      Head(0x11) + Put(4, session) + [addrType] + Put(2, port) + Put(2, |addr|) + addr
    case SpeedFinish(session, clientBytes, clientElapsed) =>
      Head(0x12) + Put(4, session) + Put(8, clientBytes) + Put(8, clientElapsed)
    case SpeedResult(session, serverBytes, serverElapsed, accepted, closed, status) =>
      Head(0x13) + Put(4, session) + Put(8, serverBytes) + Put(8, serverElapsed) + Put(4, accepted) + Put(4, closed) +
        [status]
    case SpeedError(session, error, message) => Head(0x14) + Put(4, session) + [error] + Put(2, |message|) + message
  }

  function Encode(m: Message): Option<bytes> {
    if Valid(m) then Some(Body(m)) else None
  }

  // --- decoders ------------------------------------------------------------------------------------------------------

  predicate HasHead(b: bytes, cmd: byte) {
    |b| >= 4 && b[0] == 0x54 && b[1] == 0x51 && b[2] == 1 && b[3] == cmd
  }

  function Checked(m: Message): Option<Message> {
    if Valid(m) then Some(m) else None
  }

  function DecodeOpenRequest(b: bytes): Option<Message> {
    if |b| < 11 || !HasHead(b, 0x01) || |b| != 11 + Get16(b, 8) || b[|b| - 1] != 0 then None
    else Checked(OpenRequest(b[4], b[5], Get16(b, 6), b[10..|b| - 1]))
  }

  function DecodeOpenResponse(b: bytes): Option<Message> {
    if |b| != 9 || !(HasHead(b, 0x02) || HasHead(b, 0x03)) then None
    else Checked(OpenResponse(b[3] == 0x02, b[4], Get32(b, 5)))
  }

  function DecodeClientHello(b: bytes): Option<Message> {
    if |b| < 6 || !HasHead(b, 0x20) || Get16(b, 4) == 0 || Get16(b, 4) > 64 || |b| != 6 + Get16(b, 4) then None
    else Checked(ClientHello(b[6..]))
  }

  function DecodeSpeedStart(b: bytes): Option<Message> {
    if |b| != 16 || !HasHead(b, 0x10) || !(1 <= b[8] <= 2) || b[15] != 0 then None
    else Checked(SpeedStart(Get32(b, 4), b[8], Get32(b, 9), Get16(b, 13), b[15]))
  }

  function DecodeSpeedReady(b: bytes): Option<Message> {
    if |b| < 13 || !HasHead(b, 0x11) || |b| != 13 + Get16(b, 11) then None
    else Checked(SpeedReady(Get32(b, 4), b[8], Get16(b, 9), b[13..]))
  }

  function DecodeSpeedFinish(b: bytes): Option<Message> {
    if |b| != 24 || !HasHead(b, 0x12) then None
    else Some(SpeedFinish(Get32(b, 4), Get64(b, 8), Get64(b, 16)))
  }

  function DecodeSpeedResult(b: bytes): Option<Message> {
    if |b| != 33 || !HasHead(b, 0x13) then None
    else Some(SpeedResult(Get32(b, 4), Get64(b, 8), Get64(b, 16), Get32(b, 24), Get32(b, 28), b[32]))
  }

  function DecodeSpeedError(b: bytes): Option<Message> {
    if |b| < 11 || !HasHead(b, 0x14) || |b| != 11 + Get16(b, 9) || Get16(b, 9) > 1024 || b[8] == 0 then None
    else Some(SpeedError(Get32(b, 4), b[8], b[11..]))
  }

  function Decode(kind: Kind, b: bytes): Option<Message> {
    match kind
    case OpenRequestKind => DecodeOpenRequest(b)
    case OpenResponseKind => DecodeOpenResponse(b)
    case ClientHelloKind => DecodeClientHello(b)
    case SpeedStartKind => DecodeSpeedStart(b)
    case SpeedReadyKind => DecodeSpeedReady(b)
    case SpeedFinishKind => DecodeSpeedFinish(b)
    case SpeedResultKind => DecodeSpeedResult(b)
    case SpeedErrorKind => DecodeSpeedError(b)
  }
}
