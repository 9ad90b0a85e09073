/** The wire codec is a bijection between valid messages and accepted frames, and accepted frames are prefix-free. */
module WireBijection {
  import opened Prelude
  import opened Bytes
  import opened WireCodec

  /** Reading back what was put at offset i. */
  lemma Read16(b: bytes, i: nat, v: nat)
    requires i + 2 <= |b| && v < 0x1_0000 && b[i..i + 2] == Put(2, v)
    ensures Get16(b, i) == v
  {
    Sizes();
    GetPut(2, v);
  }

  lemma Read32(b: bytes, i: nat, v: nat)
    requires i + 4 <= |b| && v < 0x1_0000_0000 && b[i..i + 4] == Put(4, v)
    ensures Get32(b, i) == v
  {
    Sizes();
    GetPut(4, v);
  }

  lemma Read64(b: bytes, i: nat, v: nat)
    requires i + 8 <= |b| && v < 0x1_0000_0000_0000_0000 && b[i..i + 8] == Put(8, v)
    ensures Get64(b, i) == v
  {
    Sizes();
    GetPut(8, v);
  }

  // --- decode after encode -------------------------------------------------------------------------------------------

  lemma OpenRequestRoundTrip(m: Message)
    requires m.OpenRequest? && Valid(m)
    ensures DecodeOpenRequest(Body(m)) == Some(m)
  {
    var b, n := Body(m), |m.addr|;
    assert |b| == 11 + n && HasHead(b, 0x01) && b[4] == m.flags && b[5] == m.addrType && b[|b| - 1] == 0;
    assert b[6..8] == Put(2, m.port) && b[8..10] == Put(2, n) && b[10..|b| - 1] == m.addr;
    Read16(b, 6, m.port);
    Read16(b, 8, n);
  }

  lemma OpenResponseRoundTrip(m: Message)
    requires m.OpenResponse? && Valid(m)
    ensures DecodeOpenResponse(Body(m)) == Some(m)
  {
    var b := Body(m);
    assert b[5..9] == Put(4, m.connId);
    Read32(b, 5, m.connId);
  }

  lemma ClientHelloRoundTrip(m: Message)
    requires m.ClientHello? && Valid(m)
    ensures DecodeClientHello(Body(m)) == Some(m)
  {
    var b := Body(m);
    assert b[4..6] == Put(2, |m.name|) && b[6..] == m.name;
    Read16(b, 4, |m.name|);
  }

  lemma SpeedStartRoundTrip(m: Message)
    requires m.SpeedStart? && Valid(m)
    ensures DecodeSpeedStart(Body(m)) == Some(m)
  {
    var b := Body(m);
    assert |b| == 16 && b[8] == m.direction && b[15] == m.flags;
    assert b[4..8] == Put(4, m.session) && b[9..13] == Put(4, m.duration) && b[13..15] == Put(2, m.parallel);
    Read32(b, 4, m.session);
    Read32(b, 9, m.duration);
    Read16(b, 13, m.parallel);
  }

  lemma SpeedReadyRoundTrip(m: Message)
    requires m.SpeedReady? && Valid(m)
    ensures DecodeSpeedReady(Body(m)) == Some(m)
  {
    var b := Body(m);
    assert |b| == 13 + |m.addr| && b[8] == m.addrType && b[13..] == m.addr;
    assert b[4..8] == Put(4, m.session) && b[9..11] == Put(2, m.port) && b[11..13] == Put(2, |m.addr|);
    Read32(b, 4, m.session);
    Read16(b, 9, m.port);
    Read16(b, 11, |m.addr|);
  }

  lemma SpeedFinishRoundTrip(m: Message)
    requires m.SpeedFinish?
    ensures DecodeSpeedFinish(Body(m)) == Some(m)
  {
    var b := Body(m);
    assert b[4..8] == Put(4, m.session) && b[8..16] == Put(8, m.clientBytes) && b[16..24] == Put(8, m.clientElapsed);
    Read32(b, 4, m.session);
    Read64(b, 8, m.clientBytes);
    Read64(b, 16, m.clientElapsed);
  }

  lemma SpeedResultRoundTrip(m: Message)
    requires m.SpeedResult?
    ensures DecodeSpeedResult(Body(m)) == Some(m)
  {
    var b := Body(m);
    assert b[4..8] == Put(4, m.session) && b[8..16] == Put(8, m.serverBytes) && b[16..24] == Put(8, m.serverElapsed);
    assert b[24..28] == Put(4, m.accepted) && b[28..32] == Put(4, m.closed) && b[32] == m.status;
    Read32(b, 4, m.session);
    Read64(b, 8, m.serverBytes);
    Read64(b, 16, m.serverElapsed);
    Read32(b, 24, m.accepted);
    Read32(b, 28, m.closed);
  }

  lemma SpeedErrorRoundTrip(m: Message)
    requires m.SpeedError? && Valid(m)
    ensures DecodeSpeedError(Body(m)) == Some(m)
  {
    var b := Body(m);
    assert |b| == 11 + |m.message| && b[8] == m.error && b[11..] == m.message;
    assert b[4..8] == Put(4, m.session) && b[9..11] == Put(2, |m.message|);
    Read32(b, 4, m.session);
    Read16(b, 9, |m.message|);
  }

  /** Encoding succeeds exactly on the valid messages, and decoding gives the message back. */
  lemma DecodeUndoesEncode(m: Message)
    ensures Encode(m).Some? <==> Valid(m)
    ensures Valid(m) ==> Decode(KindOf(m), Encode(m).value) == Some(m)
  {
    if Valid(m) {
      match m
      case OpenRequest(_, _, _, _) => OpenRequestRoundTrip(m);
      case OpenResponse(_, _, _) => OpenResponseRoundTrip(m);
      case ClientHello(_) => ClientHelloRoundTrip(m);
      case SpeedStart(_, _, _, _, _) => SpeedStartRoundTrip(m);
      case SpeedReady(_, _, _, _) => SpeedReadyRoundTrip(m);
      case SpeedFinish(_, _, _) => SpeedFinishRoundTrip(m);
      case SpeedResult(_, _, _, _, _, _) => SpeedResultRoundTrip(m);
      case SpeedError(_, _, _) => SpeedErrorRoundTrip(m);
    }
  }

  // --- encode after decode -------------------------------------------------------------------------------------------

  lemma OpenRequestCanonical(b: bytes)
    requires DecodeOpenRequest(b).Some?
    ensures Body(DecodeOpenRequest(b).value) == b
  {
    assert b == b[..4] + [b[4], b[5]] + b[6..8] + b[8..10] + b[10..|b| - 1] + [b[|b| - 1]];
    assert b[..4] == Head(0x01);
  }

  lemma OpenResponseCanonical(b: bytes)
    requires DecodeOpenResponse(b).Some?
    ensures Body(DecodeOpenResponse(b).value) == b
  {
    assert b == b[..4] + [b[4]] + b[5..9];
    assert b[..4] == Head(b[3]);
  }

  lemma ClientHelloCanonical(b: bytes)
    requires DecodeClientHello(b).Some?
    ensures Body(DecodeClientHello(b).value) == b
  {
    assert b == b[..4] + b[4..6] + b[6..];
    assert b[..4] == Head(0x20);
  }

  lemma SpeedStartCanonical(b: bytes)
    requires DecodeSpeedStart(b).Some?
    ensures Body(DecodeSpeedStart(b).value) == b
  {
    assert b == b[..4] + b[4..8] + [b[8]] + b[9..13] + b[13..15] + [b[15]];
    assert b[..4] == Head(0x10);
  }

  lemma SpeedReadyCanonical(b: bytes)
    requires DecodeSpeedReady(b).Some?
    ensures Body(DecodeSpeedReady(b).value) == b
  {
    assert b == b[..4] + b[4..8] + [b[8]] + b[9..11] + b[11..13] + b[13..];
    assert b[..4] == Head(0x11);
  }

  lemma SpeedFinishCanonical(b: bytes)
    requires DecodeSpeedFinish(b).Some?
    ensures Body(DecodeSpeedFinish(b).value) == b
  {
    assert b == b[..4] + b[4..8] + b[8..16] + b[16..24];
    assert b[..4] == Head(0x12);
  }

  lemma SpeedResultCanonical(b: bytes)
    requires DecodeSpeedResult(b).Some?
    ensures Body(DecodeSpeedResult(b).value) == b
  {
    assert b == b[..4] + b[4..8] + b[8..16] + b[16..24] + b[24..28] + b[28..32] + [b[32]];
    assert b[..4] == Head(0x13);
  }

  lemma SpeedErrorCanonical(b: bytes)
    requires DecodeSpeedError(b).Some?
    ensures Body(DecodeSpeedError(b).value) == b
  {
    assert b == b[..4] + b[4..8] + [b[8]] + b[9..11] + b[11..];
    assert b[..4] == Head(0x14);
  }

  /** What a decoder accepts is the encoding of the valid message it returns. */
  lemma EncodeUndoesDecode(kind: Kind, b: bytes)
    requires Decode(kind, b).Some?
    ensures var m := Decode(kind, b).value; KindOf(m) == kind && Encode(m) == Some(b)
  {
    match kind
    case OpenRequestKind => OpenRequestCanonical(b);
    case OpenResponseKind => OpenResponseCanonical(b);
    case ClientHelloKind => ClientHelloCanonical(b);
    case SpeedStartKind => SpeedStartCanonical(b);
    case SpeedReadyKind => SpeedReadyCanonical(b);
    case SpeedFinishKind => SpeedFinishCanonical(b);
    case SpeedResultKind => SpeedResultCanonical(b);
    case SpeedErrorKind => SpeedErrorCanonical(b);
  }

  // --- prefix-freeness -----------------------------------------------------------------------------------------------

  /** The length a frame announces in its first bytes. */
  function Announced(b: bytes): nat {
    if |b| < 6 then 0
    else if b[3] == 0x01 then if |b| < 10 then 0 else 11 + Get16(b, 8)
    else if b[3] == 0x02 || b[3] == 0x03 then 9
    else if b[3] == 0x20 then 6 + Get16(b, 4)
    else if b[3] == 0x10 then 16
    else if b[3] == 0x11 then if |b| < 13 then 0 else 13 + Get16(b, 11)
    else if b[3] == 0x12 then 24
    else if b[3] == 0x13 then 33
    else if |b| < 11 then 0 else 11 + Get16(b, 9)
  }

  lemma AcceptedAnnounces(kind: Kind, b: bytes)
    requires Decode(kind, b).Some?
    ensures |b| >= 6 && |b| == Announced(b)
  {
  }

  lemma SameAnnounced(b: bytes, c: bytes)
    requires b <= c && Announced(b) == |b| >= 6
    ensures Announced(c) == |b|
  {
    SameNumber(b, c, 4);
    if |b| >= 10 { SameNumber(b, c, 8); }
    if |b| >= 11 { SameNumber(b, c, 9); }
    if |b| >= 13 { SameNumber(b, c, 11); }
  }

  lemma SameNumber(b: bytes, c: bytes, i: nat)
    requires b <= c && i + 2 <= |b|
    ensures Get16(c, i) == Get16(b, i)
  {
    assert c[i..i + 2] == b[i..i + 2];
  }

  /** No accepted frame of any type is a proper prefix of another, and no bytes are accepted by two decoders. */
  lemma AcceptedIsPrefixFree(k: Kind, b: bytes, l: Kind, c: bytes)
    requires Decode(k, b).Some? && Decode(l, c).Some? && b <= c
    ensures b == c && k == l
  {
    AcceptedAnnounces(k, b);
    AcceptedAnnounces(l, c);
    SameAnnounced(b, c);
    assert c[..|b|] == b;
  }
}
