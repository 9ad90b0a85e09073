/**
 The client handshake: SOCKS5 (RFC 1928, RFC 1929) and HTTP CONNECT.  A stage looks at the bytes received so
 far and waits, refuses, replies or opens; settling runs stages until one waits or the handshake ends.
 */
module Handshake {
  import opened Prelude
  import opened Bytes
  import opened ProxyAuth

  /** How the host is given: an address in network order, a name, or HTTP text. */
  datatype HostKind = Ipv4 | Ipv6 | Domain | Text

  datatype Request = Request(kind: HostKind, host: bytes, port: nat, trace: nat)

  const HOST_SIZE := 256
  const HEADER_CAP := 16 * 1024

  // --- request parsers --------------------------------------------------------------------------------------------

  /** How long a SOCKS5 request is: None until known, 0 for one that cannot be. */
  function RequestLength(data: bytes): Option<nat> {
    if |data| < 4 then None
    else if data[3] == 1 then Some(10)
    else if data[3] == 3 then
      if |data| < 5 then None else if data[4] == 0 then Some(0) else Some(7 + data[4] as nat)
    else if data[3] == 4 then Some(22)
    else Some(0)
  }

  function Socks5Host(request: bytes): Option<(HostKind, bytes)>
    requires |request| >= 7
  {
    if request[3] == 1 then
      if |request| != 10 then None else Some((Ipv4, request[4..8]))
    else if request[3] == 3 then
      if request[4] == 0 || |request| != 7 + request[4] as nat then None
      else Some((Domain, request[5..5 + request[4] as nat]))
    else if request[3] == 4 then
      if |request| != 22 then None else Some((Ipv6, request[4..20]))
    else None
  }

  function ParseSocks5(request: bytes): Option<Request> {
    if |request| < 7 || request[0] != 5 || request[1] != 1 || request[2] != 0 then None
    else
      var host := Socks5Host(request);
      var port := request[|request| - 2] as nat * 256 + request[|request| - 1] as nat;
      if host.None? || port == 0 then None else Some(Request(host.value.0, host.value.1, port, 1))
  }

  const SPACE: bytes := [32]
  const CONNECT: bytes := [67, 79, 78, 78, 69, 67, 84]
  const HTTP1: bytes := [72, 84, 84, 80, 47, 49, 46]
  const SCHEME: bytes := [58, 47, 47]

  function ParseHostPort(target: bytes): Option<(bytes, nat)> {
    if target == [] || Find(target, SCHEME, 0).Some? then None
    else if target[0] == 91 then
      var close := Find(target, [93], 0);
      if close.None? || close.value + 1 >= |target| || target[close.value + 1] != COLON then None
      else WithPort(target[1..close.value], target[close.value + 2..])
    else
      var colon := FindLast(target, COLON);
      if colon.None? || colon.value == 0 || colon.value + 1 >= |target| || COLON in target[..colon.value] then None
      else WithPort(target[..colon.value], target[colon.value + 1..])
  }

  function WithPort(host: bytes, port: bytes): Option<(bytes, nat)> {
    if host == [] || Port(port).None? then None else Some((host, Port(port).value))
  }

  function ParseRequestLine(line: bytes): Option<Request> {
    var methodEnd := Find(line, SPACE, 0);
    if methodEnd.None? then None
    else
      var targetEnd := Find(line, SPACE, methodEnd.value + 1);
      if targetEnd.None? || Find(line, SPACE, targetEnd.value + 1).Some? then None
      else
        var version := line[targetEnd.value + 1..];
        if line[..methodEnd.value] != CONNECT || !(HTTP1 <= version) || |version| != 8 then None
        else
          var target := ParseHostPort(line[methodEnd.value + 1..targetEnd.value]);
          if target.None? || |target.value.0| >= HOST_SIZE then None
          else Some(Request(Text, target.value.0, target.value.1, 2))
  }

  function ParseHttp(request: bytes): Option<Request> {
    var headerEnd := Find(request, HEADER_END, 0);
    var lineEnd := Find(request, CRLF, 0);
    if headerEnd.None? || lineEnd.None? || lineEnd.value == 0 || lineEnd.value > headerEnd.value then None
    else ParseRequestLine(request[..lineEnd.value])
  }

  // --- stages -----------------------------------------------------------------------------------------------------

  datatype Stage = Greeting | AuthWait | RequestWait | Header | Doomed

  datatype Verdict =
    | Wait
    | Refuse
    | Reply(used: nat, output: bytes, next: Stage)
    | Open(used: nat, request: Request)

  const UNAUTHORIZED: bytes :=
    // HTTP/1.1 407 Proxy Authentication Required, with a Basic challenge for the realm tcpquic-proxy
    [72, 84, 84, 80, 47, 49, 46, 49, 32, 52, 48, 55, 32, 80, 114, 111, 120, 121, 32, 65, 117, 116, 104, 101, 110,
     116, 105, 99, 97, 116, 105, 111, 110, 32, 82, 101, 113, 117, 105, 114, 101, 100, 13, 10, 80, 114, 111, 120,
     121, 45, 65, 117, 116, 104, 101, 110, 116, 105, 99, 97, 116, 101, 58, 32, 66, 97, 115, 105, 99, 32, 114, 101,
     97, 108, 109, 61, 34, 116, 99, 112, 113, 117, 105, 99, 45, 112, 114, 111, 120, 121, 34, 13, 10, 13, 10]

  function OnGreeting(users: seq<User>, buf: bytes): Verdict {
    if |buf| < 2 then Wait
    else if buf[0] != 5 then Refuse
    else
      var n := 2 + buf[1] as nat;
      if |buf| < n then Wait
      else
        var methods := buf[2..n];
        if users == [] then
          if 0 in methods then Reply(n, [5, 0], RequestWait) else Reply(n, [5, 255], Doomed)
        else
          if 2 in methods then Reply(n, [5, 2], AuthWait) else Reply(n, [5, 255], Doomed)
  }

  function OnAuth(users: seq<User>, buf: bytes): Verdict {
    if |buf| < 2 then Wait
    else if buf[0] != 1 || buf[1] == 0 then Refuse
    else
      var u := 2 + buf[1] as nat;
      if |buf| < u + 1 then Wait
      else if buf[u] == 0 then Refuse
      else
        var n := u + 1 + buf[u] as nat;
        if |buf| < n then Wait
        else if Accepts(users, buf[2..u], buf[u + 1..n]) then Reply(n, [1, 0], RequestWait)
        else Reply(n, [1, 1], Doomed)
  }

  function OnRequest(buf: bytes): Verdict {
    var n := RequestLength(buf);
    if n.None? then Wait
    else if n.value == 0 then Refuse
    else if |buf| < n.value then Wait
    else
      var request := ParseSocks5(buf[..n.value]);
      if request.None? then Refuse else Open(n.value, request.value)
  }

  datatype Cut = NoEnd | TooLong | Whole(header: bytes)

  /** The header at the front of the buffer, up to its empty line. */
  function CutHeader(buf: bytes): Cut {
    var end := Find(buf, HEADER_END, 0);
    if end.None? then
      if |buf| >= HEADER_CAP then TooLong else NoEnd
    else if end.value + 4 > HEADER_CAP then TooLong
    else Whole(buf[..end.value + 4])
  }

  function OnHeader(users: seq<User>, buf: bytes): Verdict {
    match CutHeader(buf)
    case NoEnd => Wait
    case TooLong => Refuse
    case Whole(header) => OnWholeHeader(users, header)
  }

  function OnWholeHeader(users: seq<User>, header: bytes): Verdict {
    var request := ParseHttp(header);
    if request.None? then Refuse
    else if !RequestAuthorized(header, users) then Reply(0, UNAUTHORIZED, Doomed)
    else Open(|header|, request.value)
  }

  function Rank(stage: Stage): nat {
    match stage
    case Greeting => 3
    case AuthWait => 2
    case RequestWait => 1
    case Header => 1
    case Doomed => 0
  }

  lemma CutFits(buf: bytes)
    ensures CutHeader(buf).Whole? ==> |CutHeader(buf).header| <= |buf|
  {
  }

  function Decide(users: seq<User>, stage: Stage, buf: bytes): (v: Verdict)
    ensures v.Reply? ==> v.used <= |buf| && Rank(v.next) < Rank(stage)
    ensures v.Open? ==> v.used <= |buf|
  {
    match stage
    case Greeting => OnGreeting(users, buf)
    case AuthWait => OnAuth(users, buf)
    case RequestWait => OnRequest(buf)
    case Header => CutFits(buf); OnHeader(users, buf)
    case Doomed => Refuse
  }

  // --- whole handshakes ---------------------------------------------------------------------------------------------

  datatype End = Waiting(stage: Stage) | Closed | Opened(request: Request)

  /** How a handshake stands: its end, what was written back, and what was received but not used. */
  datatype Outcome = Outcome(end: End, written: bytes, leftover: bytes)

  function After(written: bytes, o: Outcome): Outcome {
    o.(written := written + o.written)
  }

  /** Run stages on the bytes at hand, draining each reply. */
  function Settle(users: seq<User>, stage: Stage, buf: bytes): Outcome
    decreases Rank(stage)
  {
    match Decide(users, stage, buf)
    case Wait => Outcome(Waiting(stage), [], buf)
    case Refuse => Outcome(Closed, [], buf)
    case Open(n, request) => Outcome(Opened(request), [], buf[n..])
    case Reply(n, out, next) => After(out, Settle(users, next, buf[n..]))
  }

  function Concat(chunks: seq<bytes>): bytes {
    if chunks == [] then [] else chunks[0] + Concat(chunks[1..])
  }

  /** The reactor's loop over chunks: settle after each; once the handshake has ended the rest stays unread. */
  function Drive(users: seq<User>, stage: Stage, buf: bytes, chunks: seq<bytes>): Outcome
    decreases |chunks|
  {
    if chunks == [] then Outcome(Waiting(stage), [], buf)
    else
      var o := Settle(users, stage, buf + chunks[0]);
      if o.end.Waiting? then After(o.written, Drive(users, o.end.stage, o.leftover, chunks[1..]))
      else o.(leftover := o.leftover + Concat(chunks[1..]))
  }

  /** The stage a connection starts in. */
  function FirstStage(http: bool): Stage {
    if http then Header else Greeting
  }
}
