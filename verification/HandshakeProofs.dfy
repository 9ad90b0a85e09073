/** What the handshake guarantees for every byte stream: chunking does not matter, nothing past the handshake is
    used, and with a user table no stream opens without carrying one of its pairs. */
module HandshakeProofs {
  import opened Prelude
  import opened Bytes
  import opened ProxyAuth
  import opened Handshake

  // --- verdicts are stable and local ---------------------------------------------------------------------------------

  lemma CutStable(buf: bytes, more: bytes)
    requires CutHeader(buf) != NoEnd
    ensures CutHeader(buf + more) == CutHeader(buf)
  {
    FindStable(buf, more, HEADER_END);
    var end := Find(buf, HEADER_END, 0);
    if end.Some? {
      assert (buf + more)[..end.value + 4] == buf[..end.value + 4];
    }
  }

  lemma HeaderStable(users: seq<User>, buf: bytes, more: bytes)
    requires OnHeader(users, buf) != Wait
    ensures OnHeader(users, buf + more) == OnHeader(users, buf)
  {
    CutStable(buf, more);
  }

  lemma RequestStable(buf: bytes, more: bytes)
    requires OnRequest(buf) != Wait
    ensures OnRequest(buf + more) == OnRequest(buf)
  {
    var n := RequestLength(buf).value;
    if n <= |buf| {
      assert (buf + more)[..n] == buf[..n];
    }
  }

  lemma AuthStable(users: seq<User>, buf: bytes, more: bytes)
    requires OnAuth(users, buf) != Wait
    ensures OnAuth(users, buf + more) == OnAuth(users, buf)
  {
    var s := buf + more;
    if buf[0] == 1 && buf[1] != 0 {
      var u := 2 + buf[1] as nat;
      var n := u + 1 + buf[u] as nat;
      if n <= |buf| {
        assert s[2..u] == buf[2..u] && s[u + 1..n] == buf[u + 1..n];
      }
    }
  }

  lemma GreetingStable(users: seq<User>, buf: bytes, more: bytes)
    requires OnGreeting(users, buf) != Wait
    ensures OnGreeting(users, buf + more) == OnGreeting(users, buf)
  {
    if buf[0] == 5 {
      assert (buf + more)[2..2 + buf[1] as nat] == buf[2..2 + buf[1] as nat];
    }
  }

  /** A verdict once reached does not change when more bytes arrive. */
  lemma VerdictStable(users: seq<User>, stage: Stage, buf: bytes, more: bytes)
    requires Decide(users, stage, buf) != Wait
    ensures Decide(users, stage, buf + more) == Decide(users, stage, buf)
  {
    match stage
    case Greeting => GreetingStable(users, buf, more);
    case AuthWait => AuthStable(users, buf, more);
    case RequestWait => RequestStable(buf, more);
    case Header => HeaderStable(users, buf, more);
    case Doomed =>
  }

  lemma EndIsLocal(buf: bytes, end: nat)
    requires Find(buf, HEADER_END, 0) == Some(end)
    ensures Find(buf[..end + 4], HEADER_END, 0) == Some(end)
  {
    var header := buf[..end + 4];
    FindSpec(buf, HEADER_END, 0);
    assert header[end..end + 4] == buf[end..end + 4];
    assert At(header, HEADER_END, end);
    assert header + buf[end + 4..] == buf;
    FindStable(header, buf[end + 4..], HEADER_END);
  }

  lemma CutLocal(buf: bytes)
    requires CutHeader(buf).Whole?
    ensures CutHeader(CutHeader(buf).header) == CutHeader(buf) && CutHeader(buf).header <= buf
    ensures Find(buf, HEADER_END, 0) == Some(|CutHeader(buf).header| - 4)
  {
    var end := Find(buf, HEADER_END, 0).value;
    var header := buf[..end + 4];
    EndIsLocal(buf, end);
    assert header[..end + 4] == header;
  }

  lemma HeaderLocal(users: seq<User>, buf: bytes)
    requires OnHeader(users, buf).Open?
    ensures OnHeader(users, buf[..OnHeader(users, buf).used]) == OnHeader(users, buf)
  {
    CutLocal(buf);
    var header := CutHeader(buf).header;
    assert buf[..|header|] == header;
  }

  predicate Consumes(v: Verdict) {
    v.Open? || (v.Reply? && v.next != Doomed)
  }

  function UsedBy(v: Verdict): nat {
    if Consumes(v) then v.used else 0
  }

  /** A verdict that leads on depends only on the bytes it uses. */
  lemma VerdictLocal(users: seq<User>, stage: Stage, buf: bytes)
    requires Consumes(Decide(users, stage, buf))
    ensures Decide(users, stage, buf[..UsedBy(Decide(users, stage, buf))]) == Decide(users, stage, buf)
  {
    var n := UsedBy(Decide(users, stage, buf));
    var s := buf[..n];
    match stage
    case Greeting => assert s[2..n] == buf[2..n];
    case AuthWait =>
      var u := 2 + buf[1] as nat;
      assert s[2..u] == buf[2..u] && s[u + 1..n] == buf[u + 1..n];
    case RequestWait => assert s[..n] == buf[..n];
    case Header => HeaderLocal(users, buf);
  }

  // --- chunking does not matter --------------------------------------------------------------------------------------

  lemma AfterTwice(a: bytes, b: bytes, o: Outcome)
    ensures After(a, After(b, o)) == After(a + b, o) && After([], o) == o
  {
    assert a + (b + o.written) == (a + b) + o.written && [] + o.written == o.written;
  }

  /** Settling on part of the input and going on from there is settling on all of it. */
  lemma {:induction false} SettleInTwo(users: seq<User>, stage: Stage, buf: bytes, more: bytes)
    ensures var o := Settle(users, stage, buf);
            Settle(users, stage, buf + more) ==
              if o.end.Waiting? then After(o.written, Settle(users, o.end.stage, o.leftover + more))
              else o.(leftover := o.leftover + more)
    decreases Rank(stage)
  {
    var v := Decide(users, stage, buf);
    if v == Wait {
      AfterTwice([], [], Settle(users, stage, buf + more));
    } else {
      VerdictStable(users, stage, buf, more);
      if v.Reply? {
        SettleInTwo(users, v.next, buf[v.used..], more);
        assert (buf + more)[v.used..] == buf[v.used..] + more;
        var o := Settle(users, v.next, buf[v.used..]);
        if o.end.Waiting? {
          AfterTwice(v.output, o.written, Settle(users, o.end.stage, o.leftover + more));
        }
      } else if v.Open? {
        assert (buf + more)[v.used..] == buf[v.used..] + more;
      }
    }
  }

  lemma {:induction false} SettledWaits(users: seq<User>, stage: Stage, buf: bytes)
    ensures var o := Settle(users, stage, buf);
            o.end.Waiting? ==> Decide(users, o.end.stage, o.leftover) == Wait
    decreases Rank(stage)
  {
    var v := Decide(users, stage, buf);
    if v.Reply? { SettledWaits(users, v.next, buf[v.used..]); }
  }

  lemma {:induction false} DriveIsSettle(users: seq<User>, stage: Stage, buf: bytes, chunks: seq<bytes>)
    requires Decide(users, stage, buf) == Wait
    ensures Drive(users, stage, buf, chunks) == Settle(users, stage, buf + Concat(chunks))
    decreases |chunks|
  {
    if chunks == [] {
      assert buf + [] == buf;
    } else {
      var first, rest := buf + chunks[0], Concat(chunks[1..]);
      assert buf + Concat(chunks) == first + rest;
      SettleInTwo(users, stage, first, rest);
      SettledWaits(users, stage, first);
      var o := Settle(users, stage, first);
      if o.end.Waiting? { DriveIsSettle(users, o.end.stage, o.leftover, chunks[1..]); }
    }
  }

  /** Every way of cutting a stream gives the same end, the same bytes written, the same request and the same
      bytes left over as feeding it whole. */
  lemma ChunkingDoesNotMatter(users: seq<User>, http: bool, chunks: seq<bytes>)
    ensures Drive(users, FirstStage(http), [], chunks) == Settle(users, FirstStage(http), Concat(chunks))
  {
    assert [] + Concat(chunks) == Concat(chunks);
    assert http ==> Find([], HEADER_END, 0).None?;
    DriveIsSettle(users, FirstStage(http), [], chunks);
  }

  // --- one byte at a time nothing is read past the handshake ---------------------------------------------------------

  /** When the byte that completes a verdict arrives alone, the verdict uses all there is. */
  lemma LastByteIsUsed(users: seq<User>, stage: Stage, buf: bytes, b: byte)
    requires Decide(users, stage, buf) == Wait && Consumes(Decide(users, stage, buf + [b]))
    ensures UsedBy(Decide(users, stage, buf + [b])) == |buf| + 1
  {
    var n := UsedBy(Decide(users, stage, buf + [b]));
    if n <= |buf| {
      assert (buf + [b])[..n] == buf[..n];
      StillWaits(users, stage, buf, n);
      VerdictLocal(users, stage, buf + [b]);
    }
  }

  lemma StillWaits(users: seq<User>, stage: Stage, buf: bytes, n: nat)
    requires Decide(users, stage, buf) == Wait && n <= |buf|
    ensures Decide(users, stage, buf[..n]) == Wait
  {
    assert buf[..n] + buf[n..] == buf;
    if Decide(users, stage, buf[..n]) != Wait { VerdictStable(users, stage, buf[..n], buf[n..]); }
  }

  lemma NothingOpensOnNothing(users: seq<User>, stage: Stage, buf: bytes)
    requires buf == []
    ensures !Settle(users, stage, buf).end.Opened?
  {
    assert Find(buf, HEADER_END, 0).None?;
  }

  lemma OneByteLeavesNothing(users: seq<User>, stage: Stage, buf: bytes, b: byte)
    requires Decide(users, stage, buf) == Wait && Settle(users, stage, buf + [b]).end.Opened?
    ensures Settle(users, stage, buf + [b]).leftover == []
  {
    var v := Decide(users, stage, buf + [b]);
    if v.Reply? {
      var next, rest := v.next, (buf + [b])[v.used..];
      SettleReply(users, stage, buf + [b]);
      if next == Doomed {
        DoomedCloses(users, next, rest);
      } else {
        LastByteIsUsed(users, stage, buf, b);
        NothingOpensOnNothing(users, next, rest);
      }
    } else {
      LastByteIsUsed(users, stage, buf, b);
    }
  }

  lemma SettleReply(users: seq<User>, stage: Stage, buf: bytes)
    requires Decide(users, stage, buf).Reply?
    ensures var v := Decide(users, stage, buf);
            Settle(users, stage, buf) == After(v.output, Settle(users, v.next, buf[v.used..]))
  {
  }

  function Unused(users: seq<User>, stage: Stage, buf: bytes, input: bytes): bytes
    decreases |input|
  {
    if input == [] then []
    else
      var o := Settle(users, stage, buf + [input[0]]);
      if o.end.Waiting? then Unused(users, o.end.stage, o.leftover, input[1..]) else o.leftover
  }

  /** Read byte by byte, a stream that opens leaves the read buffer empty: the payload is still in the socket. */
  lemma {:induction false} ByteWiseReadsNoPayload(users: seq<User>, stage: Stage, buf: bytes, input: bytes)
    requires Decide(users, stage, buf) == Wait && Settle(users, stage, buf + input).end.Opened?
    ensures Unused(users, stage, buf, input) == []
    decreases |input|
  {
    if input == [] {
      assert Unused(users, stage, buf, input) == [];
    } else {
      var rest := input[1..];
      assert buf + [input[0]] + rest == buf + input;
      NextByte(users, stage, buf, input[0], rest);
      var o := Settle(users, stage, buf + [input[0]]);
      if o.end.Waiting? {
        ByteWiseReadsNoPayload(users, o.end.stage, o.leftover, rest);
        UnusedAfterWait(users, stage, buf, input, o);
      }
    }
  }

  lemma UnusedAfterWait(users: seq<User>, stage: Stage, buf: bytes, input: bytes, o: Outcome)
    requires input != [] && o == Settle(users, stage, buf + [input[0]]) && o.end.Waiting?
    ensures Unused(users, stage, buf, input) == Unused(users, o.end.stage, o.leftover, input[1..])
  {
  }

  lemma NextByte(users: seq<User>, stage: Stage, buf: bytes, b: byte, rest: bytes)
    requires Decide(users, stage, buf) == Wait && Settle(users, stage, buf + [b] + rest).end.Opened?
    ensures var o := Settle(users, stage, buf + [b]);
            if o.end.Waiting? then
              Decide(users, o.end.stage, o.leftover) == Wait &&
              Settle(users, o.end.stage, o.leftover + rest).end.Opened?
            else o.leftover == []
  {
    SettleInTwo(users, stage, buf + [b], rest);
    SettledWaits(users, stage, buf + [b]);
    if Settle(users, stage, buf + [b]).end.Opened? { OneByteLeavesNothing(users, stage, buf, b); }
  }

  // --- authentication ------------------------------------------------------------------------------------------------

  /** A SOCKS5 greeting, an RFC 1929 login, and a stream made of them. */
  function Hello(methods: bytes): bytes
    requires |methods| < 256
  {
    [5, |methods|] + methods
  }

  function Login(user: User): bytes
    requires |user.name| < 256 && |user.password| < 256
  {
    [1, |user.name|] + user.name + [|user.password|] + user.password
  }

  /** The method the proxy insists on. */
  function Method(users: seq<User>): byte {
    if users == [] then 0 else 2
  }

  predicate LoginOk(users: seq<User>, user: User) {
    1 <= |user.name| < 256 && 1 <= |user.password| < 256 && (users == [] || user in users)
  }

  /** What a client has to send before its request. */
  function Preamble(users: seq<User>, methods: bytes, user: User): bytes
    requires |methods| < 256 && LoginOk(users, user)
  {
    Hello(methods) + if users == [] then [] else Login(user)
  }

  lemma GreetingReads(users: seq<User>, buf: bytes)
    requires OnGreeting(users, buf).Reply? && OnGreeting(users, buf).next != Doomed
    ensures var n := OnGreeting(users, buf).used;
            2 <= n <= |buf| && n < 258 && Method(users) in buf[2..n] && buf == Hello(buf[2..n]) + buf[n..]
  {
  }

  lemma GreetingAnswers(users: seq<User>, methods: bytes, rest: bytes)
    requires |methods| < 256 && Method(users) in methods
    ensures OnGreeting(users, Hello(methods) + rest)
         == Reply(|methods| + 2, [5, Method(users)], if users == [] then RequestWait else AuthWait)
  {
    var s := Hello(methods) + rest;
    assert s[2..2 + |methods|] == methods;
  }

  lemma AuthReads(users: seq<User>, buf: bytes) returns (user: User)
    requires users != [] && OnAuth(users, buf).Reply? && OnAuth(users, buf).next != Doomed
    ensures LoginOk(users, user) && buf == Login(user) + buf[OnAuth(users, buf).used..] &&
            OnAuth(users, buf).used <= |buf|
  {
    var u := 2 + buf[1] as nat;
    var n := u + 1 + buf[u] as nat;
    user := User(buf[2..u], buf[u + 1..n]);
    assert buf[..n] == Login(user);
  }

  lemma AuthAnswers(users: seq<User>, user: User, rest: bytes)
    requires users != [] && LoginOk(users, user)
    ensures OnAuth(users, Login(user) + rest) == Reply(|Login(user)|, [1, 0], RequestWait)
  {
    var s := Login(user) + rest;
    var u := 2 + |user.name|;
    assert s[2..u] == user.name && s[u] == |user.password| && s[u + 1..|Login(user)|] == user.password;
  }

  lemma RequestOpens(users: seq<User>, buf: bytes) returns (request: bytes)
    requires Settle(users, RequestWait, buf).end.Opened?
    ensures buf == request + Settle(users, RequestWait, buf).leftover
    ensures ParseSocks5(request) == Some(Settle(users, RequestWait, buf).end.request)
  {
    request := buf[..OnRequest(buf).used];
  }

  lemma AuthOpens(users: seq<User>, buf: bytes) returns (user: User, rest: bytes)
    requires users != [] && Settle(users, AuthWait, buf).end.Opened?
    ensures LoginOk(users, user) && buf == Login(user) + rest
    ensures After([1, 0], Settle(users, RequestWait, rest)) == Settle(users, AuthWait, buf)
  {
    user := AuthReads(users, buf);
    rest := buf[OnAuth(users, buf).used..];
  }

  lemma GreetingOpens(users: seq<User>, buf: bytes) returns (methods: bytes, rest: bytes)
    requires Settle(users, Greeting, buf).end.Opened?
    ensures |methods| < 256 && Method(users) in methods && buf == Hello(methods) + rest
    ensures After([5, Method(users)], Settle(users, if users == [] then RequestWait else AuthWait, rest)) ==
            Settle(users, Greeting, buf)
  {
    GreetingReads(users, buf);
    var n := OnGreeting(users, buf).used;
    methods, rest := buf[2..n], buf[n..];
  }

  /** A SOCKS5 stream that opens is a greeting offering the required method, a login from the table if there
      is a table, a valid request, and the leftover. */
  lemma SocksOpenCarriesLogin(users: seq<User>, stream: bytes) returns (methods: bytes, user: User, request: bytes)
    requires Settle(users, Greeting, stream).end.Opened?
    ensures |methods| < 256 && Method(users) in methods && LoginOk(users, user)
    ensures stream == Preamble(users, methods, user) + request + Settle(users, Greeting, stream).leftover
    ensures ParseSocks5(request) == Some(Settle(users, Greeting, stream).end.request)
  {
    var rest;
    methods, user, rest := PreambleOpens(users, stream);
    request := RequestOpens(users, rest);
    Assoc(Preamble(users, methods, user), request, Settle(users, RequestWait, rest).leftover);
  }

  lemma Assoc(a: bytes, b: bytes, c: bytes)
    ensures a + (b + c) == a + b + c
  {
  }

  lemma PreambleOpens(users: seq<User>, stream: bytes) returns (methods: bytes, user: User, rest: bytes)
    requires Settle(users, Greeting, stream).end.Opened?
    ensures |methods| < 256 && Method(users) in methods && LoginOk(users, user) &&
            stream == Preamble(users, methods, user) + rest
    ensures Settle(users, RequestWait, rest).end == Settle(users, Greeting, stream).end
    ensures Settle(users, RequestWait, rest).leftover == Settle(users, Greeting, stream).leftover
  {
    methods, rest := GreetingOpens(users, stream);
    user := User([0], [0]);
    if users != [] {
      var login := rest;
      user, rest := AuthOpens(users, login);
      Assoc(Hello(methods), Login(user), rest);
    } else {
      assert Hello(methods) + [] == Hello(methods);
    }
  }

  lemma RequestAnswers(request: bytes, rest: bytes)
    requires ParseSocks5(request).Some?
    ensures OnRequest(request + rest) == Open(|request|, ParseSocks5(request).value)
  {
    assert (request + rest)[..|request|] == request;
  }

  /** And every such stream opens, with exactly these replies. */
  lemma SocksLoginOpens(users: seq<User>, methods: bytes, user: User, request: bytes, rest: bytes)
    requires |methods| < 256 && Method(users) in methods && LoginOk(users, user) && ParseSocks5(request).Some?
    ensures Settle(users, Greeting, Preamble(users, methods, user) + request + rest)
         == Outcome(Opened(ParseSocks5(request).value), if users == [] then [5, 0] else [5, 2, 1, 0], rest)
  {
    var tail := request + rest;
    RequestSettles(users, request, rest);
    if users == [] {
      assert Preamble(users, methods, user) + request + rest == Hello(methods) + tail;
      HelloSettles(users, methods, tail);
    } else {
      assert Preamble(users, methods, user) + request + rest == Hello(methods) + (Login(user) + tail);
      HelloSettles(users, methods, Login(user) + tail);
      LoginSettles(users, user, tail);
    }
  }

  lemma HelloSettles(users: seq<User>, methods: bytes, tail: bytes)
    requires |methods| < 256 && Method(users) in methods
    ensures Settle(users, Greeting, Hello(methods) + tail)
         == After([5, Method(users)], Settle(users, if users == [] then RequestWait else AuthWait, tail))
  {
    var stream := Hello(methods) + tail;
    GreetingAnswers(users, methods, tail);
    SettleReply(users, Greeting, stream);
    assert stream[|methods| + 2..] == tail;
  }

  lemma RequestSettles(users: seq<User>, request: bytes, rest: bytes)
    requires ParseSocks5(request).Some?
    ensures Settle(users, RequestWait, request + rest) == Outcome(Opened(ParseSocks5(request).value), [], rest)
  {
    RequestAnswers(request, rest);
    assert (request + rest)[|request|..] == rest;
  }

  lemma LoginSettles(users: seq<User>, user: User, tail: bytes)
    requires users != [] && LoginOk(users, user)
    ensures Settle(users, AuthWait, Login(user) + tail) == After([1, 0], Settle(users, RequestWait, tail))
  {
    AuthAnswers(users, user, tail);
    SettleReply(users, AuthWait, Login(user) + tail);
    assert (Login(user) + tail)[|Login(user)|..] == tail;
  }

  /** A line of the stream after its first carries these credentials: it begins behind a line end at from and ends with
      the next one at to. */
  predicate CarriesBasic(stream: bytes, from: nat, to: nat, user: User) {
    from >= 2 && At(stream, CRLF, from - 2) && Find(stream, CRLF, from) == Some(to) &&
    var value := LineValue(stream[from..to], PROXY_AUTHORIZATION);
    value.Some? && ParseBasic(value.value) == Some(user)
  }

  lemma {:induction false} HeaderIsOnALine(request: bytes, name: bytes, pos: nat, end: nat) returns (from: nat, to: nat)
    requires end <= |request| && HeaderFrom(request, name, pos, end).Some? && pos >= 2 && At(request, CRLF, pos - 2)
    ensures from >= 2 && At(request, CRLF, from - 2) && Find(request, CRLF, from) == Some(to) && to <= end
    ensures LineValue(request[from..to], name) == HeaderFrom(request, name, pos, end)
    decreases end - pos
  {
    HeaderStep(request, name, pos, end);
    from, to := pos, Find(request, CRLF, pos).value;
    if LineValue(request[from..to], name).None? {
      FindSpec(request, CRLF, pos);
      from, to := HeaderIsOnALine(request, name, to + 2, end);
    } else {
      assert HeaderFrom(request, name, pos, end) == LineValue(request[from..to], name);
    }
  }

  lemma HeaderOpens(users: seq<User>, stream: bytes) returns (end: nat)
    requires Settle(users, Header, stream).end.Opened?
    ensures Find(stream, HEADER_END, 0) == Some(end) && end + 4 <= |stream|
    ensures RequestAuthorized(stream[..end + 4], users) && Settle(users, Header, stream).leftover == stream[end + 4..]
  {
    var v := OpenVerdict(users, Header, stream);
    end := HeaderOpenVerdict(users, stream);
  }

  lemma OpenVerdict(users: seq<User>, stage: Stage, buf: bytes) returns (v: Verdict)
    requires Settle(users, stage, buf).end.Opened? && Rank(stage) <= 1
    ensures v == Decide(users, stage, buf) && v.Open? && Settle(users, stage, buf).leftover == buf[v.used..]
  {
    v := Decide(users, stage, buf);
    if v.Reply? {
      DoomedCloses(users, v.next, buf[v.used..]);
    }
  }

  lemma DoomedCloses(users: seq<User>, stage: Stage, buf: bytes)
    requires Rank(stage) == 0
    ensures Settle(users, stage, buf).end == Closed
  {
    assert Decide(users, Doomed, buf) == Refuse;
  }

  lemma HeaderOpenVerdict(users: seq<User>, stream: bytes) returns (end: nat)
    requires OnHeader(users, stream).Open?
    ensures Find(stream, HEADER_END, 0) == Some(end) && end + 4 <= |stream| && OnHeader(users, stream).used == end + 4
    ensures RequestAuthorized(stream[..end + 4], users)
  {
    CutLocal(stream);
    end := |CutHeader(stream).header| - 4;
  }

  lemma AuthorizedCarries(users: seq<User>, header: bytes, end: nat) returns (from: nat, to: nat, user: User)
    requires users != [] && RequestAuthorized(header, users) && Find(header, HEADER_END, 0) == Some(end)
    ensures to <= end && CarriesBasic(header, from, to, user) && user in users && user.name != [] && user.password != []
  {
    var value := HeaderValue(header, PROXY_AUTHORIZATION);
    user := ParseBasic(value.value).value;
    FindSpec(header, CRLF, 0);
    from, to := HeaderIsOnALine(header, PROXY_AUTHORIZATION, Find(header, CRLF, 0).value + 2, end);
  }

  /** An HTTP CONNECT stream that opens against a table has, inside the header it uses, a Proxy-Authorization
      line with a pair from the table. */
  lemma HttpOpenCarriesLogin(users: seq<User>, stream: bytes) returns (from: nat, to: nat, user: User)
    requires users != [] && Settle(users, Header, stream).end.Opened?
    ensures CarriesBasic(stream, from, to, user) && user in users && user.name != [] && user.password != []
    ensures to + 2 <= |stream| - |Settle(users, Header, stream).leftover|
  {
    var end := HeaderOpens(users, stream);
    var header := stream[..end + 4];
    EndIsLocal(stream, end);
    from, to, user := AuthorizedCarries(users, header, end);
    StillCarries(stream, end + 4, from, to, user);
  }

  lemma StillCarries(stream: bytes, n: nat, from: nat, to: nat, user: User)
    requires n <= |stream| && CarriesBasic(stream[..n], from, to, user)
    ensures CarriesBasic(stream, from, to, user)
  {
    assert stream[..n] + stream[n..] == stream;
    FindStableFrom(stream[..n], stream[n..], CRLF, from);
    AtEarly(stream[..n], stream[n..], CRLF, from - 2);
    assert stream[..n][from..to] == stream[from..to];
  }
}
