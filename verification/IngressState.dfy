/**
 The handshake object of one client: buffers and flags updated in place by Feed, proved against the stages of
 Handshake, and the read loop around it.
 */
module IngressState {
  import opened Prelude
  import opened Bytes
  import opened ProxyAuth
  import opened Handshake
  import opened HandshakeProofs

  datatype FeedResult = NeedRead | NeedWrite | ReadyToOpen | Close

  /** What Feed returns and does to the buffers on a verdict. */
  function Effect(v: Verdict, buf: bytes): (FeedResult, bytes, bytes)
    requires v.Reply? || v.Open? ==> v.used <= |buf|
  {
    match v
    case Wait => (NeedRead, buf, [])
    case Refuse => (Close, buf, [])
    case Reply(n, out, _) => (NeedWrite, buf[n..], out)
    case Open(n, _) => (ReadyToOpen, buf[n..], [])
  }

  lemma RepliesAreNotEmpty(users: seq<User>, stage: Stage, buf: bytes)
    requires Decide(users, stage, buf).Reply?
    ensures Decide(users, stage, buf).output != []
  {
  }

  class Ingress {
    const http: bool
    const users: seq<User>
    var readBuffer: bytes
    var writeBuffer: bytes
    var parsed: Option<Request>
    var greetingDone: bool
    var authPending: bool
    var closeAfterWrite: bool
    var ready: bool

    ghost predicate Valid()
      reads this
    {
      && (ready ==> parsed.Some?)
      && (http ==> !greetingDone && !authPending)
      && !(greetingDone && authPending)
      && (closeAfterWrite ==> !greetingDone && !authPending)
      && (authPending ==> users != [])
    }

    /** The stage the flags stand for. */
    ghost function Now(): Stage
      reads this
    {
      if closeAfterWrite then Doomed
      else if http then Header
      else if greetingDone then RequestWait
      else if authPending then AuthWait
      else Greeting
    }

    constructor (http: bool, users: seq<User>)
      ensures Valid() && this.http == http && this.users == users && Now() == FirstStage(http)
      ensures readBuffer == [] && writeBuffer == [] && !ready
    {
      this.http, this.users := http, users;
      readBuffer, writeBuffer, parsed := [], [], None;
      greetingDone, authPending, closeAfterWrite, ready := false, false, false, false;
    }

    method MarkWriteComplete(count: nat)
      requires Valid()
      modifies this`writeBuffer
      ensures Valid() && writeBuffer == if count <= |old(writeBuffer)| then old(writeBuffer)[count..] else []
    {
      var n := if count <= |writeBuffer| then count else |writeBuffer|;
      writeBuffer := writeBuffer[n..];
    }

    method Feed(data: bytes) returns (result: FeedResult)
      requires Valid()
      modifies this
      ensures Valid()
      ensures old(ready) ==>
                result == ReadyToOpen && ready && readBuffer == old(readBuffer) + data && parsed == old(parsed)
      ensures !old(ready) && old(writeBuffer) != [] ==>
                result == NeedWrite && !ready && readBuffer == old(readBuffer) + data &&
                  writeBuffer == old(writeBuffer) && Now() == old(Now())
      ensures !old(ready) && old(writeBuffer) == [] ==> Follows(old(Now()), old(readBuffer) + data, result)
    {
      readBuffer := readBuffer + data;
      if ready {
        return ReadyToOpen;
      }
      if writeBuffer != [] {
        return NeedWrite;
      }
      if closeAfterWrite {
        return Close;
      }
      if http {
        result := FeedHttpConnect();
      } else if greetingDone {
        result := FeedRequest();
      } else if authPending {
        result := FeedAuth();
      } else {
        result := FeedGreeting();
      }
    }

    /** The state after a Feed is what the stage's verdict on the buffer says. */
    ghost predicate Follows(stage: Stage, buf: bytes, result: FeedResult)
      reads this
    {
      FollowsVerdict(Decide(users, stage, buf), stage, buf, result)
    }

    ghost predicate FollowsVerdict(v: Verdict, stage: Stage, buf: bytes, result: FeedResult)
      requires v.Reply? || v.Open? ==> v.used <= |buf|
      reads this
    {
      && (result, readBuffer, writeBuffer) == Effect(v, buf)
      && (ready <==> v.Open?)
      && (v.Open? ==> parsed == Some(v.request))
      && (v.Reply? ==> Now() == v.next)
      && (v == Wait ==> Now() == stage)
    }

    method FeedGreeting() returns (result: FeedResult)
      requires Valid() && !ready && writeBuffer == [] && Now() == Greeting
      modifies this
      ensures Valid() && Follows(Greeting, old(readBuffer), result)
    {
      if |readBuffer| < 2 {
        return NeedRead;
      }
      if readBuffer[0] != 5 {
        return Close;
      }
      var n := 2 + readBuffer[1] as nat;
      if |readBuffer| < n {
        return NeedRead;
      }
      var hasNoAuth, hasUserPass := ScanMethods(readBuffer[2..n]);
      readBuffer := readBuffer[n..];
      if users == [] {
        if !hasNoAuth {
          writeBuffer := [5, 255];
          closeAfterWrite := true;
        } else {
          writeBuffer := [5, 0];
          greetingDone := true;
        }
      } else if !hasUserPass {
        writeBuffer := [5, 255];
        closeAfterWrite := true;
      } else {
        writeBuffer := [5, 2];
        authPending := true;
      }
      return NeedWrite;
    }

    static method ScanMethods(methods: bytes) returns (hasNoAuth: bool, hasUserPass: bool)
      ensures hasNoAuth == (0 in methods) && hasUserPass == (2 in methods)
    {
      hasNoAuth, hasUserPass := false, false;
      for i := 0 to |methods|
        invariant hasNoAuth == (0 in methods[..i]) && hasUserPass == (2 in methods[..i])
      {
        assert methods[..i + 1] == methods[..i] + [methods[i]];
        hasNoAuth := hasNoAuth || methods[i] == 0;
        hasUserPass := hasUserPass || methods[i] == 2;
      }
      assert methods[..|methods|] == methods;
    }

    method FeedAuth() returns (result: FeedResult)
      requires Valid() && !ready && writeBuffer == [] && Now() == AuthWait
      modifies this
      ensures Valid() && Follows(AuthWait, old(readBuffer), result)
    {
      if |readBuffer| < 2 {
        return NeedRead;
      }
      if readBuffer[0] != 1 || readBuffer[1] == 0 {
        return Close;
      }
      var offset := 2 + readBuffer[1] as nat;
      if |readBuffer| < offset + 1 {
        return NeedRead;
      }
      if readBuffer[offset] == 0 {
        return Close;
      }
      var n := offset + 1 + readBuffer[offset] as nat;
      if |readBuffer| < n {
        return NeedRead;
      }
      var valid := Validate(users, readBuffer[2..offset], readBuffer[offset + 1..n]);
      readBuffer := readBuffer[n..];
      writeBuffer := [1, if valid then 0 else 1];
      closeAfterWrite := !valid;
      authPending := false;
      greetingDone := valid;
      return NeedWrite;
    }

    method FeedRequest() returns (result: FeedResult)
      requires Valid() && !ready && writeBuffer == [] && Now() == RequestWait
      modifies this
      ensures Valid() && Follows(RequestWait, old(readBuffer), result)
    {
      var n := RequestLength(readBuffer);
      if n.None? {
        return NeedRead;
      }
      if n.value == 0 {
        return Close;
      }
      if |readBuffer| < n.value {
        return NeedRead;
      }
      var request := ParseSocks5(readBuffer[..n.value]);
      if request.None? {
        return Close;
      }
      parsed := request;
      readBuffer := readBuffer[n.value..];
      ready := true;
      return ReadyToOpen;
    }

    method FeedHttpConnect() returns (result: FeedResult)
      requires Valid() && !ready && writeBuffer == [] && Now() == Header
      modifies this
      ensures Valid() && Follows(Header, old(readBuffer), result)
    {
      var end := Find(readBuffer, HEADER_END, 0);
      if end.None? {
        return if |readBuffer| >= HEADER_CAP then Close else NeedRead;
      }
      var n := end.value + 4;
      if n > HEADER_CAP {
        return Close;
      }
      assert CutHeader(readBuffer) == Whole(readBuffer[..n]);
      result := OpenOrChallenge(readBuffer[..n]);
    }

    method OpenOrChallenge(header: bytes) returns (result: FeedResult)
      requires Valid() && !ready && writeBuffer == [] && Now() == Header && |header| <= |readBuffer|
      modifies this
      ensures Valid() && FollowsVerdict(OnWholeHeader(users, header), Header, old(readBuffer), result)
    {
      var request := ParseHttp(header);
      if request.None? {
        result := Close;
      } else if !RequestAuthorized(header, users) {
        writeBuffer := UNAUTHORIZED;
        closeAfterWrite := true;
        result := NeedWrite;
      } else {
        parsed := request;
        readBuffer := readBuffer[|header|..];
        ready := true;
        result := ReadyToOpen;
      }
    }

    /** One Feed is one step of settling. */
    lemma FeedSettles(stage: Stage, buf: bytes, result: FeedResult)
      requires Follows(stage, buf, result)
      ensures result == NeedWrite ==>
                writeBuffer != [] && Rank(Now()) < Rank(stage) && !ready &&
                Settle(users, stage, buf) == After(writeBuffer, Settle(users, Now(), readBuffer))
      ensures result != NeedWrite ==> writeBuffer == [] && IsOutcome(Settle(users, stage, buf), result, [])
    {
      var v := Decide(users, stage, buf);
      if v.Reply? { RepliesAreNotEmpty(users, stage, buf); }
    }

    /** Feed, then write out every reply and feed nothing, until the handshake waits or ends. */
    method FeedAndDrain(data: bytes) returns (result: FeedResult, written: bytes)
      requires Valid() && !ready && writeBuffer == []
      modifies this
      ensures Valid() && writeBuffer == [] && result != NeedWrite
      ensures IsOutcome(Settle(users, old(Now()), old(readBuffer) + data), result, written)
    {
      ghost var whole := Settle(users, Now(), readBuffer + data);
      ghost var stage := Now();
      result := Feed(data);
      FeedSettles(stage, old(readBuffer) + data, result);
      written := [];
      while result == NeedWrite
        invariant Valid()
        invariant result == NeedWrite ==> !ready && writeBuffer != [] && Rank(Now()) < Rank(stage)
        invariant result == NeedWrite ==> After(written + writeBuffer, Settle(users, Now(), readBuffer)) == whole
        invariant result != NeedWrite ==> writeBuffer == [] && IsOutcome(whole, result, written)
        decreases Rank(stage)
      {
        stage := Now();
        written := written + writeBuffer;
        MarkWriteComplete(|writeBuffer|);
        ghost var buf := readBuffer;
        result := Feed([]);
        assert buf + [] == buf;
        FeedSettles(stage, buf, result);
        if result == NeedWrite {
          AfterTwice(written, writeBuffer, Settle(users, Now(), readBuffer));
        } else {
          assert written + [] == written;
        }
      }
    }

    /** The object stands where the outcome says. */
    ghost predicate IsOutcome(o: Outcome, result: FeedResult, written: bytes)
      reads this
    {
      && readBuffer == o.leftover && written == o.written
      && (result == NeedRead <==> o.end.Waiting?) && (o.end.Waiting? ==> Now() == o.end.stage)
      && (result == Close <==> o.end == Closed)
      && (result == ReadyToOpen <==> o.end.Opened?) && (ready <==> o.end.Opened?)
      && (o.end.Opened? ==> parsed == Some(o.end.request))
    }

    /** Where the read loop stands: sent is written, rest is unread, whole is what all the input settles to. */
    ghost predicate Standing(whole: Outcome, sent: bytes, rest: bytes, result: FeedResult)
      reads this
    {
      && result != NeedWrite
      && (result == NeedRead ==> !ready && Decide(users, Now(), readBuffer) == Wait &&
                                 After(sent, Settle(users, Now(), readBuffer + rest)) == whole)
      && (result != NeedRead ==>
            IsOutcome(whole.(leftover := readBuffer), result, sent) && whole.leftover == readBuffer + rest)
      && (result == ReadyToOpen ==> readBuffer == [])
    }

    /** The read loop: one byte per read, so that nothing past the handshake leaves the socket.  It ends as the
        whole input settles, and when it opens the read buffer is empty. */
    method ReadHandshake(input: bytes) returns (result: FeedResult, written: bytes, used: nat)
      requires Valid() && !ready && writeBuffer == [] && readBuffer == [] && Now() == FirstStage(http)
      modifies this
      ensures used <= |input|
      ensures var o := Settle(users, FirstStage(http), input);
              IsOutcome(o.(leftover := readBuffer), result, written) && o.leftover == readBuffer + input[used..]
      ensures result == ReadyToOpen ==> readBuffer == []
    {
      ghost var whole := Settle(users, FirstStage(http), input);
      Begins(input);
      result, written, used := ReadLoop(input, whole);
    }

    method ReadLoop(input: bytes, ghost whole: Outcome) returns (result: FeedResult, written: bytes, used: nat)
      requires Valid() && writeBuffer == [] && Standing(whole, [], input, NeedRead)
      modifies this
      ensures used <= |input| && whole.leftover == readBuffer + input[used..]
      ensures IsOutcome(whole.(leftover := readBuffer), result, written) && (result == ReadyToOpen ==> readBuffer == [])
    {
      result, written, used := NeedRead, [], 0;
      assert input[0..] == input;
      while used < |input| && result == NeedRead
        invariant Valid() && used <= |input| && writeBuffer == []
        invariant Standing(whole, written, input[used..], result)
      {
        assert [input[used]] + input[used + 1..] == input[used..];
        var out;
        result, out := ReadByte(input[used], input[used + 1..], whole, written);
        written := written + out;
        used := used + 1;
      }
      if result == NeedRead {
        Ends(whole, written, input[used..]);
      }
    }

    method ReadByte(b: byte, ghost rest: bytes, ghost whole: Outcome, ghost sent: bytes)
      returns (result: FeedResult, out: bytes)
      requires Valid() && writeBuffer == [] && Standing(whole, sent, [b] + rest, NeedRead)
      modifies this
      ensures Valid() && writeBuffer == [] && Standing(whole, sent + out, rest, result)
    {
      ghost var stage, buf := Now(), readBuffer;
      assert buf + ([b] + rest) == buf + [b] + rest;
      assert whole == After(sent, Settle(users, stage, buf + [b] + rest));
      result, out := FeedAndDrain([b]);
      Continues(stage, buf, b, rest, sent, result, out);
    }

    lemma Begins(input: bytes)
      requires readBuffer == [] && Now() == FirstStage(http) && !ready
      ensures Standing(Settle(users, FirstStage(http), input), [], input, NeedRead)
    {
      assert Find([], HEADER_END, 0).None?;
      assert [] + input == input;
      AfterTwice([], [], Settle(users, FirstStage(http), input));
    }

    lemma Continues(stage: Stage, buf: bytes, b: byte, rest: bytes, sent: bytes, result: FeedResult, out: bytes)
      requires Decide(users, stage, buf) == Wait && IsOutcome(Settle(users, stage, buf + [b]), result, out)
      requires result != NeedWrite
      ensures Standing(After(sent, Settle(users, stage, buf + [b] + rest)), sent + out, rest, result)
    {
      SettleInTwo(users, stage, buf + [b], rest);
      SettledWaits(users, stage, buf + [b]);
      AfterTwice(sent, out, Settle(users, Now(), readBuffer + rest));
      if result == ReadyToOpen {
        OneByteLeavesNothing(users, stage, buf, b);
      }
    }

    lemma Ends(whole: Outcome, sent: bytes, rest: bytes)
      requires Standing(whole, sent, rest, NeedRead) && rest == []
      ensures IsOutcome(whole.(leftover := readBuffer), NeedRead, sent) && whole.leftover == readBuffer + rest
    {
      assert readBuffer + rest == readBuffer;
    }
  }
}
