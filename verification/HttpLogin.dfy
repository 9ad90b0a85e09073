/** The way in over HTTP: a CONNECT request with Basic credentials from the table opens, whatever other header lines it
    has and whatever follows it. */
module HttpLogin {
  import opened Prelude
  import opened Bytes
  import opened ProxyAuth
  import opened Handshake
  import opened HandshakeProofs
  import opened Finding
  import Base64

  const CR: byte := 13
  const LF: byte := 10

  /** No line end inside. */
  predicate Unbroken(s: bytes) {
    forall i :: 0 <= i < |s| - 1 && s[i] == CR ==> s[i + 1] != LF
  }

  // --- the request line ----------------------------------------------------------------------------------------------

  function RequestLine(target: bytes, minor: byte): bytes {
    CONNECT + SPACE + target + SPACE + (HTTP1 + [minor])
  }

  predicate TargetOk(target: bytes, minor: byte) {
    32 !in target && Unbroken(target) && minor != 32 &&
    ParseHostPort(target).Some? && |ParseHostPort(target).value.0| < HOST_SIZE
  }

  function TargetRequest(target: bytes): Request
    requires ParseHostPort(target).Some?
  {
    Request(Text, ParseHostPort(target).value.0, ParseHostPort(target).value.1, 2)
  }

  lemma SpacesFound(target: bytes, version: bytes)
    requires 32 !in target && 32 !in version
    ensures var line, n := CONNECT + SPACE + target + SPACE + version, 8 + |target|;
            && Find(line, SPACE, 0) == Some(7) && Find(line, SPACE, 8) == Some(n) && Find(line, SPACE, n + 1) == None
            && line[..7] == CONNECT && line[8..n] == target && line[n + 1..] == version
  {
    var line, n := CONNECT + SPACE + target + SPACE + version, 8 + |target|;
    assert line == [] + CONNECT + SPACE + (target + SPACE + version);
    FoundAfter([], CONNECT, SPACE, target + SPACE + version);
    assert line == (CONNECT + SPACE) + target + SPACE + version;
    FoundAfter(CONNECT + SPACE, target, SPACE, version);
    assert line[n + 1..] == version;
    NotFound(line, 32, n + 1);
  }

  lemma LineParses(target: bytes, minor: byte)
    requires TargetOk(target, minor)
    ensures ParseRequestLine(RequestLine(target, minor)) == Some(TargetRequest(target))
  {
    var version := HTTP1 + [minor];
    SpacesFound(target, version);
    assert HTTP1 <= version && |version| == 8;
  }

  // --- a block of lines ----------------------------------------------------------------------------------------------

  /** Lines, each with its end, and the empty line. */
  function Block(lines: seq<bytes>): (r: bytes)
    ensures |r| >= 2 && (lines != [] ==> |r| >= |lines[0]| + 4)
  {
    if lines == [] then CRLF else lines[0] + CRLF + Block(lines[1..])
  }

  predicate LineOk(line: bytes) {
    line != [] && Unbroken(line)
  }

  predicate LinesOk(lines: seq<bytes>) {
    forall i :: 0 <= i < |lines| ==> LineOk(lines[i])
  }

  lemma AtCrs(s: bytes, j: nat)
    requires At(s, HEADER_END, j)
    ensures s[j] == CR && s[j + 1] == LF && s[j + 2] == CR && s[j + 3] == LF
  {
    var at := s[j..j + 4];
    assert at[0] == s[j] && at[1] == s[j + 1] && at[2] == s[j + 2] && at[3] == s[j + 3];
  }

  lemma AtSuffix(a: bytes, b: bytes, pat: bytes, j: nat)
    requires j >= |a|
    ensures At(a + b, pat, j) <==> At(b, pat, j - |a|)
  {
    if j + |pat| <= |a + b| { assert (a + b)[j..j + |pat|] == b[j - |a|..j - |a| + |pat|]; }
  }

  /** The empty line ends the block and comes nowhere earlier. */
  lemma {:induction false} EmptyLineAt(lines: seq<bytes>, j: nat)
    requires lines != [] && LinesOk(lines) && j <= |Block(lines)| - 4
    ensures At(Block(lines), HEADER_END, j) <==> j == |Block(lines)| - 4
  {
    var line, rest := lines[0], Block(lines[1..]);
    var s := line + CRLF + rest;
    if j >= |line| + 2 {
      EmptyLineAt(lines[1..], j - |line| - 2);
      AtSuffix(line + CRLF, rest, HEADER_END, j);
    } else if |lines| == 1 && j == |line| {
      assert s[j..j + 4] == HEADER_END;
    } else {
      if At(s, HEADER_END, j) {
        AtCrs(s, j);
        EmptyLineNotHere(line, rest, lines, j);
      }
    }
  }

  /** Not inside the first line, and not at its end if another follows. */
  lemma EmptyLineNotHere(line: bytes, rest: bytes, lines: seq<bytes>, j: nat)
    requires lines != [] && LinesOk(lines) && line == lines[0] && rest == Block(lines[1..])
    requires j <= |line| + 1 && j + 4 <= |line| + 2 + |rest| && (j == |line| ==> |lines| > 1)
    ensures var s := line + CRLF + rest; s[j] != CR || s[j + 1] != LF || s[j + 2] != CR || s[j + 3] != LF
  {
    var s := line + CRLF + rest;
    if j < |line| {
      assert s[j] == line[j] && (j + 1 < |line| ==> s[j + 1] == line[j + 1]) && (j + 1 == |line| ==> s[j + 1] == CR);
    } else if j == |line| {
      var next := lines[1];
      assert rest == next + CRLF + Block(lines[1..][1..]);
      assert s[j + 2] == next[0] && s[j + 3] == rest[1] && (|next| == 1 ==> rest[1] == CR);
    } else {
      assert s[j] == LF;
    }
  }

  lemma EmptyLineFound(lines: seq<bytes>)
    requires lines != [] && LinesOk(lines)
    ensures Find(Block(lines), HEADER_END, 0) == Some(|Block(lines)| - 4)
  {
    var i := |Block(lines)| - 4;
    EmptyLineAt(lines, i);
    forall j: nat | j < i ensures !At(Block(lines), HEADER_END, j) { EmptyLineAt(lines, j); }
    FindIs(Block(lines), HEADER_END, 0, i);
  }

  /** From pos on, these lines stand one after the other, the last of them ending at end. */
  predicate LinesAt(s: bytes, pos: nat, lines: seq<bytes>, end: nat)
    decreases |lines|
  {
    if lines == [] then pos == end + 2
    else LineAt(s, pos, lines[0], end) && LinesAt(s, pos + |lines[0]| + 2, lines[1..], end)
  }

  predicate LineAt(s: bytes, pos: nat, line: bytes, end: nat) {
    var next := pos + |line|;
    next <= end && end + 2 <= |s| && s[pos..next] == line && s[next..next + 2] == CRLF
  }

  lemma LineFound(s: bytes, pos: nat, line: bytes, end: nat)
    requires LineAt(s, pos, line, end) && LineOk(line)
    ensures Find(s, CRLF, pos) == Some(pos + |line|)
  {
    var next := pos + |line|;
    forall j: nat | pos <= j < next ensures !At(s, CRLF, j) {
      assert s[j] == s[pos..next][j - pos] && (j + 1 < next ==> s[j + 1] == s[pos..next][j + 1 - pos]);
      assert s[next] == s[next..next + 2][0];
      assert s[j..j + 2] == [s[j], s[j + 1]];
    }
    FindIs(s, CRLF, pos, next);
  }

  lemma BlockTail(pre: bytes, lines: seq<bytes>)
    requires lines != []
    ensures pre + Block(lines) == pre + lines[0] + CRLF + Block(lines[1..])
  {
  }

  lemma OneLineAt(pre: bytes, line: bytes, rest: bytes)
    requires |rest| >= 2
    ensures var s := pre + line + CRLF + rest; LineAt(s, |pre|, line, |s| - 4)
  {
  }

  lemma TailOk(lines: seq<bytes>)
    requires lines != [] && LinesOk(lines)
    ensures LineOk(lines[0]) && LinesOk(lines[1..])
  {
    assert forall i :: 0 <= i < |lines[1..]| ==> lines[1..][i] == lines[i + 1];
  }

  lemma {:induction false} BlockLines(s: bytes, pre: bytes, lines: seq<bytes>)
    requires LinesOk(lines) && s == pre + Block(lines) && |s| >= 4
    ensures LinesAt(s, |pre|, lines, |s| - 4)
    decreases |lines|
  {
    if lines == [] {
      assert |s| == |pre| + 2;
    } else {
      BlockTail(pre, lines);
      TailOk(lines);
      BlockLines(s, pre + lines[0] + CRLF, lines[1..]);
      OneLineAt(pre, lines[0], Block(lines[1..]));
    }
  }

  /** The value on the first line for the header. */
  function FirstValue(lines: seq<bytes>, name: bytes): Option<bytes> {
    if lines == [] then None
    else if LineValue(lines[0], name).Some? then LineValue(lines[0], name)
    else FirstValue(lines[1..], name)
  }

  lemma SearchStep(s: bytes, pos: nat, line: bytes, next: nat, end: nat, name: bytes)
    requires LineOk(line) && next == pos + |line| && LineAt(s, pos, line, end)
    ensures HeaderFrom(s, name, pos, end) ==
              if LineValue(line, name).Some? then LineValue(line, name) else HeaderFrom(s, name, next + 2, end)
  {
    LineFound(s, pos, line, end);
    HeaderStep(s, name, pos, end);
  }

  /** The search returns exactly that. */
  lemma {:induction false} SearchIsFirst(s: bytes, pos: nat, lines: seq<bytes>, end: nat, name: bytes)
    requires end <= |s| && LinesOk(lines) && LinesAt(s, pos, lines, end)
    ensures HeaderFrom(s, name, pos, end) == FirstValue(lines, name)
    decreases |lines|
  {
    if lines == [] {
      assert HeaderFrom(s, name, pos, end) == None;
    } else {
      TailOk(lines);
      var next := pos + |lines[0]|;
      SearchStep(s, pos, lines[0], next, end, name);
      SearchIsFirst(s, next + 2, lines[1..], end, name);
    }
  }

  lemma {:induction false} FirstValueIs(before: seq<bytes>, line: bytes, after: seq<bytes>, name: bytes)
    requires LineValue(line, name).Some? && forall i :: 0 <= i < |before| ==> LineValue(before[i], name).None?
    ensures FirstValue(before + [line] + after, name) == LineValue(line, name)
    decreases |before|
  {
    var lines := before + [line] + after;
    if before == [] {
      assert lines[0] == line;
    } else {
      assert lines[0] == before[0] && lines[1..] == before[1..] + [line] + after;
      FirstValueIs(before[1..], line, after, name);
    }
  }

  // --- the authorization line ----------------------------------------------------------------------------------------

  /** The header's name and the scheme in any letter case, any blanks between, and the encoded part. */
  function AuthLine(name: bytes, blanks: bytes, scheme: bytes, spaced: bytes): bytes {
    name + [COLON] + (blanks + (scheme + spaced))
  }

  predicate AuthLineOk(name: bytes, blanks: bytes, scheme: bytes) {
    SameIgnoringCase(name, PROXY_AUTHORIZATION) && SameIgnoringCase(scheme, BASIC) &&
    forall i :: 0 <= i < |blanks| ==> blanks[i] == 32 || blanks[i] == 9
  }

  lemma {:induction false} BlanksSkipped(blanks: bytes, value: bytes)
    requires (forall i :: 0 <= i < |blanks| ==> blanks[i] == 32 || blanks[i] == 9)
    requires value != [] && value[0] != 32 && value[0] != 9
    ensures SkipBlanks(blanks + value) == value
  {
    if blanks == [] {
      assert blanks + value == value;
    } else {
      BlanksSkipped(blanks[1..], value);
      assert (blanks + value)[1..] == blanks[1..] + value;
    }
  }

  lemma NoColonInName(name: bytes)
    requires SameIgnoringCase(name, PROXY_AUTHORIZATION)
    ensures COLON !in name
  {
    forall i | 0 <= i < |name| ensures name[i] != COLON {
      assert Lower(name[i]) == Lower(PROXY_AUTHORIZATION[i]);
    }
  }

  lemma AuthLineValue(name: bytes, blanks: bytes, scheme: bytes, spaced: bytes)
    requires AuthLineOk(name, blanks, scheme)
    ensures LineValue(AuthLine(name, blanks, scheme, spaced), PROXY_AUTHORIZATION) == Some(scheme + spaced)
  {
    var line, value := AuthLine(name, blanks, scheme, spaced), blanks + (scheme + spaced);
    NoColonInName(name);
    assert line == [] + name + [COLON] + value;
    FoundAfter([], name, [COLON], value);
    assert line[..|name|] == name && line[|name| + 1..] == value;
    assert Lower(scheme[0]) == Lower(BASIC[0]);
    BlanksSkipped(blanks, scheme + spaced);
  }

  // --- the whole request ---------------------------------------------------------------------------------------------

  /** What the searches make of a block s with this first line: the first line's end, the empty line, and the value of
      any header. */
  lemma BlockSearched(s: bytes, line: bytes, lines: seq<bytes>, name: bytes, end: nat)
    requires s == Block([line] + lines) && LineOk(line) && LinesOk(lines) && end == |s| - 4
    ensures LineAt(s, 0, line, end) && HeaderFrom(s, name, |line| + 2, end) == FirstValue(lines, name)
  {
    assert ([line] + lines)[1..] == lines && s == [] + Block([line] + lines);
    BlockLines(s, [], [line] + lines);
    SearchIsFirst(s, |line| + 2, lines, end, name);
  }

  lemma BlockEnds(s: bytes, lines: seq<bytes>, end: nat)
    requires lines != [] && s == Block(lines) && LinesOk(lines) && end == |s| - 4
    ensures Find(s, HEADER_END, 0) == Some(end)
  {
    EmptyLineFound(lines);
  }

  lemma FirstLine(s: bytes, line: bytes, first: nat, end: nat)
    requires LineAt(s, 0, line, end) && LineOk(line) && first == |line|
    ensures Find(s, CRLF, 0) == Some(first) && s[..first] == line && 0 < first <= end
  {
    LineFound(s, 0, line, end);
    assert s[..first] == s[0..first];
  }

  lemma BlockReads(s: bytes, line: bytes, lines: seq<bytes>, name: bytes, first: nat, end: nat)
    requires s == Block([line] + lines) && LineOk(line) && LinesOk(lines) && first == |line| && end == |s| - 4
    ensures Find(s, CRLF, 0) == Some(first) && Find(s, HEADER_END, 0) == Some(end) && s[..first] == line &&
            0 < first <= end
    ensures HeaderFrom(s, name, first + 2, end) == FirstValue(lines, name)
  {
    BlockSearched(s, line, lines, name, end);
    FirstLine(s, line, first, end);
    BlockEnds(s, [line] + lines, end);
  }

  lemma FirstLineParses(header: bytes, first: nat, end: nat, line: bytes)
    requires Find(header, CRLF, 0) == Some(first) && Find(header, HEADER_END, 0) == Some(end)
    requires 0 < first <= end && header[..first] == line
    ensures ParseHttp(header) == ParseRequestLine(line)
  {
  }

  lemma CutIsAll(header: bytes, end: nat)
    requires |header| == end + 4 <= HEADER_CAP && Find(header, HEADER_END, 0) == Some(end)
    ensures CutHeader(header) == Whole(header)
  {
    assert header[..|header|] == header;
  }

  lemma ValueAuthorizes(header: bytes, value: bytes, users: seq<User>, user: User)
    requires HeaderValue(header, PROXY_AUTHORIZATION) == Some(value) && ParseBasic(value) == Some(user)
    requires user in users && user.name != [] && user.password != []
    ensures RequestAuthorized(header, users)
  {
  }

  lemma WholeSettles(users: seq<User>, header: bytes, rest: bytes)
    requires CutHeader(header + rest) == Whole(header) && OnWholeHeader(users, header).Open?
    ensures Settle(users, Header, header + rest) == Outcome(Opened(OnWholeHeader(users, header).request), [], rest)
  {
    assert (header + rest)[|header|..] == rest;
  }

  /** A CONNECT request within the cap opens to its target if its first authorization line, in any letter case, with any
      blanks and with whitespace inserted into the encoded part or not, carries the Basic credentials of a user of the
      table; other header lines may come before and after, and what follows the header is left over. */
  lemma HttpLoginOpens(users: seq<User>, user: User, target: bytes, minor: byte, before: seq<bytes>, name: bytes,
                       blanks: bytes, scheme: bytes, spaced: bytes, after: seq<bytes>, rest: bytes)
    requires user in users && user.name != [] && COLON !in user.name && user.password != []
    requires |user.name| <= MAX_FIELD && |user.password| <= MAX_FIELD
    requires AuthLineOk(name, blanks, scheme)
    requires Base64.StripSpace(spaced) == Base64.Encode(user.name + [COLON] + user.password) && Unbroken(spaced)
    requires LinesOk(before) && LinesOk(after)
    requires forall i :: 0 <= i < |before| ==> LineValue(before[i], PROXY_AUTHORIZATION).None?
    requires TargetOk(target, minor)
    requires |Block([RequestLine(target, minor)] +
             (before + [AuthLine(name, blanks, scheme, spaced)] + after))| <= HEADER_CAP
    ensures Settle(users, Header,
            Block([RequestLine(target, minor)] + (before + [AuthLine(name, blanks, scheme, spaced)] + after)) + rest)
         == Outcome(Opened(TargetRequest(target)), [], rest)
  {
    var first, line := RequestLine(target, minor), AuthLine(name, blanks, scheme, spaced);
    var lines := before + [line] + after;
    BasicRoundTrip(user, scheme, spaced);
    AuthLineValue(name, blanks, scheme, spaced);
    FirstValueIs(before, line, after, PROXY_AUTHORIZATION);
    RequestLineOk(target, minor);
    AuthLineIsOk(name, blanks, scheme, spaced);
    AllLinesOk(before, line, after);
    LineParses(target, minor);
    var header := Block([first] + lines);
    LinesAccepted(users, user, header, first, lines, TargetRequest(target));
    AuthorizedOpens(users, header, rest);
  }

  lemma LinesAccepted(users: seq<User>, user: User, header: bytes, line: bytes, lines: seq<bytes>, request: Request)
    requires header == Block([line] + lines) && |header| <= HEADER_CAP && LineOk(line) && LinesOk(lines)
    requires user in users && user.name != [] && user.password != [] && ParseRequestLine(line) == Some(request)
    requires var value := FirstValue(lines, PROXY_AUTHORIZATION); value.Some? && ParseBasic(value.value) == Some(user)
    ensures ParseHttp(header) == Some(request) && RequestAuthorized(header, users) && CutHeader(header) == Whole(header)
  {
    var first, end := |line|, |header| - 4;
    BlockReads(header, line, lines, PROXY_AUTHORIZATION, first, end);
    FoundAccepted(users, user, header, first, end, line, FirstValue(lines, PROXY_AUTHORIZATION).value, request);
  }

  lemma FoundAccepted(users: seq<User>, user: User, header: bytes, first: nat, end: nat, line: bytes, value: bytes,
                      request: Request)
    requires Find(header, CRLF, 0) == Some(first) && Find(header, HEADER_END, 0) == Some(end) &&
             |header| == end + 4 <= HEADER_CAP
    requires 0 < first <= end && header[..first] == line && ParseRequestLine(line) == Some(request)
    requires HeaderFrom(header, PROXY_AUTHORIZATION, first + 2, end) == Some(value) && ParseBasic(value) == Some(user)
    requires user in users && user.name != [] && user.password != []
    ensures ParseHttp(header) == Some(request) && RequestAuthorized(header, users) && CutHeader(header) == Whole(header)
  {
    FirstLineParses(header, first, end, line);
    FoundAuthorizes(header, first, end, value, users, user);
    CutIsAll(header, end);
  }

  lemma FoundAuthorizes(header: bytes, first: nat, end: nat, value: bytes, users: seq<User>, user: User)
    requires Find(header, CRLF, 0) == Some(first) && Find(header, HEADER_END, 0) == Some(end)
    requires HeaderFrom(header, PROXY_AUTHORIZATION, first + 2, end) == Some(value) && ParseBasic(value) == Some(user)
    requires user in users && user.name != [] && user.password != []
    ensures RequestAuthorized(header, users)
  {
    HeaderValueIs(header, PROXY_AUTHORIZATION, first, end, Some(value));
    ValueAuthorizes(header, value, users, user);
  }

  lemma AuthorizedOpens(users: seq<User>, header: bytes, rest: bytes)
    requires ParseHttp(header).Some? && RequestAuthorized(header, users) && CutHeader(header) == Whole(header)
    ensures Settle(users, Header, header + rest) == Outcome(Opened(ParseHttp(header).value), [], rest)
  {
    CutStable(header, rest);
    WholeSettles(users, header, rest);
  }

  lemma AllLinesOk(before: seq<bytes>, line: bytes, after: seq<bytes>)
    requires LinesOk(before) && LineOk(line) && LinesOk(after)
    ensures LinesOk(before + [line] + after)
  {
  }

  lemma RequestLineOk(target: bytes, minor: byte)
    requires TargetOk(target, minor)
    ensures LineOk(RequestLine(target, minor))
  {
  }

  lemma AuthLineIsOk(name: bytes, blanks: bytes, scheme: bytes, spaced: bytes)
    requires AuthLineOk(name, blanks, scheme) && Unbroken(spaced)
    ensures LineOk(AuthLine(name, blanks, scheme, spaced))
  {
    forall i | 0 <= i < |name| ensures name[i] != CR { assert Lower(name[i]) == Lower(PROXY_AUTHORIZATION[i]); }
    forall i | 0 <= i < |scheme| ensures scheme[i] != CR { assert Lower(scheme[i]) == Lower(BASIC[i]); }
    assert CR !in name && CR !in scheme && CR !in blanks;
  }
}
