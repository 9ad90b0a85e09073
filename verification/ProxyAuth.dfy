/** Proxy authentication: the user table, the header search and Basic credentials (RFC 7617 section 2). */
module ProxyAuth {
  import opened Prelude
  import opened Bytes
  import Base64

  datatype User = User(name: bytes, password: bytes)

  const MAX_FIELD := 255
  const COLON: byte := 58
  const CRLF: bytes := [13, 10]
  const HEADER_END: bytes := [13, 10, 13, 10]
  const BASIC: bytes := [66, 97, 115, 105, 99, 32]
  const PROXY_AUTHORIZATION: bytes :=
    [80, 114, 111, 120, 121, 45, 65, 117, 116, 104, 111, 114, 105, 122, 97, 116, 105, 111, 110]

  // --- the table -----------------------------------------------------------------------------------------------

  /** What a table accepts: everything when it is empty, otherwise exactly its own non-empty pairs. */
  predicate Accepts(users: seq<User>, user: bytes, password: bytes) {
    users == [] || (user != [] && password != [] && User(user, password) in users)
  }

  /** Every pair of bytes is looked at: their differing bits are gathered in diff. */
  method ConstantTimeEquals(left: bytes, right: bytes) returns (same: bool)
    ensures same == (left == right)
  {
    if |left| != |right| {
      return false;
    }
    var diff := 0;
    for i := 0 to |left|
      invariant diff == 0 <==> left[..i] == right[..i]
    {
      assert left[..i + 1] == left[..i] + [left[i]] && right[..i + 1] == right[..i] + [right[i]];
      XorIsZero(left[i], right[i]);
      OrIsZero(diff, BitXor(left[i], right[i]));
      diff := BitOr(diff, BitXor(left[i], right[i]));
    }
    assert left[..|left|] == left && right[..|right|] == right;
    return diff == 0;
  }

  method Validate(users: seq<User>, user: bytes, password: bytes) returns (valid: bool)
    ensures valid == Accepts(users, user, password)
  {
    if users == [] {
      return true;
    }
    if user == [] || password == [] {
      return false;
    }
    valid := false;
    for i := 0 to |users|
      invariant valid == (User(user, password) in users[..i])
    {
      var userOk := ConstantTimeEquals(users[i].name, user);
      var passOk := ConstantTimeEquals(users[i].password, password);
      assert users[..i + 1] == users[..i] + [users[i]];
      valid := valid || (userOk && passOk);
    }
    assert users[..|users|] == users;
  }

  // --- the header search -----------------------------------------------------------------------------------------

  function SkipBlanks(s: bytes): bytes {
    if s != [] && (s[0] == 32 || s[0] == 9) then SkipBlanks(s[1..]) else s
  }

  /** The value on a header line if the line is for this header. */
  function LineValue(line: bytes, name: bytes): Option<bytes> {
    var colon := Find(line, [COLON], 0);
    if colon.Some? && SameIgnoringCase(line[..colon.value], name) then Some(SkipBlanks(line[colon.value + 1..]))
    else None
  }

  /** The first line from pos on that is for this header. */
  function HeaderFrom(request: bytes, name: bytes, pos: nat, end: nat): Option<bytes>
    requires end <= |request|
    decreases end - pos
  {
    if pos >= end then None
    else
      var lineEnd := Find(request, CRLF, pos);
      if lineEnd.None? || lineEnd.value > end then None
      else
        var value := LineValue(request[pos..lineEnd.value], name);
        if value.Some? then value else HeaderFrom(request, name, lineEnd.value + 2, end)
  }

  function HeaderValue(request: bytes, name: bytes): Option<bytes> {
    var end := Find(request, HEADER_END, 0);
    var first := Find(request, CRLF, 0);
    if end.None? || first.None? then None else HeaderFrom(request, name, first.value + 2, end.value)
  }

  lemma HeaderValueIs(request: bytes, name: bytes, first: nat, end: nat, value: Option<bytes>)
    requires Find(request, CRLF, 0) == Some(first) && Find(request, HEADER_END, 0) == Some(end)
    requires HeaderFrom(request, name, first + 2, end) == value
    ensures HeaderValue(request, name) == value
  {
  }

  lemma HeaderStep(request: bytes, name: bytes, pos: nat, end: nat)
    requires pos < end <= |request|
    ensures var lineEnd := Find(request, CRLF, pos);
            HeaderFrom(request, name, pos, end) ==
              if lineEnd.None? || lineEnd.value > end then None
              else if LineValue(request[pos..lineEnd.value], name).Some? then
                LineValue(request[pos..lineEnd.value], name)
              else HeaderFrom(request, name, lineEnd.value + 2, end)
  {
  }

  method FindHeaderValue(request: bytes, name: bytes) returns (value: Option<bytes>)
    ensures value == HeaderValue(request, name)
  {
    var end := Find(request, HEADER_END, 0);
    var first := Find(request, CRLF, 0);
    if end.None? || first.None? {
      return None;
    }
    value := ScanHeaders(request, name, first.value + 2, end.value);
  }

  method ScanHeaders(request: bytes, name: bytes, start: nat, end: nat) returns (value: Option<bytes>)
    requires end <= |request|
    ensures value == HeaderFrom(request, name, start, end)
  {
    var pos := start;
    while pos < end
      invariant HeaderFrom(request, name, start, end) == HeaderFrom(request, name, pos, end)
      decreases end - pos
    {
      var next;
      value, next := ScanLine(request, name, pos, end);
      if value.Some? || next.None? {
        return;
      }
      pos := next.value;
    }
    value := None;
  }

  /** One line: its value, or where the next line starts. */
  method ScanLine(request: bytes, name: bytes, pos: nat, end: nat) returns (value: Option<bytes>, next: Option<nat>)
    requires pos < end <= |request|
    ensures HeaderFrom(request, name, pos, end) ==
              if value.Some? || next.None? then value else HeaderFrom(request, name, next.value, end)
    ensures next.Some? ==> next.value > pos
  {
    HeaderStep(request, name, pos, end);
    var lineEnd := Find(request, CRLF, pos);
    if lineEnd.None? || lineEnd.value > end {
      return None, None;
    }
    value := ValueOnLine(request[pos..lineEnd.value], name);
    next := Some(lineEnd.value + 2);
  }

  method ValueOnLine(line: bytes, name: bytes) returns (value: Option<bytes>)
    ensures value == LineValue(line, name)
  {
    var colon := Find(line, [COLON], 0);
    if colon.None? || !SameIgnoringCase(line[..colon.value], name) {
      return None;
    }
    var start := colon.value + 1;
    while start < |line| && (line[start] == 32 || line[start] == 9)
      invariant start <= |line| && SkipBlanks(line[colon.value + 1..]) == SkipBlanks(line[start..])
    {
      assert line[start..][1..] == line[start + 1..];
      start := start + 1;
    }
    return Some(line[start..]);
  }

  // --- Basic credentials -------------------------------------------------------------------------------------------

  function ParseBasic(value: bytes): (r: Option<User>) {
    if |value| < |BASIC| || !SameIgnoringCase(value[..|BASIC|], BASIC) then None
    else
      var decoded := Base64.Decode(value[|BASIC|..]);
      if decoded.None? then None else SplitCredentials(decoded.value)
  }

  function SplitCredentials(text: bytes): Option<User> {
    var colon := Find(text, [COLON], 0);
    if colon.None? || colon.value == 0 then None
    else
      var user := User(text[..colon.value], text[colon.value + 1..]);
      if |user.name| > MAX_FIELD || |user.password| > MAX_FIELD then None else Some(user)
  }

  /** RFC 7617: the credentials a client encodes are the ones the proxy reads, in whatever letter case the scheme is
      written and whatever whitespace was inserted into the encoded part. */
  lemma BasicRoundTrip(user: User, scheme: bytes, spaced: bytes)
    requires user.name != [] && COLON !in user.name && |user.name| <= MAX_FIELD && |user.password| <= MAX_FIELD
    requires SameIgnoringCase(scheme, BASIC)
    requires Base64.StripSpace(spaced) == Base64.Encode(user.name + [COLON] + user.password)
    ensures ParseBasic(scheme + spaced) == Some(user)
  {
    var text := user.name + [COLON] + user.password;
    Base64.DecodeUndoesEncode(text, spaced);
    assert (scheme + spaced)[..|BASIC|] == scheme && (scheme + spaced)[|BASIC|..] == spaced;
    var n := |user.name|;
    FindByte(text, COLON, 0);
    assert forall j :: 0 <= j < n ==> text[j] == user.name[j];
    assert text[n] == COLON;
    assert text[..n] == user.name && text[n + 1..] == user.password;
  }

  // --- the decision for a request ------------------------------------------------------------------------------------

  datatype AuthResult = Authorized | Disabled | MissingHeader | InvalidHeader | InvalidCredentials

  function RequestAuth(request: bytes, users: seq<User>): AuthResult {
    if users == [] then Disabled
    else
      var value := HeaderValue(request, PROXY_AUTHORIZATION);
      if value.None? then MissingHeader
      else
        var user := ParseBasic(value.value);
        if user.None? then InvalidHeader
        else if Accepts(users, user.value.name, user.value.password) then Authorized else InvalidCredentials
  }

  predicate RequestAuthorized(request: bytes, users: seq<User>) {
    var result := RequestAuth(request, users);
    result == Authorized || result == Disabled
  }
}
