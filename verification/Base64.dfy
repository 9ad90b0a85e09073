/** Base64 of RFC 4648 section 4: the reference encoder, and the proxy's decoder. */
module Base64 {
  import opened Prelude
  import opened Bytes

  const PAD: byte := 61

  function EncodeDigit(v: nat): byte
    requires v < 64
  {
    if v < 26 then 65 + v else if v < 52 then 71 + v else if v < 62 then v - 4 else if v == 62 then 43 else 47
  }

  function EncodeGroup(a: byte, b: byte, c: byte): (r: bytes)
    ensures |r| == 4
  {
    [EncodeDigit(a / 4), EncodeDigit(a % 4 * 16 + b / 16), EncodeDigit(b % 16 * 4 + c / 64), EncodeDigit(c % 64)]
  }

  function EncodeTail(data: bytes): (r: bytes)
    requires 1 <= |data| <= 2
    ensures |r| == 4
  {
    if |data| == 1 then [EncodeDigit(data[0] / 4), EncodeDigit(data[0] % 4 * 16), PAD, PAD]
    else [EncodeDigit(data[0] / 4), EncodeDigit(data[0] % 4 * 16 + data[1] / 16), EncodeDigit(data[1] % 16 * 4), PAD]
  }

  lemma FourMore(n: nat)
    ensures (4 + n) % 4 == n % 4
  {
  }

  function Encode(data: bytes): (r: bytes)
    ensures |r| % 4 == 0
  {
    if data == [] then []
    else if |data| <= 2 then EncodeTail(data)
    else
      var rest := Encode(data[3..]);
      FourMore(|rest|);
      EncodeGroup(data[0], data[1], data[2]) + rest
  }

  predicate Space(b: byte) {
    b == 32 || b == 9 || b == 13 || b == 10
  }

  /** The value of a Base64 character, or -1. */
  function DigitValue(b: byte): (v: int)
    ensures -1 <= v < 64
  {
    if 65 <= b <= 90 then b - 65
    else if 97 <= b <= 122 then b - 71
    else if 48 <= b <= 57 then b + 4
    else if b == 43 then 62
    else if b == 47 then 63
    else -1
  }

  function StripSpace(s: bytes): bytes {
    if s == [] then []
    else StripSpace(s[..|s| - 1]) + if Space(s[|s| - 1]) then [] else [s[|s| - 1]]
  }

  predicate Legal(b: byte) {
    b == PAD || DigitValue(b) >= 0 || Space(b)
  }

  function Prepend(head: bytes, tail: Option<bytes>): Option<bytes> {
    if tail.None? then None else Some(head + tail.value)
  }

  /** Four characters give one to three bytes.  The shifted fields do not overlap, so joining them is addition. */
  function DecodeGroup(a: byte, b: byte, c: byte, d: byte): Option<bytes> {
    var v0, v1 := DigitValue(a), DigitValue(b);
    var v2 := if c == PAD then 0 else DigitValue(c);
    var v3 := if d == PAD then 0 else DigitValue(d);
    if v0 < 0 || v1 < 0 || v2 < 0 || v3 < 0 then None
    else
      Some(TripleBytes(v0 * 262144 + v1 * 4096 + v2 * 64 + v3, c != PAD, d != PAD))
  }

  function TripleBytes(triple: nat, second: bool, third: bool): bytes {
    [triple / 65536 % 256] + (if second then [triple / 256 % 256] else []) + (if third then [triple % 256] else [])
  }

  function DecodeGroups(s: bytes): Option<bytes>
    requires |s| % 4 == 0
  {
    if s == [] then Some([])
    else
      var head := DecodeGroup(s[0], s[1], s[2], s[3]);
      if head.None? then None else Prepend(head.value, DecodeGroups(s[4..]))
  }

  function Decode(input: bytes): Option<bytes> {
    if exists i :: 0 <= i < |input| && !Legal(input[i]) then None
    else
      var cleaned := StripSpace(input);
      if cleaned == [] || |cleaned| % 4 != 0 then None else DecodeGroups(cleaned)
  }

  // --- the decoder ------------------------------------------------------------------------------------------

  method CleanInput(input: bytes) returns (cleaned: Option<bytes>)
    ensures cleaned == if exists i :: 0 <= i < |input| && !Legal(input[i]) then None else Some(StripSpace(input))
  {
    var kept := [];
    for i := 0 to |input|
      invariant kept == StripSpace(input[..i])
      invariant forall j :: 0 <= j < i ==> Legal(input[j])
    {
      var ch := input[i];
      assert input[..i + 1][..i] == input[..i];
      if ch == PAD || DigitValue(ch) >= 0 {
        kept := kept + [ch];
      } else if !Space(ch) {
        return None;
      }
    }
    assert input[..|input|] == input;
    return Some(kept);
  }

  lemma PrependTwice(a: bytes, b: bytes, tail: Option<bytes>)
    ensures Prepend(a, Prepend(b, tail)) == Prepend(a + b, tail)
  {
    if tail.Some? { assert a + (b + tail.value) == (a + b) + tail.value; }
  }

  lemma PrependNothing(s: bytes)
    requires |s| % 4 == 0
    ensures DecodeGroups(s) == Prepend([], DecodeGroups(s[0..]))
  {
    assert s[0..] == s;
    if DecodeGroups(s).Some? { assert [] + DecodeGroups(s).value == DecodeGroups(s).value; }
  }

  lemma PrependDone(s: bytes)
    ensures Prepend(s, Some([])) == Some(s)
  {
    assert s + [] == s;
  }

  lemma FourFit(i: nat, n: nat)
    requires i % 4 == 0 && n % 4 == 0 && i < n
    ensures i + 4 <= n && (i + 4) % 4 == 0 && (n - i) % 4 == 0 && (n - (i + 4)) % 4 == 0
  {
  }

  lemma NextGroup(s: bytes, i: nat, output: bytes)
    requires |s| % 4 == 0 && i % 4 == 0 && i + 4 <= |s|
    ensures var group := DecodeGroup(s[i], s[i + 1], s[i + 2], s[i + 3]);
            Prepend(output, DecodeGroups(s[i..])) ==
              if group.None? then None else Prepend(output + group.value, DecodeGroups(s[i + 4..]))
  {
    var group := DecodeGroup(s[i], s[i + 1], s[i + 2], s[i + 3]);
    var rest := s[i..];
    assert rest[4..] == s[i + 4..];
    if group.Some? { PrependTwice(output, group.value, DecodeGroups(rest[4..])); }
  }

  method DecodeInput(input: bytes) returns (decoded: Option<bytes>)
    ensures decoded == Decode(input)
  {
    var cleaned := CleanInput(input);
    if cleaned.None? || cleaned.value == [] || |cleaned.value| % 4 != 0 {
      return None;
    }
    decoded := DecodeCleaned(cleaned.value);
  }

  method DecodeCleaned(s: bytes) returns (decoded: Option<bytes>)
    requires s != [] && |s| % 4 == 0
    ensures decoded == DecodeGroups(s)
  {
    var i, output := 0, [];
    PrependNothing(s);
    while i < |s|
      invariant 0 <= i <= |s| && i % 4 == 0
      invariant i > 0 ==> output != []
      invariant DecodeGroups(s) == Prepend(output, DecodeGroups(s[i..]))
    {
      FourFit(i, |s|);
      NextGroup(s, i, output);
      var group := DecodeGroup(s[i], s[i + 1], s[i + 2], s[i + 3]);
      if group.None? {
        return None;
      }
      output := output + group.value;
      i := i + 4;
    }
    PrependDone(output);
    return if output == [] then None else Some(output);
  }

  // --- round trip -------------------------------------------------------------------------------------------

  lemma DigitRoundTrip(v: nat)
    requires v < 64
    ensures DigitValue(EncodeDigit(v)) == v && EncodeDigit(v) != PAD && !Space(EncodeDigit(v))
  {
  }

  /** A group of digits decodes to the three bytes of the number they spell, less the padded ones. */
  lemma GroupOf(v0: nat, v1: nat, v2: nat, v3: nat, a: byte, b: byte, c: byte)
    requires v0 < 64 && v1 < 64 && v2 < 64 && v3 < 64
    requires v0 * 262144 + v1 * 4096 + v2 * 64 + v3 == a as int * 65536 + b as int * 256 + c
    ensures DecodeGroup(EncodeDigit(v0), EncodeDigit(v1), EncodeDigit(v2), EncodeDigit(v3)) == Some([a, b, c])
    ensures v3 == 0 ==> DecodeGroup(EncodeDigit(v0), EncodeDigit(v1), EncodeDigit(v2), PAD) == Some([a, b])
    ensures v3 == 0 && v2 == 0 ==> DecodeGroup(EncodeDigit(v0), EncodeDigit(v1), PAD, PAD) == Some([a])
  {
    DigitRoundTrip(v0);
    DigitRoundTrip(v1);
    DigitRoundTrip(v2);
    DigitRoundTrip(v3);
    TripleSplits(a, b, c);
    var triple := v0 * 262144 + v1 * 4096 + v2 * 64 + v3;
    assert DecodeGroup(EncodeDigit(v0), EncodeDigit(v1), EncodeDigit(v2), EncodeDigit(v3)) ==
           Some(TripleBytes(triple, true, true));
  }

  lemma FullGroup(a: byte, b: byte, c: byte)
    ensures DecodeGroup(EncodeDigit(a / 4), EncodeDigit(a % 4 * 16 + b / 16), EncodeDigit(b % 16 * 4 + c / 64),
            EncodeDigit(c % 64))
         == Some([a, b, c])
  {
    Regroup(a / 4, a % 4, b / 16, b % 16, c / 64, c % 64);
    GroupOf(a / 4, a % 4 * 16 + b / 16, b % 16 * 4 + c / 64, c % 64, a, b, c);
  }

  lemma TripleSplits(a: byte, b: byte, c: byte)
    ensures TripleBytes(a as int * 65536 + b as int * 256 + c, true, true) == [a, b, c]
    ensures TripleBytes(a as int * 65536 + b as int * 256 + c, true, false) == [a, b]
    ensures TripleBytes(a as int * 65536 + b as int * 256 + c, false, false) == [a]
  {
    var t := a as int * 65536 + b as int * 256 + c;
    assert t / 65536 == a && t / 256 == a as int * 256 + b && t % 256 == c;
  }

  lemma Regroup(a1: nat, a0: nat, b1: nat, b0: nat, c1: nat, c0: nat)
    ensures a1 * 262144 + (a0 * 16 + b1) * 4096 + (b0 * 4 + c1) * 64 + c0
         == (4 * a1 + a0) * 65536 + (16 * b1 + b0) * 256 + (64 * c1 + c0)
  {
  }

  lemma PartGroups(a: byte, b: byte)
    ensures DecodeGroup(EncodeDigit(a / 4), EncodeDigit(a % 4 * 16), PAD, PAD) == Some([a])
    ensures DecodeGroup(EncodeDigit(a / 4), EncodeDigit(a % 4 * 16 + b / 16), EncodeDigit(b % 16 * 4), PAD) ==
            Some([a, b])
  {
    Regroup(a / 4, a % 4, 0, 0, 0, 0);
    GroupOf(a / 4, a % 4 * 16, 0, 0, a, 0, 0);
    Regroup(a / 4, a % 4, b / 16, b % 16, 0, 0);
    GroupOf(a / 4, a % 4 * 16 + b / 16, b % 16 * 4, 0, a, b, 0);
  }

  lemma GroupThenRest(a: byte, b: byte, c: byte, d: byte, rest: bytes, head: bytes, tail: bytes)
    requires |rest| % 4 == 0 && DecodeGroup(a, b, c, d) == Some(head) && DecodeGroups(rest) == Some(tail)
    ensures DecodeGroups([a, b, c, d] + rest) == Some(head + tail)
  {
    var s := [a, b, c, d] + rest;
    assert s[4..] == rest;
  }

  lemma {:induction false} GroupsRoundTrip(data: bytes)
    ensures DecodeGroups(Encode(data)) == Some(data)
  {
    if data == [] {
    } else if |data| <= 2 {
      ShortRoundTrip(data);
    } else {
      GroupsRoundTrip(data[3..]);
      FullGroupThenRest(data[0], data[1], data[2], Encode(data[3..]), data[3..]);
      assert data == [data[0], data[1], data[2]] + data[3..];
    }
  }

  lemma FullGroupThenRest(a: byte, b: byte, c: byte, rest: bytes, tail: bytes)
    requires |rest| % 4 == 0 && DecodeGroups(rest) == Some(tail)
    ensures DecodeGroups(EncodeGroup(a, b, c) + rest) == Some([a, b, c] + tail)
  {
    FullGroup(a, b, c);
    var e := EncodeGroup(a, b, c);
    assert e == [e[0], e[1], e[2], e[3]];
    GroupThenRest(e[0], e[1], e[2], e[3], rest, [a, b, c], tail);
  }

  lemma ShortRoundTrip(data: bytes)
    requires 1 <= |data| <= 2
    ensures DecodeGroups(EncodeTail(data)) == Some(data)
  {
    var e := EncodeTail(data);
    if |data| == 1 {
      PartGroups(data[0], 0);
      assert data == [data[0]];
    } else {
      PartGroups(data[0], data[1]);
      assert data == [data[0], data[1]];
    }
    assert e == [e[0], e[1], e[2], e[3]] + [];
    GroupThenRest(e[0], e[1], e[2], e[3], [], data, []);
    assert data + [] == data;
  }

  lemma {:induction false} EncodedIsLegal(data: bytes, i: nat)
    requires i < |Encode(data)|
    ensures Legal(Encode(data)[i])
  {
    if |data| > 2 && i >= 4 {
      EncodedIsLegal(data[3..], i - 4);
    }
  }

  lemma {:induction false} StrippedIsLegal(s: bytes, plain: bytes)
    requires StripSpace(s) == plain && forall i :: 0 <= i < |plain| ==> Legal(plain[i])
    ensures forall i :: 0 <= i < |s| ==> Legal(s[i])
  {
    if s == [] {
    } else {
      var front := StripSpace(s[..|s| - 1]);
      assert plain == front || plain == front + [s[|s| - 1]];
      assert forall i :: 0 <= i < |front| ==> front[i] == plain[i];
      StrippedIsLegal(s[..|s| - 1], front);
      if !Space(s[|s| - 1]) { assert plain[|front|] == s[|s| - 1]; }
    }
  }

  /** Decoding undoes encoding, whatever whitespace has been inserted. */
  lemma DecodeUndoesEncode(data: bytes, spaced: bytes)
    requires data != [] && StripSpace(spaced) == Encode(data)
    ensures Decode(spaced) == Some(data)
  {
    GroupsRoundTrip(data);
    forall i | 0 <= i < |Encode(data)| ensures Legal(Encode(data)[i]) { EncodedIsLegal(data, i); }
    StrippedIsLegal(spaced, Encode(data));
  }
}
