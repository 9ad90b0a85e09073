/** Byte strings: searching, ASCII case, decimal numbers. */
module Bytes {
  import opened Prelude

  type bytes = seq<byte>

  predicate At(s: bytes, pat: bytes, i: nat) {
    i + |pat| <= |s| && s[i..i + |pat|] == pat
  }

  /** The first occurrence of pat at or after from. */
  function Find(s: bytes, pat: bytes, from: nat): (r: Option<nat>)
    ensures r.Some? ==> from <= r.value && r.value + |pat| <= |s|
    decreases |s| + 1 - from
  {
    if from + |pat| > |s| then None
    else if At(s, pat, from) then Some(from)
    else Find(s, pat, from + 1)
  }

  lemma {:induction false} FindSpec(s: bytes, pat: bytes, from: nat)
    ensures var r := Find(s, pat, from);
            && (r.Some? ==> At(s, pat, r.value) && forall j :: from <= j < r.value ==> !At(s, pat, j))
            && (r.None? ==> forall j :: from <= j ==> !At(s, pat, j))
    decreases |s| + 1 - from
  {
    if from + |pat| > |s| {
      assert Find(s, pat, from) == None;
    } else if !At(s, pat, from) {
      FindSpec(s, pat, from + 1);
    }
  }

  /** The same for a single byte. */
  lemma FindByte(s: bytes, b: byte, from: nat)
    ensures var r := Find(s, [b], from);
            && (r.Some? ==> s[r.value] == b && forall j :: from <= j < r.value ==> s[j] != b)
            && (r.None? ==> forall j :: from <= j < |s| ==> s[j] != b)
  {
    FindSpec(s, [b], from);
    forall j: nat | j < |s| ensures At(s, [b], j) <==> s[j] == b { assert s[j..j + 1] == [s[j]]; }
  }

  /** The last occurrence of byte b. */
  function FindLast(s: bytes, b: byte): (r: Option<nat>)
    ensures r.Some? ==> r.value < |s| && s[r.value] == b && forall j :: r.value < j < |s| ==> s[j] != b
    ensures r.None? ==> b !in s
  {
    if s == [] then None
    else if s[|s| - 1] == b then Some(|s| - 1)
    else FindLast(s[..|s| - 1], b)
  }

  /** Where a pattern is found does not change when bytes arrive behind it. */
  lemma FindStable(s: bytes, more: bytes, pat: bytes)
    ensures Find(s, pat, 0).Some? ==> Find(s + more, pat, 0) == Find(s, pat, 0)
    ensures Find(s, pat, 0).None? && Find(s + more, pat, 0).Some? ==> Find(s + more, pat, 0).value + |pat| > |s|
  {
    var here, there := Find(s, pat, 0), Find(s + more, pat, 0);
    FindSpec(s, pat, 0);
    FindSpec(s + more, pat, 0);
    if here.Some? {
      FirstStays(s, more, pat, here.value);
    } else if there.Some? {
      NotEarlier(s, more, pat, there.value);
    }
  }

  lemma FirstStays(s: bytes, more: bytes, pat: bytes, i: nat)
    requires At(s, pat, i) && forall j: nat :: j < i ==> !At(s, pat, j)
    ensures Find(s + more, pat, 0) == Some(i)
  {
    AtEarly(s, more, pat, i);
    forall j: nat | j < i ensures !At(s + more, pat, j) { AtEarly(s, more, pat, j); }
    FindIs(s + more, pat, 0, i);
  }

  lemma FindStableFrom(s: bytes, more: bytes, pat: bytes, from: nat)
    requires Find(s, pat, from).Some?
    ensures Find(s + more, pat, from) == Find(s, pat, from)
  {
    var i := Find(s, pat, from).value;
    FindSpec(s, pat, from);
    AtEarly(s, more, pat, i);
    forall j: nat | from <= j < i ensures !At(s + more, pat, j) { AtEarly(s, more, pat, j); }
    FindIs(s + more, pat, from, i);
  }

  lemma FindIs(s: bytes, pat: bytes, from: nat, i: nat)
    requires from <= i && At(s, pat, i) && forall j: nat :: from <= j < i ==> !At(s, pat, j)
    ensures Find(s, pat, from) == Some(i)
  {
    var r := Find(s, pat, from);
    FindSpec(s, pat, from);
    assert r.Some? && !(r.value < i);
  }

  lemma NotEarlier(s: bytes, more: bytes, pat: bytes, i: nat)
    requires At(s + more, pat, i) && forall j: nat :: !At(s, pat, j)
    ensures i + |pat| > |s|
  {
    if i + |pat| <= |s| { AtEarly(s, more, pat, i); }
  }

  lemma AtEarly(s: bytes, more: bytes, pat: bytes, j: nat)
    requires j + |pat| <= |s|
    ensures At(s + more, pat, j) <==> At(s, pat, j)
  {
    assert (s + more)[j..j + |pat|] == s[j..j + |pat|];
  }

  /** Bitwise or and exclusive or. */
  function BitOr(a: nat, b: nat): nat {
    if a == 0 && b == 0 then 0 else 2 * BitOr(a / 2, b / 2) + if a % 2 == 1 || b % 2 == 1 then 1 else 0
  }

  function BitXor(a: nat, b: nat): nat {
    if a == 0 && b == 0 then 0 else 2 * BitXor(a / 2, b / 2) + if a % 2 != b % 2 then 1 else 0
  }

  lemma {:induction false} OrIsZero(a: nat, b: nat)
    ensures BitOr(a, b) == 0 <==> a == 0 && b == 0
  {
    if a == 0 && b == 0 {
    } else {
      OrIsZero(a / 2, b / 2);
    }
  }

  lemma {:induction false} XorIsZero(a: nat, b: nat)
    ensures BitXor(a, b) == 0 <==> a == b
  {
    if a == 0 && b == 0 {
    } else {
      XorIsZero(a / 2, b / 2);
    }
  }

  function Lower(b: byte): byte {
    if 65 <= b <= 90 then b + 32 else b
  }

  predicate SameIgnoringCase(a: bytes, b: bytes) {
    |a| == |b| && forall i :: 0 <= i < |a| ==> Lower(a[i]) == Lower(b[i])
  }

  predicate Digit(b: byte) {
    48 <= b <= 57
  }

  predicate Digits(s: bytes) {
    forall i :: 0 <= i < |s| ==> Digit(s[i])
  }

  /** The number a string of digits denotes. */
  function Decimal(s: bytes): nat
    requires Digits(s)
  {
    if s == [] then 0 else Decimal(s[..|s| - 1]) * 10 + s[|s| - 1] as int - 48
  }

  /** The number octets denote, most significant first. */
  function BigEndian(s: bytes): nat {
    if s == [] then 0 else BigEndian(s[..|s| - 1]) * 256 + s[|s| - 1] as nat
  }

  const PORT_MAX := 65535

  /** The port a text denotes: digits only, between 1 and 65535. */
  function Port(s: bytes): (r: Option<nat>)
    ensures r.Some? ==> 1 <= r.value <= PORT_MAX
  {
    if s != [] && Digits(s) && 1 <= Decimal(s) <= PORT_MAX then Some(Decimal(s)) else None
  }

  lemma {:induction false} DecimalGrows(s: bytes, n: nat)
    requires n <= |s| && Digits(s)
    ensures Decimal(s[..n]) <= Decimal(s)
    decreases |s| - n
  {
    if n < |s| {
      assert s[..n + 1][..n] == s[..n];
      DecimalGrows(s, n + 1);
    } else {
      assert s[..n] == s;
    }
  }

  /** The digit loop: it stops at the first character that is no digit and as soon as the value is out of range,
      and accepts exactly the ports. */
  method ParsePort(text: bytes) returns (port: Option<nat>)
    ensures port == Port(text)
  {
    if text == [] {
      return None;
    }
    var value := 0;
    for i := 0 to |text|
      invariant Digits(text[..i])
      invariant value == Decimal(text[..i]) <= PORT_MAX
    {
      if text[i] < 48 || text[i] > 57 {
        return None;
      }
      assert text[..i + 1] == text[..i] + [text[i]];
      value := value * 10 + text[i] as int - 48;
      if value > PORT_MAX {
        if Digits(text) {
          DecimalGrows(text, i + 1);
        }
        return None;
      }
    }
    assert text[..|text|] == text;
    return if value == 0 then None else Some(value);
  }
}
