/** The local address of a path: the one-pass digit loop against four octets between dots. */
module LocalAddresses {
  import opened Prelude
  import opened Bytes

  const DOT: byte := 46

  predicate OctetText(s: bytes) {
    s != [] && Digits(s) && Decimal(s) <= 255
  }

  /** The text is that many octets, with a dot between any two. */
  predicate Octets(value: bytes, count: nat)
    requires count > 0
    decreases count
  {
    if count == 1 then OctetText(value)
    else
      var dot := Find(value, [DOT], 0);
      dot.Some? && OctetText(value[..dot.value]) && Octets(value[dot.value + 1..], count - 1)
  }

  predicate DottedQuad(value: bytes) {
    Octets(value, 4)
  }

  /** Where the loop stands: the octet it is in began at start. */
  ghost predicate InOctet(value: bytes, start: nat, i: nat, octet: nat) {
    start <= i <= |value| && Digits(value[start..i]) && Decimal(value[start..i]) == octet <= 255
  }

  /** The first octet of the rest reaches at least to i if no dot comes before. */
  lemma FirstPart(rest: bytes, i: nat, count: nat)
    requires count > 0 && i <= |rest| && DOT !in rest[..i] && Octets(rest, count)
    ensures Digits(rest[..i]) && Decimal(rest[..i]) <= 255 && (i < |rest| ==> Digit(rest[i]) || rest[i] == DOT)
    ensures i < |rest| && rest[i] == DOT ==> i > 0 && count > 1
  {
    FindByte(rest, DOT, 0);
    var part := if count == 1 then rest else rest[..Find(rest, [DOT], 0).value];
    assert forall k :: 0 <= k < i ==> rest[k] == rest[..i][k];
    assert i <= |part| && rest[..i] == part[..i];
    DecimalGrows(part, i);
  }

  lemma OverflowFails(rest: bytes, i: nat, count: nat)
    requires count > 0 && i < |rest| && Digits(rest[..i + 1]) && Decimal(rest[..i + 1]) > 255
    ensures !Octets(rest, count)
  {
    if Octets(rest, count) { FirstPart(rest, i + 1, count); }
  }

  lemma BadCharacterFails(rest: bytes, i: nat, count: nat)
    requires count > 0 && i < |rest| && Digits(rest[..i])
    requires (!Digit(rest[i]) && rest[i] != DOT) || (rest[i] == DOT && (i == 0 || count == 1))
    ensures !Octets(rest, count)
  {
    if Octets(rest, count) { FirstPart(rest, i, count); }
  }

  lemma DotMovesOn(rest: bytes, i: nat, count: nat)
    requires count > 1 && i < |rest| && rest[i] == DOT && OctetText(rest[..i])
    ensures Octets(rest, count) <==> Octets(rest[i + 1..], count - 1)
  {
    FindByte(rest, DOT, 0);
    assert forall k :: 0 <= k < i ==> rest[k] == rest[..i][k];
    assert Find(rest, [DOT], 0) == Some(i);
  }

  lemma EndDecides(rest: bytes, count: nat)
    requires count > 0 && Digits(rest) && Decimal(rest) <= 255
    ensures Octets(rest, count) <==> rest != [] && count == 1
  {
    FindByte(rest, DOT, 0);
  }

  lemma OneMoreDigit(value: bytes, start: nat, i: nat, octet: nat)
    requires InOctet(value, start, i, octet) && i < |value| && Digit(value[i])
    ensures Digits(value[start..i + 1]) && Decimal(value[start..i + 1]) == octet * 10 + value[i] as int - 48
  {
    assert value[start..i + 1] == value[start..i] + [value[i]];
  }

  /** What each kind of character does to what is left to read. */
  lemma OnDigit(value: bytes, start: nat, i: nat, octet: nat, left: nat)
    requires InOctet(value, start, i, octet) && i < |value| && Digit(value[i]) && left > 0
    requires octet * 10 + value[i] as int - 48 > 255
    ensures !Octets(value[start..], left)
  {
    OneMoreDigit(value, start, i, octet);
    assert value[start..][..i + 1 - start] == value[start..i + 1];
    OverflowFails(value[start..], i - start, left);
  }

  lemma OnOther(value: bytes, start: nat, i: nat, octet: nat, left: nat)
    requires InOctet(value, start, i, octet) && i < |value| && !Digit(value[i]) && left > 0
    requires value[i] != DOT || start == i || left == 1
    ensures !Octets(value[start..], left)
  {
    assert value[start..][..i - start] == value[start..i];
    BadCharacterFails(value[start..], i - start, left);
  }

  lemma OnDot(value: bytes, start: nat, i: nat, octet: nat, left: nat)
    requires InOctet(value, start, i, octet) && start < i < |value| && value[i] == DOT && left > 1
    ensures Octets(value[start..], left) <==> Octets(value[i + 1..], left - 1)
    ensures InOctet(value, i + 1, i + 1, 0)
  {
    assert value[start..][..i - start] == value[start..i] && value[start..][i - start + 1..] == value[i + 1..];
    DotMovesOn(value[start..], i - start, left);
  }

  /** IsValidQuicPathLocalAddress. */
  method IsLocalAddress(value: bytes) returns (ok: bool)
    ensures ok == DottedQuad(value)
  {
    var octet: nat, octets: nat, haveDigit := 0, 0, false;
    ghost var start, left: nat, quad := 0, 4, DottedQuad(value);
    assert value[0..] == value;
    for i := 0 to |value|
      invariant octets + left == 4 && left > 0 && InOctet(value, start, i, octet) && haveDigit == (start < i)
      invariant quad == Octets(value[start..], left)
    {
      if Digit(value[i]) {
        var digit := value[i] as int - 48;
        OneMoreDigit(value, start, i, octet);
        if octet > 25 || (octet == 25 && digit > 5) {
          OnDigit(value, start, i, octet, left);
          return false;
        }
        octet, haveDigit := octet * 10 + digit, true;
      } else if value[i] == DOT {
        if !haveDigit || octets >= 3 {
          OnOther(value, start, i, octet, left);
          return false;
        }
        OnDot(value, start, i, octet, left);
        octets, octet, haveDigit := octets + 1, 0, false;
        start, left := i + 1, left - 1;
      } else {
        OnOther(value, start, i, octet, left);
        return false;
      }
    }
    assert value[start..|value|] == value[start..];
    EndDecides(value[start..], left);
    return haveDigit && octets == 3;
  }
}
