/** CIDR matching: the byte-and-mask loop against the integer definition, and the candidate filter built on it. */
module Cidr {
  import opened Prelude
  import opened Bytes
  import opened Division
  import opened OctetMasks

  datatype Family = Inet | Inet6

  /** A network.  Addr holds 16 octets; an IPv4 network uses the first four. */
  datatype Network = Network(family: Family, addr: bytes, prefix: nat)

  function Width(family: Family): nat {
    if family == Inet then 4 else 16
  }

  predicate NetworkOk(n: Network) {
    |n.addr| == 16
  }

  // --- the integer definition ----------------------------------------------------------------------------------------

  /** The address lies in the network: same family, and equal after dropping the bits behind the prefix. */
  predicate Inside(family: Family, addr: bytes, n: Network)
    requires |addr| == 16 && NetworkOk(n)
  {
    var w := Width(family);
    family == n.family && n.prefix <= 8 * w &&
    BigEndian(addr[..w]) / Pow2(8 * w - n.prefix) == BigEndian(n.addr[..w]) / Pow2(8 * w - n.prefix)
  }

  // --- dropping bits one at a time -----------------------------------------------------------------------------------

  function Shr(x: nat, n: nat): nat
    decreases n
  {
    if n == 0 then x else Shr(x / 2, n - 1)
  }

  lemma HalfThenDivide(x: nat, p: nat)
    requires p > 0
    ensures (x / 2) / p == x / (2 * p)
  {
    var y := x / 2;
    var q := y / p;
    var r := y % p;
    assert y == q * p + r && x == 2 * y + x % 2;
    assert 2 * (q * p) == q * (2 * p);
    Divides(x, 2 * p, q, 2 * r + x % 2);
  }

  lemma {:induction false} ShrIsDivision(x: nat, n: nat)
    ensures Shr(x, n) == x / Pow2(n)
    decreases n
  {
    if n == 0 {
    } else {
      ShrIsDivision(x / 2, n - 1);
      HalfThenDivide(x, Pow2(n - 1));
    }
  }

  lemma {:induction false} ShrTwice(x: nat, m: nat, n: nat)
    ensures Shr(x, m + n) == Shr(Shr(x, m), n)
    decreases m
  {
    if m == 0 {
    } else {
      ShrTwice(x / 2, m - 1, n);
    }
  }

  /** Dropping k of the j bits that b has: what is left of f * 2^j + b determines f and the rest of b. */
  lemma {:induction false} PartBits(f: nat, g: nat, b: nat, c: nat, j: nat, k: nat)
    requires k <= j && b < Pow2(j) && c < Pow2(j)
    ensures Shr(f * Pow2(j) + b, k) == Shr(g * Pow2(j) + c, k) <==> f == g && Shr(b, k) == Shr(c, k)
    decreases k
  {
    if k == 0 {
      Divides(f * Pow2(j) + b, Pow2(j), f, b);
      Divides(g * Pow2(j) + c, Pow2(j), g, c);
    } else {
      Halve(f, Pow2(j - 1), b);
      Halve(g, Pow2(j - 1), c);
      PartBits(f, g, b / 2, c / 2, j - 1, k - 1);
    }
  }

  lemma Halve(f: nat, p: nat, b: nat)
    ensures (f * (2 * p) + b) / 2 == f * p + b / 2
  {
    assert f * (2 * p) == 2 * (f * p);
  }

  lemma Pow8()
    ensures Pow2(8) == 256
  {
    assert Pow2(6) == 64;
  }

  lemma MaskKeepsHead(b: byte, c: byte, k: nat)
    requires 1 <= k < 8
    ensures Masked(b, k) == Masked(c, k) <==> Shr(b, k) == Shr(c, k)
  {
    MaskClearsLowBits(b, k);
    MaskClearsLowBits(c, k);
    ShrIsDivision(b, k);
    ShrIsDivision(c, k);
    SameMultiple(b as nat / Pow2(k), c as nat / Pow2(k), Pow2(k));
  }

  lemma SameMultiple(x: nat, y: nat, p: nat)
    requires p > 0
    ensures x * p == y * p <==> x == y
  {
    Divides(x * p, p, x, 0);
    Divides(y * p, p, y, 0);
  }

  // --- prefixes ------------------------------------------------------------------------------------------------------

  lemma {:induction false} SameNumber(a: bytes, n: bytes)
    requires |a| == |n|
    ensures BigEndian(a) == BigEndian(n) <==> a == n
  {
    if a == [] {
    } else {
      var k := |a| - 1;
      SameNumber(a[..k], n[..k]);
      assert a == a[..k] + [a[k]] && n == n[..k] + [n[k]];
    }
  }

  /** Dropping whole octets. */
  lemma {:induction false} DropOctets(s: bytes, m: nat)
    requires m <= |s|
    ensures Shr(BigEndian(s), 8 * m) == BigEndian(s[..|s| - m])
    decreases m
  {
    if m == 0 {
      assert s[..|s|] == s;
    } else {
      var front := s[..|s| - 1];
      ShrTwice(BigEndian(s), 8, 8 * (m - 1));
      DropOctet(BigEndian(front), s[|s| - 1] as nat);
      DropOctets(front, m - 1);
      assert front[..|front| - (m - 1)] == s[..|s| - m];
    }
  }

  lemma DropOctet(f: nat, b: nat)
    requires b < 256
    ensures Shr(f * 256 + b, 8) == f
  {
    ShrIsDivision(f * 256 + b, 8);
    Pow8();
  }

  lemma DropPart(s: bytes, full: nat, k: nat)
    requires full < |s|
    ensures Shr(BigEndian(s), 8 * (|s| - full - 1) + k) == Shr(BigEndian(s[..full]) * 256 + s[full] as nat, k)
  {
    var m := |s| - full - 1;
    ShrTwice(BigEndian(s), 8 * m, k);
    DropOctets(s, m);
    assert s[..full + 1][..full] == s[..full];
  }

  /** Numbers agree on the first bits exactly when the octets before agree and the masks of the next one do. */
  lemma MaskDecides(a: bytes, n: bytes, full: nat, k: nat)
    requires |a| == |n| && full < |a| && 0 < k < 8
    ensures var bits := 8 * (|a| - full - 1) + k;
            Shr(BigEndian(a), bits) == Shr(BigEndian(n), bits) <==>
            a[..full] == n[..full] && Masked(a[full], k) == Masked(n[full], k)
  {
    DropPart(a, full, k);
    DropPart(n, full, k);
    PartOctet(BigEndian(a[..full]), BigEndian(n[..full]), a[full] as nat, n[full] as nat, k);
    SameNumber(a[..full], n[..full]);
    MaskKeepsHead(a[full], n[full], k);
  }

  lemma PartOctet(f: nat, g: nat, b: nat, c: nat, k: nat)
    requires 0 < k < 8 && b < 256 && c < 256
    ensures Shr(f * 256 + b, k) == Shr(g * 256 + c, k) <==> f == g && Shr(b, k) == Shr(c, k)
  {
    Pow8();
    PartBits(f, g, b, c, 8, k);
  }

  /** Whole octets agree, and the masks of the next one. */
  predicate OctetsAgree(a: bytes, n: bytes, prefix: nat)
    requires |a| == |n| && prefix <= 8 * |a|
  {
    a[..prefix / 8] == n[..prefix / 8] &&
    (prefix % 8 == 0 || Masked(a[prefix / 8], 8 - prefix % 8) == Masked(n[prefix / 8], 8 - prefix % 8))
  }

  lemma NumbersByOctets(a: bytes, n: bytes, prefix: nat)
    requires |a| == |n| && prefix <= 8 * |a|
    ensures BigEndian(a) / Pow2(8 * |a| - prefix) == BigEndian(n) / Pow2(8 * |a| - prefix) <==>
            OctetsAgree(a, n, prefix)
  {
    var full, rem := prefix / 8, prefix % 8;
    var bits := 8 * |a| - prefix;
    ShrIsDivision(BigEndian(a), bits);
    ShrIsDivision(BigEndian(n), bits);
    if rem == 0 {
      assert bits == 8 * (|a| - full);
      DropOctets(a, |a| - full);
      DropOctets(n, |n| - full);
      SameNumber(a[..full], n[..full]);
    } else {
      assert bits == 8 * (|a| - full - 1) + (8 - rem);
      MaskDecides(a, n, full, 8 - rem);
    }
  }

  lemma InsideByOctets(family: Family, addr: bytes, n: Network)
    requires |addr| == 16 && NetworkOk(n)
    ensures var w := Width(family);
            Inside(family, addr, n) <==>
            family == n.family && n.prefix <= 8 * w && OctetsAgree(addr[..w], n.addr[..w], n.prefix)
  {
    var w := Width(family);
    if n.prefix <= 8 * w { NumbersByOctets(addr[..w], n.addr[..w], n.prefix); }
  }

  // --- the loop ------------------------------------------------------------------------------------------------------

  method IpMatchesCidr(family: Family, addr: bytes, net: Network) returns (inside: bool)
    requires |addr| == 16 && NetworkOk(net)
    ensures inside == Inside(family, addr, net)
  {
    InsideByOctets(family, addr, net);
    if family != net.family {
      return false;
    }
    inside := PrefixMatches(Width(family), addr, net.addr, net.prefix);
  }

  method PrefixMatches(count: nat, addr: bytes, network: bytes, prefix: nat) returns (matches: bool)
    requires count <= 16 && |addr| == |network| == 16
    ensures matches == (prefix <= 8 * count && OctetsAgree(addr[..count], network[..count], prefix))
  {
    var full, rem := prefix / 8, prefix % 8;
    ghost var a, n := addr[..count], network[..count];
    for i := 0 to full
      invariant i <= count && a[..i] == n[..i]
    {
      if i >= count {
        return false;
      }
      if addr[i] != network[i] {
        assert full <= count ==> a[..full][i] != n[..full][i];
        return false;
      }
      assert a[..i + 1] == a[..i] + [a[i]] && n[..i + 1] == n[..i] + [n[i]];
    }
    if rem == 0 {
      return true;
    }
    if full >= count {
      return false;
    }
    return Masked(addr[full], 8 - rem) == Masked(network[full], 8 - rem);
  }

  // --- the candidate filter ------------------------------------------------------------------------------------------

  /** A resolved address, or a socket address of some other family. */
  datatype Candidate = Ip(family: Family, addr: bytes) | Foreign(tag: nat)

  predicate CandidateOk(c: Candidate) {
    c.Ip? ==> |c.addr| == 16
  }

  predicate ListOk(nets: seq<Network>) {
    forall i :: 0 <= i < |nets| ==> NetworkOk(nets[i])
  }

  /** A recognised candidate lies in one of the networks. */
  predicate InAny(c: Candidate, nets: seq<Network>)
    requires CandidateOk(c) && ListOk(nets)
  {
    c.Ip? && exists i :: 0 <= i < |nets| && Inside(c.family, c.addr, nets[i])
  }

  /** The allowed candidates, in order. */
  function Allowed(candidates: seq<Candidate>, allow: seq<Network>): seq<Candidate>
    requires (forall i :: 0 <= i < |candidates| ==> CandidateOk(candidates[i])) && ListOk(allow)
  {
    if candidates == [] then []
    else
      var k := |candidates| - 1;
      Allowed(candidates[..k], allow) + if InAny(candidates[k], allow) then [candidates[k]] else []
  }

  method MatchesAny(family: Family, addr: bytes, nets: seq<Network>) returns (found: bool)
    requires |addr| == 16 && ListOk(nets)
    ensures found == InAny(Ip(family, addr), nets)
  {
    for i := 0 to |nets|
      invariant forall j :: 0 <= j < i ==> !Inside(family, addr, nets[j])
    {
      var inside := IpMatchesCidr(family, addr, nets[i]);
      if inside {
        return true;
      }
    }
    return false;
  }

  /** It succeeds exactly when there is an allow list, no recognised candidate is denied and some candidate is allowed;
      unless it gives up before that, it returns exactly the allowed candidates. */
  method EvaluateCandidates(deny: seq<Network>, allow: seq<Network>, candidates: seq<Candidate>)
    returns (ok: bool, allowed: seq<Candidate>)
    requires (forall i :: 0 <= i < |candidates| ==> CandidateOk(candidates[i])) && ListOk(deny) && ListOk(allow)
    ensures var denied := exists i :: 0 <= i < |candidates| && InAny(candidates[i], deny);
            allowed == (if denied then [] else Allowed(candidates, allow)) &&
            ok == (!denied && exists i :: 0 <= i < |candidates| && InAny(candidates[i], allow))
  {
    allowed := [];
    AllowedIsEmpty(candidates, allow);
    if allow == [] {
      return false, [];
    }
    for i := 0 to |candidates|
      invariant forall j :: 0 <= j < i ==> !InAny(candidates[j], deny)
    {
      if candidates[i].Ip? {
        var denied := MatchesAny(candidates[i].family, candidates[i].addr, deny);
        if denied {
          return false, [];
        }
      }
    }
    for i := 0 to |candidates|
      invariant allowed == Allowed(candidates[..i], allow)
    {
      assert candidates[..i + 1][..i] == candidates[..i];
      if candidates[i].Ip? {
        var inside := MatchesAny(candidates[i].family, candidates[i].addr, allow);
        if inside {
          allowed := allowed + [candidates[i]];
        }
      }
    }
    assert candidates[..|candidates|] == candidates;
    ok := allowed != [];
  }

  /** Something is allowed exactly when some candidate is inside an allowed network. */
  lemma {:induction false} AllowedIsEmpty(candidates: seq<Candidate>, allow: seq<Network>)
    requires (forall i :: 0 <= i < |candidates| ==> CandidateOk(candidates[i])) && ListOk(allow)
    ensures Allowed(candidates, allow) != [] <==> exists i :: 0 <= i < |candidates| && InAny(candidates[i], allow)
  {
    if candidates == [] {
    } else {
      var k := |candidates| - 1;
      AllowedIsEmpty(candidates[..k], allow);
      if i :| 0 <= i < |candidates[..k]| && InAny(candidates[..k][i], allow) {
        assert InAny(candidates[i], allow);
      }
      assert forall i :: 0 <= i < k ==> candidates[..k][i] == candidates[i];
    }
  }

  // --- prefix lengths ------------------------------------------------------------------------------------------------

  /** Digits only, denoting at most 128. */
  method ParsePrefix(text: bytes) returns (prefix: Option<nat>)
    ensures prefix == if text != [] && Digits(text) && Decimal(text) <= 128 then Some(Decimal(text)) else None
  {
    if text == [] {
      return None;
    }
    var value := 0;
    for i := 0 to |text|
      invariant Digits(text[..i])
      invariant value == Decimal(text[..i]) <= 128
    {
      if !Digit(text[i]) {
        return None;
      }
      assert text[..i + 1] == text[..i] + [text[i]];
      value := value * 10 + text[i] as int - 48;
      if value > 128 {
        if Digits(text) {
          DecimalGrows(text, i + 1);
        }
        return None;
      }
    }
    assert text[..|text|] == text;
    return Some(value);
  }
}
