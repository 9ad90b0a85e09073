/** Searches in a text whose parts are known. */
module Finding {
  import opened Prelude
  import opened Bytes

  lemma AtFirst(s: bytes, pat: bytes, j: nat)
    requires pat != [] && At(s, pat, j)
    ensures s[j] == pat[0]
  {
    assert s[j..j + |pat|][0] == s[j];
  }

  /** A pattern whose first byte does not occur between from and i is found at i if it is there. */
  lemma FoundAt(s: bytes, pat: bytes, from: nat, i: nat)
    requires pat != [] && from <= i && At(s, pat, i) && forall j :: from <= j < i ==> s[j] != pat[0]
    ensures Find(s, pat, from) == Some(i)
  {
    forall j: nat | from <= j < i ensures !At(s, pat, j) {
      if At(s, pat, j) { AtFirst(s, pat, j); }
    }
    FindIs(s, pat, from, i);
  }

  /** The same with the text before and after spelled out. */
  lemma FoundAfter(skip: bytes, q: bytes, pat: bytes, rest: bytes)
    requires pat != [] && pat[0] !in q
    ensures Find(skip + q + pat + rest, pat, |skip|) == Some(|skip| + |q|)
  {
    var s, i := skip + q + pat + rest, |skip| + |q|;
    assert s[i..i + |pat|] == pat;
    forall j | |skip| <= j < i ensures s[j] != pat[0] { assert s[j] == q[j - |skip|]; }
    FoundAt(s, pat, |skip|, i);
  }

  lemma NotFound(s: bytes, b: byte, from: nat)
    requires from <= |s| && b !in s[from..]
    ensures Find(s, [b], from) == None
  {
    forall i: nat | from <= i ensures !At(s, [b], i) {
      assert i < |s| ==> s[i] == s[from..][i - from];
      if At(s, [b], i) { AtFirst(s, [b], i); }
    }
    FindSpec(s, [b], from);
  }
}
