/** Which physical lines the checker's loop keeps, in terms of the logical lines of a real preprocessor. */
module PhysicalProofs {
  import opened BranchLines
  import opened BranchProofs
  import opened PhysicalLines

  // --- first and last character that is no whitespace ----------------------------------------------------------------

  predicate FirstInk(s: string, h: nat) {
    h < |s| && !Space(s[h]) && forall k :: 0 <= k < h ==> Space(s[k])
  }

  predicate LastInk(s: string, h: nat) {
    h < |s| && !Space(s[h]) && forall k :: h < k < |s| ==> Space(s[k])
  }

  lemma {:induction false} LStripIs(s: string, h: nat)
    requires FirstInk(s, h)
    ensures LStrip(s) == s[h..]
  {
    if h == 0 {
      assert s[0..] == s;
    } else {
      LStripIs(s[1..], h - 1);
    }
  }

  lemma {:induction false} RStripIs(s: string, h: nat)
    requires LastInk(s, h)
    ensures RStrip(s) == s[..h + 1]
  {
    if h == |s| - 1 {
      assert s[..h + 1] == s;
    } else {
      RStripIs(s[..|s| - 1], h);
      assert s[..|s| - 1][..h + 1] == s[..h + 1];
    }
  }

  lemma {:induction false} BlankStrips(s: string)
    requires Blank(s)
    ensures LStrip(s) == "" && RStrip(s) == ""
    decreases |s|
  {
    if s == [] {
    } else {
      BlankStrips(s[1..]);
      BlankStrips(s[..|s| - 1]);
    }
  }

  lemma {:induction false} HasFirst(s: string) returns (h: nat)
    requires !Blank(s)
    ensures FirstInk(s, h)
  {
    if !Space(s[0]) {
      h := 0;
    } else {
      var k := HasFirst(s[1..]);
      h := k + 1;
      assert forall m :: 0 < m < h ==> s[m] == s[1..][m - 1];
    }
  }

  lemma {:induction false} HasLast(s: string) returns (h: nat)
    requires !Blank(s)
    ensures LastInk(s, h)
  {
    var n := |s| - 1;
    if !Space(s[n]) {
      h := n;
    } else {
      assert forall m :: 0 <= m < n ==> s[m] == s[..n][m];
      h := HasLast(s[..n]);
    }
  }

  lemma HashAt(s: string, h: nat)
    requires FirstInk(s, h)
    ensures StartsHash(s) <==> s[h] == '#'
  {
    LStripIs(s, h);
  }

  lemma ContinuedAt(s: string, h: nat)
    requires LastInk(s, h)
    ensures Continued(s) <==> s[h] == '\\'
    ensures Continued(s) ==> Cut(s) == s[..h]
  {
    RStripIs(s, h);
  }

  lemma HashIsInk(s: string) returns (h: nat)
    requires StartsHash(s)
    ensures FirstInk(s, h) && s[h] == '#'
  {
    if Blank(s) { BlankStrips(s); }
    h := HasFirst(s);
    HashAt(s, h);
  }

  // --- splicing keeps a leading hash and makes none ------------------------------------------------------------------

  lemma CutKeepsHash(s: string, rest: string)
    requires Continued(s)
    ensures StartsHash(s) ==> StartsHash(Cut(s) + rest)
    ensures !StartsHash(s) && StartsHash(Cut(s) + rest) ==> StartsHash(rest)
  {
    if Blank(s) { BlankStrips(s); }
    var last := HasLast(s);
    ContinuedAt(s, last);
    var t := Cut(s) + rest;
    assert forall k :: 0 <= k < last ==> t[k] == s[k];
    if StartsHash(s) {
      var h := HashIsInk(s);
      HashAt(t, h);
    } else if StartsHash(t) {
      var h := HashIsInk(t);
      if h < last {
        HashAt(s, h);
      } else {
        assert forall k :: 0 <= k < |rest| ==> rest[k] == t[last + k];
        HashAt(rest, h - last);
      }
    }
  }

  lemma {:induction false} SpliceKeepsHash(lines: seq<string>, i: nat)
    requires i < |lines|
    ensures StartsHash(lines[i]) ==> StartsHash(Splice(lines, i))
    ensures !StartsHash(lines[i]) && NoHashInside(lines, i) ==> !StartsHash(Splice(lines, i))
    decreases |lines| - i
  {
    if i + 1 < |lines| && Continued(lines[i]) {
      SpliceKeepsHash(lines, i + 1);
      CutKeepsHash(lines[i], Splice(lines, i + 1));
    } else {
      assert Splice(lines, i) == lines[i];
    }
  }

  // --- joining ends where splicing does ------------------------------------------------------------------------------

  lemma TailDecides(x: string, l: string)
    ensures !Blank(l) ==> (Continued(x + " " + LStrip(l)) <==> Continued(l))
    ensures Blank(l) ==> !Continued(l) && (Continued(x + " " + LStrip(l)) <==> Continued(x))
  {
    if Blank(l) {
      BlankStrips(l);
      BlankTail(x);
    } else {
      var h := HasFirst(l);
      var k := HasLast(l);
      LStripIs(l, h);
      ContinuedAt(l, k);
      LastOfTail(x + " ", l, h, k);
      ContinuedAt(x + " " + l[h..], |x| + 1 + (k - h));
    }
  }

  /** The last character that is no space, behind something else. */
  lemma LastOfTail(x: string, l: string, h: nat, k: nat)
    requires h <= k && LastInk(l, k)
    ensures LastInk(x + l[h..], |x| + (k - h)) && (x + l[h..])[|x| + (k - h)] == l[k]
  {
    var t := x + l[h..];
    assert forall m :: |x| <= m < |t| ==> t[m] == l[m - |x| + h];
  }

  lemma BlankTail(x: string)
    ensures Continued(x + " " + "") <==> Continued(x)
  {
    var t := x + " " + "";
    assert t == x + " " && t[..|t| - 1] == x;
  }

  lemma {:induction false} JoinEnds(lines: seq<string>, text: string, i: nat)
    requires i < |lines| && (Continued(text) <==> Continued(lines[i])) && JoinsCleanly(lines, text, i + 1)
    ensures Join(lines, text, i + 1).next == ChunkEnd(lines, i)
    decreases |lines| - i
  {
    if i + 1 < |lines| && Continued(text) {
      TailDecides(Cut(text), lines[i + 1]);
      JoinEnds(lines, Cut(text) + " " + LStrip(lines[i + 1]), i + 1);
    } else {
      assert ChunkEnd(lines, i) == i + 1;
    }
  }

  lemma HashChunk(read: Reading, lines: seq<string>, i: nat)
    requires i < |lines| && StartsHash(lines[i]) && ChunkOk(read, lines, i)
    ensures Take(lines, i).next == ChunkEnd(lines, i) && LineAt(read, lines, i) == RealLine(read, lines, i)
  {
    JoinEnds(lines, lines[i], i);
    SpliceKeepsHash(lines, i);
  }

  // --- the loop against the logical lines ----------------------------------------------------------------------------

  /** The loop keeps physical line p. */
  predicate ScanFinds(read: Reading, lines: seq<string>, i: nat, st: State, p: nat)
    requires i <= |lines|
    decreases |lines| - i
  {
    i < |lines| &&
    var line := LineAt(read, lines, i);
    (line == Code && st.active && p == i) || ScanFinds(read, lines, Take(lines, i).next, StepState(st, line), p)
  }

  lemma InTwo(a: seq<Yield>, b: seq<Yield>, x: Yield)
    ensures x in a + b <==> x in a || x in b
  {
  }

  lemma {:induction false} ScannedIsFound(read: Reading, lines: seq<string>, i: nat, st: State, p: nat)
    requires i <= |lines|
    ensures Kept(p) in Scan(read, lines, i, st) <==> ScanFinds(read, lines, i, st, p)
    decreases |lines| - i
  {
    if i == |lines| {
      assert Scan(read, lines, i, st) == [];
    } else {
      var line, next := LineAt(read, lines, i), Take(lines, i).next;
      ScannedIsFound(read, lines, next, StepState(st, line), p);
      InTwo(StepYield(st, line, i), Scan(read, lines, next, StepState(st, line)), Kept(p));
    }
  }

  lemma {:induction false} NothingEarlier(read: Reading, lines: seq<string>, i: nat, st: State, p: nat)
    requires p < i <= |lines|
    ensures !ScanFinds(read, lines, i, st, p)
    decreases |lines| - i
  {
    if i < |lines| {
      NothingEarlier(read, lines, Take(lines, i).next, StepState(st, LineAt(read, lines, i)), p);
    } else {
      assert !ScanFinds(read, lines, i, st, p);
    }
  }

  lemma {:induction false} NoEarlierLine(st: State, lines: seq<Line<Verdict>>, at: nat, line: nat)
    requires line < at
    ensures !Finds(st, lines, at, line)
    decreases |lines|
  {
    if lines != [] {
      NoEarlierLine(StepState(st, lines[0]), lines[1..], at + 1, line);
    } else {
      assert !Finds(st, lines, at, line);
    }
  }

  /** A continued line of code is walked through line by line. */
  lemma {:induction false} WalksCode(read: Reading, lines: seq<string>, i: nat, st: State, p: nat)
    requires i < |lines| && !StartsHash(lines[i]) && NoHashInside(lines, i)
    ensures ScanFinds(read, lines, i, st, p) <==>
            (st.active && i <= p < ChunkEnd(lines, i)) || ScanFinds(read, lines, ChunkEnd(lines, i), st, p)
    decreases |lines| - i
  {
    assert LineAt(read, lines, i) == Code && Take(lines, i).next == i + 1;
    if i + 1 < |lines| && Continued(lines[i]) {
      WalksCode(read, lines, i + 1, st, p);
    } else {
      assert ChunkEnd(lines, i) == i + 1;
    }
  }

  /** One logical line of the real preprocessor, and what the loop does with it. */
  lemma OneChunk(read: Reading, lines: seq<string>, i: nat, st: State, p: nat)
    requires i < |lines| && ChunkOk(read, lines, i)
    ensures var line, next := RealLine(read, lines, i), ChunkEnd(lines, i);
            ScanFinds(read, lines, i, st, p) <==>
              (line == Code && st.active && i <= p < next && (p == i || !StartsHash(lines[i]))) ||
              ScanFinds(read, lines, next, StepState(st, line), p)
  {
    if StartsHash(lines[i]) {
      HashChunk(read, lines, i);
    } else {
      SpliceKeepsHash(lines, i);
      WalksCode(read, lines, i, st, p);
    }
  }

  lemma PartIsLater(lines: seq<string>, i: nat, j: nat, first: nat, p: nat)
    requires i <= |lines| && PartOf(lines, i, j, first, p)
    ensures i <= first <= p < |lines|
    decreases |lines| - i
  {
    if j > 0 { PartIsLater(lines, ChunkEnd(lines, i), j - 1, first, p); }
  }

  lemma FollowsHere(read: Reading, lines: seq<string>, i: nat, st: State, p: nat, at: nat)
    requires i <= p < |lines| && ChunkOk(read, lines, i) && p < ChunkEnd(lines, i)
    ensures ScanFinds(read, lines, i, st, p) <==>
            Finds(st, RealLines(read, lines, i), at, at) && (p == i || !StartsHash(lines[i]))
  {
    var line, next := RealLine(read, lines, i), ChunkEnd(lines, i);
    OneChunk(read, lines, i, st, p);
    FirstLine(st, line, RealLines(read, lines, next), at, at);
    NothingEarlier(read, lines, next, StepState(st, line), p);
    NoEarlierLine(StepState(st, line), RealLines(read, lines, next), at + 1, at);
  }

  lemma FollowsLater(read: Reading, lines: seq<string>, i: nat, st: State, line: Line<Verdict>, next: nat, p: nat,
                     at: nat, goal: nat)
    requires i < |lines| && ChunkOk(read, lines, i) && line == RealLine(read, lines, i) &&
             next == ChunkEnd(lines, i) <= p && at < goal
    ensures ScanFinds(read, lines, i, st, p) <==> ScanFinds(read, lines, next, StepState(st, line), p)
    ensures Finds(st, RealLines(read, lines, i), at, goal) <==>
            Finds(StepState(st, line), RealLines(read, lines, next), at + 1, goal)
  {
    OneChunk(read, lines, i, st, p);
    FirstLine(st, line, RealLines(read, lines, next), at, goal);
  }

  /** The loop keeps a physical line exactly when the machine keeps its logical line and the physical line is the first
      of it or the logical line does not start with a hash. */
  lemma {:induction false} ScanFollows(read: Reading, lines: seq<string>, i: nat, st: State, j: nat, first: nat, p: nat,
                                       at: nat)
    requires i <= |lines| && ChunksOk(read, lines, i) && PartOf(lines, i, j, first, p)
    ensures first < |lines|
    ensures ScanFinds(read, lines, i, st, p) <==>
            Finds(st, RealLines(read, lines, i), at, at + j) && (p == first || !StartsHash(lines[first]))
    decreases |lines| - i
  {
    PartIsLater(lines, i, j, first, p);
    if j == 0 {
      FollowsHere(read, lines, i, st, p, at);
    } else {
      var line, next := RealLine(read, lines, i), ChunkEnd(lines, i);
      PartIsLater(lines, next, j - 1, first, p);
      FollowsLater(read, lines, i, st, line, next, p, at, at + j);
      ScanFollows(read, lines, next, StepState(st, line), j - 1, first, p, at + 1);
    }
  }

  /** The same for a whole file. */
  lemma YieldsFollow(read: Reading, lines: seq<string>, j: nat, first: nat, p: nat)
    requires ChunksOk(read, lines, 0) && PartOf(lines, 0, j, first, p)
    ensures first < |lines|
    ensures Kept(p) in Yields(read, lines) <==>
            Finds(State(true, []), RealLines(read, lines, 0), 0, j) && (p == first || !StartsHash(lines[first]))
  {
    ScannedIsFound(read, lines, 0, State(true, []), p);
    ScanFollows(read, lines, 0, State(true, []), j, first, p, 0);
  }

  /** Every physical line belongs to a logical line. */
  lemma {:induction false} EachIsPart(lines: seq<string>, i: nat, p: nat) returns (j: nat, first: nat)
    requires i <= p < |lines|
    ensures PartOf(lines, i, j, first, p)
    decreases |lines| - i
  {
    if p < ChunkEnd(lines, i) {
      j, first := 0, i;
    } else {
      j, first := EachIsPart(lines, ChunkEnd(lines, i), p);
      j := j + 1;
    }
  }

  // --- order ---------------------------------------------------------------------------------------------------------

  ghost predicate InOrder(ys: seq<Yield>, at: nat, end: nat) {
    (forall i :: 0 <= i < |ys| ==> at <= ys[i].at < end) && forall i, j :: 0 <= i < j < |ys| ==> ys[i].at < ys[j].at
  }

  lemma OneMoreInOrder(first: seq<Yield>, rest: seq<Yield>, at: nat, next: nat, end: nat)
    requires at < next <= end && InOrder(rest, next, end) && |first| <= 1 && (first != [] ==> first[0].at == at)
    ensures InOrder(first + rest, at, end)
  {
    var ys := first + rest;
    if first == [] {
      assert ys == rest;
    } else {
      assert forall k :: 0 < k < |ys| ==> ys[k] == rest[k - 1];
      assert ys[0].at == at;
    }
  }

  /** Lines are yielded in order, each at most once, whatever the file. */
  lemma {:induction false} ScanInOrder(read: Reading, lines: seq<string>, i: nat, st: State)
    requires i <= |lines|
    ensures InOrder(Scan(read, lines, i, st), i, |lines|)
    decreases |lines| - i
  {
    if i == |lines| {
      assert Scan(read, lines, i, st) == [];
    } else {
      var line, next := LineAt(read, lines, i), Take(lines, i).next;
      ScanInOrder(read, lines, next, StepState(st, line));
      OneMoreInOrder(StepYield(st, line, i), Scan(read, lines, next, StepState(st, line)), i, next, |lines|);
    }
  }
}
