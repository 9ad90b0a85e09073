/**
 When the checker's joined text and the preprocessor's spliced text say the same: with white space on one side of each
 joint the two differ only in how much of it there is, so a reading that takes any run of it for one space reads them
 alike.
 */
module JointSpacing {
  import opened BranchLines
  import opened PhysicalLines
  import opened PhysicalProofs

  predicate EndsSpaced(r: string) {
    r != [] && r[|r| - 1] == ' '
  }

  /** Text added to r with every run of white space as one space. */
  function Fold(r: string, s: string): string
    decreases |s|
  {
    if s == [] then r
    else
      var front, c := Fold(r, s[..|s| - 1]), s[|s| - 1];
      if !Space(c) then front + [c] else if EndsSpaced(front) then front else front + " "
  }

  function Squeeze(s: string): string {
    Fold("", s)
  }

  lemma {:induction false} FoldTwice(r: string, a: string, b: string)
    ensures Fold(r, a + b) == Fold(Fold(r, a), b)
    decreases |b|
  {
    if b == [] {
      assert a + b == a;
    } else {
      assert (a + b)[..|a + b| - 1] == a + b[..|b| - 1];
      FoldTwice(r, a, b[..|b| - 1]);
    }
  }

  /** More white space behind white space adds nothing. */
  lemma {:induction false} BlankFolds(r: string, s: string)
    requires EndsSpaced(r) && Blank(s)
    ensures Fold(r, s) == r
    decreases |s|
  {
    if s == [] {
    } else {
      BlankFolds(r, s[..|s| - 1]);
    }
  }

  lemma OneSpace(r: string, c: char)
    requires Space(c)
    ensures Fold(r, [c]) == Fold(r, " ") && EndsSpaced(Fold(r, " "))
  {
    assert [c][..0] == [] && " "[..0] == [];
  }

  lemma SkipLeading(r: string, s: string, h: nat)
    requires EndsSpaced(r) && h <= |s| && Blank(s[..h])
    ensures Fold(r, s) == Fold(r, s[h..])
  {
    assert s == s[..h] + s[h..];
    FoldTwice(r, s[..h], s[h..]);
    BlankFolds(r, s[..h]);
  }

  lemma SkipStrip(r: string, s: string)
    requires EndsSpaced(r)
    ensures Fold(r, LStrip(s)) == Fold(r, s)
  {
    if Blank(s) {
      BlankStrips(s);
      BlankFolds(r, s);
    } else {
      var h := HasFirst(s);
      LStripIs(s, h);
      SkipLeading(r, s, h);
    }
  }

  // --- one joint -----------------------------------------------------------------------------------------------------

  predicate SpaceFirst(s: string) {
    s != [] && Space(s[0])
  }

  predicate SpaceLast(s: string) {
    s != [] && Space(s[|s| - 1])
  }

  /** White space before the backslash of a line or at the start of the next one. */
  predicate SpacedJoint(line: string, next: string) {
    Continued(line) ==> SpaceLast(Cut(line)) || SpaceFirst(next)
  }

  predicate SpacedJoints(lines: seq<string>, i: nat)
    requires i < |lines|
    decreases |lines| - i
  {
    i + 1 < |lines| && Continued(lines[i]) ==> SpacedJoint(lines[i], lines[i + 1]) && SpacedJoints(lines, i + 1)
  }

  lemma SpaceLastEnds(r: string, s: string)
    requires SpaceLast(s)
    ensures EndsSpaced(Fold(r, s))
  {
  }

  lemma JointFolds(r: string, rest: string)
    requires EndsSpaced(r) || SpaceFirst(rest)
    ensures Fold(Fold(r, " "), rest) == Fold(r, rest)
  {
    if EndsSpaced(r) {
      BlankFolds(r, " ");
    } else {
      assert rest == [rest[0]] + rest[1..];
      OneSpace(r, rest[0]);
      FoldTwice(r, [rest[0]], rest[1..]);
      SkipLeading(Fold(r, " "), rest, 1);
    }
  }

  lemma SpliceStarts(lines: seq<string>, i: nat)
    requires i < |lines| && SpaceFirst(lines[i])
    ensures SpaceFirst(Splice(lines, i))
  {
    if i + 1 < |lines| && Continued(lines[i]) {
      if Blank(lines[i]) { BlankStrips(lines[i]); }
      var k := HasLast(lines[i]);
      ContinuedAt(lines[i], k);
    }
  }

  // --- the whole line ------------------------------------------------------------------------------------------------

  /** The text joined so far is pre with the line behind it, its leading white space dropped. */
  lemma CutBehind(pre: string, line: string)
    requires EndsSpaced(pre) && Continued(line)
    ensures Continued(pre + LStrip(line))
    ensures Squeeze(Cut(pre + LStrip(line))) == Fold(Squeeze(pre), Cut(line))
  {
    if Blank(line) { BlankStrips(line); }
    var h := HasFirst(line);
    var k := HasLast(line);
    LStripIs(line, h);
    ContinuedAt(line, k);
    LastOfTail(pre, line, h, k);
    var text := pre + line[h..];
    ContinuedAt(text, |pre| + (k - h));
    assert Cut(text) == pre + line[h..k];
    FoldTwice("", pre, line[h..k]);
    SqueezeEnds(pre);
    assert line[..k][..h] == line[..h] && line[..k][h..] == line[h..k];
    SkipLeading(Squeeze(pre), line[..k], h);
  }

  lemma SqueezeEnds(s: string)
    requires EndsSpaced(s)
    ensures EndsSpaced(Squeeze(s))
  {
    SpaceLastEnds("", s);
  }

  lemma {:induction false} JoinSqueezes(lines: seq<string>, pre: string, i: nat)
    requires i < |lines| && EndsSpaced(pre) && SpacedJoints(lines, i)
    requires var text := pre + LStrip(lines[i]);
             (Continued(text) <==> Continued(lines[i])) && JoinsCleanly(lines, text, i + 1)
    ensures Squeeze(Join(lines, pre + LStrip(lines[i]), i + 1).text) == Fold(Squeeze(pre), Splice(lines, i))
    decreases |lines| - i
  {
    var text := pre + LStrip(lines[i]);
    if i + 1 < |lines| && Continued(text) {
      CutBehind(pre, lines[i]);
      JoinStep(lines, text, Fold(Squeeze(pre), Cut(lines[i])), i);
      FoldTwice(Squeeze(pre), Cut(lines[i]), Splice(lines, i + 1));
    } else {
      FoldTwice("", pre, LStrip(lines[i]));
      SqueezeEnds(pre);
      SkipStrip(Squeeze(pre), lines[i]);
    }
  }

  /** From a continued text whose cut squeezes to r on to the rest of the line. */
  lemma {:induction false} JoinStep(lines: seq<string>, text: string, r: string, i: nat)
    requires i + 1 < |lines| && Continued(text) && Continued(lines[i]) && JoinsCleanly(lines, text, i + 1)
    requires SpacedJoints(lines, i) && Squeeze(Cut(text)) == r && (SpaceLast(Cut(lines[i])) ==> EndsSpaced(r))
    ensures Squeeze(Join(lines, text, i + 1).text) == Fold(r, Splice(lines, i + 1))
    decreases |lines| - i, 0
  {
    var pre := Cut(text) + " ";
    FoldTwice("", Cut(text), " ");
    TailDecides(Cut(text), lines[i + 1]);
    JoinSqueezes(lines, pre, i + 1);
    if SpaceFirst(lines[i + 1]) { SpliceStarts(lines, i + 1); }
    JointFolds(r, Splice(lines, i + 1));
  }

  /** The joined text of a line with spaced joints and its spliced text are the same up to the amount of white space. */
  lemma SpacedSqueezeAlike(lines: seq<string>, i: nat)
    requires i < |lines| && StartsHash(lines[i]) && SpacedJoints(lines, i) && JoinsCleanly(lines, lines[i], i + 1)
    ensures Squeeze(Take(lines, i).text) == Squeeze(Splice(lines, i))
  {
    if i + 1 < |lines| && Continued(lines[i]) {
      var cut := Cut(lines[i]);
      if SpaceLast(cut) { SpaceLastEnds("", cut); }
      JoinStep(lines, lines[i], Squeeze(cut), i);
      FoldTwice("", cut, Splice(lines, i + 1));
    }
  }

  /** The reading takes every run of white space for one space. */
  ghost predicate IgnoresSpacing<T(!new)>(read: string -> Line<T>) {
    forall s, t :: Squeeze(s) == Squeeze(t) ==> read(s) == read(t)
  }

  /** A condition on the text alone: joints of hash lines are spaced and clean, and no line inside continued code starts
      with a hash. */
  predicate SpacedText(lines: seq<string>, i: nat)
    requires i <= |lines|
    decreases |lines| - i
  {
    i < |lines| ==>
      (if StartsHash(lines[i]) then SpacedJoints(lines, i) && JoinsCleanly(lines, lines[i], i + 1)
       else NoHashInside(lines, i)) &&
      SpacedText(lines, ChunkEnd(lines, i))
  }

  /** On such a text both sides cut out the same lines, and such a reading reads them alike. */
  lemma {:induction false} SpacedTextReadsAlike<T(!new)>(read: string -> Line<T>, lines: seq<string>, i: nat)
    requires IgnoresSpacing(read) && i <= |lines| && SpacedText(lines, i)
    ensures ChunksOk(read, lines, i)
    decreases |lines| - i
  {
    if i == |lines| {
    } else {
      if StartsHash(lines[i]) { SpacedSqueezeAlike(lines, i); }
      SpacedTextReadsAlike(read, lines, ChunkEnd(lines, i));
    }
  }
}
