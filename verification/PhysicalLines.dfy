/**
 The text of a file: the checker's loop, which joins only lines that start with a hash and then looks at the first of
 them alone, against the splicing of a real preprocessor, which joins every line that ends in a backslash.
 What a logical line is read as is a parameter: read maps the text of a directive to its kind and verdict.
 */
module PhysicalLines {
  import opened BranchLines

  type Reading = string -> Line<Verdict>

  // --- text ----------------------------------------------------------------------------------------------------------

  predicate Space(c: char) {
    c == ' ' || c == '\t' || '\U{0B}' <= c <= '\U{0C}'
  }

  function LStrip(s: string): string {
    if s != [] && Space(s[0]) then LStrip(s[1..]) else s
  }

  function RStrip(s: string): string {
    if s != [] && Space(s[|s| - 1]) then RStrip(s[..|s| - 1]) else s
  }

  predicate Blank(s: string) {
    forall i :: 0 <= i < |s| ==> Space(s[i])
  }

  predicate StartsHash(s: string) {
    var t := LStrip(s);
    t != [] && t[0] == '#'
  }

  /** The line ends in a backslash, whitespace aside. */
  predicate Continued(s: string) {
    var t := RStrip(s);
    t != [] && t[|t| - 1] == '\\'
  }

  /** The line without that backslash. */
  function Cut(s: string): string
    requires Continued(s)
  {
    RStrip(s)[..|RStrip(s)| - 1]
  }

  // --- the checker's loop --------------------------------------------------------------------------------------------

  datatype Joined = Joined(text: string, next: nat)

  function Join(lines: seq<string>, text: string, index: nat): Joined
    decreases if index < |lines| then |lines| - index else 0
  {
    if index < |lines| && Continued(text) then Join(lines, Cut(text) + " " + LStrip(lines[index]), index + 1)
    else Joined(text, index)
  }

  lemma {:induction false} JoinAdvances(lines: seq<string>, text: string, index: nat)
    requires index <= |lines|
    ensures index <= Join(lines, text, index).next <= |lines|
    decreases |lines| - index
  {
    if index < |lines| && Continued(text) {
      JoinAdvances(lines, Cut(text) + " " + LStrip(lines[index]), index + 1);
    } else {
      assert Join(lines, text, index) == Joined(text, index);
    }
  }

  /** The logical line the checker takes at index. */
  function Take(lines: seq<string>, index: nat): (j: Joined)
    requires index < |lines|
    ensures index < j.next <= |lines|
  {
    JoinAdvances(lines, lines[index], index + 1);
    if StartsHash(lines[index]) then Join(lines, lines[index], index + 1) else Joined(lines[index], index + 1)
  }

  function LineAt(read: Reading, lines: seq<string>, index: nat): Line<Verdict>
    requires index < |lines|
  {
    if StartsHash(lines[index]) then read(Take(lines, index).text) else Code
  }

  /** Everything yielded from index on; the position is that of the first physical line. */
  function Scan(read: Reading, lines: seq<string>, index: nat, st: State): seq<Yield>
    requires index <= |lines|
    decreases |lines| - index
  {
    if index == |lines| then []
    else
      var line := LineAt(read, lines, index);
      StepYield(st, line, index) + Scan(read, lines, Take(lines, index).next, StepState(st, line))
  }

  function Yields(read: Reading, lines: seq<string>): seq<Yield> {
    Scan(read, lines, 0, State(true, []))
  }

  /** libuv_branch_lines. */
  method SelectLines(read: Reading, lines: seq<string>) returns (selected: seq<Yield>)
    ensures selected == Yields(read, lines)
  {
    selected := [];
    var active, stack, index := true, [], 0;
    while index < |lines|
      invariant index <= |lines|
      invariant selected + Scan(read, lines, index, State(active, stack)) == Yields(read, lines)
      decreases |lines| - index
    {
      ghost var before, st := selected, State(active, stack);
      var number := index;
      var text, yielded;
      text, index := TakeLine(lines, index);
      var line := if StartsHash(lines[number]) then read(text) else Code;
      active, stack, yielded := OnLine(active, stack, line, number);
      selected := selected + yielded;
      assert before + (yielded + Scan(read, lines, index, State(active, stack)))
          == selected + Scan(read, lines, index, State(active, stack));
    }
  }

  /** The line at index, with its continuations if it starts with a hash. */
  method TakeLine(lines: seq<string>, start: nat) returns (text: string, index: nat)
    requires start < |lines|
    ensures Joined(text, index) == Take(lines, start)
  {
    text, index := lines[start], start + 1;
    if StartsHash(lines[start]) {
      while Continued(text) && index < |lines|
        invariant index <= |lines| && Join(lines, text, index) == Join(lines, lines[start], start + 1)
        decreases |lines| - index
      {
        text, index := Cut(text) + " " + LStrip(lines[index]), index + 1;
      }
    }
  }

  // --- a real preprocessor's lines -----------------------------------------------------------------------------------

  /** Where the logical line that begins at i ends. */
  function ChunkEnd(lines: seq<string>, i: nat): (e: nat)
    requires i < |lines|
    ensures i < e <= |lines|
    decreases |lines| - i
  {
    if i + 1 < |lines| && Continued(lines[i]) then ChunkEnd(lines, i + 1) else i + 1
  }

  /** Its text: the physical lines without their backslashes, put together. */
  function Splice(lines: seq<string>, i: nat): string
    requires i < |lines|
    decreases |lines| - i
  {
    if i + 1 < |lines| && Continued(lines[i]) then Cut(lines[i]) + Splice(lines, i + 1) else lines[i]
  }

  function RealLine<T>(read: string -> Line<T>, lines: seq<string>, i: nat): Line<T>
    requires i < |lines|
  {
    if StartsHash(Splice(lines, i)) then read(Splice(lines, i)) else Code
  }

  /** The logical lines from the one that begins at i on. */
  function RealLines<T>(read: string -> Line<T>, lines: seq<string>, i: nat): seq<Line<T>>
    requires i <= |lines|
    decreases |lines| - i
  {
    if i == |lines| then [] else [RealLine(read, lines, i)] + RealLines(read, lines, ChunkEnd(lines, i))
  }

  /** Physical line p belongs to the j-th logical line from i on, which begins at first. */
  predicate PartOf(lines: seq<string>, i: nat, j: nat, first: nat, p: nat)
    requires i <= |lines|
    decreases |lines| - i
  {
    i < |lines| &&
    if j == 0 then first == i <= p < ChunkEnd(lines, i) else PartOf(lines, ChunkEnd(lines, i), j - 1, first, p)
  }

  // --- where the two agree -------------------------------------------------------------------------------------------

  /** The text joined so far does not end in a backslash once more when a blank line follows. */
  predicate JoinsCleanly(lines: seq<string>, text: string, index: nat)
    decreases if index < |lines| then |lines| - index else 0
  {
    index < |lines| && Continued(text) ==>
      (Blank(lines[index]) ==> !Continued(Cut(text))) &&
      JoinsCleanly(lines, Cut(text) + " " + LStrip(lines[index]), index + 1)
  }

  /** No line of a continued line of code starts with a hash. */
  predicate NoHashInside(lines: seq<string>, i: nat)
    requires i < |lines|
    decreases |lines| - i
  {
    i + 1 < |lines| && Continued(lines[i]) ==> !StartsHash(lines[i + 1]) && NoHashInside(lines, i + 1)
  }

  /** A logical line both sides cut out of the text in the same way, and read as the same directive. */
  predicate ChunkOk<T(==)>(read: string -> Line<T>, lines: seq<string>, i: nat)
    requires i < |lines|
  {
    if StartsHash(lines[i]) then
      JoinsCleanly(lines, lines[i], i + 1) && read(Take(lines, i).text) == read(Splice(lines, i))
    else NoHashInside(lines, i)
  }

  predicate ChunksOk<T(==)>(read: string -> Line<T>, lines: seq<string>, i: nat)
    requires i <= |lines|
    decreases |lines| - i
  {
    i < |lines| ==> ChunkOk(read, lines, i) && ChunksOk(read, lines, ChunkEnd(lines, i))
  }
}
