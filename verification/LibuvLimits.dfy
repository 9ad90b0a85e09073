/** Where branch selection stops being sound: the inputs outside the conditions of its theorems, and what is lost. */
module LibuvLimits {
  import opened Prelude
  import opened ConditionSyntax
  import opened ConditionValues
  import opened BranchLines
  import opened BranchProofs
  import opened PhysicalLines
  import opened PhysicalProofs
  import opened LibuvChecker

  // --- conditions the checker takes to be false ----------------------------------------------------------------------

  /** One condition around one line of code. */
  function OneSection<T>(t: T): Items<T> {
    Section(t, CodeLine(Nil), NoMore, Nil)
  }

  lemma LostLine(v: Verdict)
    requires v.value == Some(0)
    ensures var items := OneSection(Test(v, true)); Keeps(items, 0, 1) && !Finds(State(true, []), Flatten(items), 0, 1)
  {
    var items := OneSection(Test(v, true));
    FileShows(items, 1);
    SkippedShowsNothing(CodeLine(Nil), 1, 1);
    var code: Items<Test> := CodeLine(Nil);
    assert Keeps(code, 1, 1);
  }

  /** In every text of such a file with a condition known to be 0 and really true, the line is kept and not yielded. */
  lemma FalseZeroLosesTheLine(t: Written, env: Environment, odd: Condition -> int, read: Grammar, lines: seq<string>,
                              first: nat, p: nat)
    requires Evaluate(t.condition, SYMBOLS) == Some(0) && Real(t.condition, env, odd) != 0
    requires IsText(read, lines, OneSection(t)) && PartOf(lines, 0, 1, first, p)
    ensures KeepsLine(OneSection(t), env, odd, 1) && Kept(p) !in Yields(Judging(read), lines)
  {
    LostLine(VerdictOn(t));
    var code: Items<Written> := CodeLine(Nil);
    assert Judged(code, env, odd) == CodeLine(Nil);
    assert Judged(OneSection(t), env, odd) == OneSection(Test(VerdictOn(t), true));
    YieldedIs(read, lines, OneSection(t), env, odd, 1, first, p);
  }

  // --- octal literals ------------------------------------------------------------------------------------------------

  function ComparesLiterals(d: seq<digit>, e: seq<digit>): Or {
    OneAnd(OneEquality(Compare(OneUnary(Literal(d)), true, Literal(e))))
  }

  lemma ComparesLiteralsTokens(d: seq<digit>, e: seq<digit>)
    ensures Parse([Number(d), EqEq, Number(e)]) == Some(ComparesLiterals(d, e))
  {
    var left := OneUnary(Literal(d));
    assert UnaryTokens(Literal(d)) == [Number(d)] && UnaryTokens(Literal(e)) == [Number(e)];
    assert EqualityTokens(left) == [Number(d)];
    assert EqualityTokens(Compare(left, true, Literal(e))) == [Number(d), EqEq, Number(e)];
    assert UnaryOk(Literal(d)) && UnaryOk(Literal(e));
    assert EqualityOk(left) && EqualityOk(Compare(left, true, Literal(e)));
    var conj := OneEquality(Compare(left, true, Literal(e)));
    assert AndOk(conj) && AndTokens(conj) == [Number(d), EqEq, Number(e)];
    ParseIsExact([Number(d), EqEq, Number(e)], ComparesLiterals(d, e));
  }

  lemma ComparesLiteralsValue(d: seq<digit>, e: seq<digit>, symbols: Symbols, env: Environment)
    ensures OrValue(ComparesLiterals(d, e), symbols) == Some(Flag(Decimal(d) == Decimal(e)))
    ensures OrReal(ComparesLiterals(d, e), env) == Flag(RealLiteral(d) == RealLiteral(e))
  {
    var left := OneUnary(Literal(d));
    var equality := Compare(left, true, Literal(e));
    assert UnaryValue(Literal(d), symbols) == Some(Decimal(d)) && UnaryValue(Literal(e), symbols) == Some(Decimal(e));
    assert EqualityValue(equality, symbols) == CompareValues(EqualityValue(left, symbols), true,
           UnaryValue(Literal(e), symbols));
    assert UnaryReal(Literal(d), env) == RealLiteral(d) && UnaryReal(Literal(e), env) == RealLiteral(e);
    assert EqualityReal(left, env) == UnaryReal(left.unary, env);
    assert EqualityReal(equality, env) == Flag((EqualityReal(left, env) == UnaryReal(equality.right, env)) == true);
  }

  /** The condition that a literal equals its real value, written plainly. */
  function SelfTest(d: seq<digit>): Written {
    Written(If(Some([Number(d), EqEq, Number(DigitsOf(RealLiteral(d)))])), false)
  }

  /** Each literal the two sides read differently loses a line: that inside #if d == e, where e spells the real value of
      d without a leading zero, is kept in every environment and yielded in no text. */
  lemma OctalLosesALine(d: seq<digit>, env: Environment, odd: Condition -> int, read: Grammar, lines: seq<string>,
                        first: nat, p: nat)
    requires IsOctal(d) && Decimal(d) != d[|d| - 1]
    requires IsText(read, lines, OneSection(SelfTest(d))) && PartOf(lines, 0, 1, first, p)
    ensures KeepsLine(OneSection(SelfTest(d)), env, odd, 1) && Kept(p) !in Yields(Judging(read), lines)
  {
    var e := DigitsOf(RealLiteral(d));
    LiteralsAgree(d);
    PlainSpelling(RealLiteral(d));
    ComparesLiteralsTokens(d, e);
    ComparesLiteralsValue(d, e, SYMBOLS, env);
    FalseZeroLosesTheLine(SelfTest(d), env, odd, read, lines, first, p);
  }

  // --- environments that disagree with the table ---------------------------------------------------------------------

  /** The condition that X is not 1. */
  function NotOne(x: string): Or {
    OneAnd(OneEquality(Compare(OneUnary(Symbol(x)), false, Literal([1]))))
  }

  lemma NotOneTokens(x: string)
    requires x != "defined"
    ensures Parse([Word(x), NotEq, Number([1])]) == Some(NotOne(x))
  {
    var left := OneUnary(Symbol(x));
    assert UnaryTokens(Symbol(x)) == [Word(x)] && UnaryTokens(Literal([1])) == [Number([1])];
    assert EqualityTokens(left) == [Word(x)];
    assert EqualityTokens(Compare(left, false, Literal([1]))) == [Word(x), NotEq, Number([1])];
    assert UnaryOk(Symbol(x)) && UnaryOk(Literal([1]));
    assert EqualityOk(left) && EqualityOk(Compare(left, false, Literal([1])));
    var conj := OneEquality(Compare(left, false, Literal([1])));
    assert AndOk(conj) && AndTokens(conj) == [Word(x), NotEq, Number([1])];
    ParseIsExact([Word(x), NotEq, Number([1])], NotOne(x));
  }

  lemma NotOneValue(x: string, symbols: Symbols, env: Environment)
    requires x in symbols && symbols[x] == 1
    ensures OrValue(NotOne(x), symbols) == Some(0) && OrReal(NotOne(x), env) == Flag(ValueIn(env, x) != 1)
  {
    var left := OneUnary(Symbol(x));
    var equality := Compare(left, false, Literal([1]));
    assert Decimal([1]) == 1 by { assert [1][..0] == []; }
    assert UnaryValue(Symbol(x), symbols) == Some(1) && UnaryValue(Literal([1]), symbols) == Some(1);
    assert EqualityValue(equality, symbols) == CompareValues(EqualityValue(left, symbols), false,
           UnaryValue(Literal([1]), symbols));
    assert UnaryReal(Symbol(x), env) == ValueIn(env, x) && UnaryReal(Literal([1]), env) == 1;
    assert EqualityReal(left, env) == UnaryReal(left.unary, env);
    assert EqualityReal(equality, env) == Flag((EqualityReal(left, env) == UnaryReal(equality.right, env)) == false);
  }

  /** The condition that tells a macro apart from its value in the table. */
  function Telling(x: string, env: Environment): Written
    requires x in SYMBOLS
  {
    if SYMBOLS[x] == 0 then Written(IfDef(x), true)
    else if env(x).None? then Written(IfNDef(x), true)
    else Written(If(Some([Word(x), NotEq, Number([1])])), true)
  }

  lemma TableIsBinary(x: string)
    requires x in SYMBOLS
    ensures (SYMBOLS[x] == 0 || SYMBOLS[x] == 1) && x != "defined"
  {
  }

  /** It is known to be 0 and really true. */
  lemma TellingIsFalseZero(x: string, env: Environment, odd: Condition -> int)
    requires x in SYMBOLS && !AgreesOn(env, SYMBOLS, x)
    ensures var c := Telling(x, env).condition; Evaluate(c, SYMBOLS) == Some(0) && Real(c, env, odd) == 1
    ensures PlainTest(Telling(x, env))
  {
    TableIsBinary(x);
    if SYMBOLS[x] == 1 && env(x).Some? {
      NotOneTokens(x);
      NotOneValue(x, SYMBOLS, env);
    }
  }

  /** Agreement with the table is exactly what soundness needs: every condition with plain literals that is known to
      be 0 is really false. */
  lemma AgreementIsExact(env: Environment, odd: Condition -> int)
    ensures Agrees(env, SYMBOLS) <==>
            forall t :: PlainTest(t) && Evaluate(t.condition, SYMBOLS) == Some(0) ==> Real(t.condition, env, odd) == 0
  {
    if Agrees(env, SYMBOLS) {
      forall t | PlainTest(t) && Evaluate(t.condition, SYMBOLS) == Some(0) ensures Real(t.condition, env, odd) == 0 {
        PlainIsFair(t, env, odd);
      }
    } else {
      var x :| x in SYMBOLS && !AgreesOn(env, SYMBOLS, x);
      TellingIsFalseZero(x, env, odd);
    }
  }

  /** For each macro on which an environment disagrees with the table, the line inside its telling condition is kept and
      yielded in no text. */
  lemma DisagreeingLosesALine(x: string, env: Environment, odd: Condition -> int, read: Grammar, lines: seq<string>,
                              first: nat, p: nat)
    requires x in SYMBOLS && !AgreesOn(env, SYMBOLS, x)
    requires IsText(read, lines, OneSection(Telling(x, env))) && PartOf(lines, 0, 1, first, p)
    ensures KeepsLine(OneSection(Telling(x, env)), env, odd, 1) && Kept(p) !in Yields(Judging(read), lines)
  {
    TellingIsFalseZero(x, env, odd);
    FalseZeroLosesTheLine(Telling(x, env), env, odd, read, lines, first, p);
  }

  // --- macros defined as 0 -------------------------------------------------------------------------------------------

  /** The environment of a compilation for the checker's platform with -D_WIN32=0. */
  function Win32AsZero(): Environment {
    (s: string) => if s == "_WIN32" then Some(0) else if s in SYMBOLS && SYMBOLS[s] == 1 then Some(1) else None
  }

  const IFDEF_WIN32 := Written(IfDef("_WIN32"), true)

  /** It agrees with every value in the table, and the line inside #ifdef _WIN32 is kept and yielded in no text. */
  lemma AgreeingInValueLosesALine(odd: Condition -> int, read: Grammar, lines: seq<string>, first: nat, p: nat)
    requires IsText(read, lines, OneSection(IFDEF_WIN32)) && PartOf(lines, 0, 1, first, p)
    ensures forall s :: s in SYMBOLS ==> ValueIn(Win32AsZero(), s) == SYMBOLS[s]
    ensures KeepsLine(OneSection(IFDEF_WIN32), Win32AsZero(), odd, 1) && Kept(p) !in Yields(Judging(read), lines)
  {
    assert SYMBOLS["_WIN32"] == 0;
    FalseZeroLosesTheLine(IFDEF_WIN32, Win32AsZero(), odd, read, lines, first, p);
  }

  // --- other values --------------------------------------------------------------------------------------------------

  /** Of a condition known to have any other value, such as 2, both branches are selected and only one is kept. */
  lemma OtherValuesKeepBoth(v: Verdict, n: int)
    requires v.value == Some(n) && n != 0 && n != 1
    ensures var items := Section(Test(v, true), CodeLine(Nil), Else(CodeLine(Nil)), Nil);
            && Finds(State(true, []), Flatten(items), 0, 1) && Finds(State(true, []), Flatten(items), 0, 3)
            && Keeps(items, 0, 1) && !Keeps(items, 0, 3)
  {
    var code: Items<Test> := CodeLine(Nil);
    var items := Section(Test(v, true), code, Else(code), Nil);
    FileShows(items, 1);
    FileShows(items, 3);
    assert |Flatten(code)| == 1 && Shows(code, true, 1, 1) && Shows(code, true, 3, 3);
    assert RestShows(Else(code), true, 2, 3);
    assert Keeps(code, 1, 1) && !Keeps(code, 1, 3) && !Keeps(Nil, 5, 3);
  }

  // --- continuations -------------------------------------------------------------------------------------------------

  const MACRO: seq<string> := ["#define A \\", "  recv(fd)"]

  /** The second line of a macro is kept with it and not yielded. */
  lemma MacroContinuationIsLost(read: Grammar)
    requires forall text :: read(text) == Code
    ensures RealLines(read, MACRO, 0) == [Code] && PartOf(MACRO, 0, 0, 0, 1) && Kept(1) !in Yields(Judging(read), MACRO)
  {
    HashAt(MACRO[0], 0);
    ContinuedAt(MACRO[0], 10);
    ContinuedAt(MACRO[1], 9);
    assert ChunkEnd(MACRO, 1) == 2 && ChunkEnd(MACRO, 0) == 2;
    assert RealLines(read, MACRO, 2) == [];
    TailDecides(Cut(MACRO[0]), MACRO[1]);
    assert !Continued(Cut(MACRO[0]) + " " + LStrip(MACRO[1]));
    assert Take(MACRO, 0).next == 2;
    ScannedIsFound(Judging(read), MACRO, 0, State(true, []), 1);
  }

  const CONTINUED_CODE: seq<string> := ["x = \\", "#if 0", "recv(fd)"]

  /** A hash line that really continues a line of code opens a branch, and the line after it is lost. */
  lemma HashInsideCodeLosesALine(read: Grammar, t: Written)
    requires read("#if 0") == OpenIf(t) && Evaluate(t.condition, SYMBOLS) == Some(0)
    ensures RealLines(read, CONTINUED_CODE, 0) == [Code, Code] && PartOf(CONTINUED_CODE, 0, 1, 2, 2)
    ensures Kept(2) !in Yields(Judging(read), CONTINUED_CODE)
  {
    var lines := CONTINUED_CODE;
    HashAt(lines[0], 0);
    HashAt(lines[1], 0);
    HashAt(lines[2], 0);
    ContinuedAt(lines[0], 4);
    ContinuedAt(lines[1], 4);
    ContinuedAt(lines[2], 7);
    assert ChunkEnd(lines, 1) == 2 && ChunkEnd(lines, 0) == 2 && ChunkEnd(lines, 2) == 3;
    assert Splice(lines, 1) == lines[1] && Splice(lines, 0) == "x = " + "#if 0";
    HashAt(Splice(lines, 0), 0);
    assert RealLines(read, lines, 3) == [] && RealLines(read, lines, 2) == [Code];
    var st := State(true, []);
    var st1 := OpenBranch(st, Some(0));
    assert Take(lines, 1) == Joined("#if 0", 2) && LineAt(Judging(read), lines, 1) == OpenIf(VerdictOn(t));
    assert !ScanFinds(Judging(read), lines, 3, st1, 2) && !ScanFinds(Judging(read), lines, 2, st1, 2);
    assert !ScanFinds(Judging(read), lines, 1, st, 2);
    ScannedIsFound(Judging(read), lines, 0, st, 2);
  }

  const TWO_BACKSLASHES: seq<string> := ["#define A \\\\", "", "recv(fd)"]

  /** After two backslashes a blank line does not end the checker's line, and the line after it is lost. */
  lemma BlankAfterTwoBackslashesLosesALine(read: Grammar)
    requires forall text :: read(text) == Code
    ensures RealLines(read, TWO_BACKSLASHES, 0) == [Code, Code] && PartOf(TWO_BACKSLASHES, 0, 1, 2, 2)
    ensures Kept(2) !in Yields(Judging(read), TWO_BACKSLASHES)
  {
    var lines := TWO_BACKSLASHES;
    HashAt(lines[0], 0);
    HashAt(lines[2], 0);
    ContinuedAt(lines[0], 11);
    ContinuedAt(lines[2], 7);
    assert Cut(lines[0]) == "#define A \\";
    ContinuedAt("#define A \\", 10);
    TailDecides(Cut(lines[0]), lines[1]);
    var text := Cut(lines[0]) + " " + LStrip(lines[1]);
    TailDecides(Cut(text), lines[2]);
    assert ChunkEnd(lines, 1) == 2 && ChunkEnd(lines, 0) == 2 && ChunkEnd(lines, 2) == 3;
    assert RealLines(read, lines, 3) == [] && RealLines(read, lines, 2) == [Code];
    assert Join(lines, Cut(text) + " " + LStrip(lines[2]), 3).next == 3;
    assert Join(lines, text, 2).next == 3 && Take(lines, 0).next == 3;
    ScannedIsFound(Judging(read), lines, 0, State(true, []), 2);
  }

  // --- a directive word split in two ---------------------------------------------------------------------------------

  const SPLIT_WORD: seq<string> := ["#if 0", "#el\\", "se", "recv(fd)", "#endif"]

  /** The file of that text: an empty branch, then an #else with one line. */
  function EmptyThenElse(t: Written): Items<Written> {
    Section(t, Nil, Else(CodeLine(Nil)), Nil)
  }

  lemma SplitWordChunks()
    ensures var lines := SPLIT_WORD;
            && StartsHash(lines[0]) && StartsHash(lines[1]) && !StartsHash(lines[3]) && StartsHash(lines[4])
            && !Continued(lines[0]) && Continued(lines[1]) && !Continued(lines[2]) && !Continued(lines[3]) &&
               !Continued(lines[4])
            && Cut(lines[1]) == "#el"
  {
    var lines := SPLIT_WORD;
    HashAt(lines[0], 0);
    HashAt(lines[1], 0);
    HashAt(lines[3], 0);
    HashAt(lines[4], 0);
    ContinuedAt(lines[0], 4);
    ContinuedAt(lines[1], 3);
    ContinuedAt(lines[2], 1);
    ContinuedAt(lines[3], 7);
    ContinuedAt(lines[4], 5);
  }

  lemma SplitWordReal(read: Grammar, t: Written)
    requires read("#if 0") == OpenIf(t) && read("#else") == ElseLine && read("#endif") == EndIf
    ensures RealLines(read, SPLIT_WORD, 0) == Lines(EmptyThenElse(t)) && PartOf(SPLIT_WORD, 0, 2, 3, 3)
  {
    var lines := SPLIT_WORD;
    SplitWordChunks();
    assert ChunkEnd(lines, 0) == 1 && ChunkEnd(lines, 2) == 3 && ChunkEnd(lines, 1) == 3;
    assert ChunkEnd(lines, 3) == 4 && ChunkEnd(lines, 4) == 5;
    assert Splice(lines, 2) == lines[2] && Splice(lines, 1) == "#el" + "se" == "#else";
    HashAt(Splice(lines, 1), 0);
    assert RealLines(read, lines, 5) == [] && RealLines(read, lines, 4) == [EndIf];
    assert RealLines(read, lines, 3) == [Code, EndIf];
    assert RealLines(read, lines, 1) == [ElseLine, Code, EndIf];
    var code: Items<Written> := CodeLine(Nil);
    assert Lines(code) == [Code] && RestLines(Else(code)) == [ElseLine, Code, EndIf];
  }

  lemma SplitWordScan(read: Grammar, t: Written)
    requires read("#if 0") == OpenIf(t) && Evaluate(t.condition, SYMBOLS) == Some(0)
    requires read("#el se") == Code && read("#endif") == EndIf
    ensures Kept(3) !in Yields(Judging(read), SPLIT_WORD)
  {
    var lines := SPLIT_WORD;
    SplitWordChunks();
    var st := State(true, []);
    var st1 := OpenBranch(st, Some(0));
    var text := Cut(lines[1]) + " " + LStrip(lines[2]);
    assert text == "#el se";
    ContinuedAt(text, 5);
    assert Join(lines, text, 3) == Joined(text, 3) && Take(lines, 1) == Joined(text, 3);
    assert Take(lines, 0) == Joined(lines[0], 1) && Take(lines, 4) == Joined(lines[4], 5);
    assert !ScanFinds(Judging(read), lines, 5, StepState(st1, EndIf), 3) && !ScanFinds(Judging(read), lines, 4, st1, 3);
    assert !ScanFinds(Judging(read), lines, 3, st1, 3) && !ScanFinds(Judging(read), lines, 1, st1, 3);
    ScannedIsFound(Judging(read), lines, 0, st, 3);
  }

  /** Joined with a space, the split #else is no directive to the checker, and the line after it is lost. */
  lemma SplitWordLosesALine(read: Grammar, t: Written, env: Environment, odd: Condition -> int)
    requires read("#if 0") == OpenIf(t) && Evaluate(t.condition, SYMBOLS) == Some(0) && Real(t.condition, env, odd) == 0
    requires read("#else") == ElseLine && read("#el se") == Code && read("#endif") == EndIf
    ensures RealLines(read, SPLIT_WORD, 0) == Lines(EmptyThenElse(t)) && PartOf(SPLIT_WORD, 0, 2, 3, 3)
    ensures KeepsLine(EmptyThenElse(t), env, odd, 2) && Kept(3) !in Yields(Judging(read), SPLIT_WORD)
  {
    SplitWordReal(read, t);
    SplitWordScan(read, t);
    JudgedElse(t, env, odd);
    ElseKeeps(TestOf(t, env, odd));
  }

  lemma JudgedElse(t: Written, env: Environment, odd: Condition -> int)
    ensures Judged(EmptyThenElse(t), env, odd) == Section(TestOf(t, env, odd), Nil, Else(CodeLine(Nil)), Nil)
  {
    var code: Items<Written> := CodeLine(Nil);
    assert Judged(code, env, odd) == CodeLine(Nil) && JudgedRest(Else(code), env, odd) == Else(CodeLine(Nil));
  }

  lemma ElseKeeps(t: Test)
    requires !t.truth
    ensures Keeps(Section(t, Nil, Else(CodeLine(Nil)), Nil), 0, 2)
  {
    var none: Items<Test>, code := Nil, CodeLine(Nil);
    assert |Flatten(none)| == 0 && Keeps(code, 2, 2) && RestKeeps(Else(code), 1, 2);
  }
}
