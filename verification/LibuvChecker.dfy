/** The libuv checker: its conditions and symbol tables, and branch selection against a real preprocessor. */
module LibuvChecker {
  import opened Prelude
  import opened ConditionSyntax
  import opened ConditionValues
  import opened BranchLines
  import opened BranchProofs
  import opened PreprocessorExpression
  import opened PhysicalLines
  import opened PhysicalProofs

  /** A condition of #if or #elif is None when it has a character the tokenizer does not know. */
  datatype Condition = IfDef(name: string) | IfNDef(name: string) | If(tokens: Option<seq<Token>>)

  /** A condition as written, and whether its text mentions a platform macro. */
  datatype Written = Written(condition: Condition, mentions: bool)

  const LINUX: Symbols := map["__linux__" := 1, "__APPLE__" := 0, "_WIN32" := 0, "WIN32" := 0, "_DARWIN" := 0]
  const DARWIN: Symbols := map["__linux__" := 0, "__APPLE__" := 1, "_WIN32" := 0, "WIN32" := 0, "_DARWIN" := 1]
  const WINDOWS: Symbols := map["__linux__" := 0, "__APPLE__" := 0, "_WIN32" := 1, "WIN32" := 1, "_DARWIN" := 0]

  function SymbolsOn(platform: Symbols): Symbols {
    map["TCPQUIC_RELAY_BACKEND_LIBUV" := 1] + LINUX + platform
  }

  const SYMBOLS := SymbolsOn(map[])

  // --- judging a condition -------------------------------------------------------------------------------------------

  /** The value of a condition; what does not parse is unknown. */
  function Evaluate(c: Condition, symbols: Symbols): Value {
    match c
    case IfDef(name) => Lookup(symbols, name)
    case IfNDef(name) => LogicalNot(Lookup(symbols, name))
    case If(tokens) =>
      if tokens.None? || Parse(tokens.value).None? then None else OrValue(Parse(tokens.value).value, symbols)
  }

  method EvaluateCondition(c: Condition, symbols: Symbols) returns (value: Value)
    ensures value == Evaluate(c, symbols)
  {
    match c
    case IfDef(name) => value := Lookup(symbols, name);
    case IfNDef(name) => value := LogicalNot(Lookup(symbols, name));
    case If(tokens) =>
      if tokens.None? {
        return None;
      }
      var expression := new Expression(tokens.value, symbols);
      assert expression.Ahead() == tokens.value;
      var ok;
      ok, value := expression.ParseWhole();
      if !ok {
        value := None;
      }
  }

  predicate PlatformSensitive(t: Written) {
    t.mentions &&
    var l, d, w := Evaluate(t.condition, SymbolsOn(LINUX)), Evaluate(t.condition, SymbolsOn(DARWIN)),
                   Evaluate(t.condition, SymbolsOn(WINDOWS));
    l.None? || d.None? || w.None? || !(l == d == w)
  }

  function VerdictOn(t: Written): Verdict {
    Verdict(Evaluate(t.condition, SYMBOLS), PlatformSensitive(t))
  }

  // --- a real preprocessor -------------------------------------------------------------------------------------------

  /** The value of a condition in an environment; one that does not parse may count as anything. */
  function Real(c: Condition, env: Environment, odd: Condition -> int): int {
    match c
    case IfDef(name) => DefinedIn(env, name)
    case IfNDef(name) => 1 - DefinedIn(env, name)
    case If(tokens) =>
      if tokens.None? || Parse(tokens.value).None? then odd(c) else OrReal(Parse(tokens.value).value, env)
  }

  function TestOf(t: Written, env: Environment, odd: Condition -> int): Test {
    Test(VerdictOn(t), Real(t.condition, env, odd) != 0)
  }

  /** A file with each condition judged, by the checker and by the preprocessor. */
  function Judged(items: Items<Written>, env: Environment, odd: Condition -> int): Items<Test> {
    match items
    case Nil => Nil
    case CodeLine(next) => CodeLine(Judged(next, env, odd))
    case Section(t, body, rest, after) =>
      Section(TestOf(t, env, odd), Judged(body, env, odd), JudgedRest(rest, env, odd), Judged(after, env, odd))
  }

  function JudgedRest(rest: Rest<Written>, env: Environment, odd: Condition -> int): Rest<Test> {
    match rest
    case NoMore => NoMore
    case Else(body) => Else(Judged(body, env, odd))
    case Elif(t, body, more) => Elif(TestOf(t, env, odd), Judged(body, env, odd), JudgedRest(more, env, odd))
  }

  /** The logical lines of a file. */
  function Lines(items: Items<Written>): seq<Line<Written>> {
    match items
    case Nil => []
    case CodeLine(next) => [Code] + Lines(next)
    case Section(t, body, rest, after) => [OpenIf(t)] + Lines(body) + RestLines(rest) + Lines(after)
  }

  function RestLines(rest: Rest<Written>): seq<Line<Written>> {
    match rest
    case NoMore => [EndIf]
    case Else(body) => [ElseLine] + Lines(body) + [EndIf]
    case Elif(t, body, more) => [ElseIf(t)] + Lines(body) + RestLines(more)
  }

  function JudgedLine(line: Line<Written>): Line<Verdict> {
    match line
    case Code => Code
    case OpenIf(t) => OpenIf(VerdictOn(t))
    case ElseIf(t) => ElseIf(VerdictOn(t))
    case ElseLine => ElseLine
    case EndIf => EndIf
  }

  function JudgedAll(lines: seq<Line<Written>>): (r: seq<Line<Verdict>>)
    ensures |r| == |lines| && forall i :: 0 <= i < |lines| ==> r[i] == JudgedLine(lines[i])
  {
    if lines == [] then [] else [JudgedLine(lines[0])] + JudgedAll(lines[1..])
  }

  /** A real preprocessor in this environment keeps the logical line. */
  predicate KeepsLine(items: Items<Written>, env: Environment, odd: Condition -> int, line: nat) {
    Keeps(Judged(items, env, odd), 0, line)
  }

  lemma JudgedConcat(a: seq<Line<Written>>, b: seq<Line<Written>>)
    ensures JudgedAll(a + b) == JudgedAll(a) + JudgedAll(b)
  {
  }

  lemma JudgedThree(l: Line<Written>, b: seq<Line<Written>>, c: seq<Line<Written>>)
    ensures JudgedAll([l] + b + c) == [JudgedLine(l)] + JudgedAll(b) + JudgedAll(c)
  {
    JudgedConcat([l] + b, c);
    JudgedConcat([l], b);
    assert JudgedAll([l]) == [JudgedLine(l)];
  }

  lemma {:induction false} JudgedLines(items: Items<Written>, env: Environment, odd: Condition -> int)
    ensures Flatten(Judged(items, env, odd)) == JudgedAll(Lines(items))
  {
    match items
    case Nil =>
    case CodeLine(next) =>
      JudgedLines(next, env, odd);
      JudgedConcat([Code], Lines(next));
    case Section(t, body, rest, after) =>
      JudgedLines(body, env, odd);
      JudgedRestLines(rest, env, odd);
      JudgedLines(after, env, odd);
      JudgedThree(OpenIf(t), Lines(body), RestLines(rest));
      JudgedConcat([OpenIf(t)] + Lines(body) + RestLines(rest), Lines(after));
  }

  lemma {:induction false} JudgedRestLines(rest: Rest<Written>, env: Environment, odd: Condition -> int)
    ensures FlattenRest(JudgedRest(rest, env, odd)) == JudgedAll(RestLines(rest))
  {
    match rest
    case NoMore =>
    case Else(body) =>
      JudgedLines(body, env, odd);
      JudgedThree(ElseLine, Lines(body), [EndIf]);
    case Elif(t, body, more) =>
      JudgedLines(body, env, odd);
      JudgedRestLines(more, env, odd);
      JudgedThree(ElseIf(t), Lines(body), RestLines(more));
  }

  // --- reading the text ----------------------------------------------------------------------------------------------

  /** What the text of a directive says; a directive that is no condition reads as Code. */
  type Grammar = string -> Line<Written>

  function Judging(read: Grammar): Reading {
    (text: string) => JudgedLine(read(text))
  }

  lemma {:induction false} JudgedReal(read: Grammar, lines: seq<string>, i: nat)
    requires i <= |lines|
    ensures RealLines(Judging(read), lines, i) == JudgedAll(RealLines(read, lines, i))
    decreases |lines| - i
  {
    if i == |lines| {
      assert RealLines(read, lines, i) == [];
    } else {
      JudgedReal(read, lines, ChunkEnd(lines, i));
    }
  }

  lemma {:induction false} JudgedOk(read: Grammar, lines: seq<string>, i: nat)
    requires i <= |lines| && ChunksOk(read, lines, i)
    ensures ChunksOk(Judging(read), lines, i)
    decreases |lines| - i
  {
    if i < |lines| {
      JudgedOk(read, lines, ChunkEnd(lines, i));
    } else {
      assert i == |lines|;
    }
  }

  /** The text is that of the well-nested file. */
  predicate IsText(read: Grammar, lines: seq<string>, items: Items<Written>) {
    ChunksOk(read, lines, 0) && RealLines(read, lines, 0) == Lines(items)
  }

  lemma YieldedIs(read: Grammar, lines: seq<string>, items: Items<Written>, env: Environment, odd: Condition -> int,
                  j: nat, first: nat, p: nat)
    requires IsText(read, lines, items) && PartOf(lines, 0, j, first, p)
    ensures first < |lines|
    ensures Kept(p) in Yields(Judging(read), lines) <==>
            Finds(State(true, []), Flatten(Judged(items, env, odd)), 0, j) && (p == first || !StartsHash(lines[first]))
  {
    JudgedOk(read, lines, 0);
    JudgedReal(read, lines, 0);
    JudgedLines(items, env, odd);
    YieldsFollow(Judging(read), lines, j, first, p);
  }

  // --- the verdicts are fair where literals are plain ----------------------------------------------------------------

  /** Every literal of the condition reads the same in decimal and in the preprocessor. */
  predicate PlainTest(t: Written) {
    t.condition.If? && t.condition.tokens.Some? && Parse(t.condition.tokens.value).Some? ==>
      OrPlain(Parse(t.condition.tokens.value).value)
  }

  predicate AllPlain(items: Items<Written>) {
    match items
    case Nil => true
    case CodeLine(next) => AllPlain(next)
    case Section(t, body, rest, after) => PlainTest(t) && AllPlain(body) && RestPlain(rest) && AllPlain(after)
  }

  predicate RestPlain(rest: Rest<Written>) {
    match rest
    case NoMore => true
    case Else(body) => AllPlain(body)
    case Elif(t, body, more) => PlainTest(t) && AllPlain(body) && RestPlain(more)
  }

  /** Every condition is known to be 0 or 1. */
  predicate AllKnown(items: Items<Written>) {
    match items
    case Nil => true
    case CodeLine(next) => AllKnown(next)
    case Section(t, body, rest, after) => Decided(VerdictOn(t)) && AllKnown(body) && RestKnown(rest) && AllKnown(after)
  }

  predicate RestKnown(rest: Rest<Written>) {
    match rest
    case NoMore => true
    case Else(body) => AllKnown(body)
    case Elif(t, body, more) => Decided(VerdictOn(t)) && AllKnown(body) && RestKnown(more)
  }

  lemma PlainIsFair(t: Written, env: Environment, odd: Condition -> int)
    requires Agrees(env, SYMBOLS) && PlainTest(t)
    ensures Fair(TestOf(t, env, odd))
  {
    match t.condition
    case If(tokens) =>
      if tokens.Some? && Parse(tokens.value).Some? { KnownIsReal(Parse(tokens.value).value, SYMBOLS, env); }
    case _ =>
  }

  lemma {:induction false} JudgedIsFair(items: Items<Written>, env: Environment, odd: Condition -> int)
    requires Agrees(env, SYMBOLS) && AllPlain(items)
    ensures AllFair(Judged(items, env, odd)) && (AllKnown(items) ==> AllDecided(Judged(items, env, odd)))
  {
    match items
    case Nil =>
    case CodeLine(next) => JudgedIsFair(next, env, odd);
    case Section(t, body, rest, after) =>
      PlainIsFair(t, env, odd);
      JudgedIsFair(body, env, odd);
      JudgedRestIsFair(rest, env, odd);
      JudgedIsFair(after, env, odd);
  }

  lemma {:induction false} JudgedRestIsFair(rest: Rest<Written>, env: Environment, odd: Condition -> int)
    requires Agrees(env, SYMBOLS) && RestPlain(rest)
    ensures RestFair(JudgedRest(rest, env, odd)) && (RestKnown(rest) ==> RestDecided(JudgedRest(rest, env, odd)))
  {
    match rest
    case NoMore =>
    case Else(body) => JudgedIsFair(body, env, odd);
    case Elif(t, body, more) =>
      PlainIsFair(t, env, odd);
      JudgedIsFair(body, env, odd);
      JudgedRestIsFair(more, env, odd);
  }

  // --- theorems ------------------------------------------------------------------------------------------------------

  /** Branch selection is sound: in every environment that agrees with the known symbols, a physical line a real
      preprocessor keeps of a well-nested file is yielded, exactly unless it continues a line that starts with a
      hash. */
  lemma SelectionIsSound(read: Grammar, lines: seq<string>, items: Items<Written>, env: Environment,
                         odd: Condition -> int, j: nat, first: nat, p: nat)
    requires IsText(read, lines, items) && PartOf(lines, 0, j, first, p)
    requires Agrees(env, SYMBOLS) && AllPlain(items) && KeepsLine(items, env, odd, j)
    ensures first < |lines|
    ensures Kept(p) in Yields(Judging(read), lines) <==> p == first || !StartsHash(lines[first])
  {
    JudgedIsFair(items, env, odd);
    FairIsSound(Judged(items, env, odd), j);
    YieldedIs(read, lines, items, env, odd, j, first, p);
  }

  /** When every condition is known to be 0 or 1, the code lines yielded are exactly the physical lines kept that do not
      continue a line that starts with a hash. */
  lemma SelectionIsExact(read: Grammar, lines: seq<string>, items: Items<Written>, env: Environment,
                         odd: Condition -> int, j: nat, first: nat, p: nat)
    requires IsText(read, lines, items) && PartOf(lines, 0, j, first, p)
    requires Agrees(env, SYMBOLS) && AllPlain(items) && AllKnown(items)
    ensures first < |lines|
    ensures Kept(p) in Yields(Judging(read), lines) <==>
            KeepsLine(items, env, odd, j) && (p == first || !StartsHash(lines[first]))
  {
    JudgedIsFair(items, env, odd);
    DecidedIsExact(Judged(items, env, odd), j);
    YieldedIs(read, lines, items, env, odd, j, first, p);
  }
}
