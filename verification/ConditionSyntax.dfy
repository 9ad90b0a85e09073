/**
 The grammar of preprocessor conditions: syntax trees with one level per precedence, how they are written as
 tokens, and the recursive-descent parser, which accepts exactly what is written from a tree.
 */
module ConditionSyntax {
  import opened Prelude

  type digit = d: int | 0 <= d < 10

  datatype Token = Not | AndAnd | OrOr | EqEq | NotEq | Open | Close | Word(name: string) | Number(digits: seq<digit>)

  const DEFINED := "defined"

  datatype Unary =
    | Negation(operand: Unary)
    | DefinedTest(symbol: string, parens: bool)
    | Group(inner: Or)
    | Literal(digits: seq<digit>)
    | Symbol(name: string)

  datatype Equality = OneUnary(unary: Unary) | Compare(left: Equality, equal: bool, right: Unary)

  datatype And = OneEquality(equality: Equality) | Both(left: And, right: Equality)

  datatype Or = OneAnd(conj: And) | Either(left: Or, right: And)

  /** The word defined is an operator, never a symbol on its own. */
  predicate UnaryOk(u: Unary) {
    match u
    case Negation(x) => UnaryOk(x)
    case Group(x) => OrOk(x)
    case Symbol(name) => name != DEFINED
    case _ => true
  }

  predicate EqualityOk(e: Equality) {
    match e
    case OneUnary(u) => UnaryOk(u)
    case Compare(l, _, r) => EqualityOk(l) && UnaryOk(r)
  }

  predicate AndOk(a: And) {
    match a
    case OneEquality(e) => EqualityOk(e)
    case Both(l, r) => AndOk(l) && EqualityOk(r)
  }

  predicate OrOk(o: Or) {
    match o
    case OneAnd(a) => AndOk(a)
    case Either(l, r) => OrOk(l) && AndOk(r)
  }

  // --- writing a tree -------------------------------------------------------------------------------------------

  function UnaryTokens(u: Unary): seq<Token> {
    match u
    case Negation(x) => [Not] + UnaryTokens(x)
    case DefinedTest(s, parens) => if parens then [Word(DEFINED), Open, Word(s), Close] else [Word(DEFINED), Word(s)]
    case Group(x) => [Open] + OrTokens(x) + [Close]
    case Literal(d) => [Number(d)]
    case Symbol(s) => [Word(s)]
  }

  function EqualityTokens(e: Equality): seq<Token> {
    match e
    case OneUnary(u) => UnaryTokens(u)
    case Compare(l, equal, r) => EqualityTokens(l) + [if equal then EqEq else NotEq] + UnaryTokens(r)
  }

  function AndTokens(a: And): seq<Token> {
    match a
    case OneEquality(e) => EqualityTokens(e)
    case Both(l, r) => AndTokens(l) + [AndAnd] + EqualityTokens(r)
  }

  function OrTokens(o: Or): seq<Token> {
    match o
    case OneAnd(a) => AndTokens(a)
    case Either(l, r) => OrTokens(l) + [OrOr] + AndTokens(r)
  }

  // --- the parser -------------------------------------------------------------------------------------------------

  datatype Parsed<+T> = Fail | Done(tree: T, rest: seq<Token>)

  predicate Peek(ts: seq<Token>, t: Token) {
    ts != [] && ts[0] == t
  }

  function ParseUnary(ts: seq<Token>): (r: Parsed<Unary>)
    ensures r.Done? ==> |r.rest| < |ts|
    decreases |ts|, 0
  {
    if ts == [] then Fail
    else if ts[0] == Not then
      var r := ParseUnary(ts[1..]);
      if r.Fail? then Fail else Done(Negation(r.tree), r.rest)
    else if ts[0] == Word(DEFINED) then ParseDefined(ts[1..])
    else if ts[0] == Open then
      var r := ParseOr(ts[1..]);
      if r.Fail? || !Peek(r.rest, Close) then Fail else Done(Group(r.tree), r.rest[1..])
    else if ts[0].Number? then Done(Literal(ts[0].digits), ts[1..])
    else if ts[0].Word? then Done(Symbol(ts[0].name), ts[1..])
    else Fail
  }

  /** What follows the word defined: a name, or a name in parentheses. */
  function ParseDefined(ts: seq<Token>): (r: Parsed<Unary>)
    ensures r.Done? ==> |r.rest| < |ts|
  {
    var parens := Peek(ts, Open);
    var inner := if parens then ts[1..] else ts;
    if inner == [] || !inner[0].Word? then Fail
    else if parens && !Peek(inner[1..], Close) then Fail
    else Done(DefinedTest(inner[0].name, parens), if parens then inner[2..] else inner[1..])
  }

  function ParseEquality(ts: seq<Token>): (r: Parsed<Equality>)
    ensures r.Done? ==> |r.rest| < |ts|
    decreases |ts|, 1
  {
    var r := ParseUnary(ts);
    if r.Fail? then Fail else EqualityLoop(OneUnary(r.tree), r.rest)
  }

  function EqualityLoop(left: Equality, ts: seq<Token>): (r: Parsed<Equality>)
    ensures r.Done? ==> |r.rest| <= |ts|
    decreases |ts|, 1
  {
    if Peek(ts, EqEq) || Peek(ts, NotEq) then
      var r := ParseUnary(ts[1..]);
      if r.Fail? then Fail else EqualityLoop(Compare(left, ts[0] == EqEq, r.tree), r.rest)
    else Done(left, ts)
  }

  function ParseAnd(ts: seq<Token>): (r: Parsed<And>)
    ensures r.Done? ==> |r.rest| < |ts|
    decreases |ts|, 2
  {
    var r := ParseEquality(ts);
    if r.Fail? then Fail else AndLoop(OneEquality(r.tree), r.rest)
  }

  function AndLoop(left: And, ts: seq<Token>): (r: Parsed<And>)
    ensures r.Done? ==> |r.rest| <= |ts|
    decreases |ts|, 2
  {
    if Peek(ts, AndAnd) then
      var r := ParseEquality(ts[1..]);
      if r.Fail? then Fail else AndLoop(Both(left, r.tree), r.rest)
    else Done(left, ts)
  }

  function ParseOr(ts: seq<Token>): (r: Parsed<Or>)
    ensures r.Done? ==> |r.rest| < |ts|
    decreases |ts|, 3
  {
    var r := ParseAnd(ts);
    if r.Fail? then Fail else OrLoop(OneAnd(r.tree), r.rest)
  }

  function OrLoop(left: Or, ts: seq<Token>): (r: Parsed<Or>)
    ensures r.Done? ==> |r.rest| <= |ts|
    decreases |ts|, 3
  {
    if Peek(ts, OrOr) then
      var r := ParseAnd(ts[1..]);
      if r.Fail? then Fail else OrLoop(Either(left, r.tree), r.rest)
    else Done(left, ts)
  }

  /** A whole condition: nothing may be left over. */
  function Parse(ts: seq<Token>): Option<Or> {
    var r := ParseOr(ts);
    if r.Done? && r.rest == [] then Some(r.tree) else None
  }

  // --- what is parsed is what was written ---------------------------------------------------------------------------

  lemma {:induction false} UnarySound(ts: seq<Token>)
    ensures var r := ParseUnary(ts); r.Done? ==> UnaryOk(r.tree) && ts == UnaryTokens(r.tree) + r.rest
    decreases |ts|, 0
  {
    if ts != [] {
      if ts[0] == Not {
        UnarySound(ts[1..]);
      } else if ts[0] == Open {
        OrSound(ts[1..]);
      }
    }
  }

  lemma {:induction false} EqualitySound(ts: seq<Token>)
    ensures var r := ParseEquality(ts); r.Done? ==> EqualityOk(r.tree) && ts == EqualityTokens(r.tree) + r.rest
    decreases |ts|, 1
  {
    UnarySound(ts);
    var r := ParseUnary(ts);
    if r.Done? { EqualityLoopSound(OneUnary(r.tree), r.rest); }
  }

  lemma {:induction false} EqualityLoopSound(left: Equality, ts: seq<Token>)
    requires EqualityOk(left)
    ensures var r := EqualityLoop(left, ts);
            r.Done? ==> EqualityOk(r.tree) && EqualityTokens(left) + ts == EqualityTokens(r.tree) + r.rest
    decreases |ts|, 1
  {
    if Peek(ts, EqEq) || Peek(ts, NotEq) {
      UnarySound(ts[1..]);
      var r := ParseUnary(ts[1..]);
      if r.Done? {
        CompareTokens(left, ts, r.tree, r.rest);
        EqualityLoopSound(Compare(left, ts[0] == EqEq, r.tree), r.rest);
      }
    }
  }

  lemma CompareTokens(left: Equality, ts: seq<Token>, right: Unary, rest: seq<Token>)
    requires (Peek(ts, EqEq) || Peek(ts, NotEq)) && ts[1..] == UnaryTokens(right) + rest
    ensures EqualityTokens(left) + ts == EqualityTokens(Compare(left, ts[0] == EqEq, right)) + rest
  {
    assert ts == [ts[0]] + ts[1..];
  }

  lemma {:induction false} AndSound(ts: seq<Token>)
    ensures var r := ParseAnd(ts); r.Done? ==> AndOk(r.tree) && ts == AndTokens(r.tree) + r.rest
    decreases |ts|, 2
  {
    EqualitySound(ts);
    var r := ParseEquality(ts);
    if r.Done? { AndLoopSound(OneEquality(r.tree), r.rest); }
  }

  lemma {:induction false} AndLoopSound(left: And, ts: seq<Token>)
    requires AndOk(left)
    ensures var r := AndLoop(left, ts); r.Done? ==> AndOk(r.tree) && AndTokens(left) + ts == AndTokens(r.tree) + r.rest
    decreases |ts|, 2
  {
    if Peek(ts, AndAnd) {
      EqualitySound(ts[1..]);
      var r := ParseEquality(ts[1..]);
      if r.Done? {
        assert AndTokens(left) + ts == AndTokens(Both(left, r.tree)) + r.rest;
        AndLoopSound(Both(left, r.tree), r.rest);
      }
    }
  }

  lemma {:induction false} OrSound(ts: seq<Token>)
    ensures var r := ParseOr(ts); r.Done? ==> OrOk(r.tree) && ts == OrTokens(r.tree) + r.rest
    decreases |ts|, 3
  {
    AndSound(ts);
    var r := ParseAnd(ts);
    if r.Done? { OrLoopSound(OneAnd(r.tree), r.rest); }
  }

  lemma {:induction false} OrLoopSound(left: Or, ts: seq<Token>)
    requires OrOk(left)
    ensures var r := OrLoop(left, ts); r.Done? ==> OrOk(r.tree) && OrTokens(left) + ts == OrTokens(r.tree) + r.rest
    decreases |ts|, 3
  {
    if Peek(ts, OrOr) {
      AndSound(ts[1..]);
      var r := ParseAnd(ts[1..]);
      if r.Done? {
        assert OrTokens(left) + ts == OrTokens(Either(left, r.tree)) + r.rest;
        OrLoopSound(Either(left, r.tree), r.rest);
      }
    }
  }

  // --- and everything written is parsed ------------------------------------------------------------------------------

  predicate EndsEquality(ts: seq<Token>) {
    !Peek(ts, EqEq) && !Peek(ts, NotEq)
  }

  predicate EndsAnd(ts: seq<Token>) {
    EndsEquality(ts) && !Peek(ts, AndAnd)
  }

  lemma {:induction false} UnaryComplete(u: Unary, rest: seq<Token>)
    requires UnaryOk(u)
    ensures ParseUnary(UnaryTokens(u) + rest) == Done(u, rest)
  {
    match u
    case Negation(x) =>
      UnaryComplete(x, rest);
      assert (UnaryTokens(u) + rest)[1..] == UnaryTokens(x) + rest;
    case DefinedTest(s, parens) => DefinedComplete(s, parens, rest);
    case Group(x) =>
      OrComplete(x, [Close] + rest);
      GroupComplete(x, rest);
    case _ => assert (UnaryTokens(u) + rest)[1..] == rest;
  }

  lemma DefinedComplete(s: string, parens: bool, rest: seq<Token>)
    ensures ParseUnary(UnaryTokens(DefinedTest(s, parens)) + rest) == Done(DefinedTest(s, parens), rest)
  {
    var ts := UnaryTokens(DefinedTest(s, parens)) + rest;
    var tail := ts[1..];
    if parens {
      assert tail == [Open, Word(s), Close] + rest;
      assert tail[1..] == [Word(s), Close] + rest;
      assert tail[1..][1..] == [Close] + rest && tail[1..][2..] == rest;
    } else {
      assert tail == [Word(s)] + rest && tail[1..] == rest;
    }
  }

  lemma GroupComplete(x: Or, rest: seq<Token>)
    requires ParseOr(OrTokens(x) + ([Close] + rest)) == OrLoop(x, [Close] + rest)
    ensures ParseUnary(UnaryTokens(Group(x)) + rest) == Done(Group(x), rest)
  {
    var ts := UnaryTokens(Group(x)) + rest;
    assert ts[1..] == OrTokens(x) + ([Close] + rest);
    assert ([Close] + rest)[1..] == rest;
  }

  lemma {:induction false} EqualityComplete(e: Equality, rest: seq<Token>)
    requires EqualityOk(e)
    ensures ParseEquality(EqualityTokens(e) + rest) == EqualityLoop(e, rest)
  {
    match e
    case OneUnary(u) => UnaryComplete(u, rest);
    case Compare(l, equal, r) =>
      var op := if equal then EqEq else NotEq;
      var tail := [op] + (UnaryTokens(r) + rest);
      assert EqualityTokens(e) + rest == EqualityTokens(l) + tail;
      EqualityComplete(l, tail);
      UnaryComplete(r, rest);
      assert tail[1..] == UnaryTokens(r) + rest;
  }

  lemma {:induction false} AndComplete(a: And, rest: seq<Token>)
    requires AndOk(a) && EndsEquality(rest)
    ensures ParseAnd(AndTokens(a) + rest) == AndLoop(a, rest)
  {
    match a
    case OneEquality(e) => EqualityComplete(e, rest);
    case Both(l, r) =>
      var tail := [AndAnd] + (EqualityTokens(r) + rest);
      assert AndTokens(a) + rest == AndTokens(l) + tail;
      AndComplete(l, tail);
      EqualityComplete(r, rest);
      assert tail[1..] == EqualityTokens(r) + rest;
  }

  lemma {:induction false} OrComplete(o: Or, rest: seq<Token>)
    requires OrOk(o) && EndsAnd(rest)
    ensures ParseOr(OrTokens(o) + rest) == OrLoop(o, rest)
  {
    match o
    case OneAnd(a) => AndComplete(a, rest);
    case Either(l, r) =>
      var tail := [OrOr] + (AndTokens(r) + rest);
      assert OrTokens(o) + rest == OrTokens(l) + tail;
      OrComplete(l, tail);
      AndComplete(r, rest);
      assert tail[1..] == AndTokens(r) + rest;
  }

  /** The parser accepts exactly the written trees, and returns the tree that was written. */
  lemma ParseIsExact(ts: seq<Token>, tree: Or)
    ensures Parse(ts) == Some(tree) <==> OrOk(tree) && ts == OrTokens(tree)
  {
    OrSound(ts);
    assert OrTokens(tree) + [] == OrTokens(tree);
    if Parse(ts) == Some(tree) {
      assert ParseOr(ts).rest == [];
    }
    if OrOk(tree) { OrComplete(tree, []); }
  }
}
