/**
 The checker's expression parser: it walks the tokens with a position and computes the value on the way, without
 a tree.  Each method is proved to return the three-valued value of the tree the grammar gives.
 */
module PreprocessorExpression {
  import opened Prelude
  import opened ConditionSyntax
  import opened ConditionValues

  class Expression {
    const tokens: seq<Token>
    const symbols: Symbols
    var position: nat

    constructor (tokens: seq<Token>, symbols: Symbols)
      ensures this.tokens == tokens && this.symbols == symbols && position == 0
    {
      this.tokens, this.symbols, position := tokens, symbols, 0;
    }

    function Ahead(): seq<Token>
      requires position <= |tokens|
      reads this
    {
      tokens[position..]
    }

    predicate Sees(t: Token)
      requires position <= |tokens|
      reads this
    {
      position < |tokens| && tokens[position] == t
    }

    /** Take one token if it is the expected one. */
    method Take(t: Token) returns (ok: bool)
      requires position <= |tokens|
      modifies this`position
      ensures position <= |tokens|
      ensures ok == Peek(old(Ahead()), t)
      ensures position == old(position) + if ok then 1 else 0
      ensures ok ==> Ahead() == old(Ahead())[1..]
    {
      ok := Sees(t);
      if ok {
        position := position + 1;
      }
    }

    method ParseWhole() returns (ok: bool, value: Value)
      requires position <= |tokens|
      modifies this`position
      ensures ok == Parse(old(Ahead())).Some?
      ensures ok ==> value == OrValue(Parse(old(Ahead())).value, symbols)
    {
      ok, value := ParseDisjunction();
      ok := ok && position == |tokens|;
    }

    method ParseDisjunction() returns (ok: bool, value: Value)
      requires position <= |tokens|
      modifies this`position
      ensures old(position) <= position <= |tokens|
      ensures var r := ParseOr(old(Ahead()));
              ok == r.Done? && (ok ==> value == OrValue(r.tree, symbols) && Ahead() == r.rest)
      decreases |tokens| - position, 3
    {
      ghost var start := Ahead();
      ok, value := ParseConjunction();
      if !ok {
        return;
      }
      ghost var tree := OneAnd(ParseAnd(start).tree);
      while Sees(OrOr)
        invariant old(position) < position <= |tokens|
        invariant ParseOr(start) == OrLoop(tree, Ahead()) && value == OrValue(tree, symbols)
        decreases |tokens| - position
      {
        ghost var right := ParseAnd(Ahead()[1..]);
        var _ := Take(OrOr);
        var next;
        ok, next := ParseConjunction();
        if !ok {
          return;
        }
        value := LogicalOr(value, next);
        tree := Either(tree, right.tree);
      }
    }

    method ParseConjunction() returns (ok: bool, value: Value)
      requires position <= |tokens|
      modifies this`position
      ensures old(position) <= position <= |tokens|
      ensures var r := ParseAnd(old(Ahead()));
              ok == r.Done? &&
              (ok ==> value == AndValue(r.tree, symbols) && Ahead() == r.rest && position > old(position))
      decreases |tokens| - position, 2
    {
      ghost var start := Ahead();
      ok, value := ParseComparison();
      if !ok {
        return;
      }
      ghost var tree := OneEquality(ParseEquality(start).tree);
      while Sees(AndAnd)
        invariant old(position) < position <= |tokens|
        invariant ParseAnd(start) == AndLoop(tree, Ahead()) && value == AndValue(tree, symbols)
        decreases |tokens| - position
      {
        ghost var right := ParseEquality(Ahead()[1..]);
        var _ := Take(AndAnd);
        var next;
        ok, next := ParseComparison();
        if !ok {
          return;
        }
        value := LogicalAnd(value, next);
        tree := Both(tree, right.tree);
      }
    }

    method ParseComparison() returns (ok: bool, value: Value)
      requires position <= |tokens|
      modifies this`position
      ensures old(position) <= position <= |tokens|
      ensures var r := ParseEquality(old(Ahead()));
              ok == r.Done? &&
              (ok ==> value == EqualityValue(r.tree, symbols) && Ahead() == r.rest && position > old(position))
      decreases |tokens| - position, 1
    {
      ghost var start := Ahead();
      ok, value := ParsePrimary();
      if !ok {
        return;
      }
      ghost var tree := OneUnary(ParseUnary(start).tree);
      while Sees(EqEq) || Sees(NotEq)
        invariant old(position) < position <= |tokens|
        invariant ParseEquality(start) == EqualityLoop(tree, Ahead()) && value == EqualityValue(tree, symbols)
        decreases |tokens| - position
      {
        ghost var right := ParseUnary(Ahead()[1..]);
        var equal := tokens[position] == EqEq;
        var _ := Take(tokens[position]);
        var next;
        ok, next := ParsePrimary();
        if !ok {
          return;
        }
        value := if value.None? || next.None? then None else Some(Flag((value.value == next.value) == equal));
        tree := Compare(tree, equal, right.tree);
      }
    }

    method ParsePrimary() returns (ok: bool, value: Value)
      requires position <= |tokens|
      modifies this`position
      ensures old(position) <= position <= |tokens|
      ensures var r := ParseUnary(old(Ahead()));
              ok == r.Done? &&
              (ok ==> value == UnaryValue(r.tree, symbols) && Ahead() == r.rest && position > old(position))
      decreases |tokens| - position, 0
    {
      value := None;
      if position >= |tokens| {
        return false, None;
      }
      var token := tokens[position];
      position := position + 1;
      assert Ahead() == old(Ahead())[1..];
      if token == Not {
        ok, value := ParsePrimary();
        value := LogicalNot(value);
      } else if token == Word(DEFINED) {
        ok, value := ParseDefinedTest();
      } else if token == Open {
        ok, value := ParseDisjunction();
        if ok {
          ok := Take(Close);
        }
      } else if token.Number? {
        ok, value := true, Some(Decimal(token.digits));
      } else if token.Word? {
        ok, value := true, Lookup(symbols, token.name);
      } else {
        ok := false;
      }
    }

    method ParseDefinedTest() returns (ok: bool, value: Value)
      requires position <= |tokens|
      modifies this`position
      ensures old(position) <= position <= |tokens|
      ensures var r := ParseDefined(old(Ahead()));
              ok == r.Done? && (ok ==> value == UnaryValue(r.tree, symbols) && Ahead() == r.rest)
    {
      var parens := Take(Open);
      if position >= |tokens| || !tokens[position].Word? {
        return false, None;
      }
      value := Lookup(symbols, tokens[position].name);
      position := position + 1;
      ok := true;
      if parens {
        ok := Take(Close);
      }
    }
  }
}
