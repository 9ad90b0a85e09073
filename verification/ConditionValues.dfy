/**
 The value of a condition: three-valued under a partial symbol table, and as a real preprocessor computes it.
 What is known under the table stays known and is the real value in every environment that agrees with the table.
 */
module ConditionValues {
  import opened Prelude
  import opened ConditionSyntax

  /** None is UNKNOWN. */
  type Value = Option<int>

  type Symbols = map<string, int>

  function Flag(b: bool): int {
    if b then 1 else 0
  }

  function LogicalNot(v: Value): Value {
    if v.None? then None else Some(Flag(v.value == 0))
  }

  function LogicalAnd(l: Value, r: Value): Value {
    if l == Some(0) || r == Some(0) then Some(0) else if l.None? || r.None? then None else Some(1)
  }

  function LogicalOr(l: Value, r: Value): Value {
    if (l.Some? && l.value != 0) || (r.Some? && r.value != 0) then Some(1) else if l.None? || r.None? then None
    else Some(0)
  }

  function CompareValues(l: Value, equal: bool, r: Value): Value {
    if l.None? || r.None? then None else Some(Flag((l.value == r.value) == equal))
  }

  function Lookup(symbols: Symbols, name: string): Value {
    if name in symbols then Some(symbols[name]) else None
  }

  // --- literals: the checker reads decimal, a preprocessor reads a leading zero as octal -----------------------------

  function Decimal(digits: seq<digit>): nat {
    if digits == [] then 0 else Decimal(digits[..|digits| - 1]) * 10 + digits[|digits| - 1] as nat
  }

  function Octal(digits: seq<digit>): nat {
    if digits == [] then 0 else Octal(digits[..|digits| - 1]) * 8 + digits[|digits| - 1] as nat
  }

  predicate IsOctal(digits: seq<digit>) {
    |digits| > 1 && digits[0] == 0
  }

  /** The value of an integer constant in the preprocessor. */
  function RealLiteral(digits: seq<digit>): nat {
    if IsOctal(digits) then Octal(digits) else Decimal(digits)
  }

  lemma {:induction false} OctalIsSmaller(digits: seq<digit>)
    ensures Octal(digits) <= Decimal(digits)
    ensures Octal(digits) == Decimal(digits) <==> digits == [] || Decimal(digits[..|digits| - 1]) == 0
  {
    if digits == [] {
    } else {
      OctalIsSmaller(digits[..|digits| - 1]);
    }
  }

  // --- writing a number ----------------------------------------------------------------------------------------------

  function DigitsOf(n: nat): seq<digit> {
    if n < 10 then [n] else DigitsOf(n / 10) + [n % 10]
  }

  /** Every number has a spelling without a leading zero, which reads the same both ways. */
  lemma {:induction false} PlainSpelling(n: nat)
    ensures Decimal(DigitsOf(n)) == n && !IsOctal(DigitsOf(n)) && RealLiteral(DigitsOf(n)) == n
    ensures DigitsOf(n) != [] && (n > 0 ==> DigitsOf(n)[0] != 0)
  {
    var s := DigitsOf(n);
    if n < 10 {
      assert s[..0] == [];
    } else {
      PlainSpelling(n / 10);
      assert s[..|s| - 1] == DigitsOf(n / 10);
    }
  }

  /** The two readings of a literal agree exactly when it has no leading zero or denotes a single digit. */
  lemma LiteralsAgree(digits: seq<digit>)
    ensures Decimal(digits) == RealLiteral(digits) <==>
            !IsOctal(digits) || Decimal(digits) == digits[|digits| - 1]
  {
    OctalIsSmaller(digits);
  }

  // --- three-valued evaluation ---------------------------------------------------------------------------------------

  function UnaryValue(u: Unary, symbols: Symbols): Value {
    match u
    case Negation(x) => LogicalNot(UnaryValue(x, symbols))
    case DefinedTest(s, _) => Lookup(symbols, s)
    case Group(x) => OrValue(x, symbols)
    case Literal(d) => Some(Decimal(d))
    case Symbol(s) => Lookup(symbols, s)
  }

  function EqualityValue(e: Equality, symbols: Symbols): Value {
    match e
    case OneUnary(u) => UnaryValue(u, symbols)
    case Compare(l, equal, r) => CompareValues(EqualityValue(l, symbols), equal, UnaryValue(r, symbols))
  }

  function AndValue(a: And, symbols: Symbols): Value {
    match a
    case OneEquality(e) => EqualityValue(e, symbols)
    case Both(l, r) => LogicalAnd(AndValue(l, symbols), EqualityValue(r, symbols))
  }

  function OrValue(o: Or, symbols: Symbols): Value {
    match o
    case OneAnd(a) => AndValue(a, symbols)
    case Either(l, r) => LogicalOr(OrValue(l, symbols), AndValue(r, symbols))
  }

  // --- real evaluation -----------------------------------------------------------------------------------------------

  /** The macros of a compilation: None is undefined. */
  type Environment = string -> Option<int>

  /** An undefined name in a condition is 0. */
  function ValueIn(env: Environment, name: string): int {
    if env(name).Some? then env(name).value else 0
  }

  function DefinedIn(env: Environment, name: string): int {
    Flag(env(name).Some?)
  }

  function UnaryReal(u: Unary, env: Environment): int {
    match u
    case Negation(x) => Flag(UnaryReal(x, env) == 0)
    case DefinedTest(s, _) => DefinedIn(env, s)
    case Group(x) => OrReal(x, env)
    case Literal(d) => RealLiteral(d)
    case Symbol(s) => ValueIn(env, s)
  }

  function EqualityReal(e: Equality, env: Environment): int {
    match e
    case OneUnary(u) => UnaryReal(u, env)
    case Compare(l, equal, r) => Flag((EqualityReal(l, env) == UnaryReal(r, env)) == equal)
  }

  function AndReal(a: And, env: Environment): int {
    match a
    case OneEquality(e) => EqualityReal(e, env)
    case Both(l, r) => Flag(AndReal(l, env) != 0 && EqualityReal(r, env) != 0)
  }

  function OrReal(o: Or, env: Environment): int {
    match o
    case OneAnd(a) => AndReal(a, env)
    case Either(l, r) => Flag(OrReal(l, env) != 0 || AndReal(r, env) != 0)
  }

  // --- refinement ----------------------------------------------------------------------------------------------------

  predicate Refines(more: Symbols, symbols: Symbols) {
    forall s :: s in symbols ==> s in more && more[s] == symbols[s]
  }

  /** More knowledge turns an unknown into anything and a known value into itself. */
  predicate Retained(v: Value, w: Value) {
    v.Some? ==> w == v
  }

  lemma {:induction false} UnaryKept(u: Unary, symbols: Symbols, more: Symbols)
    requires Refines(more, symbols)
    ensures Retained(UnaryValue(u, symbols), UnaryValue(u, more))
  {
    match u
    case Negation(x) => UnaryKept(x, symbols, more);
    case Group(x) => KnownIsKept(x, symbols, more);
    case _ =>
  }

  lemma {:induction false} EqualityKept(e: Equality, symbols: Symbols, more: Symbols)
    requires Refines(more, symbols)
    ensures Retained(EqualityValue(e, symbols), EqualityValue(e, more))
  {
    match e
    case OneUnary(u) => UnaryKept(u, symbols, more);
    case Compare(l, _, r) => EqualityKept(l, symbols, more); UnaryKept(r, symbols, more);
  }

  lemma {:induction false} AndKept(a: And, symbols: Symbols, more: Symbols)
    requires Refines(more, symbols)
    ensures Retained(AndValue(a, symbols), AndValue(a, more))
  {
    match a
    case OneEquality(e) => EqualityKept(e, symbols, more);
    case Both(l, r) => AndKept(l, symbols, more); EqualityKept(r, symbols, more);
  }

  /** Refining the symbol table never changes a known value. */
  lemma {:induction false} KnownIsKept(o: Or, symbols: Symbols, more: Symbols)
    requires Refines(more, symbols)
    ensures Retained(OrValue(o, symbols), OrValue(o, more))
  {
    match o
    case OneAnd(a) => AndKept(a, symbols, more);
    case Either(l, r) => KnownIsKept(l, symbols, more); AndKept(r, symbols, more);
  }

  // --- known values are real -----------------------------------------------------------------------------------------

  /** The table says of a macro that it is defined as 1, or that it is undefined. */
  predicate AgreesOn(env: Environment, symbols: Symbols, s: string)
    requires s in symbols
  {
    (symbols[s] == 1 && env(s) == Some(1)) || (symbols[s] == 0 && env(s) == None)
  }

  predicate Agrees(env: Environment, symbols: Symbols) {
    forall s :: s in symbols ==> AgreesOn(env, symbols, s)
  }

  /** Every literal reads the same in decimal and in the preprocessor. */
  predicate UnaryPlain(u: Unary) {
    match u
    case Negation(x) => UnaryPlain(x)
    case Group(x) => OrPlain(x)
    case Literal(d) => !IsOctal(d) || Decimal(d) == d[|d| - 1]
    case _ => true
  }

  predicate EqualityPlain(e: Equality) {
    match e
    case OneUnary(u) => UnaryPlain(u)
    case Compare(l, _, r) => EqualityPlain(l) && UnaryPlain(r)
  }

  predicate AndPlain(a: And) {
    match a
    case OneEquality(e) => EqualityPlain(e)
    case Both(l, r) => AndPlain(l) && EqualityPlain(r)
  }

  predicate OrPlain(o: Or) {
    match o
    case OneAnd(a) => AndPlain(a)
    case Either(l, r) => OrPlain(l) && AndPlain(r)
  }

  predicate Tells(v: Value, actual: int) {
    v.Some? ==> v.value == actual
  }

  lemma {:induction false} UnaryKnown(u: Unary, symbols: Symbols, env: Environment)
    requires Agrees(env, symbols) && UnaryPlain(u)
    ensures Tells(UnaryValue(u, symbols), UnaryReal(u, env))
  {
    match u
    case Negation(x) => UnaryKnown(x, symbols, env);
    case Group(x) => KnownIsReal(x, symbols, env);
    case Literal(d) => LiteralsAgree(d);
    case _ =>
  }

  lemma {:induction false} EqualityKnown(e: Equality, symbols: Symbols, env: Environment)
    requires Agrees(env, symbols) && EqualityPlain(e)
    ensures Tells(EqualityValue(e, symbols), EqualityReal(e, env))
  {
    match e
    case OneUnary(u) => UnaryKnown(u, symbols, env);
    case Compare(l, _, r) => EqualityKnown(l, symbols, env); UnaryKnown(r, symbols, env);
  }

  lemma {:induction false} AndKnown(a: And, symbols: Symbols, env: Environment)
    requires Agrees(env, symbols) && AndPlain(a)
    ensures Tells(AndValue(a, symbols), AndReal(a, env))
  {
    match a
    case OneEquality(e) => EqualityKnown(e, symbols, env);
    case Both(l, r) => AndKnown(l, symbols, env); EqualityKnown(r, symbols, env);
  }

  /** A known value is the value in every environment that agrees with the table. */
  lemma {:induction false} KnownIsReal(o: Or, symbols: Symbols, env: Environment)
    requires Agrees(env, symbols) && OrPlain(o)
    ensures Tells(OrValue(o, symbols), OrReal(o, env))
  {
    match o
    case OneAnd(a) => AndKnown(a, symbols, env);
    case Either(l, r) => KnownIsReal(l, symbols, env); AndKnown(r, symbols, env);
  }

  lemma Digits1(a: digit)
    ensures Decimal([a]) == a && Octal([a]) == a
  {
    assert [a][..0] == [];
  }

  lemma Digits3(a: digit, b: digit, c: digit)
    ensures Decimal([a, b, c]) == a as int * 100 + b as int * 10 + c &&
            Octal([a, b, c]) == a as int * 64 + b as int * 8 + c
  {
    Digits1(a);
    assert [a, b][..1] == [a];
    assert Decimal([a, b]) == a as int * 10 + b && Octal([a, b]) == a as int * 8 + b;
    assert [a, b, c][..2] == [a, b];
  }

  /** Without plain literals it is not: the checker takes 010 == 8 to be false, and it is true. */
  lemma OctalMisleads(env: Environment) returns (o: Or)
    ensures OrTokens(o) == [Number([0, 1, 0]), EqEq, Number([8])]
    ensures OrValue(o, map[]) == Some(0) && OrReal(o, env) == 1
  {
    var ten: seq<digit>, eight: seq<digit> := [0, 1, 0], [8];
    Digits3(0, 1, 0);
    Digits1(8);
    o := OneAnd(OneEquality(Compare(OneUnary(Literal(ten)), true, Literal(eight))));
  }
}
