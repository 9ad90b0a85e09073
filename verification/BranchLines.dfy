/**
 Branch selection on logical lines: the state the libuv checker carries from line to line, well-nested files, and the
 lines a real preprocessor keeps.  PhysicalLines.dfy has the text and the loop over it.
 */
module BranchLines {
  import opened Prelude
  import opened ConditionValues

  /** The checker's verdict on a condition: its value as far as known, and whether the directive itself is reported. */
  datatype Verdict = Verdict(value: Value, flags: bool)

  /** A logical line; T is what is said about its condition. */
  datatype Line<+T> = Code | OpenIf(test: T) | ElseIf(test: T) | ElseLine | EndIf

  datatype Frame = Frame(parent: bool, remaining: bool)

  datatype State = State(active: bool, stack: seq<Frame>)

  /** What is yielded: a code line, or a platform-sensitive directive. */
  datatype Yield = Kept(at: nat) | Flagged(at: nat)

  // --- one line ------------------------------------------------------------------------------------------------------

  function OpenBranch(st: State, v: Value): State {
    State(st.active && v != Some(0), st.stack + [Frame(st.active, st.active && v != Some(1))])
  }

  function NextBranch(st: State, v: Value): State
    requires st.stack != []
  {
    var top := st.stack[|st.stack| - 1];
    State(top.remaining && v != Some(0), st.stack[..|st.stack| - 1] +
      [top.(remaining := top.remaining && v != Some(1))])
  }

  function StepState(st: State, line: Line<Verdict>): State {
    match line
    case Code => st
    case OpenIf(t) => OpenBranch(st, t.value)
    case ElseIf(t) => if st.stack == [] then st else NextBranch(st, t.value)
    case ElseLine =>
      if st.stack == [] then st
      else
        var top := st.stack[|st.stack| - 1];
        State(top.remaining, st.stack[..|st.stack| - 1] + [top.(remaining := false)])
    case EndIf => if st.stack == [] then st else State(st.stack[|st.stack| - 1].parent, st.stack[..|st.stack| - 1])
  }

  function FlagIf(flag: bool, at: nat): seq<Yield> {
    if flag then [Flagged(at)] else []
  }

  function KeepIf(keep: bool, at: nat): seq<Yield> {
    if keep then [Kept(at)] else []
  }

  function StepYield(st: State, line: Line<Verdict>, at: nat): seq<Yield> {
    match line
    case Code => KeepIf(st.active, at)
    case OpenIf(t) => FlagIf(st.active && t.flags, at)
    case ElseIf(t) => FlagIf(st.stack != [] && st.stack[|st.stack| - 1].remaining && t.flags, at)
    case _ => []
  }

  function EndState(st: State, lines: seq<Line<Verdict>>): State
    decreases |lines|
  {
    if lines == [] then st else EndState(StepState(st, lines[0]), lines[1..])
  }

  /** One turn of the loop. */
  method OnLine(active0: bool, stack0: seq<Frame>, line: Line<Verdict>, index: nat)
    returns (active: bool, stack: seq<Frame>, yielded: seq<Yield>)
    ensures State(active, stack) == StepState(State(active0, stack0), line)
    ensures yielded == StepYield(State(active0, stack0), line, index)
  {
    active, stack, yielded := active0, stack0, [];
    match line
    case OpenIf(t) =>
      var parent := active;
      if parent && t.flags {
        yielded := [Flagged(index)];
      }
      stack := stack + [Frame(parent, parent && t.value != Some(1))];
      active := parent && t.value != Some(0);
    case ElseIf(t) =>
      if stack != [] {
        var top := stack[|stack| - 1];
        if top.remaining && t.flags {
          yielded := [Flagged(index)];
        }
        active := top.remaining && t.value != Some(0);
        stack := stack[..|stack| - 1] + [top.(remaining := top.remaining && t.value != Some(1))];
      }
    case ElseLine =>
      if stack != [] {
        var top := stack[|stack| - 1];
        active := top.remaining;
        stack := stack[..|stack| - 1] + [top.(remaining := false)];
      }
    case EndIf =>
      if stack != [] {
        active := stack[|stack| - 1].parent;
        stack := stack[..|stack| - 1];
      }
    case Code =>
      if active {
        yielded := [Kept(index)];
      }
  }

  // --- well-nested files ---------------------------------------------------------------------------------------------

  /** A file as its nesting; T is what is said about each condition. */
  datatype Items<+T> = Nil | CodeLine(next: Items<T>) | Section(test: T, body: Items<T>, rest: Rest<T>, after: Items<T>)

  datatype Rest<+T> = NoMore | Else(body: Items<T>) | Elif(test: T, body: Items<T>, rest: Rest<T>)

  /** A verdict, and whether a real preprocessor takes the condition to be true. */
  datatype Test = Test(verdict: Verdict, truth: bool)

  function Flatten(items: Items<Test>): seq<Line<Verdict>> {
    match items
    case Nil => []
    case CodeLine(next) => [Code] + Flatten(next)
    case Section(t, body, rest, after) => [OpenIf(t.verdict)] + Flatten(body) + FlattenRest(rest) + Flatten(after)
  }

  function FlattenRest(rest: Rest<Test>): seq<Line<Verdict>> {
    match rest
    case NoMore => [EndIf]
    case Else(body) => [ElseLine] + Flatten(body) + [EndIf]
    case Elif(t, body, more) => [ElseIf(t.verdict)] + Flatten(body) + FlattenRest(more)
  }

  /** A real preprocessor keeps the line: in each section it keeps the first branch whose condition is true, or else
      the #else branch; the file starts at line at. */
  predicate Keeps(items: Items<Test>, at: nat, line: nat) {
    match items
    case Nil => false
    case CodeLine(next) => line == at || Keeps(next, at + 1, line)
    case Section(t, body, rest, after) =>
      var restAt := at + 1 + |Flatten(body)|;
      (if t.truth then Keeps(body, at + 1, line) else RestKeeps(rest, restAt, line)) ||
      Keeps(after, restAt + |FlattenRest(rest)|, line)
  }

  predicate RestKeeps(rest: Rest<Test>, at: nat, line: nat) {
    match rest
    case NoMore => false
    case Else(body) => Keeps(body, at + 1, line)
    case Elif(t, body, more) =>
      if t.truth then Keeps(body, at + 1, line) else RestKeeps(more, at + 1 + |Flatten(body)|, line)
  }
}
