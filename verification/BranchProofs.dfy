/** Branch selection against the lines a preprocessor keeps, for verdicts whose known values are true. */
module BranchProofs {
  import opened Prelude
  import opened BranchLines

  /** The line is selected, read off the nesting. */
  predicate Shows(items: Items<Test>, active: bool, at: nat, line: nat) {
    match items
    case Nil => false
    case CodeLine(next) => (active && line == at) || Shows(next, active, at + 1, line)
    case Section(t, body, rest, after) =>
      var v, restAt := t.verdict.value, at + 1 + |Flatten(body)|;
      Shows(body, active && v != Some(0), at + 1, line) || RestShows(rest, active && v != Some(1), restAt, line) ||
      Shows(after, active, restAt + |FlattenRest(rest)|, line)
  }

  predicate RestShows(rest: Rest<Test>, remaining: bool, at: nat, line: nat) {
    match rest
    case NoMore => false
    case Else(body) => Shows(body, remaining, at + 1, line)
    case Elif(t, body, more) =>
      Shows(body, remaining && t.verdict.value != Some(0), at + 1, line) ||
      RestShows(more, remaining && t.verdict.value != Some(1), at + 1 + |Flatten(body)|, line)
  }

  // --- the stack machine follows the nesting -------------------------------------------------------------------------

  /** Running the lines keeps the line. */
  predicate Finds(st: State, lines: seq<Line<Verdict>>, at: nat, line: nat)
    decreases |lines|
  {
    lines != [] && ((lines[0] == Code && st.active && line == at) ||
      Finds(StepState(st, lines[0]), lines[1..], at + 1, line))
  }

  lemma {:induction false} EndOn(st: State, a: seq<Line<Verdict>>, b: seq<Line<Verdict>>, at: nat, line: nat)
    ensures EndState(st, a + b) == EndState(EndState(st, a), b)
    ensures Finds(st, a + b, at, line) <==> Finds(st, a, at, line) || Finds(EndState(st, a), b, at + |a|, line)
    decreases |a|
  {
    if a == [] {
      assert a + b == b;
    } else {
      assert (a + b)[1..] == a[1..] + b;
      EndOn(StepState(st, a[0]), a[1..], b, at + 1, line);
    }
  }

  lemma FirstLine(st: State, l: Line<Verdict>, rest: seq<Line<Verdict>>, at: nat, line: nat)
    ensures EndState(st, [l] + rest) == EndState(StepState(st, l), rest)
    ensures Finds(st, [l] + rest, at, line) <==>
            (l == Code && st.active && line == at) || Finds(StepState(st, l), rest, at + 1, line)
  {
    assert ([l] + rest)[1..] == rest;
  }

  /** A directive, then a body that leaves the state alone, then what follows. */
  lemma ThreeParts(st: State, l: Line<Verdict>, b: seq<Line<Verdict>>, c: seq<Line<Verdict>>, at: nat, line: nat)
    requires l != Code && EndState(StepState(st, l), b) == StepState(st, l)
    ensures EndState(st, [l] + b + c) == EndState(StepState(st, l), c)
    ensures Finds(st, [l] + b + c, at, line) <==>
            Finds(StepState(st, l), b, at + 1, line) || Finds(StepState(st, l), c, at + 1 + |b|, line)
  {
    FirstLine(st, l, b, at, line);
    EndOn(st, [l] + b, c, at, line);
  }

  /** A well-nested file leaves the state as it was and shows the lines its nesting says. */
  lemma {:induction false} MachineShows(items: Items<Test>, st: State, at: nat, line: nat)
    ensures EndState(st, Flatten(items)) == st
    ensures Finds(st, Flatten(items), at, line) <==> Shows(items, st.active, at, line)
  {
    match items
    case Nil =>
    case CodeLine(next) =>
      MachineShows(next, st, at + 1, line);
      FirstLine(st, Code, Flatten(next), at, line);
    case Section(t, body, rest, after) =>
      var st1 := OpenBranch(st, t.verdict.value);
      var restAt := at + 1 + |Flatten(body)|;
      MachineShows(body, st1, at + 1, line);
      MachineShowsRest(rest, st1.active, st.stack, st1.stack[|st.stack|], restAt, line);
      MachineShows(after, st, restAt + |FlattenRest(rest)|, line);
      ThreeParts(st, OpenIf(t.verdict), Flatten(body), FlattenRest(rest), at, line);
      EndOn(st, [OpenIf(t.verdict)] + Flatten(body) + FlattenRest(rest), Flatten(after), at, line);
  }

  lemma {:induction false} MachineShowsRest(rest: Rest<Test>, active: bool, below: seq<Frame>, top: Frame, at: nat,
                                            line: nat)
    ensures EndState(State(active, below + [top]), FlattenRest(rest)) == State(top.parent, below)
    ensures Finds(State(active, below + [top]), FlattenRest(rest), at, line) <==>
            RestShows(rest, top.remaining, at, line)
  {
    var st := State(active, below + [top]);
    match rest
    case NoMore => FirstLine(st, EndIf, [], at, line);
    case Else(body) =>
      var st1 := StepState(st, ElseLine);
      MachineShows(body, st1, at + 1, line);
      ThreeParts(st, ElseLine, Flatten(body), [EndIf], at, line);
      FirstLine(st1, EndIf, [], at + 1 + |Flatten(body)|, line);
    case Elif(t, body, more) =>
      var st1 := StepState(st, ElseIf(t.verdict));
      MachineShows(body, st1, at + 1, line);
      MachineShowsRest(more, st1.active, below, st1.stack[|below|], at + 1 + |Flatten(body)|, line);
      ThreeParts(st, ElseIf(t.verdict), Flatten(body), FlattenRest(more), at, line);
  }

  lemma FileShows(items: Items<Test>, line: nat)
    ensures Finds(State(true, []), Flatten(items), 0, line) <==> Shows(items, true, 0, line)
  {
    MachineShows(items, State(true, []), 0, line);
  }

  // --- soundness -----------------------------------------------------------------------------------------------------

  /** A value known to be 0 or 1 is the truth. */
  predicate Fair(t: Test) {
    (t.verdict.value == Some(0) ==> !t.truth) && (t.verdict.value == Some(1) ==> t.truth)
  }

  predicate AllFair(items: Items<Test>) {
    match items
    case Nil => true
    case CodeLine(next) => AllFair(next)
    case Section(t, body, rest, after) => Fair(t) && AllFair(body) && RestFair(rest) && AllFair(after)
  }

  predicate RestFair(rest: Rest<Test>) {
    match rest
    case NoMore => true
    case Else(body) => AllFair(body)
    case Elif(t, body, more) => Fair(t) && AllFair(body) && RestFair(more)
  }

  lemma {:induction false} ShowsCovers(items: Items<Test>, at: nat, line: nat)
    requires AllFair(items) && Keeps(items, at, line)
    ensures Shows(items, true, at, line)
  {
    match items
    case CodeLine(next) => if line != at { ShowsCovers(next, at + 1, line); }
    case Section(t, body, rest, after) =>
      var restAt := at + 1 + |Flatten(body)|;
      if Keeps(after, restAt + |FlattenRest(rest)|, line) {
        ShowsCovers(after, restAt + |FlattenRest(rest)|, line);
      } else if t.truth {
        ShowsCovers(body, at + 1, line);
      } else {
        RestShowsCovers(rest, restAt, line);
      }
  }

  lemma {:induction false} RestShowsCovers(rest: Rest<Test>, at: nat, line: nat)
    requires RestFair(rest) && RestKeeps(rest, at, line)
    ensures RestShows(rest, true, at, line)
  {
    match rest
    case Else(body) => ShowsCovers(body, at + 1, line);
    case Elif(t, body, more) =>
      if t.truth { ShowsCovers(body, at + 1, line); } else { RestShowsCovers(more, at + 1 + |Flatten(body)|, line); }
  }

  /** With fair verdicts every line the preprocessor keeps is selected. */
  lemma FairIsSound(items: Items<Test>, line: nat)
    requires AllFair(items) && Keeps(items, 0, line)
    ensures Finds(State(true, []), Flatten(items), 0, line)
  {
    ShowsCovers(items, 0, line);
    FileShows(items, line);
  }

  // --- exactness -----------------------------------------------------------------------------------------------------

  predicate Decided(v: Verdict) {
    v.value == Some(0) || v.value == Some(1)
  }

  /** Every value is known to be 0 or 1. */
  predicate AllDecided(items: Items<Test>) {
    match items
    case Nil => true
    case CodeLine(next) => AllDecided(next)
    case Section(t, body, rest, after) =>
      Decided(t.verdict) && AllDecided(body) && RestDecided(rest) && AllDecided(after)
  }

  predicate RestDecided(rest: Rest<Test>) {
    match rest
    case NoMore => true
    case Else(body) => AllDecided(body)
    case Elif(t, body, more) => Decided(t.verdict) && AllDecided(body) && RestDecided(more)
  }

  lemma {:induction false} SkippedShowsNothing(items: Items<Test>, at: nat, line: nat)
    ensures !Shows(items, false, at, line)
  {
    match items
    case Nil =>
    case CodeLine(next) => SkippedShowsNothing(next, at + 1, line);
    case Section(t, body, rest, after) =>
      SkippedShowsNothing(body, at + 1, line);
      SkippedRestShowsNothing(rest, at + 1 + |Flatten(body)|, line);
      SkippedShowsNothing(after, at + 1 + |Flatten(body)| + |FlattenRest(rest)|, line);
  }

  lemma {:induction false} SkippedRestShowsNothing(rest: Rest<Test>, at: nat, line: nat)
    ensures !RestShows(rest, false, at, line)
  {
    match rest
    case NoMore =>
    case Else(body) => SkippedShowsNothing(body, at + 1, line);
    case Elif(t, body, more) =>
      SkippedShowsNothing(body, at + 1, line);
      SkippedRestShowsNothing(more, at + 1 + |Flatten(body)|, line);
  }

  lemma {:induction false} ShownIsKept(items: Items<Test>, at: nat, line: nat)
    requires AllFair(items) && AllDecided(items) && Shows(items, true, at, line)
    ensures Keeps(items, at, line)
  {
    match items
    case CodeLine(next) => if line != at { ShownIsKept(next, at + 1, line); }
    case Section(t, body, rest, after) =>
      var restAt := at + 1 + |Flatten(body)|;
      SkippedShowsNothing(body, at + 1, line);
      SkippedRestShowsNothing(rest, restAt, line);
      if Shows(after, true, restAt + |FlattenRest(rest)|, line) {
        ShownIsKept(after, restAt + |FlattenRest(rest)|, line);
      } else if t.truth {
        ShownIsKept(body, at + 1, line);
      } else {
        RestShownIsKept(rest, restAt, line);
      }
  }

  lemma {:induction false} RestShownIsKept(rest: Rest<Test>, at: nat, line: nat)
    requires RestFair(rest) && RestDecided(rest) && RestShows(rest, true, at, line)
    ensures RestKeeps(rest, at, line)
  {
    match rest
    case Else(body) => ShownIsKept(body, at + 1, line);
    case Elif(t, body, more) =>
      var restAt := at + 1 + |Flatten(body)|;
      SkippedShowsNothing(body, at + 1, line);
      SkippedRestShowsNothing(more, restAt, line);
      if t.truth { ShownIsKept(body, at + 1, line); } else { RestShownIsKept(more, restAt, line); }
  }

  /** With fair and decided verdicts exactly the lines the preprocessor keeps are selected. */
  lemma DecidedIsExact(items: Items<Test>, line: nat)
    requires AllFair(items) && AllDecided(items)
    ensures Finds(State(true, []), Flatten(items), 0, line) <==> Keeps(items, 0, line)
  {
    FileShows(items, line);
    if Shows(items, true, 0, line) { ShownIsKept(items, 0, line); }
    if Keeps(items, 0, line) { ShowsCovers(items, 0, line); }
  }
}
