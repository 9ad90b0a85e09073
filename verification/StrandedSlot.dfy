/**
 Why NoStranding.dfy excludes removing a slot between the claim and the publication of a start
 on it.  The publish guard compares generations, and a re-added slot starts again at
 generation 1, so a start claimed for the removed slot can publish into its successor.  The
 exclusion is exact: from every state in which such a removal happens, the session can go on
 to strand the slot.
 */
module StrandedSlot {
  import opened Prelude
  import opened ClientSlots
  import opened SlotWorld
  import opened SlotFrames
  import opened SlotInvariants
  import opened NoStranding

  // --- executions ---------------------------------------------------------------------------

  lemma ExecOne(w: World, step: Step)
    requires Enabled(w, step)
    ensures Exec(w, [step]) == Some(Apply(w, step))
  {
    assert [step][1..] == [];
  }

  lemma {:induction false} ExecConcat(w: World, a: seq<Step>, b: seq<Step>)
    requires Exec(w, a).Some?
    ensures Exec(w, a + b) == Exec(Exec(w, a).value, b)
    decreases |a|
  {
    if a == [] {
      assert a + b == b;
    } else {
      assert (a + b)[1..] == a[1..] + b;
      ExecConcat(Apply(w, a[0]), a[1..], b);
    }
  }

  /** `steps` followed by one more step. */
  lemma ExecAnd(w: World, steps: seq<Step>, w1: World, step: Step)
    requires Exec(w, steps) == Some(w1) && Enabled(w1, step)
    ensures Exec(w, steps + [step]) == Some(Apply(w1, step))
  {
    ExecConcat(w, steps, [step]);
    ExecOne(w1, step);
  }

  // --- a slot whose predecessor's start is still under way ----------------------------------------

  /** Activation `late` was claimed for an earlier slot `i`; nobody is starting the present one. */
  ghost predicate Doomed(w: World, i: nat, late: nat) {
    Basics(w) && w.gateOpen && i < |w.sh.slots| && !w.sh.slots[i].retryFailed &&
    late in w.threads && w.threads[late].index == i && w.threads[late].phase.Starting? &&
    w.threads[late].phase.key.numericId != w.sh.slots[i].numericId &&
    w.threads[late].phase.key.generation >= w.sh.slots[i].generation &&
    forall tid :: tid in w.threads ==> !StartsFor(w.threads[tid], i, SlotKey(w.sh.slots[i]))
  }

  /** Callers that still owe slot `i` a start. */
  ghost function Owing(w: World, i: nat): set<nat> {
    set tid | tid in w.threads && Owes(w.threads[tid], i)
  }

  /** Remove the slot and add it again. */
  lemma Replace(w: World, i: nat, late: nat) returns (steps: seq<Step>, w': World)
    requires Basics(w) && w.gateOpen && MayShrink(w.sh, i)
    requires late in w.threads && w.threads[late].index == i && w.threads[late].phase.Starting?
    ensures Exec(Apply(w, AdminStep(ShrinkAt(i))), steps) == Some(w')
    ensures Doomed(w', i, late) && w'.threads[late] == w.threads[late]
    ensures w'.sh.slots[i] == FreshSlot(w.sh.nextNumericId)
    ensures w'.sh.nextStartClaim == w.sh.nextStartClaim
    ensures w.nextThread in w'.threads && w'.threads[w.nextThread] == Thread(i, Plain, Called)
    ensures w'.threads.Keys == w.threads.Keys + {w.nextThread}
  {
    var w1 := Apply(w, AdminStep(ShrinkAt(i)));
    StepKeepsBasics(w, AdminStep(ShrinkAt(i)));
    var grow := AdminStep(GrowTo(i + 1, true));
    StepKeepsBasics(w1, grow);
    ExecOne(w1, grow);
    steps, w' := [grow], Apply(w1, grow);
    GrownSlot(w1.sh, i + 1, true, i);
    forall tid | tid in w'.threads ensures !StartsFor(w'.threads[tid], i, SlotKey(w'.sh.slots[i])) {
      if tid in w.threads { assert KeyOk(w.threads[tid], w.sh.nextNumericId); }
    }
    assert w1.nextThread !in w.threads;
  }

  lemma ReconnectOnce(w: World, i: nat, late: nat)
    requires Doomed(w, i, late) && w.sh.slots[i].generation < w.threads[late].phase.key.generation
    ensures var w' := Apply(w, AdminStep(ReconnectAt(i)));
            Doomed(w', i, late) && w'.threads[late] == w.threads[late] &&
            w'.sh.slots[i].generation == w.sh.slots[i].generation + 1 &&
            w'.sh.nextStartClaim == w.sh.nextStartClaim &&
            w'.threads == w.threads[w.nextThread := Thread(i, Plain, Called)] && w.nextThread !in w.threads
  {
    var w' := Apply(w, AdminStep(ReconnectAt(i)));
    StepKeepsBasics(w, AdminStep(ReconnectAt(i)));
    forall tid | tid in w'.threads ensures !StartsFor(w'.threads[tid], i, SlotKey(w'.sh.slots[i])) {
      if tid in w.threads { assert KeyOk(w.threads[tid], w.sh.nextNumericId); }
    }
    assert KeyOk(w.threads[late], w.sh.nextNumericId);
  }

  /** Reconnect the new slot until its generation has caught up with the late start. */
  lemma {:induction false} CatchUp(w: World, i: nat, late: nat, first: nat) returns (steps: seq<Step>, w': World)
    requires Doomed(w, i, late) && first in w.threads && w.threads[first] == Thread(i, Plain, Called)
    ensures Exec(w, steps) == Some(w')
    ensures Doomed(w', i, late) && w'.threads[late] == w.threads[late]
    ensures first in w'.threads && w'.threads[first] == w.threads[first]
    ensures w'.sh.slots[i].generation == w.threads[late].phase.key.generation
    ensures w'.sh.nextStartClaim == w.sh.nextStartClaim
    ensures |w'.threads| <= |w.threads| + (w.threads[late].phase.key.generation - w.sh.slots[i].generation)
    decreases w.threads[late].phase.key.generation - w.sh.slots[i].generation
  {
    if w.sh.slots[i].generation == w.threads[late].phase.key.generation {
      steps, w' := [], w;
    } else {
      var step := AdminStep(ReconnectAt(i));
      ReconnectOnce(w, i, late);
      var w1 := Apply(w, step);
      var rest;
      rest, w' := CatchUp(w1, i, late, first);
      steps := [step] + rest;
      ExecOne(w, step);
      ExecConcat(w, [step], rest);
    }
  }

  /** The slot is up at its present identity. */
  ghost predicate SlotUp(w: World, i: nat) {
    i < |w.sh.slots| && w.sh.slots[i].connected && w.sh.slots[i].conn != 0 && w.sh.slots[i].retryToken == 0
  }

  /** Taking a claim: the start is now under way. */
  lemma BeginStart(w: World, i: nat, late: nat, first: nat) returns (steps: seq<Step>, w': World)
    requires Doomed(w, i, late) && first in w.threads && w.threads[first] == Thread(i, Plain, Called)
    requires w.sh.nextStartClaim < U64_MAX
    ensures Exec(w, steps) == Some(w') && Basics(w') && w'.gateOpen && first != late
    ensures w'.threads == w.threads[first := Thread(i, Plain, Starting(w.sh.nextStartClaim, SlotKey(w.sh.slots[i])))]
    ensures |w'.sh.slots| == |w.sh.slots| && SlotKey(w'.sh.slots[i]) == SlotKey(w.sh.slots[i])
    ensures !w'.sh.slots[i].retryFailed && w'.sh.slots[i].retryToken == 0
    ensures w'.sh.nextStartClaim == w.sh.nextStartClaim + 1
  {
    var enter, claim := ThreadStep(first, Enter), ThreadStep(first, Claim(false));
    var w1 := Apply(w, enter);
    StepKeepsBasics(w, enter);
    assert w1.threads[first] == Thread(i, Plain, Entered);
    StepKeepsBasics(w1, claim);
    ExecOne(w, enter);
    ExecAnd(w, [enter], w1, claim);
    steps, w' := [enter] + [claim], Apply(w1, claim);
  }

  /** The connect callback of a connection, from its hello on. */
  lemma ComeUp(w: World, conn: nat) returns (steps: seq<Step>, w': World)
    requires Basics(w) && ConnEnabled(w, conn) && conn !in w.greeted && w.gateOpen
    ensures Exec(w, steps) == Some(w') && Basics(w')
    ensures w' == w.(greeted := w.greeted + {conn},
            sh := SlotConnected(w.sh, w.info[conn].index, conn, w.info[conn].key))
  {
    var enter, leave, up := HelloStep(conn, EnterHello), HelloStep(conn, LeaveHello), ConnStep(conn, OnConnected);
    HelloOver(w, conn);
    var w1, w2 := Apply(w, enter), w.(greeted := w.greeted + {conn});
    StepKeepsBasics(w, enter);
    StepKeepsBasics(w1, leave);
    StepKeepsBasics(w2, up);
    ExecOne(w, enter);
    ExecAnd(w, [enter], w1, leave);
    ExecAnd(w, [enter] + [leave], w2, up);
    steps, w' := [enter] + [leave] + [up], Apply(w2, up);
  }

  /** One owed start runs to completion and connects. */
  lemma FirstStart(w: World, i: nat, late: nat, first: nat) returns (steps: seq<Step>, w': World)
    requires Doomed(w, i, late) && first in w.threads && w.threads[first] == Thread(i, Plain, Called)
    requires w.sh.nextStartClaim < U64_MAX
    ensures Exec(w, steps) == Some(w')
    ensures Doomed(w', i, late) && w'.threads[late] == w.threads[late]
    ensures SlotUp(w', i) && w'.sh.slots[i].generation == w.sh.slots[i].generation
    ensures w'.threads.Keys == w.threads.Keys && w'.sh.nextStartClaim == w.sh.nextStartClaim + 1
  {
    var begin, w1 := BeginStart(w, i, late, first);
    var publish := ThreadStep(first, PublishConn);
    var w2 := Apply(w1, publish);
    StepKeepsBasics(w1, publish);
    ExecAnd(w, begin, w1, publish);
    assert w2.sh.slots[i].conn == w1.nextRef && w1.nextRef !in w1.info;
    var up;
    up, w' := ComeUp(w2, w1.nextRef);
    ExecConcat(w, begin + [publish], up);
    steps := begin + [publish] + up;
    forall tid | tid in w'.threads ensures !StartsFor(w'.threads[tid], i, SlotKey(w'.sh.slots[i])) {
      if tid != first { assert w'.threads[tid] == w.threads[tid]; }
    }
  }

  /** An owed start that finds the slot up takes a claim and goes home. */
  lemma PayOne(w: World, i: nat, late: nat, tid: nat) returns (steps: seq<Step>, w': World)
    requires Doomed(w, i, late) && SlotUp(w, i) && tid in w.threads && Owes(w.threads[tid], i)
    requires w.sh.nextStartClaim < U64_MAX
    ensures Exec(w, steps) == Some(w')
    ensures Doomed(w', i, late) && SlotUp(w', i) && w'.sh.slots[i].generation == w.sh.slots[i].generation
    ensures w'.threads == w.threads[tid := w.threads[tid].(phase := Leaving(w.sh.nextStartClaim))]
    ensures w'.sh.nextStartClaim == w.sh.nextStartClaim + 1
  {
    var w1 := w;
    steps := [];
    if w.threads[tid].phase.Called? {
      var enter := ThreadStep(tid, Enter);
      w1 := Apply(w, enter);
      StepKeepsBasics(w, enter);
      ExecOne(w, enter);
      steps := [enter];
    }
    assert w1.threads == w.threads[tid := w.threads[tid].(phase := Entered)];
    var claim := ThreadStep(tid, Claim(true));
    StepKeepsBasics(w1, claim);
    ExecAnd(w, steps, w1, claim);
    steps, w' := steps + [claim], Apply(w1, claim);
    forall k | k in w'.threads ensures !StartsFor(w'.threads[k], i, SlotKey(w'.sh.slots[i])) {
      if k != tid { assert w'.threads[k] == w.threads[k]; }
    }
  }

  lemma {:induction false} PayAll(w: World, i: nat, late: nat) returns (steps: seq<Step>, w': World)
    requires Doomed(w, i, late) && SlotUp(w, i) && w.sh.nextStartClaim + |Owing(w, i)| <= U64_MAX
    ensures Exec(w, steps) == Some(w')
    ensures Doomed(w', i, late) && SlotUp(w', i) && w'.sh.slots[i].generation == w.sh.slots[i].generation
    ensures w'.threads[late] == w.threads[late] && Owing(w', i) == {}
    decreases |Owing(w, i)|
  {
    if Owing(w, i) == {} {
      steps, w' := [], w;
    } else {
      var tid :| tid in Owing(w, i);
      var one, w1 := PayOne(w, i, late, tid);
      assert Owing(w1, i) == Owing(w, i) - {tid};
      var rest;
      rest, w' := PayAll(w1, i, late);
      ExecConcat(w, one, rest);
      steps := one + rest;
    }
  }

  /** The late start publishes into a slot that is not its own. */
  lemma LatePublish(w: World, i: nat, late: nat)
    requires Doomed(w, i, late) && SlotUp(w, i) && Owing(w, i) == {}
    requires w.sh.slots[i].generation == w.threads[late].phase.key.generation
    ensures var w' := Apply(w, ThreadStep(late, PublishConn));
            w'.gateOpen && |w'.sh.slots| == |w.sh.slots| && !Covered(w', i)
  {
    var w' := Apply(w, ThreadStep(late, PublishConn));
    var slot := w'.sh.slots[i];
    assert w'.info[slot.conn].key == w.threads[late].phase.key;
    forall tid | tid in w'.threads ensures !Owes(w'.threads[tid], i) && !StartsFor(w'.threads[tid], i, SlotKey(slot)) {
      if tid != late {
        assert w'.threads[tid] == w.threads[tid];
        assert tid !in Owing(w, i);
      }
    }
  }

  /**
   Whenever a slot is removed between the claim and the publication of a start on it, with start
   claims to spare, the session can go on to a state with the gate open and a slot nobody covers.
   */
  lemma CutStrandsSlot(w: World, step: Step) returns (steps: seq<Step>, w': World)
    requires Basics(w) && w.gateOpen && Enabled(w, step) && CutsStart(w, step)
    requires forall tid :: tid in w.threads && w.threads[tid].phase.Starting? ==>
                             w.sh.nextStartClaim + |w.threads| + w.threads[tid].phase.key.generation < U64_MAX
    ensures Exec(Apply(w, step), steps) == Some(w')
    ensures w'.gateOpen && step.admin.index < |w'.sh.slots| && !Covered(w', step.admin.index)
  {
    var i := step.admin.index;
    var late :| late in w.threads && w.threads[late].index == i && w.threads[late].phase.Starting?;
    var w0 := Apply(w, step);
    var a, w1 := Replace(w, i, late);
    assert |w1.threads.Keys| == |w.threads.Keys| + 1 by { assert w.nextThread !in w.threads; }
    var b, w2 := CatchUp(w1, i, late, w.nextThread);
    ExecConcat(w0, a, b);
    var c, w3 := FirstStart(w2, i, late, w.nextThread);
    ExecConcat(w0, a + b, c);
    OwingBound(w3, i);
    assert |w3.threads| == |w2.threads| by { assert |w3.threads.Keys| == |w2.threads.Keys|; }
    var d, w4 := PayAll(w3, i, late);
    ExecConcat(w0, a + b + c, d);
    LatePublish(w4, i, late);
    ExecAnd(w0, a + b + c + d, w4, ThreadStep(late, PublishConn));
    steps, w' := a + b + c + d + [ThreadStep(late, PublishConn)], Apply(w4, ThreadStep(late, PublishConn));
  }

  lemma OwingBound(w: World, i: nat)
    ensures |Owing(w, i)| <= |w.threads|
  {
    assert Owing(w, i) <= w.threads.Keys;
    SubsetSize(Owing(w, i), w.threads.Keys);
  }

  lemma {:induction false} SubsetSize(a: set<nat>, b: set<nat>)
    requires a <= b
    ensures |a| <= |b|
  {
    if a == {} {
    } else {
      var x :| x in a;
      SubsetSize(a - {x}, b - {x});
    }
  }

  // --- a concrete run ----------------------------------------------------------------------------------

  /** A session with one slot whose first start has been claimed; removing the slot now cuts it. */
  lemma ClaimedWorld() returns (steps: seq<Step>, w: World)
    ensures Exec(InitWorld(1, false, 0), steps) == Some(w) && |steps| == 2
    ensures Inv(w) && w.gateOpen && CutsStart(w, AdminStep(ShrinkAt(0)))
    ensures w.threads == map[0 := Thread(0, Plain, Starting(1, Key(0, 1)))] && w.sh.nextStartClaim == 2
  {
    var w0 := InitWorld(1, false, 0);
    InitInv(1, false, 0);
    assert w0.sh.slots[0] == FreshSlot(0);
    var enter, claim := ThreadStep(0, Enter), ThreadStep(0, Claim(false));
    var w1 := Apply(w0, enter);
    StepKeepsInv(w0, enter);
    StepKeepsInv(w1, claim);
    ExecOne(w0, enter);
    ExecAnd(w0, [enter], w1, claim);
    steps, w := [enter] + [claim], Apply(w1, claim);
    assert w.threads[0].phase.Starting?;
  }

  /** There is a run, with the gate open throughout, that strands a slot. */
  lemma SomeRunStrands() returns (steps: seq<Step>, w: World)
    ensures Exec(InitWorld(1, false, 0), steps) == Some(w)
    ensures w.gateOpen && |w.sh.slots| > 0 && !Covered(w, 0)
  {
    var a, w1 := ClaimedWorld();
    var cut := AdminStep(ShrinkAt(0));
    ExecAnd(InitWorld(1, false, 0), a, w1, cut);
    var b;
    b, w := CutStrandsSlot(w1, cut);
    ExecConcat(InitWorld(1, false, 0), a + [cut], b);
    steps := a + [cut] + b;
  }
}
