/**
 Stop is final.  Once the gate is closed, its counter is zero and the slots are cleared, no later
 step claims, publishes or reserves anything: the session has no slot ever again.
 */
module SessionStop {
  import opened ClientSlots
  import opened SlotWorld
  import opened GateCount
  import opened TerminalShutdown

  /** The state Stop leaves: nothing inside the gate, nothing to work on. */
  ghost predicate Stopped(w: World) {
    !w.gateOpen && !w.sh.started && w.sh.stopping && w.sh.slots == [] && Drained(w)
  }

  /** What Stop waits for is the counter; that nobody is inside follows from it. */
  lemma ClearStops(w: World)
    requires GateOk(w) && AdminEnabled(w, ClearSlots)
    ensures Stopped(ApplyAdmin(w, ClearSlots))
  {
    ZeroIsDrained(w);
  }

  lemma ThreadKeepsStopped(w: World, tid: nat, act: ThreadAct)
    requires Stopped(w) && ThreadEnabled(w, tid, act)
    ensures Stopped(ApplyThread(w, tid, act))
  {
    assert !InsideStart(w.threads[tid]) && !w.threads[tid].kind.Retry?;
  }

  lemma TicketKeepsStopped(w: World, token: nat, move: TicketAct)
    requires Stopped(w) && TicketEnabled(w, token, move)
    ensures Stopped(ApplyTicket(w, token, move))
  {
    assert Submitted(w, token);
  }

  lemma HelloKeepsStopped(w: World, conn: nat, hello: HelloAct)
    requires Stopped(w) && HelloEnabled(w, conn, hello)
    ensures Stopped(ApplyHello(w, conn, hello))
  {
    assert hello.EnterHello?;
  }

  lemma ConnKeepsStopped(w: World, conn: nat, event: ConnEvent)
    requires Stopped(w) && ConnEnabled(w, conn)
    ensures Stopped(ApplyConn(w, conn, event))
  {
    assert ApplyConn(w, conn, event).sh == w.sh;
  }

  lemma AdminKeepsStopped(w: World, admin: AdminAct)
    requires Stopped(w) && AdminEnabled(w, admin)
    ensures Stopped(ApplyAdmin(w, admin))
  {
    assert ApplyAdmin(w, admin).sh.slots == [];
  }

  lemma StepKeepsStopped(w: World, step: Step)
    requires Stopped(w) && Enabled(w, step)
    ensures Stopped(Apply(w, step))
    ensures forall i :: !Publishes(w, step, i)
  {
    match step {
      case ThreadStep(tid, act) => ThreadKeepsStopped(w, tid, act);
      case TicketStep(token, move) => TicketKeepsStopped(w, token, move);
      case HelloStep(conn, hello) => HelloKeepsStopped(w, conn, hello);
      case ConnStep(conn, event) => ConnKeepsStopped(w, conn, event);
      case AdminStep(admin) => AdminKeepsStopped(w, admin);
    }
  }

  lemma {:induction false} StaysStopped(ws: seq<World>, steps: seq<Step>, a: nat, n: nat)
    requires IsRun(ws, steps) && a < n < |ws| && steps[a] == AdminStep(ClearSlots)
    ensures Stopped(ws[n])
  {
    var step := steps[n - 1];
    if n == a + 1 {
      RunCounts(ws, steps, a);
      ClearStops(ws[a]);
    } else {
      StaysStopped(ws, steps, a, n - 1);
      StepKeepsStopped(ws[n - 1], step);
    }
  }

  /** After Stop's last block, in every continuation, no slot exists and nothing is published. */
  lemma StopIsFinal(ws: seq<World>, steps: seq<Step>, a: nat, n: nat, i: nat)
    requires IsRun(ws, steps) && a < n < |steps| && steps[a] == AdminStep(ClearSlots)
    ensures Stopped(ws[n]) && !Publishes(ws[n], steps[n], i)
  {
    var step := steps[n];
    StaysStopped(ws, steps, a, n);
    StepKeepsStopped(ws[n], step);
  }
}
