/**
 The tunnel-open theorems over every run: one terminal call per handle, and no late event reaches a
 client that reuses a descriptor.
 */
module TunnelOnce {
  import opened TunnelOpen
  import opened TunnelLedger

  // --- every step keeps the invariant --------------------------------------------------------------------

  lemma CloseKeeps(w: World, fd: nat)
    requires Held(w)
    ensures Held(CloseClient(w, fd))
    ensures CloseClient(w, fd).clients == w.clients - {fd}
    ensures CloseClient(w, fd).pc == w.pc && CloseClient(w, fd).pending == w.pending &&
            CloseClient(w, fd).life == w.life
  {
    if fd !in w.clients {
      assert w.clients - {fd} == w.clients;
    }
  }

  lemma EndKeeps(w: World, got: bool)
    requires Held(w) && ClientEnabled(w, StartReturns(got))
    ensures Held(EndOpen(w, w.pc.fd, w.pc.h, got))
  {
  }

  lemma TaskKeeps(w: World)
    requires Held(w) && Mail(w) && ClientEnabled(w, NextTask)
    ensures Held(ApplyClient(w, NextTask))
  {
  }

  lemma TimeoutKeeps(w: World, fd: nat, comp: nat)
    requires Held(w) && ClientEnabled(w, Timeout(fd, comp))
    ensures Held(TimeoutOpen(w, fd, comp))
  {
  }

  lemma ClientStepKeeps(w: World, act: ClientAct)
    requires Held(w) && Mail(w) && ClientEnabled(w, act)
    ensures Held(ApplyClient(w, act))
  {
    match act
    case AcceptClient(fd, forward) =>
    case StartOpen(fd) =>
    case StartReturns(got) => EndKeeps(w, got);
    case CloseFd(fd) => CloseKeeps(w, fd);
    case Timeout(fd, comp) => TimeoutKeeps(w, fd, comp);
    case NextTask => TaskKeeps(w);
  }

  lemma FinishWriteKeeps(w: World, fd: nat)
    requires Held(w) && WriteEnabled(w, WriteDone(fd))
    ensures Held(FinishWrite(w, fd))
  {
  }

  lemma DropKeeps(w: World)
    requires Held(w) && WriteEnabled(w, DropEntry)
    ensures Held(ApplyWrite(w, DropEntry))
  {
    if !w.pc.keep {
      CloseKeeps(w, w.pc.fd);
    }
  }

  lemma RejectKeeps(w: World)
    requires Held(w) && WriteEnabled(w, DoReject)
    ensures Held(ApplyWrite(w, DoReject))
  {
  }

  lemma AcceptKeeps(w: World, accepted: bool)
    requires Held(w) && WriteEnabled(w, AcceptReturns(accepted))
    ensures Held(ApplyWrite(w, AcceptReturns(accepted)))
  {
  }

  lemma WriteStepKeeps(w: World, write: WriteAct)
    requires Held(w) && WriteEnabled(w, write)
    ensures Held(ApplyWrite(w, write))
  {
    match write
    case WriteDone(fd) => FinishWriteKeeps(w, fd);
    case AfterWrite =>
    case AcceptReturns(accepted) => AcceptKeeps(w, accepted);
    case DoReject => RejectKeeps(w);
    case DropEntry => DropKeeps(w);
  }

  lemma {:induction false} CloseEachKeeps(w: World, fds: seq<nat>)
    requires Held(w)
    ensures Held(CloseEach(w, fds))
    ensures forall fd :: fd in CloseEach(w, fds).clients ==> fd in w.clients && fd !in fds
    ensures CloseEach(w, fds).pc == w.pc && CloseEach(w, fds).pending == w.pending && CloseEach(w, fds).life == w.life
    decreases |fds|
  {
    if fds == [] {
    } else {
      CloseKeeps(w, fds[0]);
      CloseEachKeeps(CloseClient(w, fds[0]), fds[1..]);
    }
  }

  lemma StopStepKeeps(w: World, stop: StopAct)
    requires Held(w) && StopEnabled(w, stop)
    ensures Held(ApplyStop(w, stop))
  {
    if stop.CloseAll? {
      CloseEachKeeps(w, stop.fds);
      assert CloseEach(w, stop.fds).clients == map[];
    }
  }

  lemma MoreMarked(w: World, w': World)
    requires Held(w)
    requires w'.clients == w.clients && w'.pc == w.pc && w'.started == w.started && w'.returned == w.returned
    requires w'.nextHandle == w.nextHandle && w'.life == w.life && w.terminal <= w'.terminal
    requires w.life == Stopped ==> w'.pending == w.pending
    ensures Held(w')
  {
    assert forall fd :: fd in w.clients ==> (ClientOk(w', fd) <==> ClientOk(w, fd));
    assert forall h :: Holds(w', h) <==> Holds(w, h);
  }

  lemma CallbackStepKeeps(w: World, id: nat, move: CallbackAct)
    requires Held(w) && CallbackEnabled(w, id, move)
    ensures Held(ApplyCallback(w, id, move))
  {
    MoreMarked(w, ApplyCallback(w, id, move));
  }

  lemma StepKeeps(w: World, step: Step)
    requires Held(w) && Mail(w) && Enabled(w, step)
    ensures Held(Apply(w, step))
  {
    match step
    case OnClient(act) => ClientStepKeeps(w, act);
    case OnWrite(write) => WriteStepKeeps(w, write);
    case Fire(h, ok) =>
    case OnCallback(id, move) => CallbackStepKeeps(w, id, move);
    case OnStop(stop) => StopStepKeeps(w, stop);
  }

  // --- every step keeps the mail -------------------------------------------------------------------------

  lemma SameMail(w: World, w': World)
    requires Mail(w)
    requires w'.callbacks == w.callbacks && w'.nextCallback == w.nextCallback &&
             (w'.pending == w.pending || w'.pending == [])
    requires forall h :: Addressed(w, h) ==> Addressed(w', h)
    ensures Mail(w')
  {
  }

  lemma OpenStepKeepsMail(w: World, act: ClientAct)
    requires Held(w) && Mail(w) && ClientEnabled(w, act) && (act.StartOpen? || act.StartReturns?)
    ensures Mail(ApplyClient(w, act))
  {
    SameMail(w, ApplyClient(w, act));
  }

  lemma TaskStepKeepsMail(w: World)
    requires Held(w) && Mail(w) && ClientEnabled(w, NextTask)
    ensures Mail(ApplyClient(w, NextTask))
  {
    var w1 := w.(pending := w.pending[1..]);
    assert forall h :: Addressed(w, h) ==> Addressed(w1, h);
    assert forall i :: 0 <= i < |w1.pending| ==> w1.pending[i] == w.pending[i + 1];
    SameMail(w1, ApplyClient(w, NextTask));
  }

  lemma ClientStepKeepsMail(w: World, act: ClientAct)
    requires Held(w) && Mail(w) && ClientEnabled(w, act)
    ensures Mail(ApplyClient(w, act))
  {
    if act.StartOpen? || act.StartReturns? {
      OpenStepKeepsMail(w, act);
    } else if act == NextTask {
      TaskStepKeepsMail(w);
    } else {
      SameMail(w, ApplyClient(w, act));
    }
  }

  lemma WriteStepKeepsMail(w: World, write: WriteAct)
    requires Held(w) && Mail(w) && WriteEnabled(w, write)
    ensures Mail(ApplyWrite(w, write))
  {
    var w' := ApplyWrite(w, write);
    SameMail(w, w');
  }

  lemma CallbackStepKeepsMail(w: World, id: nat, move: CallbackAct)
    requires Mail(w) && CallbackEnabled(w, id, move)
    ensures Mail(ApplyCallback(w, id, move))
  {
    var w' := ApplyCallback(w, id, move);
    assert forall h :: Addressed(w, h) ==> Addressed(w', h);
  }

  lemma {:induction false} CloseEachFrame(w: World, fds: seq<nat>)
    ensures var w' := CloseEach(w, fds);
            w'.(clients := w.clients, terminal := w.terminal, calls := w.calls) == w
    decreases |fds|
  {
    if fds == [] {
    } else {
      CloseEachFrame(CloseClient(w, fds[0]), fds[1..]);
    }
  }

  lemma StepKeepsMail(w: World, step: Step)
    requires Held(w) && Mail(w) && Enabled(w, step)
    ensures Mail(Apply(w, step))
  {
    match step
    case OnClient(act) => ClientStepKeepsMail(w, act);
    case OnWrite(write) => WriteStepKeepsMail(w, write);
    case Fire(h, ok) => assert forall g :: Addressed(w, g) ==> Addressed(FireCallback(w, h, ok), g);
    case OnCallback(id, move) => CallbackStepKeepsMail(w, id, move);
    case OnStop(stop) =>
      if stop.CloseAll? { CloseEachFrame(w, stop.fds); }
      SameMail(w, ApplyStop(w, stop));
  }

  // --- every step keeps the ledger -----------------------------------------------------------------------

  lemma CloseKeepsLedger(w: World, fd: nat)
    requires Ledger(w) && ClientsOk(w)
    ensures Ledger(CloseClient(w, fd))
  {
    if fd in w.clients && w.clients[fd].handle != 0 {
      var w1 := w.(clients := w.clients - {fd});
      SameLedger(w, w1);
      OnceKeepsLedger(w1, w.clients[fd].handle, Cancelled);
    } else {
      SameLedger(w, CloseClient(w, fd));
    }
  }

  lemma EndKeepsLedger(w: World, got: bool)
    requires Ledger(w) && PcOk(w) && ClientEnabled(w, StartReturns(got))
    ensures Ledger(EndOpen(w, w.pc.fd, w.pc.h, got))
  {
    var w1 := w.(pc := Idle, returned := w.returned + {w.pc.h});
    SameLedger(w, w1);
    OnceKeepsLedger(w1, w.pc.h, Rejected);
    if !got || w.pc.fd in w.clients {
      SameLedger(w1, EndOpen(w, w.pc.fd, w.pc.h, got));
    }
  }

  lemma TimeoutKeepsLedger(w: World, fd: nat, comp: nat)
    requires Ledger(w) && ClientsOk(w) && ClientEnabled(w, Timeout(fd, comp))
    ensures Ledger(TimeoutOpen(w, fd, comp))
  {
    if TimeoutOpen(w, fd, comp) != w {
      var w1 := w.(clients := w.clients[fd := w.clients[fd].(handle := 0, ok := false, phase := WritingOpenResponse)]);
      SameLedger(w, w1);
      OnceKeepsLedger(w1, comp, Cancelled);
    }
  }

  lemma TaskKeepsLedger(w: World)
    requires Ledger(w) && ClientEnabled(w, NextTask)
    ensures Ledger(ApplyClient(w, NextTask))
  {
    var w1 := w.(pending := w.pending[1..]);
    SameLedger(w, w1);
    OnceKeepsLedger(w1, w.pending[0].h, Rejected);
    if ApplyClient(w, NextTask).terminal == w.terminal {
      SameLedger(w, ApplyClient(w, NextTask));
    }
  }

  lemma ClientStepKeepsLedger(w: World, act: ClientAct)
    requires Ledger(w) && Held(w) && ClientEnabled(w, act)
    ensures Ledger(ApplyClient(w, act))
  {
    match act
    case StartReturns(got) => EndKeepsLedger(w, got);
    case CloseFd(fd) => CloseKeepsLedger(w, fd);
    case Timeout(fd, comp) => TimeoutKeepsLedger(w, fd, comp);
    case NextTask => TaskKeepsLedger(w);
    case _ => SameLedger(w, ApplyClient(w, act));
  }

  lemma WriteStepKeepsLedger(w: World, write: WriteAct)
    requires Ledger(w) && Held(w) && WriteEnabled(w, write)
    ensures Ledger(ApplyWrite(w, write))
  {
    match write
    case WriteDone(fd) => SameLedger(w, ApplyWrite(w, write));
    case AfterWrite => ReserveKeepsLedger(w);
    case AcceptReturns(accepted) => AcceptKeepsLedger(w, accepted);
    case DoReject =>
      OnceKeepsLedger(w, w.pc.h, Rejected);
      SameLedger(Once(w, w.pc.h, w.pc.h, Rejected), ApplyWrite(w, write));
    case DropEntry =>
      CloseKeepsLedger(w, w.pc.fd);
      SameLedger(if w.pc.keep then w else CloseClient(w, w.pc.fd), ApplyWrite(w, write));
  }

  lemma {:induction false} CloseEachKeepsLedger(w: World, fds: seq<nat>)
    requires Ledger(w) && Held(w)
    ensures Ledger(CloseEach(w, fds))
    decreases |fds|
  {
    if fds == [] {
    } else {
      CloseKeeps(w, fds[0]);
      CloseKeepsLedger(w, fds[0]);
      CloseEachKeepsLedger(CloseClient(w, fds[0]), fds[1..]);
    }
  }

  lemma StopStepKeepsLedger(w: World, stop: StopAct)
    requires Ledger(w) && Held(w) && StopEnabled(w, stop)
    ensures Ledger(ApplyStop(w, stop))
  {
    if stop.CloseAll? {
      CloseEachKeeps(w, stop.fds);
      CloseEachKeepsLedger(w, stop.fds);
      SameLedger(CloseEach(w, stop.fds), ApplyStop(w, stop));
    } else {
      SameLedger(w, ApplyStop(w, stop));
    }
  }

  lemma StepKeepsLedger(w: World, step: Step)
    requires Ledger(w) && Held(w) && Mail(w) && Enabled(w, step)
    ensures Ledger(Apply(w, step))
  {
    match step
    case OnClient(act) => ClientStepKeepsLedger(w, act);
    case OnWrite(write) => WriteStepKeepsLedger(w, write);
    case Fire(h, ok) =>
      assert w.nextCallback !in w.callbacks;
      SameLedger(w, FireCallback(w, h, ok));
    case OnCallback(id, move) => CallbackKeepsLedger(w, id, move);
    case OnStop(stop) => StopStepKeepsLedger(w, stop);
  }

  /** Custody, mail and ledger together. */
  ghost predicate Safe(w: World) {
    Held(w) && Mail(w) && Ledger(w)
  }

  lemma StepKeepsSafe(w: World, step: Step)
    requires Safe(w) && Enabled(w, step)
    ensures Safe(Apply(w, step))
  {
    StepKeeps(w, step);
    StepKeepsMail(w, step);
    StepKeepsLedger(w, step);
  }

  lemma {:induction false} RunKeeps(ws: seq<World>, steps: seq<Step>, n: nat)
    requires IsRun(ws, steps) && n < |ws|
    ensures Safe(ws[n])
  {
    if n == 0 {
    } else {
      RunKeeps(ws, steps, n - 1);
      var step := steps[n - 1];
      StepKeepsSafe(ws[n - 1], step);
    }
  }

  // --- theorems ------------------------------------------------------------------------------------------

  /** Over every interleaving: no handle gets two terminal calls, and when Stop has returned every handle
      has had its one call, unless a completion callback has claimed that call and is about to make it. */
  lemma OneTerminalCall(ws: seq<World>, steps: seq<Step>, n: nat, h: nat)
    requires IsRun(ws, steps) && n < |ws|
    ensures |CallsOn(ws[n], h)| <= 1
    ensures ws[n].life == Stopped && h in ws[n].returned ==>
              (|CallsOn(ws[n], h)| == 1 <==> !exists id :: Claims(ws[n], id, h))
    ensures forall i, j :: Claims(ws[n], i, h) && Claims(ws[n], j, h) ==> i == j
  {
    RunKeeps(ws, steps, n);
    assert HandleOk(ws[n], h);
  }

  lemma Extend(ws: seq<World>, steps: seq<Step>, step: Step) returns (ws': seq<World>, steps': seq<Step>)
    requires IsRun(ws, steps) && Enabled(ws[|steps|], step)
    ensures IsRun(ws', steps') && ws'[|steps'|] == Apply(ws[|steps|], step)
  {
    ws', steps' := ws + [Apply(ws[|steps|], step)], steps + [step];
  }

  /** Some run ends with descriptor 5 open on handle 1 and a stop under way. */
  lemma OpenThenStop() returns (ws: seq<World>, steps: seq<Step>)
    ensures IsRun(ws, steps)
    ensures ws[|steps|] == World(Stopping, 1, map[5 := Client(Opening, false, 1, 1, false)], Idle, [], map[], 0, 2,
                                 map[1 := Start(5, 0)], {1}, {}, map[])
  {
    ws, steps := [Init()], [];
    ws, steps := Extend(ws, steps, OnClient(AcceptClient(5, false)));
    ws, steps := Extend(ws, steps, OnClient(StartOpen(5)));
    ws, steps := Extend(ws, steps, OnClient(StartReturns(true)));
    ws, steps := Extend(ws, steps, OnStop(BeginStop));
  }

  /** The call may trail Stop: a callback that finds its token dead claims the handle, Stop then leaves the
      handle to it, and the run so far ends with Stop returned and no call made. */
  lemma CallCanTrailStop() returns (ws: seq<World>, steps: seq<Step>)
    ensures IsRun(ws, steps) && ws[|steps|].life == Stopped
    ensures 1 in ws[|steps|].returned && CallsOn(ws[|steps|], 1) == []
  {
    ws, steps := OpenThenStop();
    ws, steps := Extend(ws, steps, Fire(1, true));
    ws, steps := Extend(ws, steps, OnCallback(0, ReadToken));
    ws, steps := Extend(ws, steps, OnCallback(0, Decline));
    var w := ws[|steps|];
    assert CloseEach(w, [5]) == CloseClient(w, 5) by { assert [5][1..] == []; }
    ws, steps := Extend(ws, steps, OnStop(CloseAll([5])));
  }

  /** At task boundaries a client in phase Opening has its handle, and that handle's completion state. */
  lemma OpeningHasHandle(ws: seq<World>, steps: seq<Step>, n: nat, fd: nat)
    requires IsRun(ws, steps) && n < |ws|
    requires ws[n].pc == Idle && fd in ws[n].clients && ws[n].clients[fd].phase == Opening
    ensures ws[n].clients[fd].handle != 0 && ws[n].clients[fd].comp == ws[n].clients[fd].handle
  {
    RunKeeps(ws, steps, n);
    assert ClientOk(ws[n], fd);
  }

  /** Open h was started, and no client is on it any more. */
  predicate Gone(w: World, h: nat) {
    1 <= h < w.nextHandle && forall fd :: fd in w.clients ==> w.clients[fd].comp != h
  }

  /** The clients of w' keep the completion state they had in w, or have none, or a brand new one. */
  ghost predicate CompsFrom(w: World, w': World) {
    w'.nextHandle >= w.nextHandle &&
    forall fd :: fd in w'.clients ==>
      w'.clients[fd].comp == 0 || w'.clients[fd].comp == w.nextHandle ||
      (fd in w.clients && w'.clients[fd].comp == w.clients[fd].comp)
  }

  lemma {:induction false} CloseEachComps(w: World, fds: seq<nat>)
    ensures CloseEach(w, fds).nextHandle == w.nextHandle
    ensures forall fd :: fd in CloseEach(w, fds).clients ==>
            fd in w.clients && CloseEach(w, fds).clients[fd] == w.clients[fd]
    decreases |fds|
  {
    if fds == [] {
    } else {
      CloseEachComps(CloseClient(w, fds[0]), fds[1..]);
    }
  }

  lemma TaskComps(w: World)
    requires Held(w) && Mail(w) && ClientEnabled(w, NextTask)
    ensures CompsFrom(w, ApplyClient(w, NextTask))
  {
    var t := w.pending[0];
    assert Addressed(w, t.h);
    if w.started[t.h].fd in w.clients { assert ClientOk(w, w.started[t.h].fd); }
  }

  lemma ClientStepComps(w: World, act: ClientAct)
    requires ClientEnabled(w, act) && act != NextTask
    ensures CompsFrom(w, ApplyClient(w, act))
  {
  }

  lemma WriteStepComps(w: World, write: WriteAct)
    requires WriteEnabled(w, write)
    ensures CompsFrom(w, ApplyWrite(w, write))
  {
  }

  lemma StepComps(w: World, step: Step)
    requires Held(w) && Mail(w) && Enabled(w, step)
    ensures CompsFrom(w, Apply(w, step))
  {
    match step
    case OnClient(act) => if act == NextTask { TaskComps(w); } else { ClientStepComps(w, act); }
    case OnWrite(write) => WriteStepComps(w, write);
    case Fire(h, ok) =>
    case OnCallback(id, move) =>
    case OnStop(stop) =>
      if stop.CloseAll? { CloseEachComps(w, stop.fds); }
  }

  lemma {:induction false} GoneForGood(ws: seq<World>, steps: seq<Step>, i: nat, j: nat, h: nat)
    requires IsRun(ws, steps) && i <= j < |ws| && Gone(ws[i], h)
    ensures Gone(ws[j], h)
  {
    if i >= j {
    } else {
      GoneForGood(ws, steps, i, j - 1, h);
      RunKeeps(ws, steps, j - 1);
      var step := steps[j - 1];
      StepComps(ws[j - 1], step);
    }
  }

  /** The step delivers a completion or a timeout of open h. */
  predicate Delivers(w: World, step: Step, h: nat) {
    step.OnClient? &&
    ((step.act.Timeout? && step.act.comp == h) || (step.act == NextTask && w.pending != [] && w.pending[0].h == h))
  }

  /** Once the client of open h is closed, no completion or timeout of h changes any client,
      in particular not a later one on the same descriptor. */
  lemma LateEventsChangeNoClient(ws: seq<World>, steps: seq<Step>, i: nat, j: nat, fd: nat, h: nat)
    requires IsRun(ws, steps) && i < j < |steps|
    requires h != 0 && fd in ws[i].clients && ws[i].clients[fd].comp == h && fd !in ws[i + 1].clients
    requires Delivers(ws[j], steps[j], h)
    ensures ws[j + 1].clients == ws[j].clients
  {
    RunKeeps(ws, steps, i);
    assert Enabled(ws[i], steps[i]);
    ClosedIsGone(ws[i], steps[i], fd, h);
    GoneForGood(ws, steps, i + 1, j, h);
    RunKeeps(ws, steps, j);
    assert Enabled(ws[j], steps[j]);
    GoneIsUntouched(ws[j], steps[j], h);
  }

  lemma ClosedIsGone(w: World, step: Step, fd: nat, h: nat)
    requires Held(w) && Mail(w) && Enabled(w, step)
    requires h != 0 && fd in w.clients && w.clients[fd].comp == h && fd !in Apply(w, step).clients
    ensures Gone(Apply(w, step), h)
  {
    StepComps(w, step);
    assert ClientOk(w, fd);
    forall g | g in w.clients && w.clients[g].comp == h ensures g == fd {
      assert ClientOk(w, g);
    }
  }

  lemma GoneIsUntouched(w: World, step: Step, h: nat)
    requires Held(w) && Mail(w) && Enabled(w, step) && Gone(w, h) && Delivers(w, step, h)
    ensures Apply(w, step).clients == w.clients
  {
  }
}
