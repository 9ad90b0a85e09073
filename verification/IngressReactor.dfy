/**
 The reactor's client table, updated in place as the reactor does it.  Each method is proved equal to the
 block of TunnelOpen it implements, and what the reactor thread does between two tasks keeps the class
 invariant: custody, mail and ledger.  pc, callbacks and the histories are what the proofs add.
 */
module IngressReactor {
  import opened TunnelOpen
  import opened TunnelLedger
  import opened TunnelOnce

  function Rank(pc: Pc): nat {
    match pc
    case Written(_, _, _, _, _) => 4
    case Accepting(_, _, _, _) => 3
    case Rejecting(_, _, _, _) => 2
    case Closing(_, _) => 1
    case _ => 0
  }

  /** HandleClientWrite from the written response to its end, with nothing interleaved; accepts is what
      AcceptTunnel returns if it is called. */
  function WriteTail(w: World, accepts: bool): World
    requires w.life != Stopped
    decreases Rank(w.pc)
  {
    match w.pc
    case Written(_, _, _, _, _) => WriteTail(ApplyWrite(w, AfterWrite), accepts)
    case Accepting(_, _, _, _) => WriteTail(ApplyWrite(w, AcceptReturns(accepts)), accepts)
    case Rejecting(_, _, _, _) => WriteTail(ApplyWrite(w, DoReject), accepts)
    case Closing(_, _) => WriteTail(ApplyWrite(w, DropEntry), accepts)
    case _ => w
  }

  lemma CloseKeepsSafe(w: World, fd: nat)
    requires Safe(w)
    ensures Safe(CloseClient(w, fd))
  {
    CloseKeeps(w, fd);
    CloseKeepsLedger(w, fd);
    SameMail(w, CloseClient(w, fd));
  }

  lemma {:induction false} CloseEachKeepsSafe(w: World, fds: seq<nat>)
    requires Safe(w)
    ensures Safe(CloseEach(w, fds)) && CloseEach(w, fds).pc == w.pc && CloseEach(w, fds).life == w.life
    ensures forall fd :: fd in CloseEach(w, fds).clients ==> fd in w.clients && fd !in fds
    decreases |fds|
  {
    if fds == [] {
    } else {
      CloseKeepsSafe(w, fds[0]);
      CloseKeeps(w, fds[0]);
      CloseEachKeepsSafe(CloseClient(w, fds[0]), fds[1..]);
    }
  }

  lemma PostKeepsSafe(w: World, h: nat, ok: bool)
    requires Safe(w) && Addressed(w, h) && w.life == Running
    ensures Safe(w.(pending := w.pending + [Task(h, ok)]))
  {
    var w' := w.(pending := w.pending + [Task(h, ok)]);
    MoreMarked(w, w');
    SameLedger(w, w');
    assert forall g :: Addressed(w', g) <==> Addressed(w, g);
  }

  /** Every handle that was returned has had its one terminal call, unless a callback has claimed it. */
  ghost predicate Settled(w: World) {
    forall h :: h in w.returned ==> (|CallsOn(w, h)| == 1 <==> !exists id :: Claims(w, id, h))
  }

  lemma EmptyStopsSafe(w: World)
    requires Safe(w) && w.clients == map[] && w.pc == Idle && w.pending == []
    ensures Safe(w.(life := Stopped)) && Settled(w.(life := Stopped))
  {
    var w' := w.(life := Stopped);
    SameLedger(w, w');
    SameMail(w, w');
    assert forall h :: Holds(w', h) <==> Holds(w, h);
    forall h | h in w.returned ensures |CallsOn(w', h)| == 1 <==> !exists id :: Claims(w', id, h) {
      assert HandleOk(w', h);
    }
  }

  lemma {:induction false} TailKeepsSafe(w: World, accepts: bool)
    requires Safe(w) && w.life != Stopped
    ensures Safe(WriteTail(w, accepts))
    decreases Rank(w.pc), 1
  {
    match w.pc
    case Written(_, _, _, _, _) => TailStep(w, AfterWrite, accepts);
    case Accepting(_, _, _, _) => TailStep(w, AcceptReturns(accepts), accepts);
    case Rejecting(_, _, _, _) => TailStep(w, DoReject, accepts);
    case Closing(_, _) => TailStep(w, DropEntry, accepts);
    case _ =>
  }

  lemma {:induction false} TailStep(w: World, write: WriteAct, accepts: bool)
    requires Safe(w) && WriteEnabled(w, write) && Rank(ApplyWrite(w, write).pc) < Rank(w.pc)
    ensures ApplyWrite(w, write).life != Stopped && Safe(WriteTail(ApplyWrite(w, write), accepts))
    decreases Rank(w.pc), 0
  {
    WriteKeepsLife(w, write);
    StepKeepsSafe(w, OnWrite(write));
    TailKeepsSafe(ApplyWrite(w, write), accepts);
  }

  lemma WriteKeepsLife(w: World, write: WriteAct)
    requires WriteEnabled(w, write)
    ensures ApplyWrite(w, write).life == w.life != Stopped
  {
  }

  class Reactor {
    var life: Life
    var token: nat
    var clients: map<nat, Client>
    var pending: seq<Task>
    var terminalCalled: set<nat>
    var nextHandle: nat
    var started: map<nat, Start>
    ghost var pc: Pc
    ghost var callbacks: map<nat, Callback>
    ghost var nextCallback: nat
    ghost var returned: set<nat>
    ghost var calls: map<nat, seq<Call>>

    ghost function View(): World
      reads this
    {
      World(life, token, clients, pc, pending, callbacks, nextCallback, nextHandle, started, returned,
            terminalCalled, calls)
    }

    ghost predicate Valid()
      reads this
    {
      Safe(View())
    }

    constructor ()
      ensures View() == Init() && Valid()
    {
      life, token, clients, pending, terminalCalled, nextHandle, started := Running, 0, map[], [], {}, 1, map[];
      pc, callbacks, nextCallback, returned, calls := Idle, map[], 0, {}, map[];
    }

    method MarkOpenCompletionTerminal(comp: nat) returns (first: bool)
      modifies this`terminalCalled
      ensures first == Markable(old(View()), comp)
      ensures View() == if first then Mark(old(View()), comp) else old(View())
    {
      if comp == 0 {
        return true;
      }
      if comp in terminalCalled {
        return false;
      }
      terminalCalled := terminalCalled + {comp};
      return true;
    }

    method EndHandleOnce(handle: nat, comp: nat, call: Call) returns (called: bool)
      modifies this`terminalCalled, this`calls
      ensures View() == Once(old(View()), handle, comp, call)
      ensures called == (handle != 0 && Markable(old(View()), comp))
    {
      if handle == 0 {
        return false;
      }
      called := MarkOpenCompletionTerminal(comp);
      if called {
        calls := calls[handle := CallsOn(View(), handle) + [call]];
      }
    }

    method CloseClientLocked(fd: nat)
      modifies this`clients, this`terminalCalled, this`calls
      ensures View() == CloseClient(old(View()), fd)
      ensures old(Valid()) ==> Valid()
    {
      if Valid() { CloseKeepsSafe(View(), fd); }
      if fd !in clients {
        return;
      }
      var client := clients[fd];
      clients := clients - {fd};
      if client.handle != 0 {
        var _ := EndHandleOnce(client.handle, client.comp, Cancelled);
      }
    }

    /** The descriptors are collected first, in whatever order the table gives them, and closed one by one. */
    method CloseAllLocked() returns (fds: seq<nat>)
      requires Valid()
      modifies this`clients, this`terminalCalled, this`calls
      ensures forall fd :: fd in old(clients) <==> fd in fds
      ensures View() == CloseEach(old(View()), fds).(clients := map[])
      ensures Valid()
    {
      fds := [];
      var rest := clients.Keys;
      while rest != {}
        invariant forall fd :: fd in clients <==> fd in fds || fd in rest
        decreases |rest|
      {
        var fd :| fd in rest;
        fds, rest := fds + [fd], rest - {fd};
      }
      CloseEachKeepsSafe(View(), fds);
      assert CloseEach(View(), fds).clients == map[];
      var i := 0;
      while i < |fds|
        invariant i <= |fds|
        invariant CloseEach(View(), fds[i..]) == CloseEach(old(View()), fds)
      {
        assert fds[i..][1..] == fds[i + 1..];
        CloseClientLocked(fds[i]);
        i := i + 1;
      }
      clients := map[];
    }

    method BeginClientOpen(fd: nat) returns (h: nat)
      requires Valid() && pc == Idle
      modifies this`clients, this`nextHandle, this`started, this`pc
      ensures View() == BeginOpen(old(View()), fd)
      ensures Valid()
    {
      if life != Stopped { StepKeepsSafe(View(), OnClient(StartOpen(fd))); }
      if fd !in clients || clients[fd].phase != Handshake {
        return 0;
      }
      h := nextHandle;
      nextHandle := h + 1;
      started := started[h := Start(fd, token)];
      clients := clients[fd := clients[fd].(comp := h, phase := Opening)];
      pc := InStart(fd, h, false);
    }

    method CompleteClientOpen(fd: nat, handle: nat, comp: nat, ok: bool)
      modifies this`clients, this`terminalCalled, this`calls
      ensures View() == CompleteOpen(old(View()), fd, handle, comp, ok)
    {
      if fd !in clients || clients[fd].phase != Opening {
        var _ := EndHandleOnce(handle, comp, Rejected);
        return;
      }
      var client := clients[fd];
      if client.handle != 0 && handle != 0 && client.handle != handle {
        var _ := EndHandleOnce(handle, comp, Rejected);
        return;
      }
      if client.handle == 0 {
        client := client.(handle := handle);
      }
      client := client.(comp := comp, ok := ok);
      clients := clients[fd := client.(phase := WritingOpenResponse)];
    }

    method EndClientOpen(fd: nat, h: nat, got: bool)
      requires Valid() && pc.InStart? && pc.fd == fd && pc.h == h && (pc.notified ==> got)
      modifies this`clients, this`terminalCalled, this`calls, this`pc, this`returned
      ensures View() == EndOpen(old(View()), fd, h, got)
      ensures Valid()
    {
      StepKeepsSafe(View(), OnClient(StartReturns(got)));
      pc := Idle;
      if !got {
        CompleteClientOpen(fd, 0, 0, false);
        return;
      }
      returned := returned + {h};
      if fd !in clients {
        var _ := EndHandleOnce(h, h, Rejected);
        return;
      }
      clients := clients[fd := clients[fd].(handle := h)];
    }

    method TimeoutClientOpen(fd: nat, comp: nat)
      requires Valid() && pc == Idle
      modifies this`clients, this`terminalCalled, this`calls
      ensures View() == TimeoutOpen(old(View()), fd, comp)
      ensures Valid()
    {
      if life != Stopped && comp != 0 { StepKeepsSafe(View(), OnClient(Timeout(fd, comp))); }
      if fd in clients { assert ClientOk(View(), fd); }
      if fd !in clients {
        return;
      }
      var client := clients[fd];
      if client.phase != Opening || client.comp != comp {
        return;
      }
      var handle := client.handle;
      clients := clients[fd := client.(handle := 0, ok := false, phase := WritingOpenResponse)];
      var _ := EndHandleOnce(handle, comp, Cancelled);
    }

    method BeginWriteTail(fd: nat) returns (client: Client, remove: bool)
      requires life != Stopped && fd in clients && pc == Idle
      modifies this`clients, this`pc
      ensures client == old(clients)[fd] && View() == FinishWrite(old(View()), fd)
      ensures pc == Written(fd, client.handle, client.comp, client.ok, remove)
    {
      client := clients[fd];
      remove := client.handle != 0;
      if client.forward && !client.ok {
        clients := clients[fd := client.(handle := 0)];
        remove := false;
      }
      pc := Written(fd, client.handle, client.comp, client.ok, remove);
    }

    method FinishClientWrite(fd: nat, accepts: bool)
      requires Valid() && fd in clients && clients[fd].phase == WritingOpenResponse && pc == Idle
      modifies this`clients, this`terminalCalled, this`calls, this`pc
      ensures life == old(life) != Stopped && View() == WriteTail(FinishWrite(old(View()), fd), accepts)
      ensures Valid()
    {
      StepKeepsSafe(View(), OnWrite(WriteDone(fd)));
      TailKeepsSafe(FinishWrite(View(), fd), accepts);
      var client, remove := BeginWriteTail(fd);
      ghost var tail := WriteTail(View(), accepts);
      if client.handle == 0 {
        pc := Closing(fd, remove);
      } else {
        RespondToTunnel(fd, client, remove, accepts);
      }
      assert WriteTail(View(), accepts) == tail;
      DropClient(fd, remove, accepts);
    }

    /** Accept the tunnel, with the reset after a failed accept, or reject it. */
    method RespondToTunnel(fd: nat, client: Client, keep: bool, accepts: bool)
      requires life != Stopped && client.handle != 0
      requires pc == Written(fd, client.handle, client.comp, client.ok, keep)
      modifies this`terminalCalled, this`calls, this`pc
      ensures pc == Closing(fd, keep)
      ensures WriteTail(View(), accepts) == WriteTail(old(View()), accepts)
    {
      var reserved := false;
      if client.ok {
        reserved := MarkOpenCompletionTerminal(client.comp);
      }
      pc := if reserved then Accepting(fd, client.handle, client.comp, keep)
            else Rejecting(fd, client.handle, client.comp, keep);
      assert View() == ApplyWrite(old(View()), AfterWrite);
      if reserved {
        AcceptOrReset(client.handle, client.comp, accepts);
      }
      if !(reserved && accepts) {
        RejectAfterWrite(client.handle, client.comp, accepts);
      }
    }

    method AcceptOrReset(handle: nat, comp: nat, accepts: bool)
      requires life != Stopped && pc.Accepting? && pc.h == handle && pc.comp == comp
      modifies this`terminalCalled, this`calls, this`pc
      ensures View() == ApplyWrite(old(View()), AcceptReturns(accepts))
      ensures WriteTail(View(), accepts) == WriteTail(old(View()), accepts)
    {
      if accepts {
        calls := calls[handle := CallsOn(View(), handle) + [Accepted]];
        pc := Closing(pc.fd, pc.keep);
      } else {
        terminalCalled := terminalCalled - {comp};
        pc := Rejecting(pc.fd, handle, comp, pc.keep);
      }
      assert View() == ApplyWrite(old(View()), AcceptReturns(accepts));
    }

    method RejectAfterWrite(handle: nat, comp: nat, accepts: bool)
      requires life != Stopped && pc.Rejecting? && pc.h == handle && pc.comp == comp
      modifies this`terminalCalled, this`calls, this`pc
      ensures View() == ApplyWrite(old(View()), DoReject)
      ensures WriteTail(View(), accepts) == WriteTail(old(View()), accepts)
    {
      var _ := EndHandleOnce(handle, comp, Rejected);
      pc := Closing(pc.fd, pc.keep);
      assert View() == ApplyWrite(old(View()), DoReject);
    }

    method DropClient(fd: nat, keep: bool, accepts: bool)
      requires life != Stopped && pc == Closing(fd, keep)
      modifies this`clients, this`terminalCalled, this`calls, this`pc
      ensures View() == WriteTail(old(View()), accepts)
    {
      if keep {
        clients := clients - {fd};
      } else {
        CloseClientLocked(fd);
      }
      pc := Idle;
      assert View() == ApplyWrite(old(View()), DropEntry);
    }

    /** EnqueueOpenCompletion: refused unless the reactor is running. */
    method EnqueueOpenCompletion(h: nat, ok: bool) returns (queued: bool)
      requires Valid() && Addressed(View(), h)
      modifies this`pending
      ensures queued == (life == Running)
      ensures View() == old(View()).(pending := if queued then old(pending) + [Task(h, ok)] else old(pending))
      ensures Valid()
    {
      if life == Running { PostKeepsSafe(View(), h, ok); }
      queued := life == Running;
      if queued {
        pending := pending + [Task(h, ok)];
      }
    }

    method RunNextCompletion()
      requires Valid() && pending != [] && pc == Idle
      modifies this`pending, this`clients, this`terminalCalled, this`calls
      ensures old(pending)[0].h in old(started) && pending == old(pending)[1..]
      ensures View() == RunTask(old(View()).(pending := old(pending)[1..]), old(pending)[0])
      ensures Valid()
    {
      assert Addressed(View(), pending[0].h);
      StepKeepsSafe(View(), OnClient(NextTask));
      var task := pending[0];
      pending := pending[1..];
      if started[task.h].token != token {
        var _ := EndHandleOnce(task.h, task.h, Rejected);
      } else {
        CompleteClientOpen(started[task.h].fd, task.h, task.h, task.ok);
      }
    }

    method ProcessPendingTasks()
      requires Valid() && pc == Idle
      modifies this`pending, this`clients, this`terminalCalled, this`calls
      ensures Valid() && pending == []
    {
      while pending != []
        invariant Valid()
        decreases |pending|
      {
        RunNextCompletion();
      }
    }

    /** Stop, with the worker joined: the queued completions run with their token dead and every client is closed. */
    method Stop()
      requires Valid() && life == Running && pc == Idle
      modifies this`life, this`token, this`pending, this`clients, this`terminalCalled, this`calls
      ensures Valid() && life == Stopped && token == old(token) + 1 && clients == map[] && pending == []
      ensures Settled(View())
    {
      StepKeepsSafe(View(), OnStop(BeginStop));
      life, token := Stopping, token + 1;
      ProcessPendingTasks();
      var fds := CloseAllLocked();
      ghost var closed := View();
      EmptyStopsSafe(closed);
      life := Stopped;
      assert View() == closed.(life := Stopped);
    }
  }
}
