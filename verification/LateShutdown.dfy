/** A deferred shutdown may meet a later connection: a retry keeps the slot's identity, so the operation of one grant
    can run when the slot holds, and is reserved for, the connection of a later grant. */
module LateShutdown {
  import opened ClientSlots
  import opened SlotWorld
  import opened SlotFrames
  import opened TerminalShutdown

  const KEY := Key(0, 1)
  const TICKET := Ticket(0, 0, 1, 1)

  lemma Extend(ws: seq<World>, steps: seq<Step>, step: Step) returns (ws': seq<World>, steps': seq<Step>)
    requires IsRun(ws, steps) && Enabled(ws[|steps|], step)
    ensures IsRun(ws', steps') && ws' == ws + [Apply(ws[|steps|], step)] && steps' == steps + [step]
  {
    ws', steps' := ws + [Apply(ws[|steps|], step)], steps + [step];
    assert ws'[0] == ws[0];
  }

  /** One slot, of identity KEY. */
  predicate OneSlot(w: World) {
    && |w.sh.slots| == 1 && SlotKey(w.sh.slots[0]) == KEY && !w.sh.slots[0].retryFailed
    && w.sh.started && !w.sh.stopping && w.sh.pathCount == 1 && w.gateOpen
    && w.hellos == {} && forall c :: c in w.greeted ==> c < w.nextRef
  }

  /** The connect callback of connection c sends its hello. */
  lemma Greet(ws: seq<World>, steps: seq<Step>, c: nat) returns (ws': seq<World>, steps': seq<Step>)
    requires IsRun(ws, steps) && HelloEnabled(ws[|steps|], c, EnterHello) && ws[|steps|].gateOpen
    ensures IsRun(ws', steps') && ws <= ws' && steps <= steps'
    ensures ws'[|steps'|] == ws[|steps|].(greeted := ws[|steps|].greeted + {c})
  {
    HelloOver(ws[|steps|], c);
    ws', steps' := Extend(ws, steps, HelloStep(c, EnterHello));
    ws', steps' := Extend(ws', steps', HelloStep(c, LeaveHello));
  }

  /** Activation tid takes the claim. */
  lemma TakeClaim(ws: seq<World>, steps: seq<Step>, tid: nat) returns (ws': seq<World>, steps': seq<Step>)
    requires IsRun(ws, steps)
    requires var w := ws[|steps|];
             OneSlot(w) && tid in w.threads && w.threads[tid].index == 0 && w.threads[tid].phase == Called &&
               1 <= w.sh.nextStartClaim < 10 &&
             w.nextRef >= 1 &&
             (w.threads[tid].kind == Plain || (w.threads[tid].kind == Retry(TICKET) && TicketMatches(w.sh, TICKET)))
    ensures IsRun(ws', steps') && ws <= ws' && steps <= steps'
    ensures var w, w' := ws[|steps|], ws'[|steps'|];
            && OneSlot(w') && tid in w'.threads && w'.threads[tid].index == 0
            && w'.threads[tid].phase == Starting(w.sh.nextStartClaim, KEY) && w'.sh.slots[0].retryToken == 0
            && w'.nextRef == w.nextRef && w'.sh.nextStartClaim == w.sh.nextStartClaim + 1 &&
               w'.sh.nextRetryToken == w.sh.nextRetryToken
            && w'.nextThread == w.nextThread && w'.tickets == w.tickets && w'.ops == w.ops
  {
    ws', steps' := Extend(ws, steps, ThreadStep(tid, Enter));
    ws', steps' := Extend(ws', steps', ThreadStep(tid, Claim(false)));
  }

  /** Activation tid starts the slot and the connection comes up. */
  lemma StartAndConnect(ws: seq<World>, steps: seq<Step>, tid: nat) returns (ws': seq<World>, steps': seq<Step>)
    requires IsRun(ws, steps)
    requires var w := ws[|steps|];
             OneSlot(w) && tid in w.threads && w.threads[tid].index == 0 && w.threads[tid].phase == Called &&
               1 <= w.sh.nextStartClaim < 10 &&
             w.nextRef >= 1 &&
             (w.threads[tid].kind == Plain || (w.threads[tid].kind == Retry(TICKET) && TicketMatches(w.sh, TICKET)))
    ensures IsRun(ws', steps') && ws <= ws' && steps <= steps'
    ensures var w, w' := ws[|steps|], ws'[|steps'|];
            && OneSlot(w') && w'.sh.slots[0].conn == w.nextRef && w'.sh.slots[0].ctx == w.nextRef + 1 &&
               w'.sh.slots[0].connected
            && !w'.sh.slots[0].closing && !w'.sh.slots[0].terminalReserved && w'.sh.slots[0].retryToken == 0
            && w'.nextRef == w.nextRef + 2 && w'.sh.nextStartClaim == w.sh.nextStartClaim + 1 &&
               w'.sh.nextRetryToken == w.sh.nextRetryToken
            && w.nextRef in w'.info && w'.info[w.nextRef] == ConnInfo(w.nextRef + 1, 0, KEY) && w.nextRef in w'.live
            && w'.nextThread == w.nextThread && w'.tickets == w.tickets && w'.ops == w.ops
  {
    ws', steps' := TakeClaim(ws, steps, tid);
    var w2 := ws'[|steps'|];
    ws', steps' := Extend(ws', steps', ThreadStep(tid, PublishConn));
    var w3 := ws'[|steps'|];
    assert w3.sh.slots[0].conn == w2.nextRef && w3.info[w2.nextRef] == ConnInfo(w2.nextRef + 1, 0, KEY);
    ws', steps' := Greet(ws', steps', w2.nextRef);
    ws', steps' := Extend(ws', steps', ConnStep(w2.nextRef, OnConnected));
  }

  /** The connection goes away, and its ticket is taken up by a retry task. */
  lemma LoseAndRetry(ws: seq<World>, steps: seq<Step>) returns (ws': seq<World>, steps': seq<Step>)
    requires IsRun(ws, steps)
    requires var w := ws[|steps|];
             OneSlot(w) && w.sh.slots[0].conn == 1 && w.sh.slots[0].ctx == 2 && w.sh.slots[0].retryToken == 0 &&
               w.sh.nextRetryToken == 1 &&
             1 in w.info && w.info[1] == ConnInfo(2, 0, KEY) && 1 in w.live
    ensures IsRun(ws', steps') && ws <= ws' && steps <= steps'
    ensures var w, w' := ws[|steps|], ws'[|steps'|];
            && OneSlot(w') && w.nextThread in w'.threads && w'.threads[w.nextThread] == Thread(0, Retry(TICKET), Called)
            && TicketMatches(w'.sh, TICKET) && w'.nextRef == w.nextRef && w'.sh.nextStartClaim == w.sh.nextStartClaim &&
               w'.ops == w.ops
  {
    ws', steps' := Extend(ws, steps, ConnStep(1, OnShutdownComplete));
    var w1 := ws'[|steps'|];
    assert w1.tickets[1] == Pending(TICKET, WithCallback) && TicketMatches(w1.sh, TICKET);
    ws', steps' := Extend(ws', steps', TicketStep(1, CallbackEnters));
    ws', steps' := Extend(ws', steps', TicketStep(1, Accept));
    ws', steps' := Extend(ws', steps', TicketStep(1, Run));
  }

  /** Two grants for one identity, and the operation of the first pending when the slot is reserved for the connection
      of the second. */
  lemma OperationMeetsLaterConnection() returns (ws: seq<World>, steps: seq<Step>, a: nat, g: nat)
    ensures IsRun(ws, steps) && a < g < |steps| && Grants(ws[a], steps[a], 0) && Grants(ws[g], steps[g], 0)
    ensures TermOp(0, steps[a].admin.key) in ws[|steps|].ops
    ensures TerminalTarget(ws[|steps|].sh, 0, steps[a].admin.key) == ws[g].sh.slots[0].conn != ws[a].sh.slots[0].conn
  {
    var request := AdminStep(RequestShutdown(0, KEY));
    ws, steps := [InitWorld(1, false, 0)], [];
    assert ws[0].sh.slots == [FreshSlot(0)];
    ws, steps := StartAndConnect(ws, steps, 0);
    a := |steps|;
    ws, steps := Extend(ws, steps, request);
    var first := ws[a];
    ws, steps := LoseAndRetry(ws, steps);
    ws, steps := StartAndConnect(ws, steps, 1);
    g := |steps|;
    var second := ws[g];
    ws, steps := Extend(ws, steps, request);
    assert ws[a] == first && steps[a] == request && ws[g] == second && steps[g] == request;
  }
}
