/**
 The client session as a concurrent system.  Every block that runs under the session lock
 or the gate lock is one atomic step; everything in between may interleave.  Results of
 msquic calls, of the delayed-task scheduler and of the administrator are arbitrary.
 */
module SlotWorld {
  import opened Prelude
  import opened ClientSlots

  /** Where one activation of StartSlot is between two of its atomic blocks. */
  datatype Phase =
    | Called                                       // about to check the session and enter the gate
    | Entered                                      // inside the gate, about to take a claim
    | Starting(claim: nat, key: Key)               // claimed, opening a connection
    | Started(claim: nat, key: Key, conn: nat, ctx: nat)  // published, ConnectionStart under way
    | MustRetry(claim: nat, key: Key)              // failed, about to reserve a retry
    | Submitting(claim: nat, token: nat)           // handing the reserved ticket to the scheduler
    | Leaving(claim: nat)                          // about to leave the gate
    | Releasing(claim: nat)                        // about to run the claim guard
    | Returned                                     // a retry task about to leave its own gate entry

  datatype Thread = Thread(index: nat, kind: StartKind, phase: Phase)

  /** Where a reserved ticket is before its task runs. */
  datatype Stage =
    | WithCallback   // reserved by a shutdown callback that has not entered the gate yet
    | InHand         // being submitted
    | Scheduled      // accepted by the delayed-task scheduler
    | RefusedStage   // refused by the scheduler, slot not latched yet

  datatype Pending = Pending(ticket: Ticket, stage: Stage)

  /** What a connection's callback context remembers. */
  datatype ConnInfo = ConnInfo(ctx: nat, index: nat, key: Key)

  datatype TermOp = TermOp(index: nat, key: Key)

  datatype World = World(
    sh: Shared,
    gateOpen: bool,
    activeCalls: nat,           // the gate's count of calls inside
    callbacks: set<nat>,        // tokens that a shutdown callback inside the gate is submitting
    hellos: set<nat>,           // connections whose connect callback is inside the gate, sending the hello
    greeted: set<nat>,          // connections whose connect callback is past that
    threads: map<nat, Thread>,
    nextThread: nat,
    tickets: map<nat, Pending>,
    info: map<nat, ConnInfo>,
    live: set<nat>,
    nextRef: nat,
    ops: multiset<TermOp>,
    claimedTokens: seq<nat>)    // history: the retry tokens that have been turned into starts

  /** The next block of one activation of StartSlot. */
  datatype ThreadAct =
    | Enter
    | Claim(valid: bool)
    | OpenFails
    | PublishConn
    | FinishStart(accepted: bool)
    | ReserveAfterFailure
    | EndSubmit
    | LeaveGate
    | DropClaim
    | EndTask

  datatype TicketAct = CallbackEnters | Accept | Refuse | Latch | Run

  /** The first part of the connect callback: the gate around SendClientHello. */
  datatype HelloAct = EnterHello | LeaveHello

  datatype ConnEvent = OnConnected | OnDisconnected | OnShutdownComplete

  datatype AdminAct =
    | CallIdle(index: nat)
    | ReconnectAt(index: nat)
    | GrowTo(desired: nat, built: bool)
    | ShrinkAt(index: nat)
    | RequestShutdown(index: nat, key: Key)
    | RunTerminal(op: TermOp)
    | OtherIds(count: nat)
    | LeaveCallback(token: nat)
    | CloseGate
    | ClearSlots

  datatype Step =
    | ThreadStep(tid: nat, act: ThreadAct)
    | TicketStep(token: nat, move: TicketAct)
    | HelloStep(conn: nat, hello: HelloAct)
    | ConnStep(conn: nat, event: ConnEvent)
    | AdminStep(admin: AdminAct)

  // --- initial states ------------------------------------------------------------------

  /** The state QuicClientSession::Start leaves behind, one start owed per slot. */
  function InitWorld(count: nat, pathMode: bool, firstId: nat): World {
    World(
      Shared(true, false, pathMode, count,
             seq(count, i requires 0 <= i => FreshSlot(firstId + i)), 1, 1, firstId + count),
      true, 0, {}, {}, {}, map tid | 0 <= tid < count :: Thread(tid, Plain, Called), count,
      map[], map[], {}, 1, multiset{}, [])
  }

  // --- activations of StartSlot ------------------------------------------------------------

  predicate ThreadEnabled(w: World, tid: nat, act: ThreadAct) {
    tid in w.threads &&
    var p := w.threads[tid].phase;
    match act
    case Enter => p.Called?
    case Claim(_) => p.Entered?
    case OpenFails => p.Starting?
    case PublishConn => p.Starting?
    case FinishStart(_) => p.Started?
    case ReserveAfterFailure => p.MustRetry?
    case EndSubmit => p.Submitting? && !AtStage(w, p.token, InHand) && !AtStage(w, p.token, RefusedStage)
    case LeaveGate => p.Leaving?
    case DropClaim => p.Releasing?
    case EndTask => p.Returned?
  }

  predicate AtStage(w: World, token: nat, stage: Stage) {
    token in w.tickets && w.tickets[token].stage == stage
  }

  /** Where the activation is after the block. */
  function NextPhase(w: World, tid: nat, act: ThreadAct): Phase
    requires ThreadEnabled(w, tid, act)
  {
    var t := w.threads[tid];
    var p := t.phase;
    match act
    case Enter => if Live(w.sh, t.index) && w.gateOpen then Entered else Returned
    case Claim(valid) =>
      (match ClaimStart(w.sh, t.index, t.kind, valid).result
       case Refused => Leaving(0)
       case OutOfClaims => Leaving(0)
       case AlreadyUp(claim) => Leaving(claim)
       case Claimed(claim, key) => Starting(claim, key))
    case OpenFails => MustRetry(p.claim, p.key)
    case PublishConn =>
      if MayPublish(w.sh, t.index, p.key.generation)
      then Started(p.claim, p.key, w.nextRef, w.nextRef + 1) else Leaving(p.claim)
    case FinishStart(accepted) =>
      if !accepted && StartStillCurrent(w.sh, t.index, p.conn, p.ctx)
      then MustRetry(p.claim, p.key) else Leaving(p.claim)
    case ReserveAfterFailure =>
      (match ReserveRetry(w.sh, t.index, p.key).ticket
       case None => Leaving(p.claim)
       case Some(ticket) => Submitting(p.claim, ticket.token))
    case EndSubmit => Leaving(p.claim)
    case LeaveGate => Releasing(p.claim)
    case DropClaim => Returned
    case EndTask => Returned
  }

  function ClaimBody(w: World, t: Thread, valid: bool): World {
    var e := ClaimStart(w.sh, t.index, t.kind, valid);
    var taken := e.result.AlreadyUp? || e.result.Claimed?;
    w.(sh := e.s,
       claimedTokens := if taken && t.kind.Retry? then w.claimedTokens + [t.kind.ticket.token] else w.claimedTokens)
  }

  function PublishBody(w: World, t: Thread): World
    requires t.phase.Starting?
  {
    var key, conn, ctx := t.phase.key, w.nextRef, w.nextRef + 1;
    if MayPublish(w.sh, t.index, key.generation) then
      w.(sh := Publish(w.sh, t.index, key.generation, conn, ctx),
         info := w.info[conn := ConnInfo(ctx, t.index, key)],
         live := w.live + {conn},
         nextRef := w.nextRef + 2)
    else w
  }

  function FinishBody(w: World, t: Thread, accepted: bool): World
    requires t.phase.Started?
  {
    if !accepted && StartStillCurrent(w.sh, t.index, t.phase.conn, t.phase.ctx) then
      w.(sh := WithdrawStart(w.sh, t.index, t.phase.conn, t.phase.ctx), live := w.live - {t.phase.conn})
    else w
  }

  function ReserveBody(w: World, index: nat, key: Key, stage: Stage): World {
    var r := ReserveRetry(w.sh, index, key);
    FileTicket(w.(sh := r.s), r.ticket, stage)
  }

  function FileTicket(w: World, ticket: Option<Ticket>, stage: Stage): World {
    match ticket
    case None => w
    case Some(t) => w.(tickets := w.tickets[t.token := Pending(t, stage)])
  }

  /** Everything the block does except moving its own activation on. */
  function ThreadBody(w: World, tid: nat, act: ThreadAct): World
    requires ThreadEnabled(w, tid, act)
  {
    var t := w.threads[tid];
    match act
    case Claim(valid) => ClaimBody(w, t, valid)
    case PublishConn => PublishBody(w, t)
    case FinishStart(accepted) => FinishBody(w, t, accepted)
    case ReserveAfterFailure => ReserveBody(w, t.index, t.phase.key, InHand)
    case DropClaim =>
      if t.phase.claim == 0 then w else w.(sh := ReleaseClaim(w.sh, t.index, t.phase.claim))
    case _ => w
  }

  /** The gate's count after the block: StartSlot enters and leaves once, and a retry once more around it. */
  function CallsAfter(w: World, tid: nat, act: ThreadAct): nat
    requires ThreadEnabled(w, tid, act)
  {
    match act
    case Enter => if Live(w.sh, w.threads[tid].index) && w.gateOpen then w.activeCalls + 1 else w.activeCalls
    case LeaveGate => Lowered(w.activeCalls)
    case EndTask => if w.threads[tid].kind.Retry? then Lowered(w.activeCalls) else w.activeCalls
    case _ => w.activeCalls
  }

  function ApplyThread(w: World, tid: nat, act: ThreadAct): World
    requires ThreadEnabled(w, tid, act)
  {
    var body := ThreadBody(w, tid, act);
    body.(activeCalls := CallsAfter(w, tid, act),
          threads := if act.EndTask? then w.threads - {tid}
                     else w.threads[tid := w.threads[tid].(phase := NextPhase(w, tid, act))])
  }

  // --- tickets ---------------------------------------------------------------------------------

  predicate TicketEnabled(w: World, token: nat, move: TicketAct) {
    match move
    case CallbackEnters => AtStage(w, token, WithCallback)
    case Accept => AtStage(w, token, InHand)
    case Refuse => AtStage(w, token, InHand)
    case Latch => AtStage(w, token, RefusedStage)
    case Run => AtStage(w, token, Scheduled)
  }

  function MoveTicket(w: World, token: nat, stage: Stage): World
    requires token in w.tickets
  {
    w.(tickets := w.tickets[token := w.tickets[token].(stage := stage)])
  }

  function DropTicket(w: World, token: nat): World {
    w.(tickets := w.tickets - {token})
  }

  function Spawn(w: World, index: nat, kind: StartKind): World {
    w.(threads := w.threads[w.nextThread := Thread(index, kind, Called)], nextThread := w.nextThread + 1)
  }

  function ApplyTicket(w: World, token: nat, move: TicketAct): World
    requires TicketEnabled(w, token, move)
  {
    var t := w.tickets[token].ticket;
    match move
    case CallbackEnters =>
      if w.gateOpen
      then MoveTicket(w.(activeCalls := w.activeCalls + 1, callbacks := w.callbacks + {token}), token, InHand)
      else DropTicket(w, token)
    case Accept => MoveTicket(w, token, Scheduled)
    case Refuse => MoveTicket(w, token, RefusedStage)
    case Latch => DropTicket(w.(sh := RefuseRetry(w.sh, t)), token)
    case Run =>
      if w.gateOpen then Spawn(DropTicket(w.(activeCalls := w.activeCalls + 1), token), t.index, Retry(t))
      else DropTicket(w, token)
  }

  // --- connection callbacks --------------------------------------------------------------------

  /** Callbacks of one connection come one after the other. */
  predicate ConnEnabled(w: World, conn: nat) {
    conn in w.live && conn in w.info && conn !in w.hellos
  }

  predicate HelloEnabled(w: World, conn: nat, hello: HelloAct) {
    match hello
    case EnterHello => ConnEnabled(w, conn) && conn !in w.greeted
    case LeaveHello => conn in w.hellos
  }

  function ApplyHello(w: World, conn: nat, hello: HelloAct): World
    requires HelloEnabled(w, conn, hello)
  {
    match hello
    case EnterHello =>
      if w.gateOpen then w.(activeCalls := w.activeCalls + 1, hellos := w.hellos + {conn})
      else w.(greeted := w.greeted + {conn})
    case LeaveHello =>
      w.(activeCalls := Lowered(w.activeCalls), hellos := w.hellos - {conn}, greeted := w.greeted + {conn})
  }

  function ApplyConn(w: World, conn: nat, event: ConnEvent): World
    requires ConnEnabled(w, conn)
  {
    var c := w.info[conn];
    match event
    case OnConnected => w.(sh := SlotConnected(w.sh, c.index, conn, c.key))
    case OnDisconnected => w.(sh := SlotDisconnected(w.sh, c.index, conn))
    case OnShutdownComplete =>
      var r := CompleteShutdown(w.sh, c.index, conn, c.ctx, c.key);
      FileTicket(w.(sh := r.s, live := w.live - {conn}), r.ticket, WithCallback)
  }

  // --- administration, terminal shutdown, Stop ------------------------------------------------

  predicate AdminEnabled(w: World, admin: AdminAct) {
    match admin
    case RunTerminal(op) => op in w.ops
    case LeaveCallback(token) => token in w.callbacks && !AtStage(w, token, InHand) && !AtStage(w, token, RefusedStage)
    case CloseGate => w.gateOpen
    case ClearSlots => !w.gateOpen && w.activeCalls == 0
    case _ => true
  }

  /** The start owed for the slot that thread `tid` of the batch beginning at `first` takes care of. */
  function OwedStart(base: nat, first: nat, tid: nat): Thread
    requires first <= tid
  {
    Thread(base + (tid - first), Plain, Called)
  }

  function ApplyGrow(w: World, desired: nat, built: bool): World {
    if MayGrow(w.sh, desired) && built then
      var base := |w.sh.slots|;
      var more := desired - base;
      w.(sh := Grow(w.sh, desired, built),
         threads := w.threads +
                    (map tid | w.nextThread <= tid < w.nextThread + more :: OwedStart(base, w.nextThread, tid)),
         nextThread := w.nextThread + more)
    else w
  }

  function ApplyReconnect(w: World, index: nat): World {
    if MayReconnect(w.sh, index) then Spawn(w.(sh := Reconnect(w.sh, index)), index, Plain) else w
  }

  function ApplyRequest(w: World, index: nat, key: Key): World {
    if MayTerminate(w.sh, index, key)
    then w.(sh := RequestTerminal(w.sh, index, key), ops := w.ops + multiset{TermOp(index, key)})
    else w
  }

  function ApplyAdmin(w: World, admin: AdminAct): World
    requires AdminEnabled(w, admin)
  {
    match admin
    case CallIdle(index) => Spawn(w, index, Idle)
    case ReconnectAt(index) => ApplyReconnect(w, index)
    case GrowTo(desired, built) => ApplyGrow(w, desired, built)
    case ShrinkAt(index) => w.(sh := Shrink(w.sh, index))
    case RequestShutdown(index, key) => ApplyRequest(w, index, key)
    case RunTerminal(op) => w.(ops := w.ops - multiset{op})
    case OtherIds(count) => w.(sh := w.sh.(nextNumericId := w.sh.nextNumericId + count))
    case LeaveCallback(token) => w.(activeCalls := Lowered(w.activeCalls), callbacks := w.callbacks - {token})
    case CloseGate => w.(gateOpen := false)
    case ClearSlots => w.(sh := StopAll(w.sh))
  }

  // --- all steps ---------------------------------------------------------------------------------

  predicate Enabled(w: World, step: Step) {
    match step
    case ThreadStep(tid, act) => ThreadEnabled(w, tid, act)
    case TicketStep(token, move) => TicketEnabled(w, token, move)
    case HelloStep(conn, hello) => HelloEnabled(w, conn, hello)
    case ConnStep(conn, event) => ConnEnabled(w, conn) && (event.OnConnected? ==> conn in w.greeted)
    case AdminStep(admin) => AdminEnabled(w, admin)
  }

  function Apply(w: World, step: Step): World
    requires Enabled(w, step)
  {
    match step
    case ThreadStep(tid, act) => ApplyThread(w, tid, act)
    case TicketStep(token, move) => ApplyTicket(w, token, move)
    case HelloStep(conn, hello) => ApplyHello(w, conn, hello)
    case ConnStep(conn, event) => ApplyConn(w, conn, event)
    case AdminStep(admin) => ApplyAdmin(w, admin)
  }

  // --- runs ------------------------------------------------------------------------------

  ghost predicate IsRun(ws: seq<World>, steps: seq<Step>) {
    |ws| == |steps| + 1 &&
    (exists count: nat, pathMode, firstId: nat :: ws[0] == InitWorld(count, pathMode, firstId)) &&
    forall i {:trigger steps[i]} :: 0 <= i < |steps| ==> Enabled(ws[i], steps[i]) && ws[i + 1] == Apply(ws[i], steps[i])
  }

  /** Where a sequence of steps leads, if each of them is possible when its turn comes. */
  function Exec(w: World, steps: seq<Step>): Option<World>
    decreases |steps|
  {
    if steps == [] then Some(w)
    else if Enabled(w, steps[0]) then Exec(Apply(w, steps[0]), steps[1..])
    else None
  }

  /** The step takes away the highest slot while some start is between its claim and its publication. */
  predicate CutsStart(w: World, step: Step) {
    step.AdminStep? && step.admin.ShrinkAt? && MayShrink(w.sh, step.admin.index) &&
    exists tid | tid in w.threads :: w.threads[tid].index == step.admin.index && w.threads[tid].phase.Starting?
  }
}
