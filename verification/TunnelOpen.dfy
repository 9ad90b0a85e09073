/**
 The tunnel-open protocol of the ingress reactor.  One reactor thread works on the clients;
 completion callbacks of the tunnel code arrive on any thread, even while StartTunnel is still
 running; and Stop ends it all.  Accept, reject and cancel race for each open handle.

 A completion state and the handle StartTunnel returns for it carry the same number; 0 is null.
 */
module TunnelOpen {
  datatype Phase = Handshake | Opening | WritingOpenResponse

  datatype Client = Client(phase: Phase, forward: bool, handle: nat, comp: nat, ok: bool)

  /** The three calls that end the life of a handle. */
  datatype Call = Accepted | Rejected | Cancelled

  datatype Life = Running | Stopping | Stopped

  /** What the reactor thread is in the middle of; keep: the tunnel owns the socket. */
  datatype Pc =
    | Idle
    | InStart(fd: nat, h: nat, notified: bool)    // inside StartTunnel; notified: its callback has run
    | Written(fd: nat, h: nat, comp: nat, ok: bool, keep: bool)
    | Accepting(fd: nat, h: nat, comp: nat, keep: bool)  // terminal call reserved, inside AcceptTunnel
    | Rejecting(fd: nat, h: nat, comp: nat, keep: bool)
    | Closing(fd: nat, keep: bool)

  /** The descriptor and the completion token an open was started with. */
  datatype Start = Start(fd: nat, token: nat)

  datatype Task = Task(h: nat, ok: bool)

  /** How far a completion callback on a foreign thread has come. */
  datatype CbPc = Fired | Posting | Declining | Claimed

  datatype Callback = Callback(h: nat, ok: bool, pc: CbPc)

  datatype World = World(
    life: Life,
    token: nat,                      // the current completion token
    clients: map<nat, Client>,
    pc: Pc,
    pending: seq<Task>,
    callbacks: map<nat, Callback>,
    nextCallback: nat,
    nextHandle: nat,
    started: map<nat, Start>,
    returned: set<nat>,              // handles StartTunnel has returned
    terminal: set<nat>,              // completion states with TerminalCalled set
    calls: map<nat, seq<Call>>)      // history: terminal calls made on each handle

  function Init(): World {
    World(Running, 0, map[], Idle, [], map[], 0, 1, map[], {}, {}, map[])
  }

  function CallsOn(w: World, h: nat): seq<Call> {
    if h in w.calls then w.calls[h] else []
  }

  // --- blocks of the reactor -----------------------------------------------------------------------

  function Record(w: World, h: nat, call: Call): World {
    w.(calls := w.calls[h := CallsOn(w, h) + [call]])
  }

  /** MarkOpenCompletionTerminal returns true. */
  predicate Markable(w: World, comp: nat) {
    comp == 0 || comp !in w.terminal
  }

  function Mark(w: World, comp: nat): World {
    if comp == 0 then w else w.(terminal := w.terminal + {comp})
  }

  /** RejectOpenHandleOnce and CancelOpenHandleOnce. */
  function Once(w: World, h: nat, comp: nat, call: Call): World {
    if h == 0 || !Markable(w, comp) then w else Record(Mark(w, comp), h, call)
  }

  /** CloseClientLocked. */
  function CloseClient(w: World, fd: nat): World {
    if fd !in w.clients then w
    else Once(w.(clients := w.clients - {fd}), w.clients[fd].handle, w.clients[fd].comp, Cancelled)
  }

  /** CloseAllLocked over its list of descriptors. */
  function CloseEach(w: World, fds: seq<nat>): World
    decreases |fds|
  {
    if fds == [] then w else CloseEach(CloseClient(w, fds[0]), fds[1..])
  }

  /** StartClientOpen up to the call of StartTunnel. */
  function BeginOpen(w: World, fd: nat): World {
    if fd !in w.clients || w.clients[fd].phase != Handshake then w
    else
      var h := w.nextHandle;
      w.(clients := w.clients[fd := w.clients[fd].(phase := Opening, comp := h)],
         pc := InStart(fd, h, false),
         nextHandle := h + 1,
         started := w.started[h := Start(fd, w.token)])
  }

  /** CompleteClientOpen, up to the write it begins. */
  function CompleteOpen(w: World, fd: nat, h: nat, comp: nat, ok: bool): World {
    if fd !in w.clients || w.clients[fd].phase != Opening then Once(w, h, comp, Rejected)
    else
      var c := w.clients[fd];
      if c.handle != 0 && h != 0 && c.handle != h then Once(w, h, comp, Rejected)
      else
        w.(clients := w.clients[fd := c.(handle := if c.handle == 0 then h else c.handle, comp := comp, ok := ok,
                                         phase := WritingOpenResponse)])
  }

  /** StartClientOpen after StartTunnel has returned a handle, or null. */
  function EndOpen(w: World, fd: nat, h: nat, got: bool): World {
    if !got then CompleteOpen(w.(pc := Idle), fd, 0, 0, false)
    else
      var w1 := w.(pc := Idle, returned := w.returned + {h});
      if fd !in w.clients then Once(w1, h, h, Rejected)
      else w1.(clients := w.clients[fd := w.clients[fd].(handle := h)])
  }

  /** TimeoutClientOpen, up to the write it begins. */
  function TimeoutOpen(w: World, fd: nat, comp: nat): World {
    if fd !in w.clients || w.clients[fd].phase != Opening || w.clients[fd].comp != comp then w
    else
      var c := w.clients[fd];
      Once(w.(clients := w.clients[fd := c.(handle := 0, ok := false, phase := WritingOpenResponse)]),
           c.handle, comp, Cancelled)
  }

  /** HandleClientWrite once the open response has been written out. */
  function FinishWrite(w: World, fd: nat): World
    requires fd in w.clients
  {
    var c := w.clients[fd];
    var fail := c.forward && !c.ok;
    w.(clients := if fail then w.clients[fd := c.(handle := 0)] else w.clients,
       pc := Written(fd, c.handle, c.comp, c.ok, !fail && c.handle != 0))
  }

  /** A queued completion runs. */
  function RunTask(w: World, t: Task): World
    requires t.h in w.started
  {
    if w.started[t.h].token != w.token then Once(w, t.h, t.h, Rejected)
    else CompleteOpen(w, w.started[t.h].fd, t.h, t.h, t.ok)
  }

  // --- steps ----------------------------------------------------------------------------------------

  datatype ClientAct =
    | AcceptClient(fd: nat, forward: bool)
    | StartOpen(fd: nat)
    | StartReturns(got: bool)
    | CloseFd(fd: nat)               // socket error, end of stream or peer removal, also from inside a call
    | Timeout(fd: nat, comp: nat)
    | NextTask

  datatype WriteAct =
    | WriteDone(fd: nat)
    | AfterWrite
    | AcceptReturns(accepted: bool)
    | DoReject
    | DropEntry

  datatype CallbackAct = ReadToken | PostTask | Decline | MakeCall

  datatype StopAct = BeginStop | CloseAll(fds: seq<nat>) | Restart

  datatype Step =
    | OnClient(act: ClientAct)
    | OnWrite(write: WriteAct)
    | Fire(h: nat, ok: bool)
    | OnCallback(id: nat, move: CallbackAct)
    | OnStop(stop: StopAct)

  /** The tunnel code may run the callback of a handle from the moment StartTunnel is running for it. */
  predicate MayFire(w: World, h: nat) {
    h in w.returned || (w.pc.InStart? && w.pc.h == h)
  }

  predicate ClientEnabled(w: World, act: ClientAct) {
    w.life != Stopped &&
    match act
    case AcceptClient(fd, _) => w.pc == Idle && fd !in w.clients
    case StartOpen(fd) => w.pc == Idle
    case StartReturns(got) => w.pc.InStart? && (w.pc.notified ==> got)
    case CloseFd(fd) => true
    case Timeout(_, comp) => w.pc == Idle && comp != 0
    case NextTask => w.pc == Idle && w.pending != [] && w.pending[0].h in w.started
  }

  function ApplyClient(w: World, act: ClientAct): World
    requires ClientEnabled(w, act)
  {
    match act
    case AcceptClient(fd, forward) => w.(clients := w.clients[fd := Client(Handshake, forward, 0, 0, false)])
    case StartOpen(fd) => BeginOpen(w, fd)
    case StartReturns(got) => EndOpen(w, w.pc.fd, w.pc.h, got)
    case CloseFd(fd) => CloseClient(w, fd)
    case Timeout(fd, comp) => TimeoutOpen(w, fd, comp)
    case NextTask => RunTask(w.(pending := w.pending[1..]), w.pending[0])
  }

  predicate WriteEnabled(w: World, write: WriteAct) {
    w.life != Stopped &&
    match write
    case WriteDone(fd) => w.pc == Idle && fd in w.clients && w.clients[fd].phase == WritingOpenResponse
    case AfterWrite => w.pc.Written?
    case AcceptReturns(_) => w.pc.Accepting?
    case DoReject => w.pc.Rejecting?
    case DropEntry => w.pc.Closing?
  }

  function ApplyWrite(w: World, write: WriteAct): World
    requires WriteEnabled(w, write)
  {
    var p := w.pc;
    match write
    case WriteDone(fd) => FinishWrite(w, fd)
    case AfterWrite =>
      if p.h == 0 then w.(pc := Closing(p.fd, p.keep))
      else if !p.ok || !Markable(w, p.comp) then w.(pc := Rejecting(p.fd, p.h, p.comp, p.keep))
      else Mark(w, p.comp).(pc := Accepting(p.fd, p.h, p.comp, p.keep))
    case AcceptReturns(accepted) =>
      if accepted then Record(w, p.h, Accepted).(pc := Closing(p.fd, p.keep))
      else w.(terminal := w.terminal - {p.comp}, pc := Rejecting(p.fd, p.h, p.comp, p.keep))
    case DoReject => Once(w, p.h, p.comp, Rejected).(pc := Closing(p.fd, p.keep))
    case DropEntry =>
      if p.keep then w.(clients := w.clients - {p.fd}, pc := Idle) else CloseClient(w, p.fd).(pc := Idle)
  }

  predicate CallbackEnabled(w: World, id: nat, move: CallbackAct) {
    id in w.callbacks && w.callbacks[id].h in w.started &&
    match move
    case ReadToken => w.callbacks[id].pc == Fired
    case PostTask => w.callbacks[id].pc == Posting
    case Decline => w.callbacks[id].pc == Declining
    case MakeCall => w.callbacks[id].pc == Claimed
  }

  function ApplyCallback(w: World, id: nat, move: CallbackAct): World
    requires CallbackEnabled(w, id, move)
  {
    var c := w.callbacks[id];
    match move
    case ReadToken =>
      w.(callbacks := w.callbacks[id := c.(pc := if w.started[c.h].token == w.token then Posting else Declining)])
    case PostTask =>
      if w.life == Running
      then w.(callbacks := w.callbacks - {id}, pending := w.pending + [Task(c.h, c.ok)])
      else w.(callbacks := w.callbacks[id := c.(pc := Declining)])
    case Decline =>
      if c.h in w.terminal then w.(callbacks := w.callbacks - {id})
      else w.(callbacks := w.callbacks[id := c.(pc := Claimed)], terminal := w.terminal + {c.h})
    case MakeCall => Record(w, c.h, Rejected).(callbacks := w.callbacks - {id})
  }

  /** The reactor thread is joined and its queue drained before CloseAll. */
  predicate StopEnabled(w: World, stop: StopAct) {
    match stop
    case BeginStop => w.life == Running
    case CloseAll(fds) =>
      w.life == Stopping && w.pc == Idle && w.pending == [] && forall fd :: fd in w.clients ==> fd in fds
    case Restart => w.life == Stopped
  }

  function ApplyStop(w: World, stop: StopAct): World
    requires StopEnabled(w, stop)
  {
    match stop
    case BeginStop => w.(life := Stopping, token := w.token + 1)
    case CloseAll(fds) => CloseEach(w, fds).(clients := map[], life := Stopped)
    case Restart => w.(life := Running)
  }

  predicate Enabled(w: World, step: Step) {
    match step
    case OnClient(act) => ClientEnabled(w, act)
    case OnWrite(write) => WriteEnabled(w, write)
    case Fire(h, _) => MayFire(w, h)
    case OnCallback(id, move) => CallbackEnabled(w, id, move)
    case OnStop(stop) => StopEnabled(w, stop)
  }

  function FireCallback(w: World, h: nat, ok: bool): World {
    w.(callbacks := w.callbacks[w.nextCallback := Callback(h, ok, Fired)], nextCallback := w.nextCallback + 1,
       pc := if w.pc.InStart? && w.pc.h == h then w.pc.(notified := true) else w.pc)
  }

  function Apply(w: World, step: Step): World
    requires Enabled(w, step)
  {
    match step
    case OnClient(act) => ApplyClient(w, act)
    case OnWrite(write) => ApplyWrite(w, write)
    case Fire(h, ok) => FireCallback(w, h, ok)
    case OnCallback(id, move) => ApplyCallback(w, id, move)
    case OnStop(stop) => ApplyStop(w, stop)
  }

  ghost predicate IsRun(ws: seq<World>, steps: seq<Step>) {
    |ws| == |steps| + 1 && ws[0] == Init() &&
    forall i {:trigger steps[i]} :: 0 <= i < |steps| ==> Enabled(ws[i], steps[i]) && ws[i + 1] == Apply(ws[i], steps[i])
  }
}
