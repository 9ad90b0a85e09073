/**
 The server connection cleanup service as a concurrent system: producers register and enqueue
 their contexts, one worker releases them in queue order, and FinalStop closes the service.
 Each block under the queue lock, each atomic update and each wait is one step.
 */
module CleanupWorld {
  datatype Lifecycle = Running | Closing | Stopped

  /** Where a registered context is. */
  datatype CtxPhase =
    | Idle              // its connection is in use
    | Marked            // CleanupQueued was set, the queue lock is not held yet
    | Queued            // linked into the queue
    | Taken             // popped, waiting for the connection's outer callback to return
    | OwnerReset        // the connection owner was released
    | Counted           // the tracker's Completed was raised

  datatype Ctx = Ctx(tracker: nat, phase: CtxPhase)

  /** A context that has been numbered: its fields stay as they are until it is deleted. */
  datatype Entry = Entry(c: nat, tracker: nat, ordinal: nat)

  /** Who may pop the queue: the worker thread, or a caller of FinalStop. */
  datatype Consumer = WorkerThread | Stopper(tid: nat)

  datatype StopPhase =
    | WaitProducers     // admission closed, waiting for ProducerCount to reach zero
    | WaitStopped       // another caller is closing
    | Joining(hasWorker: bool)
    | Draining
    | Returned

  datatype World = World(
    lifecycle: Lifecycle,
    admission: bool,
    producers: nat,
    ctxs: map<nat, Ctx>,
    nextCtx: nat,
    queue: seq<Entry>,
    enqueued: map<nat, nat>,         // per tracker; absent means 0
    completed: map<nat, nat>,
    workerUp: bool,                  // the worker thread is running
    workerHandle: bool,              // Worker_ still holds it
    runningFlag: bool,               // Running_
    held: map<Consumer, Entry>,        // contexts popped and not deleted yet
    stops: map<nat, StopPhase>,
    released: set<(nat, nat)>)       // history: (tracker, ordinal) whose owner was reset

  function Init(): World {
    World(Running, true, 0, map[], 0, [], map[], map[], false, false, false, map[], map[], {})
  }

  function At(m: map<nat, nat>, t: nat): nat {
    if t in m then m[t] else 0
  }

  // --- producers -----------------------------------------------------------------------------

  datatype ProducerAct =
    | Register(tracker: nat)
    | Abort(c: nat)                  // the listener gives a fresh context up again
    | Mark(c: nat)
    | EnqueueLocked(c: nat, threadStarts: bool)

  datatype ConsumerAct = Pop | ResetOwner | Count | Delete | Exit

  datatype StopAct = StopCalled | StopProceeds | StopJoined | StopFinishes | StopWaited

  datatype Step =
    | Produce(producer: ProducerAct)
    | Consume(k: Consumer, consumer: ConsumerAct)
    | FinalStop(tid: nat, stop: StopAct)

  function SetPhase(w: World, c: nat, phase: CtxPhase): World
    requires c in w.ctxs
  {
    w.(ctxs := w.ctxs[c := w.ctxs[c].(phase := phase)])
  }

  predicate InPhase(w: World, c: nat, phase: CtxPhase) {
    c in w.ctxs && w.ctxs[c].phase == phase
  }

  predicate Holds(w: World, k: Consumer, phase: CtxPhase) {
    k in w.held && InPhase(w, w.held[k].c, phase)
  }

  predicate MayPop(w: World, k: Consumer) {
    k !in w.held && w.queue != [] &&
    match k
    case WorkerThread => w.workerUp
    case Stopper(tid) => tid in w.stops && w.stops[tid] == Draining
  }

  predicate ProducerEnabled(w: World, act: ProducerAct) {
    match act
    case Register(_) => true
    case Abort(c) => InPhase(w, c, Idle)
    case Mark(c) => InPhase(w, c, Idle)
    case EnqueueLocked(c, _) => InPhase(w, c, Marked)
  }

  predicate ConsumerEnabled(w: World, k: Consumer, act: ConsumerAct) {
    match act
    case Pop => MayPop(w, k) && w.queue[0].c in w.ctxs
    case ResetOwner => Holds(w, k, Taken)
    case Count => Holds(w, k, OwnerReset)
    case Delete => Holds(w, k, Counted)
    case Exit => k == WorkerThread && w.workerUp && k !in w.held && w.lifecycle != Running && w.queue == []
  }

  predicate StopEnabled(w: World, tid: nat, act: StopAct) {
    match act
    case StopCalled => tid !in w.stops
    case StopProceeds => tid in w.stops && w.stops[tid] == WaitProducers && w.producers == 0
    case StopJoined => tid in w.stops && w.stops[tid].Joining? && (w.stops[tid].hasWorker ==> !w.workerUp)
    case StopFinishes => tid in w.stops && w.stops[tid] == Draining && Stopper(tid) !in w.held && w.queue == []
    case StopWaited => tid in w.stops && w.stops[tid] == WaitStopped && w.lifecycle == Stopped
  }

  predicate Enabled(w: World, step: Step) {
    match step
    case Produce(act) => ProducerEnabled(w, act)
    case Consume(k, act) => ConsumerEnabled(w, k, act)
    case FinalStop(tid, act) => StopEnabled(w, tid, act)
  }

  function ApplyRegister(w: World, tracker: nat): World {
    if !w.admission then w
    else w.(producers := w.producers + 1, nextCtx := w.nextCtx + 1,
            ctxs := w.ctxs[w.nextCtx := Ctx(tracker, Idle)])
  }

  function Unregister(w: World, c: nat): World {
    w.(ctxs := w.ctxs - {c}, producers := if w.producers > 0 then w.producers - 1 else 0)
  }

  /** StartWorkerLocked starts a thread; it looks at the running flag only. */
  predicate StartsWorker(w: World, threadStarts: bool) {
    w.lifecycle == Running && !w.runningFlag && threadStarts
  }

  /** Refused unless the service is running; otherwise the tracker numbers the context. */
  function ApplyEnqueue(w: World, c: nat, threadStarts: bool): World
    requires c in w.ctxs
  {
    if w.lifecycle != Running then SetPhase(w, c, Idle)
    else
      var t := w.ctxs[c].tracker;
      var ordinal := At(w.enqueued, t) + 1;
      var starts := StartsWorker(w, threadStarts);
      w.(enqueued := w.enqueued[t := ordinal],
         ctxs := w.ctxs[c := Ctx(t, Queued)],
         queue := w.queue + [Entry(c, t, ordinal)],
         workerUp := w.workerUp || starts,
         workerHandle := w.workerHandle || starts,
         runningFlag := w.runningFlag || starts)
  }

  function ApplyPop(w: World, k: Consumer): World
    requires w.queue != [] && w.queue[0].c in w.ctxs
  {
    SetPhase(w, w.queue[0].c, Taken).(queue := w.queue[1..], held := w.held[k := w.queue[0]])
  }

  function ApplyResetOwner(w: World, k: Consumer): World
    requires Holds(w, k, Taken)
  {
    var e := w.held[k];
    SetPhase(w, e.c, OwnerReset).(released := w.released + {(e.tracker, e.ordinal)})
  }

  function ApplyCount(w: World, k: Consumer): World
    requires Holds(w, k, OwnerReset)
  {
    var e := w.held[k];
    SetPhase(w, e.c, Counted).(completed := w.completed[e.tracker := At(w.completed, e.tracker) + 1])
  }

  function ApplyProducer(w: World, act: ProducerAct): World
    requires ProducerEnabled(w, act)
  {
    match act
    case Register(tracker) => ApplyRegister(w, tracker)
    case Abort(c) => Unregister(w, c)
    case Mark(c) => SetPhase(w, c, Marked)
    case EnqueueLocked(c, threadStarts) => ApplyEnqueue(w, c, threadStarts)
  }

  function ApplyConsumer(w: World, k: Consumer, act: ConsumerAct): World
    requires ConsumerEnabled(w, k, act)
  {
    match act
    case Pop => ApplyPop(w, k)
    case ResetOwner => ApplyResetOwner(w, k)
    case Count => ApplyCount(w, k)
    case Delete => Unregister(w, w.held[k].c).(held := w.held - {k})
    case Exit => w.(workerUp := false)
  }

  function StopNext(w: World, tid: nat, act: StopAct): StopPhase {
    match act
    case StopCalled =>
      (match w.lifecycle
       case Stopped => Returned
       case Closing => WaitStopped
       case Running => WaitProducers)
    case StopProceeds => Joining(w.workerHandle)
    case StopJoined => Draining
    case StopFinishes => Returned
    case StopWaited => Returned
  }

  function ApplyStop(w: World, tid: nat, act: StopAct): World
    requires StopEnabled(w, tid, act)
  {
    w.(stops := w.stops[tid := StopNext(w, tid, act)],
       admission := w.admission && !(act.StopCalled? && w.lifecycle == Running),
       lifecycle := if act.StopProceeds? then Closing else if act.StopFinishes? then Stopped else w.lifecycle,
       workerHandle := w.workerHandle && !act.StopProceeds?,
       runningFlag := w.runningFlag && !act.StopFinishes?)
  }

  function Apply(w: World, step: Step): World
    requires Enabled(w, step)
  {
    match step
    case Produce(act) => ApplyProducer(w, act)
    case Consume(k, act) => ApplyConsumer(w, k, act)
    case FinalStop(tid, act) => ApplyStop(w, tid, act)
  }

  ghost predicate IsRun(ws: seq<World>, steps: seq<Step>) {
    |ws| == |steps| + 1 && ws[0] == Init() &&
    forall i {:trigger steps[i]} :: 0 <= i < |steps| ==>
                                      Enabled(ws[i], steps[i]) && ws[i + 1] == Apply(ws[i], steps[i])
  }
}
