/**
 Shutdown of the cleanup service loses no context, and draining a tracker to a watermark means
 exactly that everything numbered up to it has been released.
 */
module CleanupProofs {
  import opened CleanupWorld

  // --- who is where ----------------------------------------------------------------------------

  /** The queue lists exactly the queued contexts, each once. */
  ghost predicate QueueOk(w: World) {
    (forall i :: 0 <= i < |w.queue| ==> InPhase(w, w.queue[i].c, Queued)) &&
    (forall i, j :: 0 <= i < j < |w.queue| ==> w.queue[i].c != w.queue[j].c)
  }

  predicate Popped(p: CtxPhase) {
    p == Taken || p == OwnerReset || p == Counted
  }

  /** Only the worker ever holds a context, and it holds a popped one. */
  ghost predicate HeldOk(w: World) {
    forall k :: k in w.held ==> k == WorkerThread && w.held[k].c in w.ctxs && Popped(w.ctxs[w.held[k].c].phase)
  }

  /** ProducerCount counts the registered contexts; outside Running there are none and none can come. */
  ghost predicate ServiceOk(w: World) {
    w.producers == |w.ctxs| &&
    (forall c :: c in w.ctxs ==> c < w.nextCtx) &&
    (w.lifecycle != Running ==> !w.admission && w.ctxs == map[])
  }

  ghost predicate StopsOk(w: World) {
    forall tid :: tid in w.stops ==>
                    (w.stops[tid] == WaitProducers ==> !w.admission) &&
                    (w.stops[tid] != WaitProducers ==> w.lifecycle != Running)
  }

  ghost predicate Placed(w: World) {
    QueueOk(w) && HeldOk(w) && ServiceOk(w) && StopsOk(w)
  }

  lemma EnqueueKeepsPlaced(w: World, c: nat, threadStarts: bool)
    requires Placed(w) && InPhase(w, c, Marked)
    ensures Placed(ApplyEnqueue(w, c, threadStarts))
  {
  }

  lemma ProducerKeepsPlaced(w: World, act: ProducerAct)
    requires Placed(w) && ProducerEnabled(w, act)
    ensures Placed(ApplyProducer(w, act))
  {
    match act
    case EnqueueLocked(c, threadStarts) => EnqueueKeepsPlaced(w, c, threadStarts);
    case Register(tracker) => RegisterKeepsPlaced(w, tracker);
    case Abort(c) => AbortKeepsPlaced(w, c);
    case Mark(c) =>
  }

  lemma RegisterKeepsPlaced(w: World, tracker: nat)
    requires Placed(w)
    ensures Placed(ApplyRegister(w, tracker))
  {
  }

  lemma AbortKeepsPlaced(w: World, c: nat)
    requires Placed(w) && InPhase(w, c, Idle)
    ensures Placed(Unregister(w, c))
  {
    assert |w.ctxs - {c}| == |w.ctxs| - 1;
  }

  lemma ConsumerKeepsPlaced(w: World, k: Consumer, act: ConsumerAct)
    requires Placed(w) && ConsumerEnabled(w, k, act)
    ensures Placed(ApplyConsumer(w, k, act))
  {
    if act.Delete? { assert |w.ctxs - {w.held[k].c}| == |w.ctxs| - 1; }
  }

  lemma StopFrame(w: World, tid: nat, act: StopAct)
    requires StopEnabled(w, tid, act)
    ensures var w' := ApplyStop(w, tid, act);
            w'.ctxs == w.ctxs && w'.queue == w.queue && w'.held == w.held && w'.producers == w.producers &&
            w'.nextCtx == w.nextCtx && w'.enqueued == w.enqueued && w'.completed == w.completed &&
              w'.released == w.released &&
            (w'.admission ==> w.admission) && (w.lifecycle != Running ==> w'.lifecycle != Running) &&
            (w'.lifecycle != Running ==> w.lifecycle != Running || act.StopProceeds? || act.StopFinishes?)
  {
  }

  lemma StopKeepsStops(w: World, tid: nat, act: StopAct)
    requires StopsOk(w) && StopEnabled(w, tid, act)
    ensures StopsOk(ApplyStop(w, tid, act))
  {
    StopFrame(w, tid, act);
  }

  lemma StopKeepsPlaced(w: World, tid: nat, act: StopAct)
    requires Placed(w) && StopEnabled(w, tid, act)
    ensures Placed(ApplyStop(w, tid, act))
  {
    StopFrame(w, tid, act);
    StopKeepsStops(w, tid, act);
    if act.StopProceeds? { assert w.ctxs == map[] && !w.admission; }
  }

  lemma StepKeepsPlaced(w: World, step: Step)
    requires Placed(w) && Enabled(w, step)
    ensures Placed(Apply(w, step))
  {
    match step {
      case Produce(act) => ProducerKeepsPlaced(w, act);
      case Consume(k, act) => ConsumerKeepsPlaced(w, k, act);
      case FinalStop(tid, act) => StopKeepsPlaced(w, tid, act);
    }
  }

  lemma {:induction false} RunPlaced(ws: seq<World>, steps: seq<Step>, n: nat)
    requires IsRun(ws, steps) && n < |ws|
    ensures Placed(ws[n])
  {
    if n == 0 {
    } else {
      RunPlaced(ws, steps, n - 1);
      StepKeepsPlaced(ws[n - 1], steps[n - 1]);
    }
  }

  // --- one worker ------------------------------------------------------------------------------

  /** While the service runs, a worker is up only under the running flag. */
  predicate WorkerOk(w: World) {
    w.lifecycle == Running && !w.runningFlag ==> !w.workerUp
  }

  lemma ProducerKeepsWorker(w: World, act: ProducerAct)
    requires WorkerOk(w) && ProducerEnabled(w, act)
    ensures WorkerOk(ApplyProducer(w, act))
  {
  }

  lemma ConsumerKeepsWorker(w: World, k: Consumer, act: ConsumerAct)
    requires WorkerOk(w) && ConsumerEnabled(w, k, act)
    ensures WorkerOk(ApplyConsumer(w, k, act))
  {
  }

  lemma StepKeepsWorker(w: World, step: Step)
    requires WorkerOk(w) && Enabled(w, step)
    ensures WorkerOk(Apply(w, step))
  {
    match step {
      case Produce(act) => ProducerKeepsWorker(w, act);
      case Consume(k, act) => ConsumerKeepsWorker(w, k, act);
      case FinalStop(tid, act) => StopFrame(w, tid, act);
    }
  }

  lemma {:induction false} RunKeepsWorker(ws: seq<World>, steps: seq<Step>, n: nat)
    requires IsRun(ws, steps) && n < |ws|
    ensures WorkerOk(ws[n])
  {
    if n == 0 {
      assert !ws[0].workerUp;
    } else {
      RunKeepsWorker(ws, steps, n - 1);
      StepKeepsWorker(ws[n - 1], steps[n - 1]);
    }
  }

  /** In every run an enqueue that starts a worker thread finds none running: there is never more than one. */
  lemma OneWorker(ws: seq<World>, steps: seq<Step>, n: nat, c: nat)
    requires IsRun(ws, steps) && n < |steps| && steps[n] == Produce(EnqueueLocked(c, true))
    requires StartsWorker(ws[n], true)
    ensures !ws[n].workerUp && ws[n + 1].workerUp
  {
    RunPlaced(ws, steps, n);
    RunKeepsWorker(ws, steps, n);
  }

  // --- shutdown loses nothing -----------------------------------------------------------------

  /** A registered context's enqueue is never refused. */
  lemma EnqueueNeverRefused(ws: seq<World>, steps: seq<Step>, n: nat, c: nat, threadStarts: bool)
    requires IsRun(ws, steps) && n < |steps| && steps[n] == Produce(EnqueueLocked(c, threadStarts))
    ensures ws[n].lifecycle == Running
    ensures c in ws[n].ctxs && ws[n + 1].queue == ws[n].queue +
            [Entry(c, ws[n].ctxs[c].tracker, At(ws[n].enqueued, ws[n].ctxs[c].tracker) + 1)]
  {
    RunPlaced(ws, steps, n);
  }

  /** While any producer is registered the service runs. */
  lemma ProducersKeepServiceRunning(ws: seq<World>, steps: seq<Step>, n: nat)
    requires IsRun(ws, steps) && n < |ws| && ws[n].ctxs != map[]
    ensures ws[n].lifecycle == Running && ws[n].producers > 0
  {
    RunPlaced(ws, steps, n);
  }

  lemma ProducerFrame(w: World, act: ProducerAct)
    requires ProducerEnabled(w, act)
    ensures ApplyProducer(w, act).lifecycle == w.lifecycle
  {
  }

  lemma ConsumerFrame(w: World, k: Consumer, act: ConsumerAct)
    requires ConsumerEnabled(w, k, act)
    ensures ApplyConsumer(w, k, act).lifecycle == w.lifecycle
  {
  }

  lemma ClosedStaysClosed(w: World, step: Step)
    requires Enabled(w, step) && w.lifecycle != Running
    ensures Apply(w, step).lifecycle != Running
  {
    match step {
      case Produce(act) => ProducerFrame(w, act);
      case Consume(k, act) => ConsumerFrame(w, k, act);
      case FinalStop(tid, act) => StopFrame(w, tid, act);
    }
  }

  /** From the moment any call of FinalStop returns, no context is registered and none can be. */
  lemma {:induction false} AfterFinalStop(ws: seq<World>, steps: seq<Step>, a: nat, n: nat, tid: nat)
    requires IsRun(ws, steps) && a <= n < |ws| && tid in ws[a].stops && ws[a].stops[tid] == Returned
    ensures ws[n].ctxs == map[] && ws[n].queue == [] && ws[n].held == map[]
    ensures forall tracker :: ApplyRegister(ws[n], tracker) == ws[n]
  {
    ClosedFrom(ws, steps, a, n, tid);
    RunPlaced(ws, steps, n);
    InUseIsRegistered(ws[n]);
  }

  lemma InUseIsRegistered(w: World)
    requires QueueOk(w) && HeldOk(w)
    ensures w.queue != [] || w.held != map[] ==> w.ctxs != map[]
  {
    if w.queue != [] {
      assert w.queue[0].c in w.ctxs;
    } else if k :| k in w.held {
      assert w.held[k].c in w.ctxs;
    }
  }

  lemma {:induction false} ClosedFrom(ws: seq<World>, steps: seq<Step>, a: nat, n: nat, tid: nat)
    requires IsRun(ws, steps) && a <= n < |ws| && tid in ws[a].stops && ws[a].stops[tid] == Returned
    ensures ws[n].lifecycle != Running
  {
    if a == n {
      RunPlaced(ws, steps, n);
    } else {
      ClosedFrom(ws, steps, a, n - 1, tid);
      RunPlaced(ws, steps, n - 1);
      ClosedStaysClosed(ws[n - 1], steps[n - 1]);
    }
  }

  // --- watermark drain ------------------------------------------------------------------------

  /** How many entries belong to tracker `t`. */
  function CountOf(line: seq<Entry>, t: nat): nat {
    if line == [] then 0 else CountOf(line[..|line| - 1], t) + (if line[|line| - 1].tracker == t then 1 else 0)
  }

  lemma CountAppend(line: seq<Entry>, e: Entry, t: nat)
    ensures CountOf(line + [e], t) == CountOf(line, t) + (if e.tracker == t then 1 else 0)
  {
    assert (line + [e])[..|line|] == line;
  }

  lemma {:induction false} CountDropFirst(line: seq<Entry>, t: nat)
    requires line != []
    ensures CountOf(line, t) == CountOf(line[1..], t) + (if line[0].tracker == t then 1 else 0)
  {
    if |line| > 1 {
      var last := |line| - 1;
      CountDropFirst(line[..last], t);
      assert line[..last][1..] == line[1..][..last - 1];
    } else {
      assert line[..0] == line[1..] == [];
    }
  }

  /** Contexts that are numbered but not counted as completed, oldest first. */
  ghost function Line(w: World): seq<Entry> {
    (if WorkerThread in w.held && w.held[WorkerThread].c in w.ctxs && w.ctxs[w.held[WorkerThread].c].phase != Counted
     then [w.held[WorkerThread]] else []) + w.queue
  }

  /** Each entry's ordinal follows what its tracker has completed, in line order. */
  ghost predicate NumberedAt(line: seq<Entry>, completed: map<nat, nat>, j: nat)
    requires j < |line|
  {
    line[j].ordinal == At(completed, line[j].tracker) + 1 + CountOf(line[..j], line[j].tracker)
  }

  ghost predicate Numbered(line: seq<Entry>, completed: map<nat, nat>) {
    forall j :: 0 <= j < |line| ==> NumberedAt(line, completed, j)
  }

  ghost predicate OrderOk(w: World) {
    Numbered(Line(w), w.completed) &&
    forall t: nat :: At(w.enqueued, t) == At(w.completed, t) + CountOf(Line(w), t)
  }

  ghost predicate ReleasedOk(w: World) {
    (forall t: nat, o: nat :: 1 <= o <= At(w.completed, t) ==> (t, o) in w.released) &&
    (WorkerThread in w.held && Holds(w, WorkerThread, OwnerReset) ==>
       (w.held[WorkerThread].tracker, w.held[WorkerThread].ordinal) in w.released)
  }

  lemma NumberedAppend(line: seq<Entry>, completed: map<nat, nat>, e: Entry)
    requires Numbered(line, completed)
    requires e.ordinal == At(completed, e.tracker) + 1 + CountOf(line, e.tracker)
    ensures Numbered(line + [e], completed)
  {
    forall j | 0 <= j < |line + [e]| ensures NumberedAt(line + [e], completed, j) {
      assert (line + [e])[..j] == if j < |line| then line[..j] else line;
      if j < |line| { assert NumberedAt(line, completed, j); }
    }
  }

  lemma NumberedDropFirst(line: seq<Entry>, completed: map<nat, nat>)
    requires line != [] && Numbered(line, completed)
    ensures line[0].ordinal == At(completed, line[0].tracker) + 1
    ensures Numbered(line[1..], completed[line[0].tracker := At(completed, line[0].tracker) + 1])
  {
    assert line[..0] == [] && NumberedAt(line, completed, 0);
    var rest, after := line[1..], completed[line[0].tracker := At(completed, line[0].tracker) + 1];
    forall j | 0 <= j < |rest| ensures NumberedAt(rest, after, j) {
      assert NumberedAt(line, completed, j + 1) && line[j + 1] == rest[j];
      CountDropFirst(line[..j + 1], rest[j].tracker);
      assert line[..j + 1][1..] == rest[..j];
    }
  }

  ghost predicate DrainOk(w: World) {
    OrderOk(w) && ReleasedOk(w)
  }

  /** Steps that neither number nor complete a context keep the line, and with it everything. */
  lemma SameLine(w: World, w': World)
    requires DrainOk(w) && Line(w') == Line(w) && w'.enqueued == w.enqueued && w'.completed == w.completed
    requires w.released <= w'.released
    requires Holds(w', WorkerThread, OwnerReset) ==>
             (w'.held[WorkerThread].tracker, w'.held[WorkerThread].ordinal) in w'.released
    ensures DrainOk(w')
  {
  }

  lemma EnqueueLine(w: World, c: nat, threadStarts: bool)
    requires Placed(w) && InPhase(w, c, Marked) && w.lifecycle == Running
    ensures Line(ApplyEnqueue(w, c, threadStarts)) ==
            Line(w) + [Entry(c, w.ctxs[c].tracker, At(w.enqueued, w.ctxs[c].tracker) + 1)]
    ensures ReleasedOk(w) ==> ReleasedOk(ApplyEnqueue(w, c, threadStarts))
  {
  }

  lemma EnqueueKeepsDrain(w: World, c: nat, threadStarts: bool)
    requires Placed(w) && DrainOk(w) && InPhase(w, c, Marked) && w.lifecycle == Running
    ensures DrainOk(ApplyEnqueue(w, c, threadStarts))
  {
    EnqueueLine(w, c, threadStarts);
    EnqueueKeepsOrder(w, c, threadStarts);
  }

  lemma EnqueueKeepsOrder(w: World, c: nat, threadStarts: bool)
    requires OrderOk(w) && InPhase(w, c, Marked) && w.lifecycle == Running
    requires Line(ApplyEnqueue(w, c, threadStarts)) ==
             Line(w) + [Entry(c, w.ctxs[c].tracker, At(w.enqueued, w.ctxs[c].tracker) + 1)]
    ensures OrderOk(ApplyEnqueue(w, c, threadStarts))
  {
    var w' := ApplyEnqueue(w, c, threadStarts);
    var t := w.ctxs[c].tracker;
    var e := Entry(c, t, At(w.enqueued, t) + 1);
    NumberedAppend(Line(w), w.completed, e);
    assert w'.enqueued == w.enqueued[t := At(w.enqueued, t) + 1] && w'.completed == w.completed;
    CountsAppend(w.enqueued, w.completed, Line(w), e);
  }

  lemma CountsAppend(enqueued: map<nat, nat>, completed: map<nat, nat>, line: seq<Entry>, e: Entry)
    requires forall u: nat :: At(enqueued, u) == At(completed, u) + CountOf(line, u)
    ensures forall u: nat ::
              At(enqueued[e.tracker := At(enqueued, e.tracker) + 1], u) == At(completed, u) + CountOf(line + [e], u)
  {
    var more := enqueued[e.tracker := At(enqueued, e.tracker) + 1];
    forall u: nat ensures At(more, u) == At(completed, u) + CountOf(line + [e], u) {
      CountAppend(line, e, u);
    }
  }

  lemma ProducerKeepsDrain(w: World, act: ProducerAct)
    requires Placed(w) && DrainOk(w) && ProducerEnabled(w, act)
    ensures DrainOk(ApplyProducer(w, act))
  {
    var w' := ApplyProducer(w, act);
    if act.EnqueueLocked? && w.lifecycle == Running {
      EnqueueKeepsDrain(w, act.c, act.threadStarts);
    } else {
      assert w'.held == w.held && w'.queue == w.queue;
      assert Line(w') == Line(w);
      SameLine(w, w');
    }
  }

  lemma CountLine(w: World, k: Consumer)
    requires Placed(w) && Holds(w, k, OwnerReset)
    ensures Line(w) == [w.held[k]] + w.queue && Line(ApplyCount(w, k)) == w.queue == Line(w)[1..]
  {
  }

  lemma CountKeepsOrder(w: World, k: Consumer)
    requires Placed(w) && OrderOk(w) && Holds(w, k, OwnerReset)
    ensures w.held[k].ordinal == At(w.completed, w.held[k].tracker) + 1
    ensures OrderOk(ApplyCount(w, k))
  {
    CountLine(w, k);
    OrderAfterFirst(w, ApplyCount(w, k), Line(w));
  }

  lemma OrderAfterFirst(w: World, w': World, line: seq<Entry>)
    requires OrderOk(w) && Line(w) == line != [] && Line(w') == line[1..] && w'.enqueued == w.enqueued
    requires w'.completed == w.completed[line[0].tracker := At(w.completed, line[0].tracker) + 1]
    ensures line[0].ordinal == At(w.completed, line[0].tracker) + 1 && OrderOk(w')
  {
    CompleteFirst(line, w.completed, w.enqueued);
  }

  /** Completing the first entry of a line renumbers nothing behind it. */
  lemma CompleteFirst(line: seq<Entry>, completed: map<nat, nat>, enqueued: map<nat, nat>)
    requires line != [] && Numbered(line, completed)
    requires forall t: nat :: At(enqueued, t) == At(completed, t) + CountOf(line, t)
    ensures line[0].ordinal == At(completed, line[0].tracker) + 1
    ensures var after := completed[line[0].tracker := At(completed, line[0].tracker) + 1];
            Numbered(line[1..], after) && forall t: nat :: At(enqueued, t) == At(after, t) + CountOf(line[1..], t)
  {
    NumberedDropFirst(line, completed);
    var after := completed[line[0].tracker := At(completed, line[0].tracker) + 1];
    forall t: nat ensures At(enqueued, t) == At(after, t) + CountOf(line[1..], t) {
      CountDropFirst(line, t);
    }
  }

  lemma CountKeepsDrain(w: World, k: Consumer)
    requires Placed(w) && DrainOk(w) && Holds(w, k, OwnerReset)
    ensures DrainOk(ApplyCount(w, k))
  {
    CountKeepsOrder(w, k);
    CountKeepsReleased(w, k);
  }

  lemma CountKeepsReleased(w: World, k: Consumer)
    requires Placed(w) && ReleasedOk(w) && Holds(w, k, OwnerReset)
    requires w.held[k].ordinal == At(w.completed, w.held[k].tracker) + 1
    ensures ReleasedOk(ApplyCount(w, k))
  {
  }

  lemma PopKeepsDrain(w: World, k: Consumer)
    requires Placed(w) && DrainOk(w) && ConsumerEnabled(w, k, Pop)
    ensures DrainOk(ApplyPop(w, k))
  {
    var w' := ApplyPop(w, k);
    assert k == WorkerThread;
    assert Line(w') == [w.queue[0]] + w.queue[1..] == Line(w);
    SameLine(w, w');
  }

  lemma ConsumerKeepsDrain(w: World, k: Consumer, act: ConsumerAct)
    requires Placed(w) && DrainOk(w) && ConsumerEnabled(w, k, act)
    ensures DrainOk(ApplyConsumer(w, k, act))
  {
    match act {
      case Pop => PopKeepsDrain(w, k);
      case Count => CountKeepsDrain(w, k);
      case _ =>
        var w' := ApplyConsumer(w, k, act);
        assert Line(w') == Line(w);
        SameLine(w, w');
    }
  }

  lemma StepKeepsDrain(w: World, step: Step)
    requires Placed(w) && DrainOk(w) && Enabled(w, step)
    ensures DrainOk(Apply(w, step))
  {
    match step {
      case Produce(act) => ProducerKeepsDrain(w, act);
      case Consume(k, act) => ConsumerKeepsDrain(w, k, act);
      case FinalStop(tid, act) =>
        StopFrame(w, tid, act);
        SameLine(w, ApplyStop(w, tid, act));
    }
  }

  lemma {:induction false} RunDrain(ws: seq<World>, steps: seq<Step>, n: nat)
    requires IsRun(ws, steps) && n < |ws|
    ensures DrainOk(ws[n])
  {
    if n == 0 {
    } else {
      RunDrain(ws, steps, n - 1);
      RunPlaced(ws, steps, n - 1);
      StepKeepsDrain(ws[n - 1], steps[n - 1]);
    }
  }

  /**
   DrainThrough(t, watermark) may return once Completed has reached the watermark.  In every run
   that is the case only if all ordinals up to the watermark were given out and every context
   that got one of them has been released; and whatever is still queued or being released has a
   larger ordinal.
   */
  lemma DrainIsExact(ws: seq<World>, steps: seq<Step>, n: nat, t: nat, watermark: nat)
    requires IsRun(ws, steps) && n < |ws| && At(ws[n].completed, t) >= watermark
    ensures watermark <= At(ws[n].enqueued, t)
    ensures forall o :: 1 <= o <= watermark ==> (t, o) in ws[n].released
    ensures forall j :: 0 <= j < |Line(ws[n])| && Line(ws[n])[j].tracker == t ==> Line(ws[n])[j].ordinal > watermark
  {
    RunDrain(ws, steps, n);
    forall j | 0 <= j < |Line(ws[n])| && Line(ws[n])[j].tracker == t ensures Line(ws[n])[j].ordinal > watermark {
      assert NumberedAt(Line(ws[n]), ws[n].completed, j);
    }
  }

  /** Conversely, while some ordinal up to the watermark is still in the line the drain must wait. */
  lemma DrainWaits(ws: seq<World>, steps: seq<Step>, n: nat, t: nat, watermark: nat)
    requires IsRun(ws, steps) && n < |ws|
    requires watermark <= At(ws[n].enqueued, t) && At(ws[n].completed, t) < watermark
    ensures exists j :: 0 <= j < |Line(ws[n])| && Line(ws[n])[j].tracker == t && Line(ws[n])[j].ordinal <= watermark
  {
    RunDrain(ws, steps, n);
    var j := FirstOf(Line(ws[n]), t);
    assert NumberedAt(Line(ws[n]), ws[n].completed, j);
  }

  lemma {:induction false} FirstOf(line: seq<Entry>, t: nat) returns (j: nat)
    requires CountOf(line, t) > 0
    ensures j < |line| && line[j].tracker == t && CountOf(line[..j], t) == 0
  {
    var last := |line| - 1;
    if CountOf(line[..last], t) > 0 {
      j := FirstOf(line[..last], t);
      assert line[..last][..j] == line[..j];
    } else {
      j := last;
    }
  }
}
