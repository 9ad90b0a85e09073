/**
 The ingress reactor's task queues over its whole life: start, posting from any thread, the
 reactor loop, and Stop.  Every accepted task runs exactly once, in the order accepted, before
 Stop returns; a delayed task runs at most once and never early.
 */
module TaskQueue {
  datatype Life = Stopped | Running | Stopping

  datatype DelayedTask = DelayedTask(due: nat, order: nat)

  /** A delayed task that ran, and when. */
  datatype DelayedRun = DelayedRun(task: DelayedTask, at: nat)

  /** Where the reactor thread is in its loop. */
  datatype LoopPc =
    | Down
    | Top                 // about to test Running
    | InBatch             // running what it swapped out
    | Mid                 // about to test Running a second time
    | InDue               // about to start the next due delayed task
    | DueTask             // inside a delayed task
    | Poll                // waiting for socket events

  /** Where the one caller that is stopping the reactor is. */
  datatype ClosePc = Open | Joining | LastBatch | WaitDelayed

  datatype World = World(
    life: Life,
    loop: LoopPc,
    close: ClosePc,
    pending: seq<nat>,
    batch: seq<nat>,
    delayed: seq<DelayedTask>,
    due: seq<DelayedTask>,
    active: nat,                     // ActiveDelayedTasks
    nextOrder: nat,
    now: nat,
    accepted: seq<nat>,              // history
    executed: seq<nat>,
    delayedRuns: seq<DelayedRun>)

  function Init(): World {
    World(Stopped, Down, Open, [], [], [], [], 0, 1, 0, [], [], [])
  }

  datatype PostAct = Post(task: nat) | PostDelayed(delay: nat) | Tick(elapsed: nat)

  datatype LoopAct = LoopTop | RunNext | EndBatch | LoopMid | StartDue | EndDueTask | EndDue | EndPoll

  datatype CloseAct = CallStop | Join | RunLast | EndLast | Finish

  datatype Step = StartReactor | Posting(post: PostAct) | Loop(act: LoopAct) | Close(stop: CloseAct)

  function DueTasks(tasks: seq<DelayedTask>, now: nat): seq<DelayedTask> {
    if tasks == [] then []
    else DueTasks(tasks[..|tasks| - 1], now) + (if tasks[|tasks| - 1].due <= now then [tasks[|tasks| - 1]] else [])
  }

  function LaterTasks(tasks: seq<DelayedTask>, now: nat): seq<DelayedTask> {
    if tasks == [] then []
    else LaterTasks(tasks[..|tasks| - 1], now) + (if tasks[|tasks| - 1].due <= now then [] else [tasks[|tasks| - 1]])
  }

  predicate Enabled(w: World, step: Step) {
    match step
    case StartReactor => true
    case Posting(_) => true
    case Loop(act) =>
      (match act
       case LoopTop => w.loop == Top
       case RunNext => w.loop == InBatch && w.batch != []
       case EndBatch => w.loop == InBatch && w.batch == []
       case LoopMid => w.loop == Mid
       case StartDue => w.loop == InDue && w.due != []
       case EndDueTask => w.loop == DueTask
       case EndDue => w.loop == InDue && w.due == []
       case EndPoll => w.loop == Poll)
    case Close(act) =>
      (match act
       case CallStop => true
       case Join => w.close == Joining && w.loop == Down
       case RunLast => w.close == LastBatch && w.batch != []
       case EndLast => w.close == LastBatch && w.batch == []
       case Finish => w.close == WaitDelayed && w.active == 0)
  }

  function ApplyPost(w: World, post: PostAct): World {
    match post
    case Post(task) =>
      if w.life == Running then w.(pending := w.pending + [task], accepted := w.accepted + [task]) else w
    case PostDelayed(delay) =>
      if w.life == Running
      then w.(delayed := w.delayed + [DelayedTask(w.now + delay, w.nextOrder)], nextOrder := w.nextOrder + 1) else w
    case Tick(elapsed) => w.(now := w.now + elapsed)
  }

  function ApplyLoop(w: World, act: LoopAct): World
    requires Enabled(w, Loop(act))
  {
    match act
    case LoopTop =>
      if w.life == Running then w.(loop := InBatch, batch := w.pending, pending := []) else w.(loop := Down)
    case RunNext => w.(executed := w.executed + [w.batch[0]], batch := w.batch[1..])
    case EndBatch => w.(loop := Mid)
    case LoopMid =>
      if w.life == Running
      then w.(loop := InDue, due := DueTasks(w.delayed, w.now), delayed := LaterTasks(w.delayed, w.now))
      else w.(loop := Down)
    case StartDue =>
      if w.life == Running
      then w.(loop := DueTask, active := w.active + 1, due := w.due[1..],
              delayedRuns := w.delayedRuns + [DelayedRun(w.due[0], w.now)])
      else w.(loop := Poll, due := [])
    case EndDueTask => w.(loop := InDue, active := if w.active > 0 then w.active - 1 else 0)
    case EndDue => w.(loop := Poll)
    case EndPoll => w.(loop := Top)
  }

  function ApplyClose(w: World, act: CloseAct): World
    requires Enabled(w, Close(act))
  {
    match act
    case CallStop => if w.life == Running then w.(life := Stopping, close := Joining) else w
    case Join => w.(close := LastBatch, batch := w.pending, pending := [])
    case RunLast => w.(executed := w.executed + [w.batch[0]], batch := w.batch[1..])
    case EndLast => w.(close := WaitDelayed)
    case Finish => w.(close := Open, life := Stopped, pending := [], delayed := [])
  }

  function Apply(w: World, step: Step): World
    requires Enabled(w, step)
  {
    match step
    case StartReactor =>
      if w.life == Stopped && w.loop == Down then w.(life := Running, loop := Top) else w
    case Posting(post) => ApplyPost(w, post)
    case Loop(act) => ApplyLoop(w, act)
    case Close(act) => ApplyClose(w, act)
  }

  ghost predicate IsRun(ws: seq<World>, steps: seq<Step>) {
    |ws| == |steps| + 1 && ws[0] == Init() &&
    forall i {:trigger steps[i]} :: 0 <= i < |steps| ==> Enabled(ws[i], steps[i]) && ws[i + 1] == Apply(ws[i], steps[i])
  }

  // --- posted tasks ------------------------------------------------------------------------------

  /** Who may still run tasks in each stage of the reactor's life. */
  ghost predicate StagesOk(w: World) {
    (w.life == Running ==> w.close == Open && w.loop != Down) &&
    (w.life == Stopped ==> w.close == Open && w.loop == Down && w.pending == []) &&
    (w.life == Stopping ==> w.close != Open) &&
    (w.close == LastBatch || w.close == WaitDelayed ==> w.loop == Down && w.pending == []) &&
    (w.batch != [] ==> w.loop == InBatch || w.close == LastBatch) &&
    (w.active > 0 <==> w.loop == DueTask) && w.active <= 1
  }

  /** What was accepted has run, is being run, or waits: in that order, nothing twice. */
  ghost predicate NothingLost(w: World) {
    w.accepted == w.executed + w.batch + w.pending
  }

  lemma LoopKeepsTasks(w: World, act: LoopAct)
    requires StagesOk(w) && NothingLost(w) && Enabled(w, Loop(act))
    ensures StagesOk(ApplyLoop(w, act)) && NothingLost(ApplyLoop(w, act))
  {
    if act.RunNext? { assert w.batch == [w.batch[0]] + w.batch[1..]; }
  }

  lemma CloseKeepsTasks(w: World, act: CloseAct)
    requires StagesOk(w) && NothingLost(w) && Enabled(w, Close(act))
    ensures StagesOk(ApplyClose(w, act)) && NothingLost(ApplyClose(w, act))
  {
    if act.RunLast? { assert w.batch == [w.batch[0]] + w.batch[1..]; }
  }

  lemma StepKeepsTasks(w: World, step: Step)
    requires StagesOk(w) && NothingLost(w) && Enabled(w, step)
    ensures StagesOk(Apply(w, step)) && NothingLost(Apply(w, step))
  {
    match step {
      case Loop(act) => LoopKeepsTasks(w, act);
      case Close(act) => CloseKeepsTasks(w, act);
      case _ =>
    }
  }

  lemma {:induction false} RunKeepsTasks(ws: seq<World>, steps: seq<Step>, n: nat)
    requires IsRun(ws, steps) && n < |ws|
    ensures StagesOk(ws[n]) && NothingLost(ws[n])
  {
    if n == 0 {
    } else {
      RunKeepsTasks(ws, steps, n - 1);
      StepKeepsTasks(ws[n - 1], steps[n - 1]);
    }
  }

  /**
   Every call of Stop returns in a state in which the reactor is stopped; in every such state the
   tasks that ran are exactly the accepted ones, in the order accepted.  At any other time what ran
   is a prefix of what was accepted.
   */
  lemma AcceptedTasksRunInOrder(ws: seq<World>, steps: seq<Step>, n: nat)
    requires IsRun(ws, steps) && n < |ws|
    ensures ws[n].executed <= ws[n].accepted
    ensures ws[n].life == Stopped ==> ws[n].executed == ws[n].accepted
  {
    RunKeepsTasks(ws, steps, n);
  }

  // --- delayed tasks ------------------------------------------------------------------------------

  ghost predicate Increasing(tasks: seq<DelayedTask>) {
    forall i, j :: 0 <= i < j < |tasks| ==> tasks[i].order < tasks[j].order
  }

  /** The scan splits the list into due and later tasks and keeps both parts in order. */
  lemma {:induction false} ScanSplits(tasks: seq<DelayedTask>, now: nat)
    requires Increasing(tasks)
    ensures Increasing(DueTasks(tasks, now)) && Increasing(LaterTasks(tasks, now))
    ensures forall t :: t in DueTasks(tasks, now) <==> t in tasks && t.due <= now
    ensures forall t :: t in LaterTasks(tasks, now) <==> t in tasks && t.due > now
  {
    if tasks == [] {
    } else {
      var front, last := tasks[..|tasks| - 1], tasks[|tasks| - 1];
      assert tasks == front + [last];
      ScanSplits(front, now);
    }
  }

  ghost predicate Fresh(tasks: seq<DelayedTask>, runs: seq<DelayedRun>) {
    forall t, r :: t in tasks && r in runs ==> t.order != r.task.order
  }

  ghost predicate RunsOk(runs: seq<DelayedRun>, now: nat) {
    (forall i, j :: 0 <= i < j < |runs| ==> runs[i].task.order != runs[j].task.order) &&
    (forall r :: r in runs ==> r.task.due <= r.at <= now)
  }

  /** Waiting and due tasks are numbered in order, differ from each other and have not run. */
  ghost predicate ListsOk(delayed: seq<DelayedTask>, due: seq<DelayedTask>, runs: seq<DelayedRun>, next: nat,
                          now: nat) {
    Increasing(delayed) && Increasing(due) && RunsOk(runs, now) &&
    (forall t :: t in delayed ==> t.order < next) &&
    (forall t :: t in due ==> t.order < next && t.due <= now) &&
    (forall r :: r in runs ==> r.task.order < next) &&
    (forall t, u :: t in delayed && u in due ==> t.order != u.order) &&
    Fresh(delayed, runs) && Fresh(due, runs)
  }

  ghost predicate DelayedOk(w: World) {
    ListsOk(w.delayed, w.due, w.delayedRuns, w.nextOrder, w.now) &&
    (w.due != [] ==> w.loop == InDue || w.loop == DueTask)
  }

  lemma MidKeepsDelayed(w: World)
    requires DelayedOk(w) && w.loop == Mid
    ensures DelayedOk(ApplyLoop(w, LoopMid))
  {
    ScanSplits(w.delayed, w.now);
    var due, later := DueTasks(w.delayed, w.now), LaterTasks(w.delayed, w.now);
    forall t, u | t in later && u in due ensures t.order != u.order {
      var i :| 0 <= i < |w.delayed| && w.delayed[i] == t;
      var j :| 0 <= j < |w.delayed| && w.delayed[j] == u;
      assert i != j;
    }
  }

  lemma RunAppends(runs: seq<DelayedRun>, t: DelayedTask, now: nat)
    requires RunsOk(runs, now) && t.due <= now && Fresh([t], runs)
    ensures RunsOk(runs + [DelayedRun(t, now)], now)
  {
    assert t in [t];
  }

  /** The first due task moves from the due list to the history. */
  lemma FirstDueRuns(delayed: seq<DelayedTask>, due: seq<DelayedTask>, runs: seq<DelayedRun>, next: nat, now: nat)
    requires ListsOk(delayed, due, runs, next, now) && due != []
    ensures ListsOk(delayed, due[1..], runs + [DelayedRun(due[0], now)], next, now)
  {
    var t, rest, runs' := due[0], due[1..], runs + [DelayedRun(due[0], now)];
    assert t in due;
    RunAppends(runs, t, now);
    forall u | u in rest ensures u in due && u.order != t.order {
      var i :| 0 <= i < |rest| && rest[i] == u;
      assert due[i + 1] == u;
    }
    assert forall r :: r in runs' ==> r in runs || r == DelayedRun(t, now);
    assert Fresh(rest, runs') && Fresh(delayed, runs');
  }

  lemma SameDelayed(w: World, w': World)
    requires DelayedOk(w) && w'.delayed == w.delayed && w'.due == w.due && w'.delayedRuns == w.delayedRuns
    requires w'.nextOrder == w.nextOrder && w.now <= w'.now
    requires w'.due != [] ==> w'.loop == InDue || w'.loop == DueTask
    ensures DelayedOk(w')
  {
  }

  lemma PostAppends(delayed: seq<DelayedTask>, due: seq<DelayedTask>, runs: seq<DelayedRun>, next: nat, now: nat,
                    at: nat)
    requires ListsOk(delayed, due, runs, next, now)
    ensures ListsOk(delayed + [DelayedTask(at, next)], due, runs, next + 1, now)
  {
    var delayed' := delayed + [DelayedTask(at, next)];
    assert forall u :: u in delayed' ==> u in delayed || u == DelayedTask(at, next);
    assert Increasing(delayed') && Fresh(delayed', runs);
  }

  lemma PostKeepsDelayed(w: World, post: PostAct)
    requires DelayedOk(w)
    ensures DelayedOk(ApplyPost(w, post))
  {
    var w' := ApplyPost(w, post);
    if post.PostDelayed? && w.life == Running {
      PostAppends(w.delayed, w.due, w.delayedRuns, w.nextOrder, w.now, w.now + post.delay);
    } else {
      SameDelayed(w, w');
    }
  }

  lemma LoopKeepsDelayed(w: World, act: LoopAct)
    requires DelayedOk(w) && Enabled(w, Loop(act))
    ensures DelayedOk(ApplyLoop(w, act))
  {
    if act.LoopMid? && w.life == Running {
      MidKeepsDelayed(w);
    } else if act.StartDue? && w.life == Running {
      FirstDueRuns(w.delayed, w.due, w.delayedRuns, w.nextOrder, w.now);
    } else if act.StartDue? {
    } else {
      SameDelayed(w, ApplyLoop(w, act));
    }
  }

  lemma StepKeepsDelayed(w: World, step: Step)
    requires DelayedOk(w) && StagesOk(w) && Enabled(w, step)
    ensures DelayedOk(Apply(w, step))
  {
    match step {
      case Loop(act) => LoopKeepsDelayed(w, act);
      case Posting(post) => PostKeepsDelayed(w, post);
      case Close(act) => if !act.Finish? { SameDelayed(w, ApplyClose(w, act)); }
      case StartReactor => SameDelayed(w, Apply(w, step));
    }
  }

  lemma {:induction false} RunKeepsDelayed(ws: seq<World>, steps: seq<Step>, n: nat)
    requires IsRun(ws, steps) && n < |ws|
    ensures DelayedOk(ws[n])
  {
    if n == 0 {
    } else {
      RunKeepsDelayed(ws, steps, n - 1);
      RunKeepsTasks(ws, steps, n - 1);
      StepKeepsDelayed(ws[n - 1], steps[n - 1]);
    }
  }

  /** No delayed task starts before it is due, and none starts twice. */
  lemma DelayedTasksRunOnceNotEarly(ws: seq<World>, steps: seq<Step>, n: nat, i: nat, j: nat)
    requires IsRun(ws, steps) && n < |ws| && i < |ws[n].delayedRuns|
    ensures ws[n].delayedRuns[i].task.due <= ws[n].delayedRuns[i].at
    ensures j < |ws[n].delayedRuns| && j != i ==> ws[n].delayedRuns[i].task.order != ws[n].delayedRuns[j].task.order
  {
    RunKeepsDelayed(ws, steps, n);
    assert ws[n].delayedRuns[i] in ws[n].delayedRuns;
  }

  // --- the scan in place --------------------------------------------------------------------------

  /** Collects the due tasks and moves the others to the front of the array, in order. */
  method CompactDue(tasks: array<DelayedTask>, now: nat) returns (due: seq<DelayedTask>, kept: nat)
    modifies tasks
    ensures due == DueTasks(old(tasks[..]), now)
    ensures kept <= tasks.Length && tasks[..kept] == LaterTasks(old(tasks[..]), now)
  {
    due, kept := [], 0;
    ghost var before := tasks[..];
    for it := 0 to tasks.Length
      invariant kept <= it
      invariant due == DueTasks(before[..it], now)
      invariant tasks[..kept] == LaterTasks(before[..it], now)
      invariant tasks[it..] == before[it..]
    {
      assert tasks[it] == tasks[it..][0] == before[it];
      assert before[..it + 1][..it] == before[..it];
      if tasks[it].due <= now {
        due := due + [tasks[it]];
      } else {
        if kept != it { tasks[kept] := tasks[it]; }
        kept := kept + 1;
      }
    }
    assert before[..tasks.Length] == before;
  }

  // --- the queues in place ------------------------------------------------------------------------

  class ReactorTasks {
    var life: Life
    var pending: seq<nat>
    var delayed: seq<DelayedTask>
    var nextOrder: nat
    ghost var executed: seq<nat>

    /** Posting is refused unless the reactor is running. */
    method EnqueueAsync(task: nat) returns (queued: bool)
      modifies this`pending
      ensures queued == (life == Running)
      ensures pending == old(pending) + if queued then [task] else []
    {
      queued := life == Running;
      if queued {
        pending := pending + [task];
      }
    }

    /** A negative delay counts as none. */
    method EnqueueDelayed(now: nat, delay: int) returns (queued: bool)
      modifies this`delayed, this`nextOrder
      ensures queued == (life == Running)
      ensures nextOrder == old(nextOrder) + if queued then 1 else 0
      ensures delayed == old(delayed) +
              if queued then [DelayedTask(now + if delay < 0 then 0 else delay, old(nextOrder))] else []
    {
      var wait := if delay < 0 then 0 else delay;
      queued := life == Running;
      if queued {
        delayed := delayed + [DelayedTask(now + wait, nextOrder)];
        nextOrder := nextOrder + 1;
      }
    }

    /** The batch is swapped out first and then run in order. */
    method ProcessPendingTasks()
      modifies this`pending, this`executed
      ensures pending == [] && executed == old(executed) + old(pending)
    {
      var tasks := pending;
      pending := [];
      for i := 0 to |tasks|
        invariant pending == [] && executed == old(executed) + tasks[..i]
      {
        executed := executed + [tasks[i]];
        assert tasks[..i + 1] == tasks[..i] + [tasks[i]];
      }
      assert tasks[..|tasks|] == tasks;
    }

    /** Due tasks are taken out; the others stay, in order. */
    method TakeDue(now: nat) returns (due: seq<DelayedTask>)
      modifies this`delayed
      ensures due == DueTasks(old(delayed), now) && delayed == LaterTasks(old(delayed), now)
    {
      var tasks := new DelayedTask[|delayed|](i requires 0 <= i < |delayed| reads this => delayed[i]);
      assert tasks[..] == delayed;
      var kept;
      due, kept := CompactDue(tasks, now);
      delayed := tasks[..kept];
    }
  }
}
