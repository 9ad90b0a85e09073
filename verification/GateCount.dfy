/**
 The session gate's counter.  Calls enter the gate from StartSlot, once more from a retry task around it, from a
 shutdown callback that submits a ticket and from a connect callback that sends its hello; ActiveCalls counts the
 entries, so when it is zero nobody is inside.
 */
module GateCount {
  import opened ClientSlots
  import opened SlotWorld
  import opened SlotFrames
  import opened SlotInvariants

  /** The activation of StartSlot is between entering and leaving the gate. */
  predicate InsideStart(t: Thread) {
    t.phase.Entered? || t.phase.Starting? || t.phase.Started? || t.phase.MustRetry? || t.phase.Submitting? ||
      t.phase.Leaving?
  }

  ghost function Starts(threads: map<nat, Thread>): set<nat> {
    set tid | tid in threads && InsideStart(threads[tid])
  }

  /** Retry tasks, which hold an entry of their own until they end. */
  ghost function Tasks(threads: map<nat, Thread>): set<nat> {
    set tid | tid in threads && threads[tid].kind.Retry?
  }

  ghost predicate Counted(w: World) {
    w.activeCalls == |Starts(w.threads)| + |Tasks(w.threads)| + |w.callbacks| + |w.hellos|
  }

  predicate Submitted(w: World, token: nat) {
    !AtStage(w, token, InHand) && !AtStage(w, token, RefusedStage)
  }

  predicate SubmitsIt(t: Thread, token: nat) {
    t.phase.Submitting? && t.phase.token == token
  }

  /** Whoever submits a ticket is inside the gate. */
  ghost predicate InHandOk(w: World) {
    forall token :: token in w.tickets && !Submitted(w, token) ==>
      token in w.callbacks || exists tid :: tid in w.threads && SubmitsIt(w.threads[tid], token)
  }

  /** A callback that is inside has taken its ticket out of the callback stage. */
  ghost predicate CallbacksOk(w: World) {
    forall token :: token in w.callbacks ==> token < w.sh.nextRetryToken && !AtStage(w, token, WithCallback)
  }

  ghost predicate GateOk(w: World) {
    Counted(w) && InHandOk(w) && CallbacksOk(w)
  }

  /** Every call that entered the gate has left it. */
  predicate Drained(w: World) {
    && (forall tid | tid in w.threads :: !InsideStart(w.threads[tid]) && !w.threads[tid].kind.Retry?)
    && (forall token | token in w.tickets :: Submitted(w, token))
    && w.callbacks == {} && w.hellos == {}
  }

  /** The counter is zero exactly when nobody is inside. */
  lemma ZeroIsDrained(w: World)
    requires GateOk(w)
    ensures w.activeCalls == 0 <==> Drained(w)
  {
    if Drained(w) { assert Starts(w.threads) == {} && Tasks(w.threads) == {}; }
    if w.activeCalls == 0 {
      assert Starts(w.threads) == {} && Tasks(w.threads) == {} && w.callbacks == {} && w.hellos == {};
      forall tid | tid in w.threads ensures !InsideStart(w.threads[tid]) && !w.threads[tid].kind.Retry? {
        assert tid !in Starts(w.threads) && tid !in Tasks(w.threads);
      }
    }
  }

  // --- sets of activations -------------------------------------------------------------------------------

  function Size(b: bool): int {
    if b then 1 else 0
  }

  /** One activation moves on. */
  lemma OneMoves(threads: map<nat, Thread>, tid: nat, t: Thread)
    requires tid in threads && t.kind == threads[tid].kind
    ensures |Starts(threads[tid := t])| == |Starts(threads)| + Size(InsideStart(t)) - Size(InsideStart(threads[tid]))
    ensures Tasks(threads[tid := t]) == Tasks(threads)
  {
    var s, s' := Starts(threads), Starts(threads[tid := t]);
    if InsideStart(t) && !InsideStart(threads[tid]) {
      assert s' == s + {tid};
    } else if !InsideStart(t) && InsideStart(threads[tid]) {
      assert s == s' + {tid};
    } else {
      assert s' == s;
    }
  }

  lemma OneEnds(threads: map<nat, Thread>, tid: nat)
    requires tid in threads && !InsideStart(threads[tid])
    ensures Starts(threads - {tid}) == Starts(threads)
    ensures |Tasks(threads - {tid})| == |Tasks(threads)| - Size(threads[tid].kind.Retry?)
  {
    if threads[tid].kind.Retry? {
      assert Tasks(threads) == Tasks(threads - {tid}) + {tid};
    } else {
      assert Tasks(threads - {tid}) == Tasks(threads);
    }
  }

  lemma OneIsCalled(threads: map<nat, Thread>, tid: nat, t: Thread)
    requires tid !in threads && t.phase == Called
    ensures Starts(threads[tid := t]) == Starts(threads)
    ensures |Tasks(threads[tid := t])| == |Tasks(threads)| + Size(t.kind.Retry?)
  {
    if t.kind.Retry? {
      assert Tasks(threads[tid := t]) == Tasks(threads) + {tid};
    } else {
      assert Tasks(threads[tid := t]) == Tasks(threads);
    }
  }

  // --- every step keeps the count --------------------------------------------------------------------------

  lemma ThreadKeepsCount(w: World, tid: nat, act: ThreadAct)
    requires Counted(w) && ThreadEnabled(w, tid, act)
    ensures Counted(ApplyThread(w, tid, act))
  {
    var t := w.threads[tid];
    ThreadCalls(w, tid, act);
    if act.EndTask? {
      OneEnds(w.threads, tid);
      if t.kind.Retry? { assert tid in Tasks(w.threads); }
    } else {
      OneMoves(w.threads, tid, t.(phase := NextPhase(w, tid, act)));
      if InsideStart(t) { assert tid in Starts(w.threads); }
    }
  }

  /** What a block does to the count is what it does to the set. */
  lemma ThreadCalls(w: World, tid: nat, act: ThreadAct)
    requires ThreadEnabled(w, tid, act)
    ensures act.EndTask? ==> !InsideStart(w.threads[tid])
    ensures !act.EndTask? ==>
              var t := w.threads[tid];
              var delta := Size(InsideStart(t.(phase := NextPhase(w, tid, act)))) - Size(InsideStart(t));
              -1 <= delta && CallsAfter(w, tid, act) == if delta >= 0 then w.activeCalls + delta
              else Lowered(w.activeCalls)
    ensures ApplyThread(w, tid, act).callbacks == w.callbacks && ApplyThread(w, tid, act).hellos == w.hellos
  {
  }

  lemma ThreadKeepsHands(w: World, tid: nat, act: ThreadAct)
    requires InHandOk(w) && CallbacksOk(w) && TicketsOk(w) && ThreadEnabled(w, tid, act)
    ensures InHandOk(ApplyThread(w, tid, act)) && CallbacksOk(ApplyThread(w, tid, act))
  {
    var w' := ApplyThread(w, tid, act);
    ThreadTickets(w, tid, act);
    forall token | token in w'.tickets && !Submitted(w', token)
      ensures token in w'.callbacks || exists k :: k in w'.threads && SubmitsIt(w'.threads[k], token)
    {
      if token in w.tickets && w'.tickets[token] == w.tickets[token] {
        if token !in w.callbacks {
          var k :| k in w.threads && SubmitsIt(w.threads[k], token);
          assert k in w'.threads && SubmitsIt(w'.threads[k], token);
        }
      } else {
        assert SubmitsIt(w'.threads[tid], token);
      }
    }
  }

  /** A block files at most a ticket with a new token, for its own activation to submit. */
  lemma ThreadTickets(w: World, tid: nat, act: ThreadAct)
    requires ThreadEnabled(w, tid, act)
    ensures var w' := ApplyThread(w, tid, act);
            && w'.callbacks == w.callbacks && w'.sh.nextRetryToken >= w.sh.nextRetryToken
            && (forall token :: token in w.tickets && token != w.sh.nextRetryToken ==>
                token in w'.tickets && w'.tickets[token] == w.tickets[token])
            && (forall token ::
                  token in w'.tickets && (token !in w.tickets || w'.tickets[token] != w.tickets[token]) ==>
                  && token == w.sh.nextRetryToken && w'.tickets[token].stage == InHand
                  && tid in w'.threads && SubmitsIt(w'.threads[tid], token))
  {
  }

  lemma TicketKeepsGate(w: World, token: nat, move: TicketAct)
    requires GateOk(w) && TicketsOk(w) && ThreadsOk(w) && TicketEnabled(w, token, move)
    ensures GateOk(ApplyTicket(w, token, move))
  {
    var w' := ApplyTicket(w, token, move);
    if move.Run? && w.gateOpen {
      OneIsCalled(w.threads, w.nextThread, w'.threads[w.nextThread]);
    } else if move.CallbackEnters? && w.gateOpen {
      assert token !in w.callbacks;
    }
    assert w'.sh.nextRetryToken == w.sh.nextRetryToken;
    forall k | k in w'.tickets && !Submitted(w', k)
      ensures k in w'.callbacks || exists tid :: tid in w'.threads && SubmitsIt(w'.threads[tid], k)
    {
      if !move.CallbackEnters? || k != token {
        assert k in w.tickets && !Submitted(w, k);
        if k !in w.callbacks {
          var tid :| tid in w.threads && SubmitsIt(w.threads[tid], k);
          assert tid in w'.threads && SubmitsIt(w'.threads[tid], k);
        }
      }
    }
  }

  lemma HelloKeepsGate(w: World, conn: nat, hello: HelloAct)
    requires GateOk(w) && HelloEnabled(w, conn, hello)
    ensures GateOk(ApplyHello(w, conn, hello))
  {
    var w' := ApplyHello(w, conn, hello);
    if hello.LeaveHello? { assert |w.hellos| == |w'.hellos| + 1; }
    OnlyCallsHands(w, w', {});
  }

  lemma ConnKeepsGate(w: World, conn: nat, event: ConnEvent)
    requires GateOk(w) && TicketsOk(w) && ConnEnabled(w, conn)
    ensures GateOk(ApplyConn(w, conn, event))
  {
    var w' := ApplyConn(w, conn, event);
    assert w'.threads == w.threads && w'.callbacks == w.callbacks && w'.hellos == w.hellos &&
           w'.activeCalls == w.activeCalls;
    forall k | k in w'.tickets && !Submitted(w', k)
      ensures k in w'.callbacks || exists tid :: tid in w'.threads && SubmitsIt(w'.threads[tid], k)
    {
      assert k in w.tickets && !Submitted(w, k);
    }
  }

  /** The activations of w are still there, and new ones have not entered and are no retries. */
  ghost predicate OnlyCalls(w: World, w': World) {
    && (forall tid :: tid in w.threads ==> tid in w'.threads && w'.threads[tid] == w.threads[tid])
    && (forall tid :: tid in w'.threads && tid !in w.threads ==>
        w'.threads[tid].phase == Called && !w'.threads[tid].kind.Retry?)
  }

  lemma GrowOnlyCalls(w: World, desired: nat, built: bool)
    requires ThreadsOk(w)
    ensures OnlyCalls(w, ApplyGrow(w, desired, built))
  {
  }

  lemma AdminOnlyCalls(w: World, admin: AdminAct)
    requires ThreadsOk(w) && AdminEnabled(w, admin)
    ensures OnlyCalls(w, ApplyAdmin(w, admin))
  {
    if admin.GrowTo? { GrowOnlyCalls(w, admin.desired, admin.built); }
  }

  lemma OnlyCallsCount(w: World, w': World)
    requires OnlyCalls(w, w')
    ensures Starts(w'.threads) == Starts(w.threads) && Tasks(w'.threads) == Tasks(w.threads)
  {
  }

  /** Callbacks whose ticket has been submitted may leave. */
  lemma OnlyCallsHands(w: World, w': World, gone: set<nat>)
    requires InHandOk(w) && CallbacksOk(w) && OnlyCalls(w, w') && w'.callbacks == w.callbacks - gone
    requires w'.tickets == w.tickets && w'.sh.nextRetryToken == w.sh.nextRetryToken
    requires forall k :: k in gone ==> Submitted(w, k)
    ensures InHandOk(w') && CallbacksOk(w')
  {
    forall k | k in w'.tickets && !Submitted(w', k)
      ensures k in w'.callbacks || exists tid :: tid in w'.threads && SubmitsIt(w'.threads[tid], k)
    {
      assert k in w.tickets && !Submitted(w, k);
      if k !in w.callbacks {
        var tid :| tid in w.threads && SubmitsIt(w.threads[tid], k);
        assert tid in w'.threads && SubmitsIt(w'.threads[tid], k);
      }
    }
  }

  predicate SameCalls(w: World, w': World) {
    w'.callbacks == w.callbacks && w'.activeCalls == w.activeCalls
  }

  lemma AdminCalls(w: World, admin: AdminAct)
    requires AdminEnabled(w, admin) && !admin.LeaveCallback?
    ensures SameCalls(w, ApplyAdmin(w, admin))
  {
    match admin
    case ReconnectAt(index) => assert SameCalls(w, ApplyReconnect(w, index));
    case GrowTo(desired, built) => assert SameCalls(w, ApplyGrow(w, desired, built));
    case RequestShutdown(index, key) => assert SameCalls(w, ApplyRequest(w, index, key));
    case _ =>
  }

  lemma AdminKeepsGate(w: World, admin: AdminAct)
    requires GateOk(w) && ThreadsOk(w) && AdminEnabled(w, admin)
    ensures GateOk(ApplyAdmin(w, admin))
  {
    var w' := ApplyAdmin(w, admin);
    AdminOnlyCalls(w, admin);
    AdminFrame(w, admin);
    OnlyCallsCount(w, w');
    if admin.LeaveCallback? {
      assert |w.callbacks| == |w.callbacks - {admin.token}| + 1;
      OnlyCallsHands(w, w', {admin.token});
    } else {
      AdminCalls(w, admin);
      OnlyCallsHands(w, w', {});
    }
  }

  lemma StepKeepsGate(w: World, step: Step)
    requires GateOk(w) && TicketsOk(w) && ThreadsOk(w) && Enabled(w, step)
    ensures GateOk(Apply(w, step))
  {
    match step
    case ThreadStep(tid, act) =>
      ThreadKeepsCount(w, tid, act);
      ThreadKeepsHands(w, tid, act);
    case TicketStep(token, move) => TicketKeepsGate(w, token, move);
    case HelloStep(conn, hello) => HelloKeepsGate(w, conn, hello);
    case ConnStep(conn, event) => ConnKeepsGate(w, conn, event);
    case AdminStep(admin) => AdminKeepsGate(w, admin);
  }

  lemma InitGate(count: nat, pathMode: bool, firstId: nat)
    ensures GateOk(InitWorld(count, pathMode, firstId))
  {
    var w := InitWorld(count, pathMode, firstId);
    assert Starts(w.threads) == {} && Tasks(w.threads) == {};
  }

  /** In every reachable state the counter is the number of gate entries outstanding. */
  lemma {:induction false} RunCounts(ws: seq<World>, steps: seq<Step>, n: nat)
    requires IsRun(ws, steps) && n < |ws|
    ensures Basics(ws[n]) && GateOk(ws[n])
  {
    if n == 0 {
      var count: nat, pathMode, firstId: nat :| ws[0] == InitWorld(count, pathMode, firstId);
      InitBasics(count, pathMode, firstId);
      InitGate(count, pathMode, firstId);
    } else {
      RunCounts(ws, steps, n - 1);
      var step := steps[n - 1];
      StepKeepsBasics(ws[n - 1], step);
      StepKeepsGate(ws[n - 1], step);
    }
  }
}
