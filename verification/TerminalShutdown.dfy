/**
 Terminal shutdown of a client slot is granted at most once between two publications or
 reconnects of that slot.
 */
module TerminalShutdown {
  import opened ClientSlots
  import opened SlotWorld
  import opened SlotFrames
  import opened SlotInvariants
  import opened StaleIdentity

  /** The step reserves a terminal shutdown of slot `i`. */
  predicate Grants(w: World, step: Step, i: nat) {
    step.AdminStep? && step.admin.RequestShutdown? && step.admin.index == i && MayTerminate(w.sh, i, step.admin.key)
  }

  /** The step publishes a connection in slot `i`. */
  predicate Publishes(w: World, step: Step, i: nat) {
    step.ThreadStep? && step.act.PublishConn? && step.tid in w.threads && w.threads[step.tid].phase.Starting? &&
    w.threads[step.tid].index == i && MayPublish(w.sh, i, w.threads[step.tid].phase.key.generation)
  }

  /** A request that is not granted leaves every slot alone; one that is marks its slot only. */
  lemma RequestChanges(s: Shared, index: nat, key: Key)
    ensures !(index < |s.slots| && HasKey(s.slots[index], key)) ==> RequestTerminal(s, index, key) == s
    ensures RequestTerminal(s, index, key) != s ==>
              index < |s.slots| && HasKey(s.slots[index], key) && !s.slots[index].terminalReserved &&
              TerminalTarget(RequestTerminal(s, index, key), index, key) == s.slots[index].conn
    ensures forall i :: 0 <= i < |s.slots| && i != index ==> RequestTerminal(s, index, key).slots[i] == s.slots[i]
  {
  }

  predicate ReservedAt(s: Shared, i: nat) {
    i < |s.slots| && s.slots[i].terminalReserved
  }

  lemma ClaimKeepsReservation(s: Shared, index: nat, kind: StartKind, valid: bool, i: nat)
    requires ReservedAt(s, i)
    ensures ReservedAt(ClaimStart(s, index, kind, valid).s, i)
  {
  }

  lemma ReserveKeepsReservation(s: Shared, index: nat, key: Key, i: nat)
    requires ReservedAt(s, i)
    ensures ReservedAt(ReserveRetry(s, index, key).s, i)
  {
  }

  lemma ThreadKeepsReservation(w: World, tid: nat, act: ThreadAct, i: nat)
    requires ThreadEnabled(w, tid, act) && ReservedAt(w.sh, i)
    requires !Publishes(w, ThreadStep(tid, act), i)
    ensures ReservedAt(ApplyThread(w, tid, act).sh, i)
  {
    var t := w.threads[tid];
    match act {
      case Claim(valid) => ClaimKeepsReservation(w.sh, t.index, t.kind, valid, i);
      case ReserveAfterFailure => ReserveKeepsReservation(w.sh, t.index, t.phase.key, i);
      case _ =>
    }
  }

  lemma ConnKeepsReservation(w: World, conn: nat, event: ConnEvent, i: nat)
    requires ConnEnabled(w, conn) && ReservedAt(w.sh, i)
    ensures ReservedAt(ApplyConn(w, conn, event).sh, i)
  {
    var c := w.info[conn];
    if event.OnShutdownComplete? && c.ctx != 0 && OwnsSlot(w.sh, c.index, conn, c.ctx, c.key) {
      var slot := w.sh.slots[c.index].(ctx := 0, connected := false, closing := true, conn := 0);
      ReserveKeepsReservation(SetSlot(w.sh, c.index, slot), c.index, c.key, i);
    }
  }

  lemma AdminKeepsReservation(w: World, admin: AdminAct, i: nat)
    requires AdminEnabled(w, admin) && ReservedAt(w.sh, i)
    requires !Retires(w, AdminStep(admin), i)
    ensures ReservedAt(ApplyAdmin(w, admin).sh, i)
  {
  }

  /** Only a publication, a reconnect or the removal of the slot ends a reservation. */
  lemma StepKeepsReservation(w: World, step: Step, i: nat)
    requires Enabled(w, step) && ReservedAt(w.sh, i)
    requires !Publishes(w, step, i) && !Retires(w, step, i)
    ensures ReservedAt(Apply(w, step).sh, i)
  {
    match step {
      case ThreadStep(tid, act) => ThreadKeepsReservation(w, tid, act, i);
      case ConnStep(conn, event) => ConnKeepsReservation(w, conn, event, i);
      case AdminStep(admin) => AdminKeepsReservation(w, admin, i);
      case TicketStep(_, _) =>
      case HelloStep(_, _) =>
    }
  }

  /** From m on and before n the slot was published, reconnected or removed. */
  ghost predicate Interrupted(ws: seq<World>, steps: seq<Step>, m: nat, n: nat, i: nat)
    requires |ws| == |steps| + 1 && n < |ws|
  {
    exists k {:trigger steps[k]} :: m <= k < n && (Publishes(ws[k], steps[k], i) || Retires(ws[k], steps[k], i))
  }

  lemma {:induction false} ReservationPersists(ws: seq<World>, steps: seq<Step>, m: nat, n: nat, i: nat)
    requires IsRun(ws, steps) && m <= n < |ws| && ReservedAt(ws[m].sh, i)
    requires !Interrupted(ws, steps, m, n, i)
    ensures ReservedAt(ws[n].sh, i)
  {
    if m == n {
    } else {
      assert !Interrupted(ws, steps, m, n - 1, i);
      ReservationPersists(ws, steps, m, n - 1, i);
      var step := steps[n - 1];
      assert !Publishes(ws[n - 1], step, i) && !Retires(ws[n - 1], step, i);
      StepKeepsReservation(ws[n - 1], step, i);
    }
  }

  lemma GrantReserves(w: World, step: Step, i: nat)
    requires Enabled(w, step) && Grants(w, step, i)
    ensures ReservedAt(Apply(w, step).sh, i)
  {
  }

  lemma ReservedIsNotGranted(w: World, step: Step, i: nat)
    requires ReservedAt(w.sh, i)
    ensures !Grants(w, step, i)
  {
  }

  /** Between two grants for the same slot lies a publication, a reconnect or a removal of it. */
  lemma GrantedOncePerEpoch(ws: seq<World>, steps: seq<Step>, a: nat, b: nat, i: nat)
    requires IsRun(ws, steps) && a < b < |steps| && Grants(ws[a], steps[a], i) && Grants(ws[b], steps[b], i)
    ensures exists k {:trigger steps[k]} :: a < k < b && (Publishes(ws[k], steps[k], i) || Retires(ws[k], steps[k], i))
  {
    if !Interrupted(ws, steps, a + 1, b, i) {
      var first, second, later := steps[a], steps[b], ws[b];
      GrantReserves(ws[a], first, i);
      ReservationPersists(ws, steps, a + 1, b, i);
      ReservedIsNotGranted(later, second, i);
      assert false;
    }
  }

  // --- which connection a deferred shutdown meets ----------------------------------------------------------

  /** Slot `i` is reserved and holds connection `c`. */
  predicate ReservedFor(s: Shared, i: nat, c: nat) {
    ReservedAt(s, i) && s.slots[i].conn == c
  }

  lemma ThreadOrigin(w: World, tid: nat, act: ThreadAct, i: nat, c: nat)
    requires ThreadEnabled(w, tid, act) && c != 0 && ReservedFor(ApplyThread(w, tid, act).sh, i, c)
    ensures ReservedFor(w.sh, i, c)
  {
  }

  lemma ConnOrigin(w: World, conn: nat, event: ConnEvent, i: nat, c: nat)
    requires ConnEnabled(w, conn) && c != 0 && ReservedFor(ApplyConn(w, conn, event).sh, i, c)
    ensures ReservedFor(w.sh, i, c)
  {
  }

  lemma AdminOrigin(w: World, admin: AdminAct, i: nat, c: nat)
    requires AdminEnabled(w, admin) && c != 0 && ReservedFor(ApplyAdmin(w, admin).sh, i, c)
    ensures ReservedFor(w.sh, i, c) || (Grants(w, AdminStep(admin), i) && w.sh.slots[i].conn == c)
  {
    if admin.GrowTo? && i >= |w.sh.slots| {
      GrownSlot(w.sh, admin.desired, admin.built, i);
    }
  }

  /** A reservation together with a connection comes from a grant made for that connection. */
  lemma StepOrigin(w: World, step: Step, i: nat, c: nat)
    requires Enabled(w, step) && c != 0 && ReservedFor(Apply(w, step).sh, i, c)
    ensures ReservedFor(w.sh, i, c) || (Grants(w, step, i) && w.sh.slots[i].conn == c)
  {
    match step
    case ThreadStep(tid, act) => ThreadOrigin(w, tid, act, i, c);
    case TicketStep(_, _) =>
    case HelloStep(_, _) =>
    case ConnStep(conn, event) => ConnOrigin(w, conn, event, i, c);
    case AdminStep(admin) => AdminOrigin(w, admin, i, c);
  }

  lemma {:induction false} GrantOrigin(ws: seq<World>, steps: seq<Step>, a: nat, n: nat, i: nat, c: nat)
    returns (g: nat)
    requires IsRun(ws, steps) && a <= n < |ws| && c != 0 && !ReservedFor(ws[a].sh, i, c) && ReservedFor(ws[n].sh, i, c)
    ensures a <= g < n && Grants(ws[g], steps[g], i) && ws[g].sh.slots[i].conn == c
  {
    var step := steps[n - 1];
    StepOrigin(ws[n - 1], step, i, c);
    if ReservedFor(ws[n - 1].sh, i, c) {
      g := GrantOrigin(ws, steps, a, n - 1, i, c);
    } else {
      g := n - 1;
    }
  }

  /** The connection slot `i` holds, 0 if there is none. */
  function ConnAt(s: Shared, i: nat): nat {
    if i < |s.slots| then s.slots[i].conn else 0
  }

  lemma ThreadMovesConn(w: World, tid: nat, act: ThreadAct, i: nat)
    requires ThreadEnabled(w, tid, act)
    ensures var c := ConnAt(ApplyThread(w, tid, act).sh, i);
            if Publishes(w, ThreadStep(tid, act), i) then c == w.nextRef else c == 0 || c == ConnAt(w.sh, i)
    ensures w.nextRef <= ApplyThread(w, tid, act).nextRef
  {
  }

  lemma ConnMovesConn(w: World, conn: nat, event: ConnEvent, i: nat)
    requires ConnEnabled(w, conn)
    ensures ConnAt(ApplyConn(w, conn, event).sh, i) in {0, ConnAt(w.sh, i)}
    ensures w.nextRef == ApplyConn(w, conn, event).nextRef
  {
  }

  lemma AdminMovesConn(w: World, admin: AdminAct, i: nat)
    requires AdminEnabled(w, admin)
    ensures ConnAt(ApplyAdmin(w, admin).sh, i) in {0, ConnAt(w.sh, i)}
    ensures w.nextRef == ApplyAdmin(w, admin).nextRef
  {
    if admin.GrowTo? && |w.sh.slots| <= i < |ApplyAdmin(w, admin).sh.slots| {
      GrownSlot(w.sh, admin.desired, admin.built, i);
    }
  }

  /** A slot gets a connection only by a publication, and then a new one. */
  lemma StepMovesConn(w: World, step: Step, i: nat)
    requires Enabled(w, step)
    ensures var c := ConnAt(Apply(w, step).sh, i);
            if Publishes(w, step, i) then c == w.nextRef else c == 0 || c == ConnAt(w.sh, i)
    ensures w.nextRef <= Apply(w, step).nextRef
  {
    match step
    case ThreadStep(tid, act) => ThreadMovesConn(w, tid, act, i);
    case TicketStep(_, _) =>
    case HelloStep(_, _) =>
    case ConnStep(conn, event) => ConnMovesConn(w, conn, event, i);
    case AdminStep(admin) => AdminMovesConn(w, admin, i);
  }

  ghost predicate PublishedBetween(ws: seq<World>, steps: seq<Step>, a: nat, n: nat, i: nat)
    requires |ws| == |steps| + 1 && n < |ws|
  {
    exists k {:trigger steps[k]} :: a <= k < n && Publishes(ws[k], steps[k], i)
  }

  lemma {:induction false} OwnOrNone(ws: seq<World>, steps: seq<Step>, a: nat, n: nat, i: nat)
    requires IsRun(ws, steps) && a <= n < |ws| && !PublishedBetween(ws, steps, a, n, i)
    ensures ConnAt(ws[n].sh, i) in {0, ConnAt(ws[a].sh, i)}
  {
    if a == n {
    } else {
      var step := steps[n - 1];
      assert !PublishedBetween(ws, steps, a, n - 1, i);
      OwnOrNone(ws, steps, a, n - 1, i);
      StepMovesConn(ws[n - 1], step, i);
    }
  }

  lemma {:induction false} RefsRise(ws: seq<World>, steps: seq<Step>, a: nat, n: nat)
    requires IsRun(ws, steps) && a <= n < |ws|
    ensures ws[a].nextRef <= ws[n].nextRef
  {
    if a == n {
    } else {
      var step := steps[n - 1];
      RefsRise(ws, steps, a, n - 1);
      StepMovesConn(ws[n - 1], step, 0);
    }
  }

  lemma {:induction false} NewOrNone(ws: seq<World>, steps: seq<Step>, k: nat, n: nat, i: nat)
    requires IsRun(ws, steps) && k < n < |ws| && Publishes(ws[k], steps[k], i)
    ensures ConnAt(ws[n].sh, i) == 0 || ws[k].nextRef <= ConnAt(ws[n].sh, i)
  {
    var step := steps[n - 1];
    StepMovesConn(ws[n - 1], step, i);
    if k < n - 1 {
      NewOrNone(ws, steps, k, n - 1, i);
      RefsRise(ws, steps, k, n - 1);
    }
  }

  /** From a state in which slot `i` holds a connection, it still holds it exactly if it holds one and none was
      published in between. */
  lemma SameConnIff(ws: seq<World>, steps: seq<Step>, a: nat, n: nat, i: nat)
    requires IsRun(ws, steps) && a <= n < |ws| && ConnAt(ws[n].sh, i) != 0
    ensures ConnAt(ws[n].sh, i) == ConnAt(ws[a].sh, i) <==> !PublishedBetween(ws, steps, a, n, i)
  {
    if PublishedBetween(ws, steps, a, n, i) {
      var k {:trigger steps[k]} :| a <= k < n && Publishes(ws[k], steps[k], i);
      NewOrNone(ws, steps, k, n, i);
      RefsRise(ws, steps, a, k);
      RunBasics(ws, steps, a);
      ConnIsOld(ws[a], i);
    } else {
      OwnOrNone(ws, steps, a, n, i);
    }
  }

  lemma ConnIsOld(w: World, i: nat)
    requires Basics(w)
    ensures ConnAt(w.sh, i) < w.nextRef
  {
    if i < |w.sh.slots| { assert SlotOk(w, i); }
  }

  /**
   The deferred operation of a grant made at `a` shuts down only a connection for which a shutdown
   of this slot was granted, then or later; it is the connection of that very grant if and only if
   none was published in the slot in between; and after the slot was reconnected or removed it
   shuts down nothing.
   */
  lemma DeferredRechecks(ws: seq<World>, steps: seq<Step>, a: nat, n: nat, i: nat)
    requires IsRun(ws, steps) && a < n < |ws| && Grants(ws[a], steps[a], i)
    ensures var c := TerminalTarget(ws[n].sh, i, steps[a].admin.key);
            c != 0 ==>
            exists g {:trigger steps[g]} :: a <= g < n && Grants(ws[g], steps[g], i) && ws[g].sh.slots[i].conn == c
    ensures var c := TerminalTarget(ws[n].sh, i, steps[a].admin.key);
            c != 0 ==> (c == ws[a].sh.slots[i].conn <==> !PublishedBetween(ws, steps, a, n, i))
    ensures (exists k {:trigger steps[k]} :: a <= k < n && Retires(ws[k], steps[k], i)) ==>
              TerminalTarget(ws[n].sh, i, steps[a].admin.key) == 0
  {
    var c := TerminalTarget(ws[n].sh, i, steps[a].admin.key);
    if c != 0 {
      SameConnIff(ws, steps, a, n, i);
      var g := GrantOrigin(ws, steps, a, n, i, c);
      var step := steps[g];
    }
    if k {:trigger steps[k]} :| a <= k < n && Retires(ws[k], steps[k], i) {
      RetiredKeyNeverFits(ws, steps, a, k, n, i, steps[a].admin.key);
    }
  }
}
