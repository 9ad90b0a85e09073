/**
 A latched slot stays down.  Once a slot's retry scheduling has failed, no later step mints a
 retry token for it, grants it a start for a retry ticket or an idle start, or reconnects it,
 until the slot is removed.
 */
module RetryLatch {
  import opened ClientSlots
  import opened SlotWorld
  import opened SlotFrames
  import opened StaleIdentity

  /** A latched slot keeps a live token only once start claims have run out. */
  ghost predicate LatchOk(s: Shared) {
    forall i :: 0 <= i < |s.slots| && s.slots[i].retryFailed && s.slots[i].retryToken != 0 ==>
                  Exhausted(s.nextStartClaim)
  }

  /** Slot `i` stays latched and gets no new token. */
  predicate StaysLatched(s: Shared, s': Shared, i: nat) {
    i < |s.slots| && i < |s'.slots| && s'.slots[i].retryFailed &&
    (s'.slots[i].retryToken == 0 || s'.slots[i].retryToken == s.slots[i].retryToken)
  }

  lemma ClaimLatch(s: Shared, index: nat, kind: StartKind, valid: bool, i: nat)
    requires LatchOk(s) && i < |s.slots| && s.slots[i].retryFailed
    ensures StaysLatched(s, ClaimStart(s, index, kind, valid).s, i)
    ensures index == i && kind.Idle? ==>
            !ClaimStart(s, index, kind, valid).result.AlreadyUp? && !ClaimStart(s, index, kind, valid).result.Claimed?
    ensures index == i && kind.Retry? && kind.ticket.index == i ==>
              !ClaimStart(s, index, kind, valid).result.AlreadyUp? && !ClaimStart(s, index, kind, valid).result.Claimed?
  {
  }

  lemma ThreadLatch(w: World, tid: nat, act: ThreadAct, i: nat)
    requires LatchOk(w.sh) && ThreadEnabled(w, tid, act) && i < |w.sh.slots| && w.sh.slots[i].retryFailed
    ensures StaysLatched(w.sh, ApplyThread(w, tid, act).sh, i)
  {
    if act.Claim? { ClaimLatch(w.sh, w.threads[tid].index, w.threads[tid].kind, act.valid, i); }
  }

  lemma ConnLatch(w: World, conn: nat, event: ConnEvent, i: nat)
    requires ConnEnabled(w, conn) && i < |w.sh.slots| && w.sh.slots[i].retryFailed
    ensures StaysLatched(w.sh, ApplyConn(w, conn, event).sh, i)
  {
  }

  lemma AdminLatch(w: World, admin: AdminAct, i: nat)
    requires AdminEnabled(w, admin) && i < |w.sh.slots| && w.sh.slots[i].retryFailed
    requires !Removes(w, AdminStep(admin), i)
    ensures StaysLatched(w.sh, ApplyAdmin(w, admin).sh, i)
  {
  }

  lemma StepStaysLatched(w: World, step: Step, i: nat)
    requires LatchOk(w.sh) && Enabled(w, step) && i < |w.sh.slots| && w.sh.slots[i].retryFailed
    requires !Removes(w, step, i)
    ensures StaysLatched(w.sh, Apply(w, step).sh, i)
  {
    match step {
      case ThreadStep(tid, act) => ThreadLatch(w, tid, act, i);
      case ConnStep(conn, event) => ConnLatch(w, conn, event, i);
      case AdminStep(admin) => AdminLatch(w, admin, i);
      case TicketStep(_, _) =>
      case HelloStep(_, _) =>
    }
  }

  // --- the key invariant -----------------------------------------------------------------------

  lemma ClaimKeepsLatchOk(s: Shared, index: nat, kind: StartKind, valid: bool)
    requires LatchOk(s)
    ensures LatchOk(ClaimStart(s, index, kind, valid).s)
  {
  }

  lemma ReserveKeepsLatchOk(s: Shared, index: nat, key: Key)
    requires LatchOk(s)
    ensures LatchOk(ReserveRetry(s, index, key).s)
  {
  }

  lemma ThreadKeepsLatchOk(w: World, tid: nat, act: ThreadAct)
    requires LatchOk(w.sh) && ThreadEnabled(w, tid, act)
    ensures LatchOk(ApplyThread(w, tid, act).sh)
  {
    var t := w.threads[tid];
    match act {
      case Claim(valid) => ClaimKeepsLatchOk(w.sh, t.index, t.kind, valid);
      case ReserveAfterFailure => ReserveKeepsLatchOk(w.sh, t.index, t.phase.key);
      case _ =>
    }
  }

  lemma ConnKeepsLatchOk(w: World, conn: nat, event: ConnEvent)
    requires LatchOk(w.sh) && ConnEnabled(w, conn)
    ensures LatchOk(ApplyConn(w, conn, event).sh)
  {
    var c := w.info[conn];
    if event.OnShutdownComplete? && c.ctx != 0 && OwnsSlot(w.sh, c.index, conn, c.ctx, c.key) {
      var slot := w.sh.slots[c.index].(ctx := 0, connected := false, closing := true, conn := 0);
      ReserveKeepsLatchOk(SetSlot(w.sh, c.index, slot), c.index, c.key);
    }
  }

  lemma AdminKeepsLatchOk(w: World, admin: AdminAct)
    requires LatchOk(w.sh) && AdminEnabled(w, admin)
    ensures LatchOk(ApplyAdmin(w, admin).sh)
  {
    if admin.GrowTo? {
      var s' := ApplyAdmin(w, admin).sh;
      forall i | |w.sh.slots| <= i < |s'.slots| ensures !s'.slots[i].retryFailed {
        GrownSlot(w.sh, admin.desired, admin.built, i);
      }
    }
  }

  lemma StepKeepsLatchOk(w: World, step: Step)
    requires LatchOk(w.sh) && Enabled(w, step)
    ensures LatchOk(Apply(w, step).sh)
  {
    match step {
      case ThreadStep(tid, act) => ThreadKeepsLatchOk(w, tid, act);
      case ConnStep(conn, event) => ConnKeepsLatchOk(w, conn, event);
      case AdminStep(admin) => AdminKeepsLatchOk(w, admin);
      case TicketStep(_, _) =>
      case HelloStep(_, _) =>
    }
  }

  lemma {:induction false} RunKeepsLatchOk(ws: seq<World>, steps: seq<Step>, n: nat)
    requires IsRun(ws, steps) && n < |ws|
    ensures LatchOk(ws[n].sh)
  {
    if n == 0 {
      var count: nat, pathMode, firstId: nat :| ws[0] == InitWorld(count, pathMode, firstId);
      forall i | 0 <= i < count ensures ws[0].sh.slots[i].retryToken == 0 {
        assert ws[0].sh.slots[i] == FreshSlot(firstId + i);
      }
    } else {
      RunKeepsLatchOk(ws, steps, n - 1);
      StepKeepsLatchOk(ws[n - 1], steps[n - 1]);
    }
  }

  // --- the theorem ---------------------------------------------------------------------------------

  lemma {:induction false} LatchPersists(ws: seq<World>, steps: seq<Step>, m: nat, n: nat, i: nat)
    requires IsRun(ws, steps) && m <= n < |ws| && i < |ws[m].sh.slots| && ws[m].sh.slots[i].retryFailed
    requires forall k {:trigger steps[k]} :: m <= k < n ==> !Removes(ws[k], steps[k], i)
    ensures i < |ws[n].sh.slots| && ws[n].sh.slots[i].retryFailed
  {
    if m >= n {
    } else {
      LatchPersists(ws, steps, m, n - 1, i);
      RunKeepsLatchOk(ws, steps, n - 1);
      StepStaysLatched(ws[n - 1], steps[n - 1], i);
    }
  }

  /** The step takes a start claim for slot `i` on behalf of a retry ticket or an idle caller. */
  predicate GrantsConditionalStart(w: World, step: Step, i: nat) {
    step.ThreadStep? && step.act.Claim? && step.tid in w.threads &&
    var t := w.threads[step.tid];
    t.index == i && !t.kind.Plain? &&
    var r := ClaimStart(w.sh, t.index, t.kind, step.act.valid).result;
    r.AlreadyUp? || r.Claimed?
  }

  /** From the moment slot `i` is latched until it is removed, it gets no token and no such start. */
  lemma LatchedStaysDown(ws: seq<World>, steps: seq<Step>, m: nat, n: nat, i: nat)
    requires IsRun(ws, steps) && m <= n < |steps| && i < |ws[m].sh.slots| && ws[m].sh.slots[i].retryFailed
    requires forall k {:trigger steps[k]} :: m <= k <= n ==> !Removes(ws[k], steps[k], i)
    ensures StaysLatched(ws[n].sh, ws[n + 1].sh, i)
    ensures !GrantsConditionalStart(ws[n], steps[n], i)
    ensures !MayReconnect(ws[n].sh, i)
  {
    LatchPersists(ws, steps, m, n, i);
    RunKeepsLatchOk(ws, steps, n);
    StepStaysLatched(ws[n], steps[n], i);
    if GrantsConditionalStart(ws[n], steps[n], i) {
      RunBasics(ws, steps, n);
      var t := ws[n].threads[steps[n].tid];
      ClaimLatch(ws[n].sh, t.index, t.kind, steps[n].act.valid, i);
    }
  }
}
