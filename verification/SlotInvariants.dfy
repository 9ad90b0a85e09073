/**
 What every step of the client session keeps of the slots, whatever is interleaved: counters
 stay in range, identities were issued before they are used, and a slot and its connection
 refer to each other.
 */
module SlotInvariants {
  import opened Prelude
  import opened ClientSlots
  import opened SlotWorld
  import opened SlotFrames

  ghost predicate CountersOk(w: World) {
    1 <= w.sh.nextRetryToken <= U64_MAX && 1 <= w.sh.nextStartClaim <= U64_MAX && 1 <= w.nextRef &&
    |w.sh.slots| <= w.sh.pathCount &&
    (w.gateOpen ==> w.sh.started && !w.sh.stopping)
  }

  ghost predicate ConnIdsOk(w: World) {
    forall conn :: conn in w.info ==>
                     0 != conn < w.nextRef && 0 != w.info[conn].ctx < w.nextRef &&
                     w.info[conn].key.numericId < w.sh.nextNumericId
  }

  /** The slot's connection was opened for the slot's present identity. */
  predicate Current(w: World, i: nat)
    requires i < |w.sh.slots|
  {
    var slot := w.sh.slots[i];
    slot.conn != 0 && slot.conn in w.info && w.info[slot.conn].index == i && HasKey(slot, w.info[slot.conn].key)
  }

  /**
   A slot's identity and token were issued; it holds a connection exactly when it holds that
   connection's context; and a connection of the present identity has its callbacks to come.
   */
  ghost predicate SlotOk(w: World, i: nat)
    requires i < |w.sh.slots|
  {
    var slot := w.sh.slots[i];
    slot.numericId < w.sh.nextNumericId && slot.retryToken < w.sh.nextRetryToken && slot.generation >= 1 &&
    (slot.conn == 0 <==> slot.ctx == 0) &&
    (slot.conn != 0 ==> slot.conn in w.info && w.info[slot.conn].ctx == slot.ctx && w.info[slot.conn].index == i) &&
    (Current(w, i) ==> slot.conn in w.live)
  }

  ghost predicate SlotsOk(w: World) {
    CountersOk(w) && ConnIdsOk(w) && forall i :: 0 <= i < |w.sh.slots| ==> SlotOk(w, i)
  }

  /** An activation carries an identity that was issued, and works on the slot its ticket names. */
  ghost predicate KeyOk(t: Thread, nextNumericId: nat) {
    (t.phase.Starting? || t.phase.Started? || t.phase.MustRetry? ==>
       t.phase.key.numericId < nextNumericId && t.phase.key.generation >= 1) &&
    (t.kind.Retry? ==> t.kind.ticket.index == t.index)
  }

  ghost predicate ThreadsOk(w: World) {
    forall tid :: tid in w.threads ==> tid < w.nextThread && KeyOk(w.threads[tid], w.sh.nextNumericId)
  }

  /** A ticket is filed under its own token. */
  ghost predicate TicketsOk(w: World) {
    forall token :: token in w.tickets ==>
                      0 != token < w.sh.nextRetryToken && w.tickets[token].ticket.token == token
  }

  /** Only connections that were opened have run a callback. */
  ghost predicate HellosOk(w: World) {
    w.hellos <= w.info.Keys && w.greeted <= w.info.Keys
  }

  ghost predicate Basics(w: World) {
    SlotsOk(w) && ThreadsOk(w) && TicketsOk(w) && HellosOk(w)
  }

  lemma InitBasics(count: nat, pathMode: bool, firstId: nat)
    ensures Basics(InitWorld(count, pathMode, firstId))
  {
    var w := InitWorld(count, pathMode, firstId);
    forall i | 0 <= i < |w.sh.slots| ensures SlotOk(w, i) {
      assert w.sh.slots[i] == FreshSlot(firstId + i);
    }
  }

  // --- frames ------------------------------------------------------------------------------

  /** A step that touches one slot only has to look at that slot. */
  lemma OneSlot(w: World, w': World, i: nat)
    requires SlotsOk(w) && CountersOk(w') && ConnIdsOk(w')
    requires i < |w.sh.slots| == |w'.sh.slots| && w'.sh.slots == w.sh.slots[i := w'.sh.slots[i]]
    requires w.sh.nextNumericId <= w'.sh.nextNumericId && w.sh.nextRetryToken <= w'.sh.nextRetryToken
    requires forall c :: c in w.info ==> c in w'.info && w'.info[c] == w.info[c]
    requires forall c :: c in w.live && c in w.info && w.info[c].index != i ==> c in w'.live
    requires SlotOk(w', i)
    ensures SlotsOk(w')
  {
    forall j | 0 <= j < |w'.sh.slots| ensures SlotOk(w', j) {
      if j != i { assert SlotOk(w, j); }
    }
  }

  lemma SameSlots(w: World, w': World)
    requires SlotsOk(w) && CountersOk(w')
    requires w'.sh.slots == w.sh.slots && w'.info == w.info && w'.nextRef == w.nextRef
    requires w.sh.nextNumericId <= w'.sh.nextNumericId && w.sh.nextRetryToken <= w'.sh.nextRetryToken
    requires forall i :: 0 <= i < |w.sh.slots| && Current(w, i) && w.sh.slots[i].conn in w.live ==>
             w.sh.slots[i].conn in w'.live
    ensures SlotsOk(w')
  {
    forall i | 0 <= i < |w.sh.slots| ensures SlotOk(w', i) {
      assert SlotOk(w, i);
    }
  }

  lemma SetSlotKeeps(w: World, i: nat, slot: Slot)
    requires SlotsOk(w) && i < |w.sh.slots|
    requires SlotOk(w.(sh := SetSlot(w.sh, i, slot)), i)
    ensures SlotsOk(w.(sh := SetSlot(w.sh, i, slot)))
  {
    OneSlot(w, w.(sh := SetSlot(w.sh, i, slot)), i);
  }

  // --- blocks --------------------------------------------------------------------------------

  lemma ClaimKeepsSlots(w: World, t: Thread, valid: bool)
    requires SlotsOk(w)
    ensures SlotsOk(ClaimBody(w, t, valid))
  {
    var w' := ClaimBody(w, t, valid);
    if w'.sh != w.sh {
      assert SlotOk(w, t.index) && SlotOk(w', t.index);
      OneSlot(w, w', t.index);
    } else {
      SameSlots(w, w');
    }
  }

  lemma ReserveKeepsSlots(w: World, index: nat, key: Key, stage: Stage)
    requires SlotsOk(w)
    ensures SlotsOk(ReserveBody(w, index, key, stage))
  {
    var w' := ReserveBody(w, index, key, stage);
    if w'.sh != w.sh {
      assert SlotOk(w, index) && SlotOk(w', index);
      OneSlot(w, w', index);
    } else {
      SameSlots(w, w');
    }
  }

  lemma PublishKeepsSlots(w: World, t: Thread)
    requires SlotsOk(w) && t.phase.Starting? && KeyOk(t, w.sh.nextNumericId)
    ensures SlotsOk(PublishBody(w, t))
  {
    var w' := PublishBody(w, t);
    if MayPublish(w.sh, t.index, t.phase.key.generation) {
      assert SlotOk(w, t.index) && SlotOk(w', t.index);
      OneSlot(w, w', t.index);
    }
  }

  lemma FinishKeepsSlots(w: World, t: Thread, accepted: bool)
    requires SlotsOk(w) && t.phase.Started?
    ensures SlotsOk(FinishBody(w, t, accepted))
  {
    var w' := FinishBody(w, t, accepted);
    if !accepted && StartStillCurrent(w.sh, t.index, t.phase.conn, t.phase.ctx) {
      assert SlotOk(w, t.index);
      OneSlot(w, w', t.index);
    }
  }

  lemma ReleaseKeepsSlots(w: World, index: nat, claim: nat)
    requires SlotsOk(w)
    ensures SlotsOk(w.(sh := ReleaseClaim(w.sh, index, claim)))
  {
    if index < |w.sh.slots| && w.sh.slots[index].startClaim == claim {
      assert SlotOk(w, index);
      SetSlotKeeps(w, index, w.sh.slots[index].(startClaim := 0));
    }
  }

  lemma ThreadKeepsSlots(w: World, tid: nat, act: ThreadAct)
    requires Basics(w) && ThreadEnabled(w, tid, act)
    ensures SlotsOk(ApplyThread(w, tid, act))
  {
    var t := w.threads[tid];
    match act {
      case Claim(valid) => ClaimKeepsSlots(w, t, valid);
      case PublishConn => PublishKeepsSlots(w, t);
      case FinishStart(accepted) => FinishKeepsSlots(w, t, accepted);
      case ReserveAfterFailure => ReserveKeepsSlots(w, t.index, t.phase.key, InHand);
      case DropClaim => ReleaseKeepsSlots(w, t.index, t.phase.claim);
      case _ =>
    }
    SameSlots(ThreadBody(w, tid, act), ApplyThread(w, tid, act));
  }

  lemma TicketKeepsSlots(w: World, token: nat, move: TicketAct)
    requires SlotsOk(w) && TicketEnabled(w, token, move)
    ensures SlotsOk(ApplyTicket(w, token, move))
  {
    var w' := ApplyTicket(w, token, move);
    var t := w.tickets[token].ticket;
    if move.Latch? && TicketMatches(w.sh, t) {
      assert SlotOk(w, t.index);
      OneSlot(w, w', t.index);
    } else {
      SameSlots(w, w');
    }
  }

  lemma ShutdownKeepsSlots(w: World, conn: nat)
    requires SlotsOk(w) && ConnEnabled(w, conn)
    ensures SlotsOk(ApplyConn(w, conn, OnShutdownComplete))
  {
    var c := w.info[conn];
    var w1 := w.(live := w.live - {conn});
    if OwnsSlot(w.sh, c.index, conn, c.ctx, c.key) {
      assert SlotOk(w, c.index);
      var slot := w.sh.slots[c.index].(ctx := 0, connected := false, closing := true, conn := 0);
      var w2 := w1.(sh := SetSlot(w.sh, c.index, slot));
      OneSlot(w, w2, c.index);
      ReserveKeepsSlots(w2, c.index, c.key, WithCallback);
    } else {
      forall i | 0 <= i < |w.sh.slots| && Current(w, i) ensures w.sh.slots[i].conn != conn { assert SlotOk(w, i); }
      SameSlots(w, w1);
    }
  }

  lemma ConnKeepsSlots(w: World, conn: nat, event: ConnEvent)
    requires SlotsOk(w) && ConnEnabled(w, conn)
    ensures SlotsOk(ApplyConn(w, conn, event))
  {
    var index := w.info[conn].index;
    if event.OnShutdownComplete? {
      ShutdownKeepsSlots(w, conn);
    } else if index < |w.sh.slots| && w.sh.slots[index].conn == conn {
      assert SlotOk(w, index);
      OneSlot(w, ApplyConn(w, conn, event), index);
    }
  }

  lemma GrowKeepsSlots(w: World, desired: nat, built: bool)
    requires SlotsOk(w)
    ensures SlotsOk(ApplyGrow(w, desired, built))
  {
    var w' := ApplyGrow(w, desired, built);
    forall i | 0 <= i < |w'.sh.slots| ensures SlotOk(w', i) {
      if i < |w.sh.slots| {
        assert SlotOk(w, i);
      } else {
        assert w'.sh.slots[i] == FreshSlot(w.sh.nextNumericId + (i - |w.sh.slots|));
      }
    }
  }

  lemma ShrinkKeepsSlots(w: World, index: nat)
    requires SlotsOk(w)
    ensures SlotsOk(w.(sh := Shrink(w.sh, index)))
  {
    var w' := w.(sh := Shrink(w.sh, index));
    forall i | 0 <= i < |w'.sh.slots| ensures SlotOk(w', i) {
      assert SlotOk(w, i);
    }
  }

  lemma AdminKeepsSlots(w: World, admin: AdminAct)
    requires SlotsOk(w) && AdminEnabled(w, admin)
    ensures SlotsOk(ApplyAdmin(w, admin))
  {
    var w' := ApplyAdmin(w, admin);
    match admin {
      case GrowTo(desired, built) => GrowKeepsSlots(w, desired, built);
      case ShrinkAt(index) => ShrinkKeepsSlots(w, index);
      case ReconnectAt(index) =>
        if MayReconnect(w.sh, index) { assert SlotOk(w, index); OneSlot(w, w', index); }
      case RequestShutdown(index, key) =>
        if MayTerminate(w.sh, index, key) { assert SlotOk(w, index); OneSlot(w, w', index); }
      case ClearSlots =>
      case _ => SameSlots(w, w');
    }
  }

  // --- activations and tickets ------------------------------------------------------------

  lemma NextKeyOk(w: World, tid: nat, act: ThreadAct)
    requires Basics(w) && ThreadEnabled(w, tid, act)
    ensures KeyOk(w.threads[tid].(phase := NextPhase(w, tid, act)), w.sh.nextNumericId)
  {
    var index := w.threads[tid].index;
    assert index < |w.sh.slots| ==> SlotOk(w, index);
  }

  lemma ThreadKeepsThreads(w: World, tid: nat, act: ThreadAct)
    requires Basics(w) && ThreadEnabled(w, tid, act)
    ensures ThreadsOk(ApplyThread(w, tid, act))
  {
    BodyFrame(w, tid, act);
    NextKeyOk(w, tid, act);
  }

  lemma FileKeepsTickets(w: World, r: Reserved, stage: Stage)
    requires TicketsOk(w)
    requires w.sh.nextRetryToken <= r.s.nextRetryToken
    requires r.ticket.Some? ==> 0 != r.ticket.value.token < r.s.nextRetryToken
    ensures TicketsOk(FileTicket(w.(sh := r.s), r.ticket, stage))
  {
  }

  lemma ThreadKeepsTickets(w: World, tid: nat, act: ThreadAct)
    requires Basics(w) && ThreadEnabled(w, tid, act)
    ensures TicketsOk(ApplyThread(w, tid, act))
  {
    BodyFrame(w, tid, act);
    if act.ReserveAfterFailure? {
      var t := w.threads[tid];
      FileKeepsTickets(w, ReserveRetry(w.sh, t.index, t.phase.key), InHand);
    } else {
      assert ThreadBody(w, tid, act).tickets == w.tickets;
    }
  }

  lemma TicketKeepsOthers(w: World, token: nat, move: TicketAct)
    requires Basics(w) && TicketEnabled(w, token, move)
    ensures ThreadsOk(ApplyTicket(w, token, move)) && TicketsOk(ApplyTicket(w, token, move))
  {
  }

  lemma ConnKeepsOthers(w: World, conn: nat, event: ConnEvent)
    requires Basics(w) && ConnEnabled(w, conn)
    ensures ThreadsOk(ApplyConn(w, conn, event)) && TicketsOk(ApplyConn(w, conn, event))
  {
    if event.OnShutdownComplete? {
      var c := w.info[conn];
      FileKeepsTickets(w.(live := w.live - {conn}), CompleteShutdown(w.sh, c.index, conn, c.ctx, c.key), WithCallback);
    }
  }

  lemma AdminKeepsOthers(w: World, admin: AdminAct)
    requires Basics(w) && AdminEnabled(w, admin)
    ensures ThreadsOk(ApplyAdmin(w, admin)) && TicketsOk(ApplyAdmin(w, admin))
  {
  }

  lemma HelloKeepsSlots(w: World, conn: nat, hello: HelloAct)
    requires SlotsOk(w) && HelloEnabled(w, conn, hello)
    ensures SlotsOk(ApplyHello(w, conn, hello))
  {
    SameSlots(w, ApplyHello(w, conn, hello));
  }

  lemma StepKeepsHellos(w: World, step: Step)
    requires SlotsOk(w) && HellosOk(w) && Enabled(w, step)
    ensures HellosOk(Apply(w, step))
  {
    match step
    case ThreadStep(tid, act) =>
      InfoGrows(w, tid, act);
      BodyHellos(w, tid, act);
    case TicketStep(token, move) => TicketHellos(w, token, move);
    case HelloStep(_, _) =>
    case ConnStep(_, _) =>
    case AdminStep(admin) => AdminFrame(w, admin);
  }

  lemma BodyHellos(w: World, tid: nat, act: ThreadAct)
    requires ThreadEnabled(w, tid, act)
    ensures ThreadBody(w, tid, act).hellos == w.hellos && ThreadBody(w, tid, act).greeted == w.greeted
  {
  }

  lemma TicketHellos(w: World, token: nat, move: TicketAct)
    requires TicketEnabled(w, token, move)
    ensures var w' := ApplyTicket(w, token, move); w'.hellos == w.hellos && w'.greeted == w.greeted && w'.info == w.info
  {
  }

  lemma StepKeepsBasics(w: World, step: Step)
    requires Basics(w) && Enabled(w, step)
    ensures Basics(Apply(w, step))
  {
    StepKeepsHellos(w, step);
    match step {
      case ThreadStep(tid, act) =>
        ThreadKeepsSlots(w, tid, act);
        ThreadKeepsThreads(w, tid, act);
        ThreadKeepsTickets(w, tid, act);
      case TicketStep(token, move) =>
        TicketKeepsSlots(w, token, move);
        TicketKeepsOthers(w, token, move);
      case HelloStep(conn, hello) => HelloKeepsSlots(w, conn, hello);
      case ConnStep(conn, event) =>
        ConnKeepsSlots(w, conn, event);
        ConnKeepsOthers(w, conn, event);
      case AdminStep(admin) =>
        AdminKeepsSlots(w, admin);
        AdminKeepsOthers(w, admin);
    }
  }
}
