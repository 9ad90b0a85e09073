/**
 StartSlot as one operation, made of the session's locked blocks and the gate, when nothing interferes with it.  The
 interleaved version is the system in SlotWorld.dfy.
 */
module StartOperation {
  import opened Prelude
  import opened ClientSlots
  import opened SlotConsistency
  import opened ClientSession

  /** What the outside decides: whether the old connection is still valid, a new one can be opened, ConnectionStart
      accepts it, and the scheduler takes a retry. */
  datatype Outside = Outside(valid: bool, opens: bool, accepts: bool, schedules: bool)

  predicate Admissible(s: Shared, index: nat, kind: StartKind) {
    Live(s, index) && index < s.pathCount && (kind.Retry? ==> TicketMatches(s, kind.ticket))
  }

  predicate IdleSlot(slot: Slot) {
    slot.conn == 0 && slot.retryToken == 0 && slot.startClaim == 0 && !slot.retryFailed
  }

  predicate LetIn(s: Shared, index: nat, kind: StartKind) {
    Admissible(s, index, kind) && !Exhausted(s.nextStartClaim) && (kind.Idle? ==> IdleSlot(s.slots[index]))
  }

  /** Nothing but the slot and the two counters changes. */
  predicate OnlySlot(s: Shared, s': Shared, index: nat) {
    && s' == s.(slots := s'.slots, nextRetryToken := s'.nextRetryToken, nextStartClaim := s'.nextStartClaim)
    && |s'.slots| == |s.slots| && forall i :: 0 <= i < |s.slots| && i != index ==> s'.slots[i] == s.slots[i]
  }

  /** The slot after a start that was turned away: latched if start claims have run out, otherwise as it was. */
  predicate TurnedAway(s: Shared, s': Shared, index: nat, kind: StartKind, inside: bool) {
    if inside && Admissible(s, index, kind) && Exhausted(s.nextStartClaim) then
      var slot := s.slots[index];
      s' == SetSlot(s, index, slot.(retryFailed := true, retryToken := if kind.Retry? then 0 else slot.retryToken))
    else s' == s
  }

  /** The slot before and after a start that was let in. */
  predicate Served(s: Shared, s': Shared, index: nat, o: Outside, conn: nat, ctx: nat, ok: bool, replaced: nat,
                   ticket: Option<Ticket>)
    requires index < |s.slots| == |s'.slots|
  {
    var a, b := s.slots[index], s'.slots[index];
    var up := a.connected && a.conn != 0 && o.valid;
    && b.numericId == a.numericId && b.generation == a.generation && b.startClaim == 0 &&
       s'.nextStartClaim == s.nextStartClaim + 1
    && ok == (up || (o.opens && o.accepts)) && replaced == (if up then 0 else a.conn)
    && (up ==> b == a.(retryToken := 0, startClaim := 0))
    && (!up && ok ==> b.conn == conn && b.ctx == ctx && !b.connected && !b.closing && !b.terminalReserved)
    && (!ok ==> b.conn == 0 && b.ctx == 0 && !b.connected)
    && (b.retryFailed <==> a.retryFailed || (!ok && (!o.schedules || Exhausted(s.nextRetryToken))))
    && if ok || b.retryFailed then ticket == None && b.retryToken == 0
       else
         ticket == Some(Ticket(index, a.numericId, a.generation, s.nextRetryToken)) && TicketMatches(s', ticket.value)
  }

  /** ScheduleStartRetry: reserve a retry for the slot's identity and hand it to the scheduler, which takes it or
      not. */
  method ScheduleStartRetry(state: ClientSharedState, index: nat, key: Key, schedules: bool)
    returns (ticket: Option<Ticket>)
    requires state.Valid() && Live(state.View(), index) && HasKey(state.slots[index], key) &&
             state.slots[index].retryToken == 0
    modifies state
    ensures state.Valid() && OnlySlot(old(state.View()), state.View(), index) &&
            state.nextStartClaim == old(state.nextStartClaim)
    ensures ticket.None? ==> state.slots == old(state.slots)[index := old(state.slots)[index].(retryFailed := true)]
    ensures ticket.Some? ==>
              && ticket.value == Ticket(index, key.numericId, key.generation, old(state.nextRetryToken))
              && state.slots == old(state.slots)[index := old(state.slots)[index].(retryToken := ticket.value.token)]
              && TicketMatches(state.View(), ticket.value)
    ensures ticket.None? <==> old(state.slots)[index].retryFailed || !schedules || Exhausted(old(state.nextRetryToken))
  {
    ticket := state.ReserveRetryLocked(index, key);
    if ticket.Some? && !schedules {
      state.RefuseRetryLocked(ticket.value);
      ticket := None;
    }
  }

  /** What opening and starting a connection makes of a claimed slot. */
  predicate Tried(s: Shared, s': Shared, index: nat, key: Key, o: Outside, conn: nat, ctx: nat, ok: bool,
                  ticket: Option<Ticket>)
    requires index < |s.slots|
  {
    OnlySlot(s, s', index) && s'.nextStartClaim == s.nextStartClaim && ok == (o.opens && o.accepts) &&
    var a, b := s.slots[index], s'.slots[index];
    && b.numericId == a.numericId && b.generation == a.generation && b.startClaim == a.startClaim && !b.connected
    && (ok ==> b.conn == conn && b.ctx == ctx && !b.closing && !b.terminalReserved && b.retryFailed == a.retryFailed)
    && (!ok ==> b.conn == 0 && b.ctx == 0)
    && (!ok ==> (b.retryFailed <==> a.retryFailed || !o.schedules || Exhausted(s.nextRetryToken)))
    && if ok || b.retryFailed then ticket == None && b.retryToken == 0
       else
         ticket == Some(Ticket(index, key.numericId, key.generation, s.nextRetryToken)) &&
         TicketMatches(s', ticket.value)
  }

  method OpenAndStart(state: ClientSharedState, index: nat, key: Key, o: Outside, conn: nat, ctx: nat)
    returns (ok: bool, ticket: Option<Ticket>)
    requires state.Valid() && conn != 0 && ctx != 0 && Unheld(state.View(), conn) && Live(state.View(), index)
    requires var slot := state.slots[index];
             HasKey(slot, key) && slot.retryToken == 0 && slot.conn == 0 && slot.ctx == 0 && !slot.connected
    modifies state
    ensures state.Valid() && Tried(old(state.View()), state.View(), index, key, o, conn, ctx, ok, ticket)
  {
    ok, ticket := false, None;
    if !o.opens {
      ticket := ScheduleStartRetry(state, index, key, o.schedules);
      return;
    }
    var published := state.PublishLocked(index, key.generation, conn, ctx);
    var retry := state.FinishStartLocked(index, conn, ctx, o.accepts);
    if retry {
      ticket := ScheduleStartRetry(state, index, key, o.schedules);
      return;
    }
    ok := true;
  }

  lemma AwayEnds(s: Shared, index: nat, kind: StartKind, valid: bool)
    requires var r := ClaimStart(s, index, kind, valid).result; r.Refused? || r.OutOfClaims?
    ensures var s' := ClaimStart(s, index, kind, valid).s;
            !LetIn(s, index, kind) && TurnedAway(s, s', index, kind, true) && OnlySlot(s, s', index)
  {
  }

  lemma UpEnds(s: Shared, index: nat, kind: StartKind, o: Outside, claim: nat, conn: nat, ctx: nat)
    requires ClaimStart(s, index, kind, o.valid).result == AlreadyUp(claim)
    ensures var s' := ReleaseClaim(ClaimStart(s, index, kind, o.valid).s, index, claim);
            LetIn(s, index, kind) && OnlySlot(s, s', index) && Served(s, s', index, o, conn, ctx, true, 0, None)
  {
  }

  lemma TriedEnds(s: Shared, index: nat, kind: StartKind, claim: nat, key: Key, s2: Shared, o: Outside, conn: nat,
                  ctx: nat, ok: bool, ticket: Option<Ticket>)
    requires var e := ClaimStart(s, index, kind, o.valid);
             e.result == Claimed(claim, key) && Tried(e.s, s2, index, key, o, conn, ctx, ok, ticket)
    ensures var s' := ReleaseClaim(s2, index, claim);
            LetIn(s, index, kind) && OnlySlot(s, s', index) &&
              Served(s, s', index, o, conn, ctx, ok, s.slots[index].conn, ticket)
  {
  }

  /** The whole effect: on a start that is let in and on one that is not. */
  predicate StartEffect(s: Shared, s': Shared, index: nat, kind: StartKind, inside: bool, o: Outside, conn: nat,
                        ctx: nat, ok: bool, replaced: nat, ticket: Option<Ticket>)
  {
    OnlySlot(s, s', index) &&
    if inside && LetIn(s, index, kind) then Served(s, s', index, o, conn, ctx, ok, replaced, ticket)
    else !ok && replaced == 0 && ticket == None && TurnedAway(s, s', index, kind, inside)
  }

  /** The part inside the gate, without the claim's release. */
  method StartInside(state: ClientSharedState, index: nat, kind: StartKind, o: Outside, conn: nat, ctx: nat)
    returns (ok: bool, replaced: nat, ticket: Option<Ticket>, claim: nat)
    requires state.Valid() && conn != 0 && ctx != 0 && Unheld(state.View(), conn)
    modifies state
    ensures state.Valid()
    ensures var s' := if claim == 0 then state.View() else ReleaseClaim(state.View(), index, claim);
            StartEffect(old(state.View()), s', index, kind, true, o, conn, ctx, ok, replaced, ticket)
  {
    ghost var before := state.View();
    ClaimHolds(before, index, kind, o.valid, conn);
    var result;
    result, replaced := state.ClaimStartLocked(index, kind, o.valid);
    ok, ticket, claim := false, None, 0;
    if result.AlreadyUp? {
      ok, claim := true, result.claim;
      UpEnds(before, index, kind, o, claim, conn, ctx);
    } else if result.Claimed? {
      claim := result.claim;
      ok, ticket := OpenAndStart(state, index, result.key, o, conn, ctx);
      TriedEnds(before, index, kind, claim, result.key, state.View(), o, conn, ctx, ok, ticket);
    } else {
      AwayEnds(before, index, kind, o.valid);
    }
  }

  /**
   StartSlot.  It enters and leaves the gate, touches no other slot and leaves no claim behind.  A
   start that is let in ends with the slot up or published, or with a ticket for it at the
   scheduler, or latched, and which of them is decided exactly; one that is not let in changes
   nothing unless start claims have run out.
   */
  method StartSlot(state: ClientSharedState, gate: ClientSessionGate, ghost who: nat, index: nat, kind: StartKind,
                   o: Outside, conn: nat, ctx: nat)
    returns (ok: bool, replaced: nat, ticket: Option<Ticket>)
    requires state.Valid() && gate.Valid() && who !in gate.callers && conn != 0 && ctx != 0 &&
             Unheld(state.View(), conn)
    modifies state, gate
    ensures state.Valid() && gate.Valid()
    ensures gate.live == old(gate.live) && gate.activeCalls == old(gate.activeCalls) &&
            gate.callers == old(gate.callers)
    ensures StartEffect(old(state.View()), state.View(), index, kind, old(gate.live), o, conn, ctx, ok, replaced,
            ticket)
  {
    ok, replaced, ticket := false, 0, None;
    if !state.started || state.stopping || index >= |state.slots| { return; }
    var inside := gate.Acquire(who);
    if !inside { return; }
    var claim;
    ok, replaced, ticket, claim := StartInside(state, index, kind, o, conn, ctx);
    gate.Release(who);
    if claim != 0 { state.ReleaseClaimLocked(index, claim); }
  }
}
