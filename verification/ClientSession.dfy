/**
 The client session's shared state and its session gate as objects: each method but the last is one
 block that runs under the corresponding lock and updates the fields in place.  The contracts
 tie every block to its specification in ClientSlots.dfy, over which the runs are studied, and
 every block keeps the slots consistent.  StartSlot is the whole operation, made of these blocks.
 */
module ClientSession {
  import opened Prelude
  import opened ClientSlots
  import opened SlotConsistency

  /** The connections a sequence of slots holds, in slot order. */
  function HeldConnections(slots: seq<Slot>): seq<nat> {
    if slots == [] then []
    else HeldConnections(slots[..|slots| - 1]) +
         (if slots[|slots| - 1].conn != 0 then [slots[|slots| - 1].conn] else [])
  }

  function PickableCount(slots: seq<Slot>): nat {
    if slots == [] then 0
    else PickableCount(slots[..|slots| - 1]) + (if Pickable(slots[|slots| - 1]) then 1 else 0)
  }

  predicate Pickable(slot: Slot) {
    slot.connected && slot.retryToken == 0 && slot.conn != 0
  }

  class ClientSharedState {
    var started: bool
    var stopping: bool
    var pathMode: bool
    var pathCount: nat
    var slots: seq<Slot>
    var nextRetryToken: nat
    var nextStartClaim: nat
    var nextNumericId: nat

    function View(): Shared
      reads this
    {
      Shared(started, stopping, pathMode, pathCount, slots, nextRetryToken, nextStartClaim, nextNumericId)
    }

    ghost predicate Valid()
      reads this
    {
      Consistent(View())
    }

    constructor (count: nat, pathMode: bool, firstId: nat)
      ensures Valid()
      ensures View() == Shared(true, false, pathMode, count,
                               seq(count, i requires 0 <= i => FreshSlot(firstId + i)), 1, 1, firstId + count)
    {
      started, stopping := true, false;
      this.pathMode, pathCount := pathMode, count;
      nextRetryToken, nextStartClaim := 1, 1;
      slots, nextNumericId := [], firstId;
      new;
      for i := 0 to count
        invariant slots == seq(i, k requires 0 <= k => FreshSlot(firstId + k))
        invariant nextNumericId == firstId + i
        invariant started && !stopping && this.pathMode == pathMode && pathCount == count
        invariant nextRetryToken == 1 && nextStartClaim == 1
      {
        slots := slots + [FreshSlot(nextNumericId)];
        nextNumericId := nextNumericId + 1;
      }
      assert forall i :: 0 <= i < count ==> slots[i] == FreshSlot(firstId + i);
    }

    method ReserveRetryLocked(index: nat, key: Key) returns (ticket: Option<Ticket>)
      requires Valid()
      modifies this
      ensures Reserved(View(), ticket) == ReserveRetry(old(View()), index, key)
      ensures Valid()
    {
      ReserveFits(View(), index, key);
      if !started || stopping || index >= |slots| { return None; }
      var slot := slots[index];
      if slot.numericId != key.numericId || slot.generation != key.generation || slot.retryToken != 0 ||
         slot.retryFailed {
        return None;
      }
      if nextRetryToken == 0 || nextRetryToken == U64_MAX {
        slots := slots[index := slot.(retryFailed := true)];
        return None;
      }
      ticket := Some(Ticket(index, key.numericId, key.generation, nextRetryToken));
      nextRetryToken := nextRetryToken + 1;
      slots := slots[index := slot.(retryToken := ticket.value.token)];
    }

    method RefuseRetryLocked(t: Ticket)
      requires Valid()
      modifies this
      ensures View() == RefuseRetry(old(View()), t)
      ensures Valid()
    {
      RefuseFits(View(), t);
      if TicketMatches(View(), t) {
        slots := slots[t.index := slots[t.index].(retryToken := 0)];
        slots := slots[t.index := slots[t.index].(retryFailed := true)];
      }
    }

    /** The connection the claim takes out of the slot, if any, goes to the orphans. */
    method ClaimStartLocked(index: nat, kind: StartKind, valid: bool) returns (result: ClaimResult, replaced: nat)
      requires Valid()
      modifies this
      ensures ClaimEffect(View(), result) == ClaimStart(old(View()), index, kind, valid)
      ensures replaced == if result.Claimed? then old(slots)[index].conn else 0
      ensures Valid()
    {
      ClaimFits(View(), index, kind, valid);
      if !started || stopping || index >= |slots| || index >= pathCount { return Refused, 0; }
      if kind.Retry? && !TicketMatches(View(), kind.ticket) { return Refused, 0; }
      var slot := slots[index];
      if nextStartClaim == 0 || nextStartClaim == U64_MAX {
        if kind.Retry? { slot := slot.(retryToken := 0); }
        slots := slots[index := slot.(retryFailed := true)];
        return OutOfClaims, 0;
      }
      if kind.Idle? {
        if slot.conn != 0 || slot.retryToken != 0 || slot.startClaim != 0 || slot.retryFailed { return Refused, 0; }
      } else {
        slot := slot.(retryToken := 0);
      }
      var claim := nextStartClaim;
      nextStartClaim := nextStartClaim + 1;
      slot := slot.(startClaim := claim);
      slots := slots[index := slot];
      if slot.connected && slot.conn != 0 && valid { return AlreadyUp(claim), 0; }
      slots := slots[index := slot.(conn := 0, ctx := 0, connected := false)];
      result, replaced := Claimed(claim, Key(slot.numericId, slot.generation)), slot.conn;
    }

    method PublishLocked(index: nat, generation: nat, conn: nat, ctx: nat) returns (published: bool)
      requires Valid() && conn != 0 && ctx != 0 && Unheld(View(), conn)
      modifies this
      ensures View() == Publish(old(View()), index, generation, conn, ctx)
      ensures published == MayPublish(old(View()), index, generation)
      ensures Valid()
    {
      PublishFits(View(), index, generation, conn, ctx);
      if !started || stopping || index >= |slots| || slots[index].generation != generation { return false; }
      slots := slots[index := slots[index].(conn := conn)];
      slots := slots[index := slots[index].(ctx := ctx)];
      slots := slots[index := slots[index].(closing := false)];
      slots := slots[index := slots[index].(terminalReserved := false)];
      published := true;
    }

    method FinishStartLocked(index: nat, conn: nat, ctx: nat, accepted: bool) returns (retry: bool)
      requires Valid()
      modifies this
      ensures retry == (!accepted && StartStillCurrent(old(View()), index, conn, ctx))
      ensures View() == if accepted then old(View()) else WithdrawStart(old(View()), index, conn, ctx)
      ensures Valid()
    {
      WithdrawFits(View(), index, conn, ctx);
      if !started || stopping || index >= |slots| { return false; }
      if slots[index].conn != conn || slots[index].ctx != ctx { return false; }
      if !accepted {
        slots := slots[index := slots[index].(ctx := 0)];
        slots := slots[index := slots[index].(conn := 0)];
        return true;
      }
      retry := false;
    }

    method ReleaseClaimLocked(index: nat, claim: nat)
      requires Valid()
      modifies this
      ensures View() == ReleaseClaim(old(View()), index, claim)
      ensures Valid()
    {
      ReleaseFits(View(), index, claim);
      if index < |slots| && slots[index].startClaim == claim {
        slots := slots[index := slots[index].(startClaim := 0)];
      }
    }

    method CompleteSlotShutdownLocked(index: nat, conn: nat, ctx: nat, key: Key)
      returns (wasCurrent: bool, retry: Option<Ticket>)
      requires Valid()
      modifies this
      ensures Reserved(View(), retry) == CompleteShutdown(old(View()), index, conn, ctx, key)
      ensures wasCurrent == (ctx != 0 && OwnsSlot(old(View()), index, conn, ctx, key))
      ensures Valid()
    {
      CompleteFits(View(), index, conn, ctx, key);
      if ctx == 0 || index >= |slots| { return false, None; }
      var slot := slots[index];
      if slot.ctx != ctx || slot.conn != conn || slot.numericId != key.numericId || slot.generation != key.generation {
        return false, None;
      }
      wasCurrent := true;
      slots := slots[index := slots[index].(ctx := 0)];
      slots := slots[index := slots[index].(connected := false)];
      slots := slots[index := slots[index].(closing := true)];
      slots := slots[index := slots[index].(conn := 0)];
      ClearedFits(old(View()), index);
      assert View() == SetSlot(old(View()), index, slot.(ctx := 0, connected := false, closing := true, conn := 0));
      retry := ReserveRetryLocked(index, key);
    }

    method OnSlotConnected(index: nat, conn: nat, key: Key)
      requires Valid()
      modifies this
      ensures View() == SlotConnected(old(View()), index, conn, key)
      ensures Valid()
    {
      ConnectedFits(View(), index, conn, key);
      if index >= |slots| { return; }
      if slots[index].conn == conn && slots[index].numericId == key.numericId &&
         slots[index].generation == key.generation {
        slots := slots[index := slots[index].(connected := true)];
        slots := slots[index := slots[index].(retryToken := 0)];
      }
    }

    method OnSlotDisconnected(index: nat, conn: nat)
      requires Valid()
      modifies this
      ensures View() == SlotDisconnected(old(View()), index, conn)
      ensures Valid()
    {
      DisconnectedFits(View(), index, conn);
      if index >= |slots| { return; }
      if slots[index].conn == conn {
        slots := slots[index := slots[index].(connected := false)];
        slots := slots[index := slots[index].(closing := true)];
      }
    }

    method ReconnectSlot(index: nat) returns (ok: bool)
      requires Valid()
      modifies this
      ensures View() == Reconnect(old(View()), index)
      ensures ok == MayReconnect(old(View()), index)
      ensures Valid()
    {
      ReconnectFits(View(), index);
      if !started || stopping || index >= |slots| || slots[index].retryFailed { return false; }
      slots := slots[index := slots[index].(connected := false)];
      slots := slots[index := slots[index].(closing := true)];
      slots := slots[index := slots[index].(retryToken := 0)];
      slots := slots[index := slots[index].(generation := slots[index].generation + 1)];
      slots := slots[index := slots[index].(numericId := nextNumericId)];
      nextNumericId := nextNumericId + 1;
      slots := slots[index := slots[index].(terminalReserved := false)];
      ok := true;
    }

    method SetDesiredConnectionCount(desired: nat, built: bool) returns (ok: bool)
      requires Valid()
      modifies this
      ensures View() == Grow(old(View()), desired, built)
      ensures ok == (MayGrow(old(View()), desired) && built)
      ensures Valid()
    {
      GrowFits(View(), desired, built);
      if desired == 0 || pathMode || !started || stopping || desired < |slots| || !built { return false; }
      pathCount := desired;
      ghost var before := View();
      var base := |slots|;
      for i := base to desired
        invariant base == |before.slots| <= i
        invariant View() ==
                  before.(slots := before.slots +
                                   seq(i - base, k requires 0 <= k => FreshSlot(before.nextNumericId + k)),
                          nextNumericId := before.nextNumericId + (i - base))
      {
        slots := slots + [FreshSlot(nextNumericId)];
        nextNumericId := nextNumericId + 1;
      }
      ok := true;
    }

    method StopHighestConnection(index: nat) returns (ok: bool, removed: nat)
      requires Valid()
      modifies this
      ensures View() == Shrink(old(View()), index)
      ensures ok == MayShrink(old(View()), index)
      ensures removed == if ok then old(View()).slots[index].conn else 0
      ensures Valid()
    {
      ShrinkFits(View(), index);
      if pathMode || !started || stopping || |slots| == 0 || index != |slots| - 1 { return false, 0; }
      removed := slots[index].conn;
      slots := slots[..|slots| - 1];
      if pathCount > |slots| { pathCount := |slots|; }
      ok := true;
    }

    method RequestTerminalShutdown(index: nat, key: Key) returns (granted: bool)
      requires Valid()
      modifies this
      ensures View() == RequestTerminal(old(View()), index, key)
      ensures granted == MayTerminate(old(View()), index, key)
      ensures Valid()
    {
      TerminalFits(View(), index, key);
      if index >= |slots| { return false; }
      if slots[index].numericId != key.numericId || slots[index].generation != key.generation { return false; }
      if slots[index].terminalReserved { return false; }
      if slots[index].closing || !slots[index].connected { return false; }
      slots := slots[index := slots[index].(terminalReserved := true)];
      slots := slots[index := slots[index].(closing := true)];
      granted := true;
    }

    /** Stop's last block on the slots: every connection it held goes to the orphans. */
    method StopAllLocked() returns (orphans: seq<nat>)
      requires Valid()
      modifies this
      ensures View() == StopAll(old(View()))
      ensures orphans == HeldConnections(old(slots))
      ensures Valid()
    {
      started, stopping := false, true;
      orphans := [];
      ghost var before := slots;
      for i := 0 to |slots|
        invariant |slots| == |before| && slots[i..] == before[i..]
        invariant orphans == HeldConnections(before[..i])
        invariant View() == old(View()).(started := false, stopping := true, slots := slots)
      {
        assert slots[i] == slots[i..][0] == before[i];
        assert before[..i + 1][..i] == before[..i];
        if slots[i].conn != 0 {
          orphans := orphans + [slots[i].conn];
        }
        slots := slots[i := slots[i].(conn := 0, ctx := 0, connected := false)];
      }
      assert before[..|before|] == before;
      slots := [];
    }

    method ConnectedCountLocked() returns (count: nat)
      ensures count == PickableCount(slots)
    {
      count := 0;
      for i := 0 to |slots|
        invariant count == PickableCount(slots[..i])
      {
        assert slots[..i + 1][..i] == slots[..i];
        if Pickable(slots[i]) { count := count + 1; }
      }
      assert slots[..|slots|] == slots;
    }
  }

  /** The gate that keeps calls into the session and Stop apart. */
  class ClientSessionGate {
    var live: bool
    var activeCalls: nat
    ghost var callers: set<nat>      // who is between Acquire and Release

    ghost predicate Valid()
      reads this
    {
      activeCalls == |callers|
    }

    constructor ()
      ensures Valid() && !live && callers == {}
    {
      live, activeCalls, callers := false, 0, {};
    }

    method Open()
      requires Valid()
      modifies this
      ensures Valid() && live && callers == old(callers)
    {
      live := true;
    }

    method Acquire(ghost who: nat) returns (ok: bool)
      requires Valid() && who !in callers
      modifies this
      ensures Valid() && ok == old(live) == live
      ensures callers == if ok then old(callers) + {who} else old(callers)
      ensures activeCalls == if ok then old(activeCalls) + 1 else old(activeCalls)
    {
      if !live { return false; }
      activeCalls := activeCalls + 1;
      callers := callers + {who};
      ok := true;
    }

    method Release(ghost who: nat)
      requires Valid() && who in callers
      modifies this
      ensures Valid() && live == old(live) && callers == old(callers) - {who}
      ensures activeCalls == Lowered(old(activeCalls)) == old(activeCalls) - 1
    {
      if activeCalls > 0 { activeCalls := activeCalls - 1; }
      callers := callers - {who};
    }

    method Close()
      requires Valid()
      modifies this
      ensures Valid() && !live && callers == old(callers)
    {
      live := false;
    }

    /** The condition Stop waits for: exactly that nobody is inside. */
    method Drained() returns (done: bool)
      requires Valid()
      ensures done <==> callers == {}
    {
      done := activeCalls == 0;
    }
  }
}
