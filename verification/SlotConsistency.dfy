/**
 What the session's lock protects of the slots: identities, tokens, claims and connections were issued and belong to one
 slot each.  Every block keeps it; the class in ClientSession.dfy carries it as its invariant.
 */
module SlotConsistency {
  import opened Prelude
  import opened ClientSlots

  /** The slot's identity, token and claim were issued, and it holds a connection exactly when it holds a context. */
  predicate SlotFits(s: Shared, slot: Slot) {
    slot.numericId < s.nextNumericId && slot.generation >= 1 && slot.retryToken < s.nextRetryToken &&
    slot.startClaim < s.nextStartClaim && (slot.conn == 0 <==> slot.ctx == 0) &&
    (slot.retryFailed && slot.retryToken != 0 ==> Exhausted(s.nextStartClaim))
  }

  /** Two slots share no identity, token, claim or connection. */
  predicate Apart(a: Slot, b: Slot) {
    a.numericId != b.numericId && (a.retryToken != 0 ==> a.retryToken != b.retryToken) &&
    (a.startClaim != 0 ==> a.startClaim != b.startClaim) && (a.conn != 0 ==> a.conn != b.conn)
  }

  ghost predicate Consistent(s: Shared) {
    && 1 <= s.nextRetryToken <= U64_MAX && 1 <= s.nextStartClaim <= U64_MAX && |s.slots| <= s.pathCount
    && (forall i {:trigger SlotFits(s, s.slots[i])} :: 0 <= i < |s.slots| ==> SlotFits(s, s.slots[i]))
    && (forall i, j {:trigger Apart(s.slots[i], s.slots[j])} ::
          0 <= i < |s.slots| && 0 <= j < |s.slots| && i != j ==> Apart(s.slots[i], s.slots[j]))
  }

  /** No slot holds the connection. */
  predicate Unheld(s: Shared, conn: nat) {
    forall i :: 0 <= i < |s.slots| ==> s.slots[i].conn != conn
  }

  lemma Known(s: Shared, index: nat)
    requires Consistent(s) && index < |s.slots|
    ensures SlotFits(s, s.slots[index])
    ensures forall j :: 0 <= j < |s.slots| && j != index ==>
              SlotFits(s, s.slots[j]) && Apart(s.slots[index], s.slots[j]) && Apart(s.slots[j], s.slots[index])
  {
  }

  /** A block that touches one slot and may move the counters on only has to look at that slot. */
  lemma OneSlotFits(s: Shared, s': Shared, index: nat)
    requires Consistent(s) && index < |s.slots| == |s'.slots| <= s'.pathCount &&
             s'.slots == s.slots[index := s'.slots[index]]
    requires s.nextRetryToken <= s'.nextRetryToken <= U64_MAX && s.nextStartClaim <= s'.nextStartClaim <= U64_MAX
    requires s.nextNumericId <= s'.nextNumericId && SlotFits(s', s'.slots[index])
    requires forall j :: 0 <= j < |s.slots| && j != index ==>
             Apart(s'.slots[index], s.slots[j]) && Apart(s.slots[j], s'.slots[index])
    ensures Consistent(s')
  {
    forall i | 0 <= i < |s'.slots| ensures SlotFits(s', s'.slots[i]) {
      if i != index { assert SlotFits(s, s.slots[i]); }
    }
    forall i, j | 0 <= i < |s'.slots| && 0 <= j < |s'.slots| && i != j ensures Apart(s'.slots[i], s'.slots[j]) {
      if i != index && j != index { assert Apart(s.slots[i], s.slots[j]); }
    }
  }

  lemma ClaimFits(s: Shared, index: nat, kind: StartKind, valid: bool)
    requires Consistent(s)
    ensures Consistent(ClaimStart(s, index, kind, valid).s)
  {
    var s' := ClaimStart(s, index, kind, valid).s;
    if s' != s {
      Known(s, index);
      OneSlotFits(s, s', index);
    }
  }

  lemma ReserveFits(s: Shared, index: nat, key: Key)
    requires Consistent(s)
    ensures Consistent(ReserveRetry(s, index, key).s)
  {
    var s' := ReserveRetry(s, index, key).s;
    if s' != s {
      Known(s, index);
      OneSlotFits(s, s', index);
    }
  }

  lemma PublishFits(s: Shared, index: nat, generation: nat, conn: nat, ctx: nat)
    requires Consistent(s) && conn != 0 && ctx != 0 && Unheld(s, conn)
    ensures Consistent(Publish(s, index, generation, conn, ctx))
  {
    var s' := Publish(s, index, generation, conn, ctx);
    if MayPublish(s, index, generation) {
      Known(s, index);
      OneSlotFits(s, s', index);
    }
  }

  lemma ReconnectFits(s: Shared, index: nat)
    requires Consistent(s)
    ensures Consistent(Reconnect(s, index))
  {
    if MayReconnect(s, index) {
      Known(s, index);
      OneSlotFits(s, Reconnect(s, index), index);
    }
  }

  /** A block that takes from one slot and gives it nothing new. */
  lemma LessFits(s: Shared, index: nat, slot: Slot)
    requires Consistent(s) && index < |s.slots| && slot.numericId == s.slots[index].numericId && slot.generation >= 1
    requires slot.retryToken == 0 ||
             (slot.retryToken == s.slots[index].retryToken && slot.retryFailed == s.slots[index].retryFailed)
    requires slot.startClaim == 0 || slot.startClaim == s.slots[index].startClaim
    requires (slot.conn == 0 && slot.ctx == 0) || (slot.conn == s.slots[index].conn && slot.ctx == s.slots[index].ctx)
    ensures Consistent(SetSlot(s, index, slot))
  {
    Known(s, index);
    OneSlotFits(s, SetSlot(s, index, slot), index);
  }

  lemma RefuseFits(s: Shared, t: Ticket)
    requires Consistent(s)
    ensures Consistent(RefuseRetry(s, t))
  {
    if TicketMatches(s, t) {
      Known(s, t.index);
      LessFits(s, t.index, s.slots[t.index].(retryToken := 0, retryFailed := true));
    }
  }

  lemma WithdrawFits(s: Shared, index: nat, conn: nat, ctx: nat)
    requires Consistent(s)
    ensures Consistent(WithdrawStart(s, index, conn, ctx))
  {
    if StartStillCurrent(s, index, conn, ctx) {
      Known(s, index);
      LessFits(s, index, s.slots[index].(conn := 0, ctx := 0));
    }
  }

  lemma ReleaseFits(s: Shared, index: nat, claim: nat)
    requires Consistent(s)
    ensures Consistent(ReleaseClaim(s, index, claim))
  {
    if index < |s.slots| {
      Known(s, index);
      LessFits(s, index, s.slots[index].(startClaim := 0));
    }
  }

  lemma ConnectedFits(s: Shared, index: nat, conn: nat, key: Key)
    requires Consistent(s)
    ensures Consistent(SlotConnected(s, index, conn, key))
  {
    if index < |s.slots| {
      Known(s, index);
      LessFits(s, index, s.slots[index].(connected := true, retryToken := 0));
    }
  }

  lemma DisconnectedFits(s: Shared, index: nat, conn: nat)
    requires Consistent(s)
    ensures Consistent(SlotDisconnected(s, index, conn))
  {
    if index < |s.slots| {
      Known(s, index);
      LessFits(s, index, s.slots[index].(connected := false, closing := true));
    }
  }

  lemma TerminalFits(s: Shared, index: nat, key: Key)
    requires Consistent(s)
    ensures Consistent(RequestTerminal(s, index, key))
  {
    if index < |s.slots| {
      Known(s, index);
      LessFits(s, index, s.slots[index].(terminalReserved := true, closing := true));
    }
  }

  lemma ClearedFits(s: Shared, index: nat)
    requires Consistent(s) && index < |s.slots|
    ensures Consistent(SetSlot(s, index, s.slots[index].(ctx := 0, connected := false, closing := true, conn := 0)))
  {
    Known(s, index);
    LessFits(s, index, s.slots[index].(ctx := 0, connected := false, closing := true, conn := 0));
  }

  lemma CompleteFits(s: Shared, index: nat, conn: nat, ctx: nat, key: Key)
    requires Consistent(s)
    ensures Consistent(CompleteShutdown(s, index, conn, ctx, key).s)
  {
    if ctx != 0 && OwnsSlot(s, index, conn, ctx, key) {
      var slot := s.slots[index].(ctx := 0, connected := false, closing := true, conn := 0);
      ClearedFits(s, index);
      ReserveFits(SetSlot(s, index, slot), index, key);
    }
  }

  lemma GrowFits(s: Shared, desired: nat, built: bool)
    requires Consistent(s)
    ensures Consistent(Grow(s, desired, built))
  {
    var s' := Grow(s, desired, built);
    var n := |s.slots|;
    forall i | 0 <= i < |s'.slots| ensures SlotFits(s', s'.slots[i]) {
      if i < n { assert SlotFits(s, s.slots[i]); } else { assert s'.slots[i] == FreshSlot(s.nextNumericId + (i - n)); }
    }
    forall i, j | 0 <= i < |s'.slots| && 0 <= j < |s'.slots| && i != j ensures Apart(s'.slots[i], s'.slots[j]) {
      assert i >= n ==> s'.slots[i] == FreshSlot(s.nextNumericId + (i - n));
      assert j >= n ==> s'.slots[j] == FreshSlot(s.nextNumericId + (j - n));
      if i < n && j < n {
        assert Apart(s.slots[i], s.slots[j]);
      } else if i < n {
        assert SlotFits(s, s.slots[i]);
      } else if j < n {
        assert SlotFits(s, s.slots[j]);
      }
    }
  }

  lemma ShrinkFits(s: Shared, index: nat)
    requires Consistent(s)
    ensures Consistent(Shrink(s, index))
  {
    var s' := Shrink(s, index);
    forall i | 0 <= i < |s'.slots| ensures SlotFits(s', s'.slots[i]) { assert SlotFits(s, s.slots[i]); }
    forall i, j | 0 <= i < |s'.slots| && 0 <= j < |s'.slots| && i != j ensures Apart(s'.slots[i], s'.slots[j]) {
      assert Apart(s.slots[i], s.slots[j]);
    }
  }

  /** Claiming a start takes connections away and gives none. */
  lemma ClaimHolds(s: Shared, index: nat, kind: StartKind, valid: bool, conn: nat)
    requires conn != 0 && Unheld(s, conn)
    ensures Unheld(ClaimStart(s, index, kind, valid).s, conn)
  {
  }
}
