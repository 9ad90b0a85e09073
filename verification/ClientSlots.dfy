/**
 The lock-protected state of a QUIC client session and the effect of every block that runs
 under the session lock, as functions on values.  The class in ClientSession.dfy performs
 the same blocks in place; SlotWorld.dfy interleaves them.

 Objects are natural numbers that are never reused; 0 is null.
 */
module ClientSlots {
  import opened Prelude

  datatype Slot = Slot(
    conn: nat,
    ctx: nat,
    numericId: nat,
    generation: nat,
    connected: bool,
    closing: bool,
    terminalReserved: bool,
    retryFailed: bool,
    retryToken: nat,
    startClaim: nat)

  /** The identity a terminal-shutdown request carries. */
  datatype Key = Key(numericId: nat, generation: nat)

  datatype Ticket = Ticket(index: nat, numericId: nat, generation: nat, token: nat)

  /** How StartSlot was called: unconditionally, only if idle, or for a retry ticket. */
  datatype StartKind = Plain | Idle | Retry(ticket: Ticket)

  datatype Shared = Shared(
    started: bool,
    stopping: bool,
    pathMode: bool,
    pathCount: nat,
    slots: seq<Slot>,
    nextRetryToken: nat,
    nextStartClaim: nat,
    nextNumericId: nat)

  predicate Live(s: Shared, index: nat) {
    s.started && !s.stopping && index < |s.slots|
  }

  predicate Exhausted(counter: nat) {
    counter == 0 || counter == U64_MAX
  }

  function FreshSlot(numericId: nat): Slot {
    Slot(0, 0, numericId, 1, false, false, false, false, 0, 0)
  }

  predicate HasKey(slot: Slot, key: Key) {
    slot.numericId == key.numericId && slot.generation == key.generation
  }

  function SetSlot(s: Shared, index: nat, slot: Slot): Shared
    requires index < |s.slots|
  {
    s.(slots := s.slots[index := slot])
  }

  // --- retry tickets -----------------------------------------------------------------

  predicate TicketMatches(s: Shared, t: Ticket) {
    Live(s, t.index) && t.token != 0 && s.slots[t.index].retryToken == t.token &&
    HasKey(s.slots[t.index], Key(t.numericId, t.generation))
  }

  datatype Reserved = Reserved(s: Shared, ticket: Option<Ticket>)

  /** Mints a retry token for a slot that still has the expected identity. */
  function ReserveRetry(s: Shared, index: nat, key: Key): Reserved {
    if !Live(s, index) then Reserved(s, None)
    else
      var slot := s.slots[index];
      if !HasKey(slot, key) || slot.retryToken != 0 || slot.retryFailed then Reserved(s, None)
      else if Exhausted(s.nextRetryToken) then
        Reserved(SetSlot(s, index, slot.(retryFailed := true)), None)
      else
        var token := s.nextRetryToken;
        Reserved(
          SetSlot(s, index, slot.(retryToken := token)).(nextRetryToken := token + 1),
          Some(Ticket(index, key.numericId, key.generation, token)))
  }

  /** The scheduler refused the ticket: the slot is latched unless it has moved on. */
  function RefuseRetry(s: Shared, t: Ticket): Shared {
    if TicketMatches(s, t) then
      SetSlot(s, t.index, s.slots[t.index].(retryToken := 0, retryFailed := true))
    else s
  }

  // --- StartSlot -----------------------------------------------------------------------

  datatype ClaimResult =
    | Refused
    | OutOfClaims
    | AlreadyUp(claim: nat)
    | Claimed(claim: nat, key: Key)

  datatype ClaimEffect = ClaimEffect(s: Shared, result: ClaimResult)

  /** The block of StartSlot that validates the caller and takes a start claim. */
  function ClaimStart(s: Shared, index: nat, kind: StartKind, valid: bool): ClaimEffect {
    if !Live(s, index) || index >= s.pathCount then ClaimEffect(s, Refused)
    else if kind.Retry? && !TicketMatches(s, kind.ticket) then ClaimEffect(s, Refused)
    else
      var slot := s.slots[index];
      if Exhausted(s.nextStartClaim) then
        var token := if kind.Retry? then 0 else slot.retryToken;
        ClaimEffect(SetSlot(s, index, slot.(retryToken := token, retryFailed := true)), OutOfClaims)
      else if kind.Idle? && (slot.conn != 0 || slot.retryToken != 0 || slot.startClaim != 0 || slot.retryFailed) then
        ClaimEffect(s, Refused)
      else
        var claim := s.nextStartClaim;
        var s1 := s.(nextStartClaim := claim + 1);
        var slot1 := slot.(retryToken := 0, startClaim := claim);
        if slot.connected && slot.conn != 0 && valid then
          ClaimEffect(SetSlot(s1, index, slot1), AlreadyUp(claim))
        else
          ClaimEffect(
            SetSlot(s1, index, slot1.(conn := 0, ctx := 0, connected := false)),
            Claimed(claim, Key(slot.numericId, slot.generation)))
  }

  predicate MayPublish(s: Shared, index: nat, generation: nat) {
    Live(s, index) && s.slots[index].generation == generation
  }

  /** Installs a freshly opened connection; the guard compares the generation only. */
  function Publish(s: Shared, index: nat, generation: nat, conn: nat, ctx: nat): Shared {
    if MayPublish(s, index, generation) then
      SetSlot(s, index,
              s.slots[index].(conn := conn, ctx := ctx, closing := false, terminalReserved := false))
    else s
  }

  predicate StartStillCurrent(s: Shared, index: nat, conn: nat, ctx: nat) {
    Live(s, index) && s.slots[index].conn == conn && s.slots[index].ctx == ctx
  }

  /** After ConnectionStart failed: take the connection back out of the slot. */
  function WithdrawStart(s: Shared, index: nat, conn: nat, ctx: nat): Shared {
    if StartStillCurrent(s, index, conn, ctx) then
      SetSlot(s, index, s.slots[index].(conn := 0, ctx := 0))
    else s
  }

  /** The claim guard's destructor. */
  function ReleaseClaim(s: Shared, index: nat, claim: nat): Shared {
    if index < |s.slots| && s.slots[index].startClaim == claim then
      SetSlot(s, index, s.slots[index].(startClaim := 0))
    else s
  }

  // --- connection callbacks ----------------------------------------------------------

  predicate OwnsSlot(s: Shared, index: nat, conn: nat, ctx: nat, key: Key) {
    index < |s.slots| && s.slots[index].ctx == ctx && s.slots[index].conn == conn &&
    HasKey(s.slots[index], key)
  }

  /** SHUTDOWN_COMPLETE: clear the slot if the callback owns it, and reserve a retry. */
  function CompleteShutdown(s: Shared, index: nat, conn: nat, ctx: nat, key: Key): Reserved {
    if ctx == 0 || !OwnsSlot(s, index, conn, ctx, key) then Reserved(s, None)
    else
      var slot := s.slots[index].(ctx := 0, connected := false, closing := true, conn := 0);
      ReserveRetry(SetSlot(s, index, slot), index, key)
  }

  function SlotConnected(s: Shared, index: nat, conn: nat, key: Key): Shared {
    if index < |s.slots| && s.slots[index].conn == conn && HasKey(s.slots[index], key) then
      SetSlot(s, index, s.slots[index].(connected := true, retryToken := 0))
    else s
  }

  function SlotDisconnected(s: Shared, index: nat, conn: nat): Shared {
    if index < |s.slots| && s.slots[index].conn == conn then
      SetSlot(s, index, s.slots[index].(connected := false, closing := true))
    else s
  }

  // --- administration ----------------------------------------------------------------

  predicate MayReconnect(s: Shared, index: nat) {
    Live(s, index) && !s.slots[index].retryFailed
  }

  function Reconnect(s: Shared, index: nat): Shared {
    if MayReconnect(s, index) then
      var slot := s.slots[index];
      SetSlot(s, index,
              slot.(connected := false, closing := true, retryToken := 0, terminalReserved := false,
                    generation := slot.generation + 1, numericId := s.nextNumericId))
      .(nextNumericId := s.nextNumericId + 1)
    else s
  }

  predicate MayGrow(s: Shared, desired: nat) {
    desired != 0 && !s.pathMode && s.started && !s.stopping && desired >= |s.slots|
  }

  /** SetDesiredConnectionCount; `built` tells whether the slot paths could be rebuilt. */
  function Grow(s: Shared, desired: nat, built: bool): Shared {
    if MayGrow(s, desired) && built then
      var more := desired - |s.slots|;
      s.(slots := s.slots + seq(more, i requires 0 <= i => FreshSlot(s.nextNumericId + i)),
         nextNumericId := s.nextNumericId + more,
         pathCount := desired)
    else s
  }

  predicate MayShrink(s: Shared, index: nat) {
    !s.pathMode && s.started && !s.stopping && |s.slots| > 0 && index == |s.slots| - 1
  }

  function Shrink(s: Shared, index: nat): Shared {
    if MayShrink(s, index) then
      s.(slots := s.slots[..index], pathCount := if s.pathCount > index then index else s.pathCount)
    else s
  }

  predicate MayTerminate(s: Shared, index: nat, key: Key) {
    index < |s.slots| && HasKey(s.slots[index], key) &&
    !s.slots[index].terminalReserved && !s.slots[index].closing && s.slots[index].connected
  }

  /** The terminal controller's reservation. */
  function RequestTerminal(s: Shared, index: nat, key: Key): Shared {
    if MayTerminate(s, index, key) then
      SetSlot(s, index, s.slots[index].(terminalReserved := true, closing := true))
    else s
  }

  /** The connection the deferred terminal operation shuts down; 0 when it does nothing. */
  function TerminalTarget(s: Shared, index: nat, key: Key): nat {
    if index < |s.slots| && HasKey(s.slots[index], key) && s.slots[index].terminalReserved
    then s.slots[index].conn
    else 0
  }

  function StopAll(s: Shared): Shared {
    s.(started := false, stopping := true, slots := [])
  }

  // --- the session gate ------------------------------------------------------------------------

  /** ActiveCalls after ReleaseLiveSession. */
  function Lowered(calls: nat): nat {
    if calls > 0 then calls - 1 else 0
  }
}
