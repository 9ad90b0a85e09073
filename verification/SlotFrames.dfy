/** What each kind of step leaves alone in the slots, whatever state it starts from. */
module SlotFrames {
  import opened ClientSlots
  import opened SlotWorld

  function SlotKey(slot: Slot): Key {
    Key(slot.numericId, slot.generation)
  }

  lemma BodyFrame(w: World, tid: nat, act: ThreadAct)
    requires ThreadEnabled(w, tid, act)
    ensures var b := ThreadBody(w, tid, act);
            b.gateOpen == w.gateOpen && b.nextThread == w.nextThread && b.sh.nextNumericId == w.sh.nextNumericId &&
            b.sh.nextRetryToken >= w.sh.nextRetryToken
  {
  }

  /** Blocks of StartSlot never change which slots there are or who they are. */
  lemma BodyKeys(w: World, tid: nat, act: ThreadAct, i: nat)
    requires ThreadEnabled(w, tid, act) && i < |w.sh.slots|
    ensures |ThreadBody(w, tid, act).sh.slots| == |w.sh.slots|
    ensures SlotKey(ThreadBody(w, tid, act).sh.slots[i]) == SlotKey(w.sh.slots[i])
    ensures i != w.threads[tid].index ==> ThreadBody(w, tid, act).sh.slots[i] == w.sh.slots[i]
  {
  }

  lemma BodyLength(w: World, tid: nat, act: ThreadAct)
    requires ThreadEnabled(w, tid, act)
    ensures |ThreadBody(w, tid, act).sh.slots| == |w.sh.slots|
  {
  }

  lemma InfoGrows(w: World, tid: nat, act: ThreadAct)
    requires (forall c :: c in w.info ==> c < w.nextRef) && ThreadEnabled(w, tid, act)
    ensures forall c :: c in w.info ==>
            c in ThreadBody(w, tid, act).info && ThreadBody(w, tid, act).info[c] == w.info[c]
  {
  }

  /** The hello of a connection, from entering the gate to leaving it, leaves everything else as it was. */
  lemma HelloOver(w: World, conn: nat)
    requires HelloEnabled(w, conn, EnterHello) && w.gateOpen
    ensures var w1 := ApplyHello(w, conn, EnterHello);
            HelloEnabled(w1, conn, LeaveHello) && ApplyHello(w1, conn, LeaveHello) == w.(greeted := w.greeted + {conn})
  {
    assert w.hellos + {conn} - {conn} == w.hellos;
  }

  /** Callbacks neither add slots nor rename them. */
  lemma ConnKeys(w: World, conn: nat, event: ConnEvent, i: nat)
    requires ConnEnabled(w, conn) && i < |w.sh.slots|
    ensures |ApplyConn(w, conn, event).sh.slots| == |w.sh.slots|
    ensures SlotKey(ApplyConn(w, conn, event).sh.slots[i]) == SlotKey(w.sh.slots[i])
  {
    if event.OnShutdownComplete? {
      var c := w.info[conn];
      ShutdownKeys(w.sh, c.index, conn, c.ctx, c.key, i);
    }
  }

  lemma ConnLength(w: World, conn: nat, event: ConnEvent)
    requires ConnEnabled(w, conn)
    ensures |ApplyConn(w, conn, event).sh.slots| == |w.sh.slots|
    ensures ApplyConn(w, conn, event).sh.nextNumericId == w.sh.nextNumericId
  {
    if event.OnShutdownComplete? {
      var c := w.info[conn];
      ShutdownLength(w.sh, c.index, conn, c.ctx, c.key);
    }
  }

  lemma ShutdownLength(s: Shared, index: nat, conn: nat, ctx: nat, key: Key)
    ensures var s' := CompleteShutdown(s, index, conn, ctx, key).s;
            |s'.slots| == |s.slots| && s'.nextNumericId == s.nextNumericId
  {
  }

  lemma ShutdownKeys(s: Shared, index: nat, conn: nat, ctx: nat, key: Key, i: nat)
    requires i < |s.slots|
    ensures var s' := CompleteShutdown(s, index, conn, ctx, key).s;
            |s'.slots| == |s.slots| && SlotKey(s'.slots[i]) == SlotKey(s.slots[i])
  {
  }

  /** What administration never touches. */
  predicate AdminLeaves(w: World, w': World) {
    w'.tickets == w.tickets && w'.info == w.info && w'.hellos == w.hellos && w'.greeted == w.greeted &&
    w'.sh.nextRetryToken == w.sh.nextRetryToken
  }

  lemma AdminFrame(w: World, admin: AdminAct)
    requires AdminEnabled(w, admin)
    ensures AdminLeaves(w, ApplyAdmin(w, admin))
  {
    match admin
    case ReconnectAt(index) => assert AdminLeaves(w, ApplyReconnect(w, index));
    case GrowTo(desired, built) => assert AdminLeaves(w, ApplyGrow(w, desired, built));
    case RequestShutdown(index, key) => assert AdminLeaves(w, ApplyRequest(w, index, key));
    case _ =>
  }

  lemma GrownSlot(s: Shared, desired: nat, built: bool, i: nat)
    requires |s.slots| <= i < |Grow(s, desired, built).slots|
    ensures Grow(s, desired, built).slots[i] == FreshSlot(s.nextNumericId + (i - |s.slots|))
  {
  }
}
