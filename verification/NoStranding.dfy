/**
 No slot is stranded.  While the session gate is open, every slot holds a connection of its
 present identity (whose shutdown callback will reserve a retry), or holds a retry token whose
 one ticket is still in somebody's hands, or is being started at its present identity, or is
 owed a start, or is latched as retry-failed -- in every run that never removes a slot between
 the claim and the publication of a start on it.  Without that proviso the claim is false:
 see StrandedSlot.dfy.
 */
module NoStranding {
  import opened Prelude
  import opened ClientSlots
  import opened SlotWorld
  import opened SlotFrames
  import opened SlotInvariants
  import opened GateCount

  /** The ticket that matches the slot as it is now. */
  function SlotTicket(s: Shared, i: nat): Ticket
    requires i < |s.slots|
  {
    Ticket(i, s.slots[i].numericId, s.slots[i].generation, s.slots[i].retryToken)
  }

  /** The activation is a retry task that has not claimed its ticket yet. */
  predicate Carries(t: Thread, ticket: Ticket) {
    t.kind == Retry(ticket) && (t.phase.Called? || t.phase.Entered?)
  }

  ghost predicate Ticketed(w: World, i: nat)
    requires i < |w.sh.slots|
  {
    var ticket := SlotTicket(w.sh, i);
    (ticket.token in w.tickets && w.tickets[ticket.token].ticket == ticket) ||
    exists tid :: tid in w.threads && Carries(w.threads[tid], ticket)
  }

  /** While the gate is open a live retry token is in somebody's hands. */
  ghost predicate TokensHeld(w: World) {
    w.gateOpen ==>
      forall i :: 0 <= i < |w.sh.slots| && w.sh.slots[i].retryToken != 0 ==> Ticketed(w, i)
  }

  /** A caller that will take the slot through StartSlot unconditionally. */
  predicate Owes(t: Thread, i: nat) {
    t.index == i && t.kind.Plain? && (t.phase.Called? || t.phase.Entered?)
  }

  /** A start under way at this identity. */
  predicate StartsFor(t: Thread, i: nat, key: Key) {
    t.index == i && (t.phase.Starting? || t.phase.MustRetry?) && t.phase.key == key
  }

  ghost predicate Covered(w: World, i: nat)
    requires i < |w.sh.slots|
  {
    var slot := w.sh.slots[i];
    Current(w, i) || slot.retryToken != 0 || slot.retryFailed ||
    (exists tid :: tid in w.threads && Owes(w.threads[tid], i)) ||
    (exists tid :: tid in w.threads && StartsFor(w.threads[tid], i, SlotKey(slot)))
  }

  /** A start that has not published yet has the slot's identity unless the generation moved on. */
  ghost predicate Aligned(s: Shared, t: Thread) {
    t.phase.Starting? ==>
      t.index < |s.slots| && t.phase.key.generation <= s.slots[t.index].generation &&
      (t.phase.key.generation == s.slots[t.index].generation ==> t.phase.key.numericId == s.slots[t.index].numericId)
  }

  ghost predicate AllAligned(w: World) {
    forall tid :: tid in w.threads ==> Aligned(w.sh, w.threads[tid])
  }

  /** A slot that counts as connected holds a connection of its present identity. */
  ghost predicate UpOk(w: World) {
    forall i :: 0 <= i < |w.sh.slots| && w.sh.slots[i].connected && w.sh.slots[i].conn != 0 ==> Current(w, i)
  }

  ghost predicate AllCovered(w: World) {
    w.gateOpen ==> forall i :: 0 <= i < |w.sh.slots| ==> Covered(w, i)
  }

  // --- tokens stay in somebody's hands ------------------------------------------------------

  lemma ClaimTokens(s: Shared, index: nat, kind: StartKind, valid: bool, i: nat)
    requires var s' := ClaimStart(s, index, kind, valid).s; i < |s'.slots| && s'.slots[i].retryToken != 0
    ensures i < |s.slots| && SlotTicket(ClaimStart(s, index, kind, valid).s, i) == SlotTicket(s, i)
    ensures kind == Retry(SlotTicket(s, i)) && index == i < s.pathCount ==> !Live(s, i)
  {
  }

  /** A block of StartSlot leaves a live token alone or mints a new one. */
  lemma ThreadTokenOrigin(w: World, tid: nat, act: ThreadAct, i: nat)
    requires Basics(w) && ThreadEnabled(w, tid, act)
    requires i < |ThreadBody(w, tid, act).sh.slots| && ThreadBody(w, tid, act).sh.slots[i].retryToken != 0
    ensures i < |w.sh.slots|
    ensures SlotTicket(ThreadBody(w, tid, act).sh, i) == SlotTicket(w.sh, i) ||
            (act.ReserveAfterFailure? &&
             ReserveRetry(w.sh, w.threads[tid].index, w.threads[tid].phase.key).ticket ==
             Some(SlotTicket(ThreadBody(w, tid, act).sh, i)))
    ensures act.Claim? && w.threads[tid].kind == Retry(SlotTicket(w.sh, i)) ==> !Live(w.sh, i)
  {
    if act.Claim? {
      ClaimTokens(w.sh, w.threads[tid].index, w.threads[tid].kind, act.valid, i);
    }
  }

  lemma ThreadKeepsTokens(w: World, tid: nat, act: ThreadAct)
    requires Basics(w) && TokensHeld(w) && ThreadEnabled(w, tid, act)
    ensures TokensHeld(ApplyThread(w, tid, act))
  {
    var w' := ApplyThread(w, tid, act);
    BodyFrame(w, tid, act);
    if w'.gateOpen {
      forall i | 0 <= i < |w'.sh.slots| && w'.sh.slots[i].retryToken != 0 ensures Ticketed(w', i) {
        ThreadTokenOrigin(w, tid, act, i);
        if SlotTicket(w'.sh, i) == SlotTicket(w.sh, i) {
          HeldAfterThread(w, tid, act, i);
        }
      }
    }
  }

  lemma HeldAfterThread(w: World, tid: nat, act: ThreadAct, i: nat)
    requires Basics(w) && ThreadEnabled(w, tid, act) && w.gateOpen
    requires i < |w.sh.slots| && i < |ApplyThread(w, tid, act).sh.slots| && Ticketed(w, i)
    requires w.sh.slots[i].retryToken != 0
    requires SlotTicket(ApplyThread(w, tid, act).sh, i) == SlotTicket(w.sh, i)
    ensures Ticketed(ApplyThread(w, tid, act), i)
  {
    var w' := ApplyThread(w, tid, act);
    var ticket := SlotTicket(w.sh, i);
    if ticket.token in w.tickets && w.tickets[ticket.token].ticket == ticket {
      assert ThreadBody(w, tid, act).tickets[ticket.token] == w.tickets[ticket.token];
    } else {
      var holder :| holder in w.threads && Carries(w.threads[holder], ticket);
      if holder == tid { ThreadTokenOrigin(w, tid, act, i); }
      assert holder in w'.threads && Carries(w'.threads[holder], ticket);
    }
  }

  lemma TicketKeepsTokens(w: World, token: nat, move: TicketAct)
    requires Basics(w) && TokensHeld(w) && TicketEnabled(w, token, move)
    ensures TokensHeld(ApplyTicket(w, token, move))
  {
    var w' := ApplyTicket(w, token, move);
    if w'.gateOpen {
      forall i | 0 <= i < |w'.sh.slots| && w'.sh.slots[i].retryToken != 0 ensures Ticketed(w', i) {
        var ticket := SlotTicket(w.sh, i);
        assert SlotTicket(w'.sh, i) == ticket && Ticketed(w, i);
        if ticket.token == token && w.tickets[token].ticket == ticket {
          assert move.Run? ==> Carries(w'.threads[w.nextThread], ticket);
        } else if !(ticket.token in w.tickets && w.tickets[ticket.token].ticket == ticket) {
          var holder :| holder in w.threads && Carries(w.threads[holder], ticket);
          assert holder in w'.threads && w'.threads[holder] == w.threads[holder];
        }
      }
    }
  }

  /** What carries a token over from `w` to a world with the same or more threads and tickets. */
  lemma HeldGrows(w: World, w': World, i: nat)
    requires i < |w.sh.slots| && i < |w'.sh.slots| && Ticketed(w, i)
    requires SlotTicket(w'.sh, i) == SlotTicket(w.sh, i)
    requires forall tid :: tid in w.threads ==> tid in w'.threads && w'.threads[tid] == w.threads[tid]
    requires forall token :: token in w.tickets ==> token in w'.tickets && w'.tickets[token] == w.tickets[token]
    ensures Ticketed(w', i)
  {
    var ticket := SlotTicket(w.sh, i);
    if !(ticket.token in w.tickets && w.tickets[ticket.token].ticket == ticket) {
      var holder :| holder in w.threads && Carries(w.threads[holder], ticket);
      assert Carries(w'.threads[holder], ticket);
    }
  }

  lemma ConnKeepsTokens(w: World, conn: nat, event: ConnEvent)
    requires Basics(w) && TokensHeld(w) && ConnEnabled(w, conn)
    ensures TokensHeld(ApplyConn(w, conn, event))
  {
    var w' := ApplyConn(w, conn, event);
    var c := w.info[conn];
    if w'.gateOpen {
      forall i | 0 <= i < |w'.sh.slots| && w'.sh.slots[i].retryToken != 0 ensures Ticketed(w', i) {
        if SlotTicket(w'.sh, i) == SlotTicket(w.sh, i) {
          HeldGrows(w, w', i);
        } else {
          assert CompleteShutdown(w.sh, c.index, conn, c.ctx, c.key).ticket == Some(SlotTicket(w'.sh, i));
        }
      }
    }
  }

  lemma AdminKeepsTokens(w: World, admin: AdminAct)
    requires Basics(w) && TokensHeld(w) && AdminEnabled(w, admin)
    ensures TokensHeld(ApplyAdmin(w, admin))
  {
    var w' := ApplyAdmin(w, admin);
    if w'.gateOpen {
      forall i | 0 <= i < |w'.sh.slots| && w'.sh.slots[i].retryToken != 0 ensures Ticketed(w', i) {
        AdminTokenOrigin(w, admin, i);
        HeldGrows(w, w', i);
      }
    }
  }

  lemma AdminTokenOrigin(w: World, admin: AdminAct, i: nat)
    requires AdminEnabled(w, admin)
    requires i < |ApplyAdmin(w, admin).sh.slots| && ApplyAdmin(w, admin).sh.slots[i].retryToken != 0
    ensures i < |w.sh.slots| && SlotTicket(ApplyAdmin(w, admin).sh, i) == SlotTicket(w.sh, i)
  {
    if admin.GrowTo? && i >= |w.sh.slots| {
      GrownSlot(w.sh, admin.desired, admin.built, i);
    }
  }

  lemma HelloKeepsTokens(w: World, conn: nat, hello: HelloAct)
    requires TokensHeld(w) && HelloEnabled(w, conn, hello)
    ensures TokensHeld(ApplyHello(w, conn, hello))
  {
  }

  lemma StepKeepsTokens(w: World, step: Step)
    requires Basics(w) && TokensHeld(w) && Enabled(w, step)
    ensures TokensHeld(Apply(w, step))
  {
    match step {
      case ThreadStep(tid, act) => ThreadKeepsTokens(w, tid, act);
      case TicketStep(token, move) => TicketKeepsTokens(w, token, move);
      case HelloStep(conn, hello) => HelloKeepsTokens(w, conn, hello);
      case ConnStep(conn, event) => ConnKeepsTokens(w, conn, event);
      case AdminStep(admin) => AdminKeepsTokens(w, admin);
    }
  }

  // --- starts keep the slot's identity ------------------------------------------------------

  lemma NextAligned(w: World, tid: nat, act: ThreadAct)
    requires ThreadEnabled(w, tid, act) && Aligned(w.sh, w.threads[tid])
    ensures Aligned(w.sh, w.threads[tid].(phase := NextPhase(w, tid, act)))
  {
  }

  lemma ThreadKeepsAligned(w: World, tid: nat, act: ThreadAct)
    requires AllAligned(w) && ThreadEnabled(w, tid, act)
    ensures AllAligned(ApplyThread(w, tid, act))
  {
    var w' := ApplyThread(w, tid, act);
    NextAligned(w, tid, act);
    BodyLength(w, tid, act);
    forall k | k in w'.threads ensures Aligned(w'.sh, w'.threads[k]) {
      var t := w'.threads[k];
      assert Aligned(w.sh, t);
      if t.index < |w.sh.slots| { BodyKeys(w, tid, act, t.index); }
    }
  }

  lemma PublishIsCurrent(w: World, t: Thread)
    requires SlotsOk(w) && t.phase.Starting? && Aligned(w.sh, t)
    requires MayPublish(w.sh, t.index, t.phase.key.generation)
    ensures var w' := PublishBody(w, t); t.index < |w'.sh.slots| && Current(w', t.index)
  {
  }

  /** A slot that stays connected with the connection and identity it had is still current. */
  lemma StaysCurrent(w: World, b: World, i: nat)
    requires UpOk(w) && i < |w.sh.slots| == |b.sh.slots| && b.info == w.info &&
             SlotKey(b.sh.slots[i]) == SlotKey(w.sh.slots[i])
    requires b.sh.slots[i].connected && b.sh.slots[i].conn != 0
    requires w.sh.slots[i].connected && b.sh.slots[i].conn == w.sh.slots[i].conn
    ensures Current(b, i)
  {
    assert Current(w, i);
  }

  lemma BodyKeepsConn(w: World, tid: nat, act: ThreadAct, i: nat)
    requires ThreadEnabled(w, tid, act) && !act.PublishConn? && i < |w.sh.slots| == |ThreadBody(w, tid, act).sh.slots|
    ensures var b := ThreadBody(w, tid, act);
            b.info == w.info &&
            (b.sh.slots[i].connected && b.sh.slots[i].conn != 0 ==>
               w.sh.slots[i].connected && b.sh.slots[i].conn == w.sh.slots[i].conn)
  {
  }

  lemma ThreadKeepsUpAt(w: World, tid: nat, act: ThreadAct, i: nat)
    requires SlotsOk(w) && UpOk(w) && ThreadEnabled(w, tid, act) && !act.PublishConn?
    requires var b := ThreadBody(w, tid, act); i < |b.sh.slots| && b.sh.slots[i].connected && b.sh.slots[i].conn != 0
    ensures Current(ThreadBody(w, tid, act), i)
  {
    BodyLength(w, tid, act);
    BodyKeys(w, tid, act, i);
    BodyKeepsConn(w, tid, act, i);
    StaysCurrent(w, ThreadBody(w, tid, act), i);
  }

  lemma ThreadKeepsUp(w: World, tid: nat, act: ThreadAct)
    requires Basics(w) && AllAligned(w) && UpOk(w) && ThreadEnabled(w, tid, act)
    ensures UpOk(ApplyThread(w, tid, act))
  {
    var b := ThreadBody(w, tid, act);
    forall i | 0 <= i < |b.sh.slots| && b.sh.slots[i].connected && b.sh.slots[i].conn != 0 ensures Current(b, i) {
      if !act.PublishConn? {
        ThreadKeepsUpAt(w, tid, act, i);
      } else if i == w.threads[tid].index && MayPublish(w.sh, i, w.threads[tid].phase.key.generation) {
        assert Aligned(w.sh, w.threads[tid]);
        PublishIsCurrent(w, w.threads[tid]);
      } else {
        assert SlotOk(w, i);
      }
    }
    var w' := ApplyThread(w, tid, act);
    forall i | 0 <= i < |w'.sh.slots| && w'.sh.slots[i].connected && w'.sh.slots[i].conn != 0 ensures Current(w', i) {
      assert Current(b, i);
    }
  }

  // --- every slot stays covered ---------------------------------------------------------------

  /** A slot the step does not touch stays covered: its witnesses are still there. */
  lemma CoveredElsewhere(w: World, w': World, i: nat)
    requires i < |w.sh.slots| && i < |w'.sh.slots| && Covered(w, i)
    requires w'.sh.slots[i] == w.sh.slots[i]
    requires forall c :: c in w.info ==> c in w'.info && w'.info[c] == w.info[c]
    requires forall tid :: tid in w.threads && w.threads[tid].index == i && !w.threads[tid].phase.Returned? ==>
             tid in w'.threads && w'.threads[tid] == w.threads[tid]
    ensures Covered(w', i)
  {
    if exists tid :: tid in w.threads && Owes(w.threads[tid], i) {
      var k :| k in w.threads && Owes(w.threads[k], i);
      assert Owes(w'.threads[k], i);
    } else if exists tid :: tid in w.threads && StartsFor(w.threads[tid], i, SlotKey(w.sh.slots[i])) {
      var k :| k in w.threads && StartsFor(w.threads[k], i, SlotKey(w.sh.slots[i]));
      assert StartsFor(w'.threads[k], i, SlotKey(w'.sh.slots[i]));
    }
  }

  lemma ReserveCovers(s: Shared, index: nat, key: Key)
    requires Live(s, index) && HasKey(s.slots[index], key)
    ensures var s' := ReserveRetry(s, index, key).s; s'.slots[index].retryToken != 0 || s'.slots[index].retryFailed
  {
  }

  /** Blocks other than the claim never take a token or a latch away. */
  lemma BodyKeepsToken(w: World, tid: nat, act: ThreadAct, i: nat)
    requires ThreadEnabled(w, tid, act) && !act.Claim? && i < |w.sh.slots|
    ensures |ThreadBody(w, tid, act).sh.slots| == |w.sh.slots|
    ensures w.sh.slots[i].retryToken != 0 ==> ThreadBody(w, tid, act).sh.slots[i].retryToken != 0
    ensures w.sh.slots[i].retryFailed ==> ThreadBody(w, tid, act).sh.slots[i].retryFailed
  {
  }

  /** A witness other than the activation itself survives its block. */
  lemma OtherWitness(w: World, tid: nat, act: ThreadAct, k: nat, i: nat)
    requires ThreadEnabled(w, tid, act) && i < |w.sh.slots| && k in w.threads && k != tid
    requires Owes(w.threads[k], i) || StartsFor(w.threads[k], i, SlotKey(w.sh.slots[i]))
    ensures |ApplyThread(w, tid, act).sh.slots| == |w.sh.slots| && Covered(ApplyThread(w, tid, act), i)
  {
    var w' := ApplyThread(w, tid, act);
    BodyKeys(w, tid, act, i);
    assert w'.threads[k] == w.threads[k];
    assert Owes(w'.threads[k], i) || StartsFor(w'.threads[k], i, SlotKey(w'.sh.slots[i]));
  }

  /** The activation's own promise survives its block, or is redeemed by it. */
  lemma OwnWitness(w: World, tid: nat, act: ThreadAct)
    requires Basics(w) && AllAligned(w) && ThreadEnabled(w, tid, act) && !act.Claim?
    requires w.gateOpen && w.threads[tid].index < |w.sh.slots|
    requires var i := w.threads[tid].index;
             Owes(w.threads[tid], i) || StartsFor(w.threads[tid], i, SlotKey(w.sh.slots[i]))
    ensures |ApplyThread(w, tid, act).sh.slots| == |w.sh.slots| &&
            Covered(ApplyThread(w, tid, act), w.threads[tid].index)
  {
    var w' := ApplyThread(w, tid, act);
    var t := w.threads[tid];
    BodyKeys(w, tid, act, t.index);
    if act.Enter? {
      assert Owes(w'.threads[tid], t.index);
    } else if act.OpenFails? {
      assert StartsFor(w'.threads[tid], t.index, SlotKey(w'.sh.slots[t.index]));
    } else if act.PublishConn? {
      assert Aligned(w.sh, t);
      PublishIsCurrent(w, t);
      assert Current(w', t.index);
    } else {
      assert act.ReserveAfterFailure?;
      ReserveCovers(w.sh, t.index, t.phase.key);
    }
  }

  /** A current connection stays, is replaced by a current one, or is handed back to its start. */
  lemma CurrentStays(w: World, tid: nat, act: ThreadAct)
    requires Basics(w) && AllAligned(w) && ThreadEnabled(w, tid, act) && !act.Claim?
    requires w.gateOpen && w.threads[tid].index < |w.sh.slots| && Current(w, w.threads[tid].index)
    requires StartedOk(w)
    ensures |ApplyThread(w, tid, act).sh.slots| == |w.sh.slots| &&
            Covered(ApplyThread(w, tid, act), w.threads[tid].index)
  {
    var w' := ApplyThread(w, tid, act);
    var t := w.threads[tid];
    BodyKeys(w, tid, act, t.index);
    if act.PublishConn? && MayPublish(w.sh, t.index, t.phase.key.generation) {
      assert Aligned(w.sh, t);
      PublishIsCurrent(w, t);
      assert Current(w', t.index);
    } else if act.FinishStart? && !act.accepted && StartStillCurrent(w.sh, t.index, t.phase.conn, t.phase.ctx) {
      assert StartsFor(w'.threads[tid], t.index, SlotKey(w'.sh.slots[t.index]));
    } else {
      assert Current(w', t.index);
    }
  }

  /** A published activation remembers the identity its connection was opened for. */
  ghost predicate StartedOk(w: World) {
    forall tid :: tid in w.threads && w.threads[tid].phase.Started? ==>
                    var p := w.threads[tid].phase;
                    p.conn in w.info && w.info[p.conn].key == p.key
  }

  lemma ClaimCovers(w: World, tid: nat, valid: bool)
    requires SlotsOk(w) && UpOk(w) && ThreadEnabled(w, tid, Claim(valid))
    requires w.gateOpen && w.threads[tid].index < |w.sh.slots| && Covered(w, w.threads[tid].index)
    ensures |ApplyThread(w, tid, Claim(valid)).sh.slots| == |w.sh.slots|
    ensures Covered(ApplyThread(w, tid, Claim(valid)), w.threads[tid].index)
  {
    var w' := ApplyThread(w, tid, Claim(valid));
    var t := w.threads[tid];
    var i := t.index;
    var e := ClaimStart(w.sh, i, t.kind, valid);
    match e.result {
      case Claimed(claim, key) => assert StartsFor(w'.threads[tid], i, SlotKey(w'.sh.slots[i]));
      case AlreadyUp(_) => assert Current(w', i);
      case OutOfClaims =>
      case Refused =>
        assert !t.kind.Plain?;
        forall k | k in w.threads && k != tid ensures w'.threads[k] == w.threads[k] {}
        if exists k :: k in w.threads && Owes(w.threads[k], i) {
          var k :| k in w.threads && Owes(w.threads[k], i);
          OtherWitness(w, tid, Claim(valid), k, i);
        } else if exists k :: k in w.threads && StartsFor(w.threads[k], i, SlotKey(w.sh.slots[i])) {
          var k :| k in w.threads && StartsFor(w.threads[k], i, SlotKey(w.sh.slots[i]));
          OtherWitness(w, tid, Claim(valid), k, i);
        } else {
          assert w'.sh == w.sh;
        }
    }
  }

  /** The slot an activation works on stays covered. */
  lemma ThreadCoversOwn(w: World, tid: nat, act: ThreadAct)
    requires Basics(w) && AllAligned(w) && StartedOk(w) && UpOk(w) && ThreadEnabled(w, tid, act)
    requires w.gateOpen && w.threads[tid].index < |w.sh.slots| && Covered(w, w.threads[tid].index)
    ensures |ApplyThread(w, tid, act).sh.slots| == |w.sh.slots| &&
            Covered(ApplyThread(w, tid, act), w.threads[tid].index)
  {
    var i := w.threads[tid].index;
    var slot := w.sh.slots[i];
    if act.Claim? {
      ClaimCovers(w, tid, act.valid);
    } else if slot.retryToken != 0 || slot.retryFailed {
      BodyKeepsToken(w, tid, act, i);
    } else if Current(w, i) {
      CurrentStays(w, tid, act);
    } else {
      var k :| k in w.threads && (Owes(w.threads[k], i) || StartsFor(w.threads[k], i, SlotKey(slot)));
      if k == tid { OwnWitness(w, tid, act); } else { OtherWitness(w, tid, act, k, i); }
    }
  }

  lemma ThreadKeepsStarted(w: World, tid: nat, act: ThreadAct)
    requires Basics(w) && StartedOk(w) && ThreadEnabled(w, tid, act)
    ensures StartedOk(ApplyThread(w, tid, act))
  {
    var w' := ApplyThread(w, tid, act);
    InfoGrows(w, tid, act);
    if !act.EndTask? && NextPhase(w, tid, act).Started? { assert act.PublishConn?; }
  }

  lemma ThreadKeepsCovered(w: World, tid: nat, act: ThreadAct)
    requires Basics(w) && AllAligned(w) && StartedOk(w) && UpOk(w) && AllCovered(w) && ThreadEnabled(w, tid, act)
    ensures AllCovered(ApplyThread(w, tid, act))
  {
    var w' := ApplyThread(w, tid, act);
    BodyFrame(w, tid, act);
    BodyLength(w, tid, act);
    InfoGrows(w, tid, act);
    if w'.gateOpen {
      forall i | 0 <= i < |w'.sh.slots| ensures Covered(w', i) {
        if i == w.threads[tid].index {
          ThreadCoversOwn(w, tid, act);
        } else {
          BodyKeys(w, tid, act, i);
          CoveredElsewhere(w, w', i);
        }
      }
    }
  }

  /** Everything about identities that coverage rests on. */
  ghost predicate IdentitiesOk(w: World) {
    AllAligned(w) && StartedOk(w) && UpOk(w)
  }

  // --- the other steps ------------------------------------------------------------------------

  lemma TicketKeepsCovered(w: World, token: nat, move: TicketAct)
    requires Basics(w) && IdentitiesOk(w) && AllCovered(w) && TicketEnabled(w, token, move)
    ensures IdentitiesOk(ApplyTicket(w, token, move)) && AllCovered(ApplyTicket(w, token, move))
  {
    var w' := ApplyTicket(w, token, move);
    if w'.gateOpen {
      forall i | 0 <= i < |w'.sh.slots| ensures Covered(w', i) {
        if w'.sh.slots[i] == w.sh.slots[i] { CoveredElsewhere(w, w', i); }
      }
    }
  }

  lemma ConnKeepsUp(w: World, conn: nat, event: ConnEvent)
    requires SlotsOk(w) && UpOk(w) && ConnEnabled(w, conn)
    ensures UpOk(ApplyConn(w, conn, event))
  {
    var index := w.info[conn].index;
    if index < |w.sh.slots| { assert SlotOk(w, index); }
  }

  lemma ConnKeepsIdentities(w: World, conn: nat, event: ConnEvent)
    requires Basics(w) && IdentitiesOk(w) && ConnEnabled(w, conn)
    ensures IdentitiesOk(ApplyConn(w, conn, event))
  {
    var w' := ApplyConn(w, conn, event);
    ConnKeepsUp(w, conn, event);
    assert w'.threads == w.threads && w'.info == w.info;
    forall k | k in w'.threads ensures Aligned(w'.sh, w'.threads[k]) {
      assert Aligned(w.sh, w.threads[k]);
      var i := w.threads[k].index;
      if i < |w.sh.slots| { ConnKeys(w, conn, event, i); }
    }
  }

  lemma ConnKeepsCovered(w: World, conn: nat, event: ConnEvent)
    requires Basics(w) && IdentitiesOk(w) && AllCovered(w) && ConnEnabled(w, conn)
    ensures AllCovered(ApplyConn(w, conn, event))
  {
    var w' := ApplyConn(w, conn, event);
    if w'.gateOpen {
      forall i | 0 <= i < |w'.sh.slots| ensures Covered(w', i) {
        assert Covered(w, i) && SlotOk(w, i);
        if w'.sh.slots[i] == w.sh.slots[i] {
          CoveredElsewhere(w, w', i);
        } else {
          ConnCoversOwn(w, conn, event);
        }
      }
    }
  }

  lemma ConnCoversOwn(w: World, conn: nat, event: ConnEvent)
    requires Basics(w) && IdentitiesOk(w) && ConnEnabled(w, conn) && w.gateOpen
    requires var i := w.info[conn].index; i < |w.sh.slots| && w.sh.slots[i].conn == conn && Covered(w, i)
    ensures var i := w.info[conn].index;
            i < |ApplyConn(w, conn, event).sh.slots| && Covered(ApplyConn(w, conn, event), i)
  {
    assert SlotOk(w, w.info[conn].index);
  }

  lemma AdminKeepsIdentities(w: World, admin: AdminAct)
    requires Basics(w) && GateOk(w) && IdentitiesOk(w) && AdminEnabled(w, admin) && !CutsStart(w, AdminStep(admin))
    ensures IdentitiesOk(ApplyAdmin(w, admin))
  {
    AdminKeepsUp(w, admin);
    AdminKeepsAligned(w, admin);
  }

  lemma AdminKeepsAligned(w: World, admin: AdminAct)
    requires AllAligned(w) && ThreadsOk(w) && GateOk(w) && AdminEnabled(w, admin) && !CutsStart(w, AdminStep(admin))
    ensures AllAligned(ApplyAdmin(w, admin))
  {
    var w' := ApplyAdmin(w, admin);
    AdminOnlyCalls(w, admin);
    ZeroIsDrained(w);
    forall k | k in w'.threads ensures Aligned(w'.sh, w'.threads[k]) {
      if k in w.threads && w.threads[k].phase.Starting? {
        assert Aligned(w.sh, w.threads[k]) && InsideStart(w.threads[k]);
        AdminKeepsStart(w, admin, k);
      }
    }
  }

  lemma AdminKeepsStart(w: World, admin: AdminAct, k: nat)
    requires AdminEnabled(w, admin) && !CutsStart(w, AdminStep(admin)) && admin != ClearSlots
    requires k in w.threads && w.threads[k].phase.Starting? && Aligned(w.sh, w.threads[k])
    ensures Aligned(ApplyAdmin(w, admin).sh, w.threads[k])
  {
  }

  lemma AdminKeepsUp(w: World, admin: AdminAct)
    requires SlotsOk(w) && UpOk(w) && AdminEnabled(w, admin)
    ensures UpOk(ApplyAdmin(w, admin))
  {
    var w' := ApplyAdmin(w, admin);
    forall i | 0 <= i < |w'.sh.slots| && w'.sh.slots[i].connected && w'.sh.slots[i].conn != 0 ensures Current(w', i) {
      if admin.GrowTo? && i >= |w.sh.slots| {
        GrownSlot(w.sh, admin.desired, admin.built, i);
      }
    }
  }

  lemma AdminKeepsCovered(w: World, admin: AdminAct)
    requires Basics(w) && AllCovered(w) && AdminEnabled(w, admin)
    ensures AllCovered(ApplyAdmin(w, admin))
  {
    var w' := ApplyAdmin(w, admin);
    AdminOnlyCalls(w, admin);
    AdminFrame(w, admin);
    if w'.gateOpen {
      forall i | 0 <= i < |w'.sh.slots| ensures Covered(w', i) {
        if admin.GrowTo? && i >= |w.sh.slots| {
          assert Owes(w'.threads[w.nextThread + (i - |w.sh.slots|)], i);
        } else if w'.sh.slots[i] == w.sh.slots[i] {
          CoveredElsewhere(w, w', i);
        } else if admin.ReconnectAt? {
          assert Owes(w'.threads[w.nextThread], i);
        } else {
          assert Covered(w, i);
        }
      }
    }
  }

  lemma HelloKeepsCovered(w: World, conn: nat, hello: HelloAct)
    requires IdentitiesOk(w) && AllCovered(w) && HelloEnabled(w, conn, hello)
    ensures IdentitiesOk(ApplyHello(w, conn, hello)) && AllCovered(ApplyHello(w, conn, hello))
  {
    var w' := ApplyHello(w, conn, hello);
    forall i | 0 <= i < |w.sh.slots| && w.gateOpen ensures Covered(w', i) {
      CoveredElsewhere(w, w', i);
    }
  }

  // --- the theorem ------------------------------------------------------------------------------

  ghost predicate Inv(w: World) {
    Basics(w) && GateOk(w) && TokensHeld(w) && IdentitiesOk(w) && AllCovered(w)
  }

  lemma StepKeepsInv(w: World, step: Step)
    requires Inv(w) && Enabled(w, step) && !CutsStart(w, step)
    ensures Inv(Apply(w, step))
  {
    StepKeepsBasics(w, step);
    StepKeepsGate(w, step);
    StepKeepsTokens(w, step);
    match step {
      case ThreadStep(tid, act) =>
        ThreadKeepsAligned(w, tid, act);
        ThreadKeepsStarted(w, tid, act);
        ThreadKeepsUp(w, tid, act);
        ThreadKeepsCovered(w, tid, act);
      case TicketStep(token, move) => TicketKeepsCovered(w, token, move);
      case HelloStep(conn, hello) => HelloKeepsCovered(w, conn, hello);
      case ConnStep(conn, event) =>
        ConnKeepsIdentities(w, conn, event);
        ConnKeepsCovered(w, conn, event);
      case AdminStep(admin) =>
        AdminKeepsIdentities(w, admin);
        AdminKeepsCovered(w, admin);
    }
  }

  lemma InitInv(count: nat, pathMode: bool, firstId: nat)
    ensures Inv(InitWorld(count, pathMode, firstId))
  {
    var w := InitWorld(count, pathMode, firstId);
    InitBasics(count, pathMode, firstId);
    InitGate(count, pathMode, firstId);
    forall i | 0 <= i < |w.sh.slots| ensures Covered(w, i) && w.sh.slots[i] == FreshSlot(firstId + i) {
      assert Owes(w.threads[i], i);
    }
  }

  lemma {:induction false} RunKeepsInv(ws: seq<World>, steps: seq<Step>, n: nat)
    requires IsRun(ws, steps) && n < |ws|
    requires forall i {:trigger steps[i]} :: 0 <= i < n ==> !CutsStart(ws[i], steps[i])
    ensures Inv(ws[n])
  {
    if n == 0 {
      var count: nat, pathMode, firstId: nat :| ws[0] == InitWorld(count, pathMode, firstId);
      InitInv(count, pathMode, firstId);
    } else {
      RunKeepsInv(ws, steps, n - 1);
      StepKeepsInv(ws[n - 1], steps[n - 1]);
    }
  }

  /**
   At every moment of every run that never cuts a start short, while the gate is open, every
   slot is covered, and when it is covered by a token that token's ticket is with exactly the
   holder recorded for it.
   */
  lemma NoSlotStranded(ws: seq<World>, steps: seq<Step>, n: nat, i: nat)
    requires IsRun(ws, steps) && n < |ws| && ws[n].gateOpen && i < |ws[n].sh.slots|
    requires forall k {:trigger steps[k]} :: 0 <= k < n ==> !CutsStart(ws[k], steps[k])
    ensures Covered(ws[n], i)
    ensures ws[n].sh.slots[i].retryToken != 0 ==> Ticketed(ws[n], i)
    ensures Current(ws[n], i) ==>
              var c := ws[n].sh.slots[i].conn; ConnEnabled(ws[n], c) || HelloEnabled(ws[n], c, LeaveHello)
  {
    RunKeepsInv(ws, steps, n);
    assert SlotOk(ws[n], i);
  }
}
