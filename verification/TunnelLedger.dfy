/**
 Exactly one terminal call per open handle.  The ledger invariant says who holds the one claim on a
 handle; the custody invariant says who still has to make one.
 */
module TunnelLedger {
  import opened TunnelOpen

  /** The reactor has reserved the terminal call of h and is inside AcceptTunnel. */
  predicate Reserved(w: World, h: nat) {
    w.pc.Accepting? && w.pc.h == h
  }

  /** Callback id has marked h and is about to call RejectTunnel. */
  predicate Claims(w: World, id: nat, h: nat) {
    id in w.callbacks && w.callbacks[id].pc == Claimed && w.callbacks[id].h == h
  }

  ghost predicate HandleOk(w: World, h: nat) {
    && |CallsOn(w, h)| <= 1
    && (CallsOn(w, h) != [] ==> h in w.terminal)
    && (Reserved(w, h) ==> h in w.terminal && CallsOn(w, h) == [])
    && (h in w.terminal && CallsOn(w, h) == [] ==> Reserved(w, h) || exists id :: Claims(w, id, h))
    && (forall id :: Claims(w, id, h) ==> h in w.terminal && CallsOn(w, h) == [] && !Reserved(w, h))
    && (forall i, j :: Claims(w, i, h) && Claims(w, j, h) ==> i == j)
  }

  ghost predicate Ledger(w: World) {
    forall h: nat :: HandleOk(w, h)
  }

  lemma SameLedger(w: World, w': World)
    requires Ledger(w)
    requires w'.calls == w.calls && w'.terminal == w.terminal
    requires forall id, h :: Claims(w', id, h) <==> Claims(w, id, h)
    requires forall h :: Reserved(w', h) <==> Reserved(w, h)
    ensures Ledger(w')
  {
    forall h: nat ensures HandleOk(w', h) {
      assert HandleOk(w, h);
      assert CallsOn(w', h) == CallsOn(w, h);
    }
  }

  /** The once-only calls keep the ledger and leave the handle marked. */
  lemma OnceKeepsLedger(w: World, h: nat, call: Call)
    requires Ledger(w)
    ensures Ledger(Once(w, h, h, call))
    ensures h != 0 ==> h in Once(w, h, h, call).terminal
  {
    var w' := Once(w, h, h, call);
    forall g: nat ensures HandleOk(w', g) {
      assert HandleOk(w, g);
      assert g != h ==> CallsOn(w', g) == CallsOn(w, g);
      assert forall id :: Claims(w', id, g) <==> Claims(w, id, g);
      assert Reserved(w', g) == Reserved(w, g);
    }
  }

  lemma CallbackKeepsLedger(w: World, id: nat, move: CallbackAct)
    requires Ledger(w) && CallbackEnabled(w, id, move)
    ensures Ledger(ApplyCallback(w, id, move))
  {
    var w' := ApplyCallback(w, id, move);
    var c := w.callbacks[id];
    forall g: nat ensures HandleOk(w', g) {
      assert HandleOk(w, g);
      assert g != c.h ==> CallsOn(w', g) == CallsOn(w, g);
      assert forall k :: k != id ==> (Claims(w', k, g) <==> Claims(w, k, g));
      assert Reserved(w', g) == Reserved(w, g);
      if g == c.h {
        assert move == MakeCall ==> Claims(w, id, g);
        assert move == Decline && c.h !in w.terminal ==> Claims(w', id, g);
      } else {
        assert !Claims(w', id, g) && !Claims(w, id, g);
      }
    }
  }

  lemma ReserveKeepsLedger(w: World)
    requires Ledger(w) && WriteEnabled(w, AfterWrite)
    requires w.pc.h != 0 ==> w.pc.comp == w.pc.h
    ensures Ledger(ApplyWrite(w, AfterWrite))
  {
    var w' := ApplyWrite(w, AfterWrite);
    forall g: nat ensures HandleOk(w', g) {
      assert HandleOk(w, g);
      assert CallsOn(w', g) == CallsOn(w, g);
      assert forall k :: Claims(w', k, g) <==> Claims(w, k, g);
    }
  }

  /** A successful accept, and the reset after a failed one. */
  lemma AcceptKeepsLedger(w: World, accepted: bool)
    requires Ledger(w) && WriteEnabled(w, AcceptReturns(accepted)) && w.pc.comp == w.pc.h
    ensures Ledger(ApplyWrite(w, AcceptReturns(accepted)))
  {
    var w' := ApplyWrite(w, AcceptReturns(accepted));
    assert Reserved(w, w.pc.h);
    forall g: nat ensures HandleOk(w', g) {
      assert HandleOk(w, g);
      assert g != w.pc.h ==> CallsOn(w', g) == CallsOn(w, g);
      assert forall k :: Claims(w', k, g) <==> Claims(w, k, g);
    }
  }

  // --- custody: who still owes a terminal call ---------------------------------------------------------

  ghost predicate ClientOk(w: World, fd: nat)
    requires fd in w.clients
  {
    var c := w.clients[fd];
    && (c.comp != 0 ==> c.comp in w.started && w.started[c.comp].fd == fd)
    && (c.handle != 0 ==> c.handle == c.comp && c.handle in w.returned)
    && (c.phase == Handshake ==> c.comp == 0 && c.handle == 0)
    && (c.phase == Opening ==> c.comp != 0 && (c.handle == c.comp || (w.pc.InStart? && w.pc.fd == fd)))
  }

  ghost predicate ClientsOk(w: World) {
    forall fd :: fd in w.clients ==> ClientOk(w, fd)
  }

  /** The handle the reactor thread is dealing with after a write. */
  predicate WriteOk(w: World, fd: nat, h: nat, comp: nat, keep: bool) {
    && (keep ==> h != 0)
    && (h != 0 ==> comp == h && h in w.returned && h in w.started && w.started[h].fd == fd)
    && (fd in w.clients ==> w.clients[fd].handle == if keep then h else 0)
  }

  ghost predicate PcOk(w: World) {
    match w.pc
    case Idle => true
    case InStart(fd, h, _) =>
      h != 0 && h in w.started && w.started[h].fd == fd && h !in w.returned &&
      (fd in w.clients ==> w.clients[fd].phase == Opening && w.clients[fd].comp == h && w.clients[fd].handle == 0)
    case Written(fd, h, comp, ok, keep) => WriteOk(w, fd, h, comp, keep) && (h != 0 && ok ==> keep)
    case Accepting(fd, h, comp, keep) => keep && h in w.terminal && WriteOk(w, fd, h, comp, keep)
    case Rejecting(fd, h, comp, keep) => h != 0 && WriteOk(w, fd, h, comp, keep)
    case Closing(fd, keep) =>
      fd in w.clients ==> w.clients[fd].handle == 0 || (keep && w.clients[fd].handle in w.terminal)
  }

  predicate Holds(w: World, h: nat) {
    h in w.started && w.started[h].fd in w.clients && w.clients[w.started[h].fd].handle == h
  }

  ghost predicate Custody(w: World) {
    forall h :: h in w.returned && h !in w.terminal ==>
      Holds(w, h) || ((w.pc.Written? || w.pc.Rejecting?) && w.pc.h == h)
  }

  ghost predicate Names(w: World) {
    && w.nextHandle >= 1
    && (forall h :: h in w.started ==> 1 <= h < w.nextHandle)
    && (forall h :: h in w.returned ==> h in w.started)
    && (w.life == Stopped ==> w.clients == map[] && w.pc == Idle && w.pending == [])
  }

  ghost predicate Held(w: World) {
    ClientsOk(w) && PcOk(w) && Custody(w) && Names(w)
  }

  // --- mail: queued completions and running callbacks name handles that exist ------------------------------

  predicate Addressed(w: World, h: nat) {
    h in w.started && MayFire(w, h) && (w.pc.InStart? && w.pc.h == h ==> w.pc.notified)
  }

  ghost predicate Mail(w: World) {
    && (forall i :: 0 <= i < |w.pending| ==> Addressed(w, w.pending[i].h))
    && (forall id :: id in w.callbacks ==> id < w.nextCallback && Addressed(w, w.callbacks[id].h))
  }
}
