/**
 Stale identities never act.  Numeric ids and retry tokens are issued once; a token becomes
 at most one start in any run; and a ticket or terminal key taken before its slot was
 reconnected, or removed, never matches that slot again.
 */
module StaleIdentity {
  import opened Prelude
  import opened ClientSlots
  import opened SlotWorld
  import opened SlotFrames
  import opened SlotInvariants

  // --- numeric ids ---------------------------------------------------------------------------

  /** Slot `i` is gone, or has an identity issued at or after `limit`. */
  predicate Renewed(s: Shared, i: nat, limit: nat) {
    i < |s.slots| ==> s.slots[i].numericId >= limit
  }

  lemma AdminRenews(w: World, admin: AdminAct, i: nat)
    requires AdminEnabled(w, admin)
    ensures var s' := ApplyAdmin(w, admin).sh;
            w.sh.nextNumericId <= s'.nextNumericId &&
            (i < |s'.slots| ==>
               (i < |w.sh.slots| && s'.slots[i].numericId == w.sh.slots[i].numericId) ||
               s'.slots[i].numericId >= w.sh.nextNumericId)
  {
    if admin.GrowTo? && |w.sh.slots| <= i < |ApplyAdmin(w, admin).sh.slots| {
      GrownSlot(w.sh, admin.desired, admin.built, i);
    }
  }

  lemma StepIdsRise(w: World, step: Step)
    requires Enabled(w, step)
    ensures w.sh.nextNumericId <= Apply(w, step).sh.nextNumericId
  {
    match step {
      case ThreadStep(tid, act) => BodyFrame(w, tid, act);
      case ConnStep(conn, event) => ConnLength(w, conn, event);
      case AdminStep(admin) => AdminRenews(w, admin, 0);
      case TicketStep(_, _) =>
      case HelloStep(_, _) =>
    }
  }

  /** A renewed slot stays renewed, and ids only go up. */
  lemma StepKeepsRenewed(w: World, step: Step, i: nat, limit: nat)
    requires Enabled(w, step) && limit <= w.sh.nextNumericId && Renewed(w.sh, i, limit)
    ensures limit <= Apply(w, step).sh.nextNumericId && Renewed(Apply(w, step).sh, i, limit)
  {
    match step {
      case ThreadStep(tid, act) =>
        BodyFrame(w, tid, act);
        BodyLength(w, tid, act);
        if i < |w.sh.slots| { BodyKeys(w, tid, act, i); }
      case ConnStep(conn, event) =>
        ConnLength(w, conn, event);
        if i < |w.sh.slots| { ConnKeys(w, conn, event, i); }
      case AdminStep(admin) => AdminRenews(w, admin, i);
      case TicketStep(_, _) =>
      case HelloStep(_, _) =>
    }
  }

  /** The step takes slot `i` away. */
  predicate Removes(w: World, step: Step, i: nat) {
    i < |w.sh.slots| && step.AdminStep? &&
    ((step.admin.ShrinkAt? && step.admin.index == i && MayShrink(w.sh, i)) || step.admin.ClearSlots?)
  }

  /** The step gives slot `i` a new identity or takes the slot away. */
  predicate Retires(w: World, step: Step, i: nat) {
    Removes(w, step, i) || (step == AdminStep(ReconnectAt(i)) && MayReconnect(w.sh, i))
  }

  lemma RetiredIsRenewed(w: World, step: Step, i: nat)
    requires Enabled(w, step) && Retires(w, step, i)
    ensures Renewed(Apply(w, step).sh, i, w.sh.nextNumericId)
    ensures w.sh.nextNumericId <= Apply(w, step).sh.nextNumericId
  {
  }

  lemma {:induction false} RunBasics(ws: seq<World>, steps: seq<Step>, n: nat)
    requires IsRun(ws, steps) && n < |ws|
    ensures Basics(ws[n])
  {
    if n == 0 {
      var count: nat, pathMode, firstId: nat :| ws[0] == InitWorld(count, pathMode, firstId);
      InitBasics(count, pathMode, firstId);
    } else {
      RunBasics(ws, steps, n - 1);
      StepKeepsBasics(ws[n - 1], steps[n - 1]);
    }
  }

  lemma {:induction false} RunKeepsRenewed(ws: seq<World>, steps: seq<Step>, a: nat, n: nat, i: nat, limit: nat)
    requires IsRun(ws, steps) && a <= n < |ws|
    requires limit <= ws[a].sh.nextNumericId && Renewed(ws[a].sh, i, limit)
    ensures limit <= ws[n].sh.nextNumericId && Renewed(ws[n].sh, i, limit)
  {
    if a >= n {
    } else {
      RunKeepsRenewed(ws, steps, a, n - 1, i, limit);
      StepKeepsRenewed(ws[n - 1], steps[n - 1], i, limit);
    }
  }

  /** An identity slot `i` had before it was retired never fits it again. */
  lemma RetiredKeyNeverFits(ws: seq<World>, steps: seq<Step>, m: nat, a: nat, n: nat, i: nat, key: Key)
    requires IsRun(ws, steps) && m <= a < n < |ws|
    requires i < |ws[m].sh.slots| && HasKey(ws[m].sh.slots[i], key)
    requires Retires(ws[a], steps[a], i)
    ensures i < |ws[n].sh.slots| ==> !HasKey(ws[n].sh.slots[i], key)
  {
    RunBasics(ws, steps, m);
    assert SlotOk(ws[m], i);
    RunKeepsRenewed(ws, steps, m, a, i, 0);
    RunIdsRise(ws, steps, m, a);
    RetiredIsRenewed(ws[a], steps[a], i);
    RunKeepsRenewed(ws, steps, a + 1, n, i, ws[a].sh.nextNumericId);
  }

  lemma {:induction false} RunIdsRise(ws: seq<World>, steps: seq<Step>, a: nat, n: nat)
    requires IsRun(ws, steps) && a <= n < |ws|
    ensures ws[a].sh.nextNumericId <= ws[n].sh.nextNumericId
  {
    if a >= n {
    } else {
      RunIdsRise(ws, steps, a, n - 1);
      StepIdsRise(ws[n - 1], steps[n - 1]);
    }
  }

  /**
   A ticket or terminal key taken from slot `i` before it was reconnected or removed neither
   claims a start, nor latches the slot, nor reserves or performs a terminal shutdown afterwards.
   */
  lemma StaleNeverActs(ws: seq<World>, steps: seq<Step>, m: nat, a: nat, n: nat, t: Ticket)
    requires IsRun(ws, steps) && m <= a < n < |ws|
    requires t.index < |ws[m].sh.slots| && HasKey(ws[m].sh.slots[t.index], Key(t.numericId, t.generation))
    requires Retires(ws[a], steps[a], t.index)
    ensures !TicketMatches(ws[n].sh, t)
    ensures forall valid :: ClaimStart(ws[n].sh, t.index, Retry(t), valid) == ClaimEffect(ws[n].sh, Refused)
    ensures RefuseRetry(ws[n].sh, t) == ws[n].sh
    ensures RequestTerminal(ws[n].sh, t.index, Key(t.numericId, t.generation)) == ws[n].sh
    ensures TerminalTarget(ws[n].sh, t.index, Key(t.numericId, t.generation)) == 0
  {
    RetiredKeyNeverFits(ws, steps, m, a, n, t.index, Key(t.numericId, t.generation));
  }

  // --- retry tokens ---------------------------------------------------------------------------

  /** Live tokens are distinct, unspent, and below the next one to be issued; spent ones are distinct. */
  ghost predicate TokensOk(s: Shared, spent: seq<nat>) {
    (forall i :: 0 <= i < |s.slots| && s.slots[i].retryToken != 0 ==>
                   s.slots[i].retryToken < s.nextRetryToken && s.slots[i].retryToken !in spent) &&
    (forall i, j :: 0 <= i < j < |s.slots| && s.slots[i].retryToken != 0 ==>
     s.slots[i].retryToken != s.slots[j].retryToken) &&
    (forall k :: 0 <= k < |spent| ==> spent[k] < s.nextRetryToken) &&
    (forall k, l :: 0 <= k < l < |spent| ==> spent[k] != spent[l])
  }

  /** Clearing a token, or leaving all of them alone, is harmless. */
  lemma OneTokenChanges(s: Shared, s': Shared, spent: seq<nat>, i: nat)
    requires TokensOk(s, spent) && i < |s.slots| == |s'.slots|
    requires s'.slots == s.slots[i := s'.slots[i]]
    requires s.nextRetryToken <= s'.nextRetryToken
    requires s'.slots[i].retryToken == 0 || s'.slots[i].retryToken == s.slots[i].retryToken ||
             s.nextRetryToken <= s'.slots[i].retryToken < s'.nextRetryToken
    ensures TokensOk(s', spent)
  {
    if s'.slots[i].retryToken >= s.nextRetryToken {
      assert s'.slots[i].retryToken !in spent;
    }
  }

  lemma ClaimKeepsTokens(w: World, t: Thread, valid: bool)
    requires TokensOk(w.sh, w.claimedTokens) && (t.kind.Retry? ==> t.kind.ticket.index == t.index)
    ensures TokensOk(ClaimBody(w, t, valid).sh, ClaimBody(w, t, valid).claimedTokens)
  {
    var e := ClaimStart(w.sh, t.index, t.kind, valid);
    var w' := ClaimBody(w, t, valid);
    if e.s != w.sh {
      OneTokenChanges(w.sh, e.s, w.claimedTokens, t.index);
    }
    if w'.claimedTokens != w.claimedTokens {
      var token := t.kind.ticket.token;
      assert w.sh.slots[t.kind.ticket.index].retryToken == token;
    }
  }

  lemma ReserveKeepsTokens(s: Shared, index: nat, key: Key, spent: seq<nat>)
    requires TokensOk(s, spent)
    ensures TokensOk(ReserveRetry(s, index, key).s, spent)
  {
    var s' := ReserveRetry(s, index, key).s;
    if s' != s { OneTokenChanges(s, s', spent, index); }
  }

  lemma ThreadKeepsTokensOk(w: World, tid: nat, act: ThreadAct)
    requires TokensOk(w.sh, w.claimedTokens) && ThreadsOk(w) && ThreadEnabled(w, tid, act)
    ensures TokensOk(ApplyThread(w, tid, act).sh, ApplyThread(w, tid, act).claimedTokens)
  {
    var t := w.threads[tid];
    var s' := ThreadBody(w, tid, act).sh;
    if act.Claim? {
      ClaimKeepsTokens(w, t, act.valid);
    } else if act.ReserveAfterFailure? {
      ReserveKeepsTokens(w.sh, t.index, t.phase.key, w.claimedTokens);
    } else if s' != w.sh {
      OneTokenChanges(w.sh, s', w.claimedTokens, t.index);
    }
  }

  lemma ConnKeepsTokensOk(w: World, conn: nat, event: ConnEvent)
    requires TokensOk(w.sh, w.claimedTokens) && ConnEnabled(w, conn)
    ensures TokensOk(ApplyConn(w, conn, event).sh, w.claimedTokens)
  {
    var c := w.info[conn];
    var s' := ApplyConn(w, conn, event).sh;
    if event.OnShutdownComplete? && OwnsSlot(w.sh, c.index, conn, c.ctx, c.key) && c.ctx != 0 {
      var s1 := SetSlot(w.sh, c.index, w.sh.slots[c.index].(ctx := 0, connected := false, closing := true, conn := 0));
      OneTokenChanges(w.sh, s1, w.claimedTokens, c.index);
      ReserveKeepsTokens(s1, c.index, c.key, w.claimedTokens);
    } else if s' != w.sh {
      OneTokenChanges(w.sh, s', w.claimedTokens, c.index);
    }
  }

  lemma AdminKeepsTokensOk(w: World, admin: AdminAct)
    requires TokensOk(w.sh, w.claimedTokens) && AdminEnabled(w, admin)
    ensures TokensOk(ApplyAdmin(w, admin).sh, w.claimedTokens)
  {
    var s' := ApplyAdmin(w, admin).sh;
    match admin {
      case ReconnectAt(i) => if s' != w.sh { OneTokenChanges(w.sh, s', w.claimedTokens, i); }
      case RequestShutdown(i, _) => if s' != w.sh { OneTokenChanges(w.sh, s', w.claimedTokens, i); }
      case GrowTo(desired, built) =>
        forall i | |w.sh.slots| <= i < |s'.slots| ensures s'.slots[i].retryToken == 0 {
          GrownSlot(w.sh, desired, built, i);
        }
      case _ =>
    }
  }

  lemma StepKeepsTokensOk(w: World, step: Step)
    requires TokensOk(w.sh, w.claimedTokens) && ThreadsOk(w) && Enabled(w, step)
    ensures TokensOk(Apply(w, step).sh, Apply(w, step).claimedTokens)
  {
    match step {
      case ThreadStep(tid, act) => ThreadKeepsTokensOk(w, tid, act);
      case ConnStep(conn, event) => ConnKeepsTokensOk(w, conn, event);
      case AdminStep(admin) => AdminKeepsTokensOk(w, admin);
      case HelloStep(_, _) =>
      case TicketStep(token, move) =>
        var t := w.tickets[token].ticket;
        if move.Latch? && TicketMatches(w.sh, t) {
          OneTokenChanges(w.sh, ApplyTicket(w, token, move).sh, w.claimedTokens, t.index);
        }
    }
  }

  lemma {:induction false} RunKeepsTokensOk(ws: seq<World>, steps: seq<Step>, n: nat)
    requires IsRun(ws, steps) && n < |ws|
    ensures TokensOk(ws[n].sh, ws[n].claimedTokens)
  {
    if n == 0 {
      var count: nat, pathMode, firstId: nat :| ws[0] == InitWorld(count, pathMode, firstId);
      forall i | 0 <= i < count ensures ws[0].sh.slots[i].retryToken == 0 {
        assert ws[0].sh.slots[i] == FreshSlot(firstId + i);
      }
    } else {
      RunKeepsTokensOk(ws, steps, n - 1);
      RunBasics(ws, steps, n - 1);
      StepKeepsTokensOk(ws[n - 1], steps[n - 1]);
    }
  }

  /** Over any run, no retry token is turned into more than one start. */
  lemma TokenClaimedOnce(ws: seq<World>, steps: seq<Step>, n: nat, k: nat, l: nat)
    requires IsRun(ws, steps) && n < |ws| && k < l < |ws[n].claimedTokens|
    ensures ws[n].claimedTokens[k] != ws[n].claimedTokens[l]
  {
    RunKeepsTokensOk(ws, steps, n);
  }

  // --- one holder per ticket ----------------------------------------------------------------------

  /** A retry task that has not claimed its ticket yet. */
  predicate Unclaimed(t: Thread) {
    t.kind.Retry? && (t.phase.Called? || t.phase.Entered?)
  }

  /** A ticket is filed, or carried by one task, but never both or twice. */
  ghost predicate CustodyOk(w: World) {
    (forall tid :: tid in w.threads && Unclaimed(w.threads[tid]) ==>
                     w.threads[tid].kind.ticket.token < w.sh.nextRetryToken &&
                       w.threads[tid].kind.ticket.token !in w.tickets) &&
    (forall a, b :: a in w.threads && b in w.threads && a != b && Unclaimed(w.threads[a]) && Unclaimed(w.threads[b]) ==>
                      w.threads[a].kind.ticket.token != w.threads[b].kind.ticket.token)
  }

  /** New tickets have new tokens, and no task becomes unclaimed again. */
  lemma CustodyFrame(w: World, w': World)
    requires CustodyOk(w) && w.sh.nextRetryToken <= w'.sh.nextRetryToken
    requires forall token :: token in w'.tickets ==> token in w.tickets || token >= w.sh.nextRetryToken
    requires forall tid :: tid in w'.threads && Unclaimed(w'.threads[tid]) ==>
                             tid in w.threads && Unclaimed(w.threads[tid]) &&
                               w'.threads[tid].kind == w.threads[tid].kind
    ensures CustodyOk(w')
  {
  }

  lemma ThreadKeepsCustody(w: World, tid: nat, act: ThreadAct)
    requires CustodyOk(w) && ThreadEnabled(w, tid, act)
    ensures CustodyOk(ApplyThread(w, tid, act))
  {
    var w' := ApplyThread(w, tid, act);
    BodyFrame(w, tid, act);
    var b := ThreadBody(w, tid, act);
    if act.ReserveAfterFailure? {
      var r := ReserveRetry(w.sh, w.threads[tid].index, w.threads[tid].phase.key);
      assert r.ticket.Some? ==> r.ticket.value.token == w.sh.nextRetryToken;
    }
    assert forall token :: token in b.tickets ==> token in w.tickets || token >= w.sh.nextRetryToken;
    CustodyFrame(w, w');
  }

  lemma TicketKeepsCustody(w: World, token: nat, move: TicketAct)
    requires CustodyOk(w) && TicketsOk(w) && ThreadsOk(w) && TicketEnabled(w, token, move)
    ensures CustodyOk(ApplyTicket(w, token, move))
  {
    if !move.Run? { CustodyFrame(w, ApplyTicket(w, token, move)); }
  }

  lemma ConnKeepsCustody(w: World, conn: nat, event: ConnEvent)
    requires CustodyOk(w) && ConnEnabled(w, conn)
    ensures CustodyOk(ApplyConn(w, conn, event))
  {
    var c := w.info[conn];
    if event.OnShutdownComplete? {
      var r := CompleteShutdown(w.sh, c.index, conn, c.ctx, c.key);
      assert r.ticket.Some? ==> r.ticket.value.token == w.sh.nextRetryToken;
      assert w.sh.nextRetryToken <= r.s.nextRetryToken;
    }
    CustodyFrame(w, ApplyConn(w, conn, event));
  }

  lemma AdminKeepsCustody(w: World, admin: AdminAct)
    requires CustodyOk(w) && ThreadsOk(w) && AdminEnabled(w, admin)
    ensures CustodyOk(ApplyAdmin(w, admin))
  {
    CustodyFrame(w, ApplyAdmin(w, admin));
  }

  lemma HelloKeepsCustody(w: World, conn: nat, hello: HelloAct)
    requires CustodyOk(w) && HelloEnabled(w, conn, hello)
    ensures CustodyOk(ApplyHello(w, conn, hello))
  {
    CustodyFrame(w, ApplyHello(w, conn, hello));
  }

  lemma StepKeepsCustody(w: World, step: Step)
    requires Basics(w) && CustodyOk(w) && Enabled(w, step)
    ensures CustodyOk(Apply(w, step))
  {
    match step {
      case ThreadStep(tid, act) => ThreadKeepsCustody(w, tid, act);
      case TicketStep(token, move) => TicketKeepsCustody(w, token, move);
      case HelloStep(conn, hello) => HelloKeepsCustody(w, conn, hello);
      case ConnStep(conn, event) => ConnKeepsCustody(w, conn, event);
      case AdminStep(admin) => AdminKeepsCustody(w, admin);
    }
  }

  /** At every moment of every run a retry ticket is in at most one place. */
  lemma {:induction false} TicketInOnePlace(ws: seq<World>, steps: seq<Step>, n: nat)
    requires IsRun(ws, steps) && n < |ws|
    ensures CustodyOk(ws[n])
  {
    if n == 0 {
    } else {
      TicketInOnePlace(ws, steps, n - 1);
      RunBasics(ws, steps, n - 1);
      StepKeepsCustody(ws[n - 1], steps[n - 1]);
    }
  }
}
