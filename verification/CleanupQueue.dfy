/**
 The cleanup queue as the objects it is made of: an intrusive singly linked list of contexts
 with a head and a tail link, and the per-session tracker that numbers them.  Whatever the
 links do, the list behaves as a first-in first-out sequence.
 */
module CleanupQueue {
  import opened CleanupWorld

  class CleanupTracker {
    var enqueued: nat
    var completed: nat
    var callbackOpen: bool
    var inFlight: nat
    ghost var callers: set<nat>      // callbacks between TryEnterCallback and LeaveCallback

    ghost predicate Valid()
      reads this
    {
      inFlight == |callers|
    }

    constructor ()
      ensures Valid() && enqueued == 0 && completed == 0 && callbackOpen && callers == {}
    {
      enqueued, completed, callbackOpen, inFlight, callers := 0, 0, true, 0, {};
    }

    method TryEnterCallback(ghost who: nat) returns (ok: bool)
      requires Valid() && who !in callers
      modifies this`inFlight, this`callers
      ensures Valid() && ok == callbackOpen
      ensures callers == if ok then old(callers) + {who} else old(callers)
    {
      if !callbackOpen { return false; }
      inFlight := inFlight + 1;
      callers := callers + {who};
      ok := true;
    }

    method LeaveCallback(ghost who: nat)
      requires Valid() && who in callers
      modifies this`inFlight, this`callers
      ensures Valid() && callers == old(callers) - {who}
    {
      if inFlight > 0 { inFlight := inFlight - 1; }
      callers := callers - {who};
    }

    method CloseCallbackAdmission() returns (drained: bool)
      requires Valid()
      modifies this`callbackOpen
      ensures Valid() && !callbackOpen && (drained <==> callers == {})
    {
      callbackOpen := false;
      drained := inFlight == 0;
    }
  }

  class CleanupContext {
    var next: CleanupContext?
    var queued: bool
    var ordinal: nat
    const tracker: CleanupTracker?

    constructor (tracker: CleanupTracker?)
      ensures next == null && !queued && ordinal == 0 && this.tracker == tracker
    {
      next, queued, ordinal := null, false, 0;
      this.tracker := tracker;
    }
  }

  class Queue {
    var head: CleanupContext?
    var tail: CleanupContext?
    var lifecycle: Lifecycle
    var admission: bool
    var producers: nat
    ghost var items: seq<CleanupContext>   // the list the links spell out

    /** `items` is the list from head to tail, without repetition. */
    ghost predicate Valid()
      reads this, items
    {
      (items == [] ==> head == null && tail == null) &&
      (items != [] ==> head == items[0] && tail == items[|items| - 1] && items[|items| - 1].next == null) &&
      (forall i :: 0 <= i < |items| - 1 ==> items[i].next == items[i + 1]) &&
      (forall i :: 0 <= i < |items| ==> items[i].queued) &&
      (forall i, j :: 0 <= i < j < |items| ==> items[i] != items[j])
    }

    constructor ()
      ensures Valid() && items == [] && lifecycle == Running && admission && producers == 0
    {
      head, tail, lifecycle, admission, producers, items := null, null, Running, true, 0, [];
    }

    method RegisterProducer() returns (ok: bool)
      requires Valid()
      modifies this`producers
      ensures Valid() && ok == admission && producers == old(producers) + (if ok then 1 else 0)
    {
      if !admission { return false; }
      producers := producers + 1;
      ok := true;
    }

    method UnregisterProducer()
      requires Valid()
      modifies this`producers
      ensures Valid() && producers == if old(producers) > 0 then old(producers) - 1 else 0
    {
      if producers > 0 { producers := producers - 1; }
    }

    /** Appends a context that is not queued yet; a refused context can be enqueued again. */
    method Enqueue(c: CleanupContext) returns (ok: bool)
      requires Valid()
      modifies this`head, this`tail, this`items, c, (set x | x in items)`next, (if c.tracker == null then {}
               else {c.tracker})`enqueued
      ensures Valid() && ok == (!old(c.queued) && lifecycle == Running)
      ensures items == if ok then old(items) + [c] else old(items)
      ensures c.queued == (old(c.queued) || ok)
      ensures c.tracker != null && ok ==> c.tracker.enqueued == old(c.tracker.enqueued) + 1 == c.ordinal
      ensures c.tracker != null && !ok ==> c.tracker.enqueued == old(c.tracker.enqueued) && c.ordinal == old(c.ordinal)
      ensures forall x :: x in old(items) && x != c ==> x.ordinal == old(x.ordinal)
    {
      if c.queued { return false; }
      c.queued := true;
      if lifecycle != Running {
        c.queued := false;
        return false;
      }
      if c.tracker != null {
        c.tracker.enqueued := c.tracker.enqueued + 1;
        c.ordinal := c.tracker.enqueued;
      }
      c.next := null;
      if tail != null {
        tail.next := c;
      } else {
        head := c;
      }
      tail := c;
      items := items + [c];
      ok := true;
    }

    method Pop() returns (c: CleanupContext?)
      requires Valid()
      modifies this`head, this`tail, this`items
      ensures Valid()
      ensures old(items) == [] ==> c == null && items == []
      ensures old(items) != [] ==> c == old(items)[0] && items == old(items)[1..]
    {
      c := head;
      if c != null {
        head := c.next;
        if head == null { tail := null; }
        items := items[1..];
      }
    }
  }
}
