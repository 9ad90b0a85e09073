/**
 Terminal shutdown of accepted server connections: over any history of registrations,
 removals and requests, a registered connection is shut down at most once.
 */
module ServerTerminal {
  datatype Record = Record(numericId: nat, generation: nat, owned: bool, closing: bool, reserved: bool)

  datatype Table = Table(records: map<nat, Record>, nextId: nat)

  datatype Event =
    | Register(handle: nat, owned: bool)
    | Unregister(handle: nat)
    | Request(controller: nat, numericId: nat, generation: nat)

  /** The registry's rows never share a numeric id. */
  ghost predicate Distinct(t: Table) {
    (forall h :: h in t.records ==> t.records[h].numericId < t.nextId) &&
    (forall h, k :: h in t.records && k in t.records && h != k ==> t.records[h].numericId != t.records[k].numericId)
  }

  /** The row a controller made for `controller` acts on may be reserved now. */
  predicate Reservable(r: Record, numericId: nat, generation: nat) {
    r.generation == generation && r.numericId == numericId && !r.reserved && !r.closing
  }

  predicate HasRow(t: Table, controller: nat) {
    exists h | h in t.records :: t.records[h].numericId == controller
  }

  function Row(t: Table, controller: nat): nat
    requires Distinct(t) && HasRow(t, controller)
  {
    RowIsUnique(t, controller);
    var h :| h in t.records && t.records[h].numericId == controller;
    h
  }

  lemma RowIsUnique(t: Table, controller: nat)
    requires Distinct(t)
    ensures forall h, k | h in t.records && k in t.records ::
              t.records[h].numericId == controller && t.records[k].numericId == controller ==> h == k
  {
  }

  ghost predicate Granted(t: Table, e: Event) {
    e.Request? && Distinct(t) && HasRow(t, e.controller) &&
    Reservable(t.records[Row(t, e.controller)], e.numericId, e.generation)
  }

  ghost function Apply(t: Table, e: Event): Table
    requires Distinct(t)
  {
    match e
    case Register(handle, owned) =>
      if handle == 0 then t
      else Table(t.records[handle := Record(t.nextId, 1, owned, false, false)], t.nextId + 1)
    case Unregister(handle) => t.(records := t.records - {handle})
    case Request(controller, _, _) =>
      if Granted(t, e) then
        var h := Row(t, controller);
        t.(records := t.records[h := t.records[h].(reserved := true, closing := true)])
      else t
  }

  lemma ApplyKeepsDistinct(t: Table, e: Event)
    requires Distinct(t)
    ensures Distinct(Apply(t, e))
  {
  }

  ghost predicate IsHistory(ts: seq<Table>, es: seq<Event>) {
    |ts| == |es| + 1 && ts[0] == Table(map[], 1) &&
    forall i {:trigger es[i]} :: 0 <= i < |es| ==> Distinct(ts[i]) && ts[i + 1] == Apply(ts[i], es[i])
  }

  /** Connection `id` was registered before and is not open to another shutdown. */
  ghost predicate Spent(t: Table, id: nat) {
    id < t.nextId && forall h :: h in t.records && t.records[h].numericId == id ==> t.records[h].reserved
  }

  lemma ApplyKeepsSpent(t: Table, e: Event, id: nat)
    requires Distinct(t) && Spent(t, id)
    ensures Spent(Apply(t, e), id)
  {
  }

  lemma {:induction false} SpentPersists(ts: seq<Table>, es: seq<Event>, m: nat, n: nat, id: nat)
    requires IsHistory(ts, es) && m <= n < |ts| && Spent(ts[m], id)
    ensures Spent(ts[n], id)
  {
    if m >= n {
    } else {
      SpentPersists(ts, es, m, n - 1, id);
      assert ts[n] == Apply(ts[n - 1], es[n - 1]);
      ApplyKeepsSpent(ts[n - 1], es[n - 1], id);
    }
  }

  /** No connection is granted a terminal shutdown twice. */
  lemma ServerGrantedOnce(ts: seq<Table>, es: seq<Event>, a: nat, b: nat)
    requires IsHistory(ts, es) && a < b < |es| && Granted(ts[a], es[a]) && Granted(ts[b], es[b])
    ensures es[a].controller != es[b].controller
  {
    var id := es[a].controller;
    assert ts[a + 1] == Apply(ts[a], es[a]);
    assert Spent(ts[a + 1], id);
    SpentPersists(ts, es, a + 1, b, id);
  }

  /** A request changes nothing unless its identity is exactly that of its controller's row. */
  lemma MismatchChangesNothing(t: Table, e: Event)
    requires Distinct(t) && e.Request?
    ensures Apply(t, e) != t ==>
              exists h :: h in t.records && t.records[h].numericId == e.controller == e.numericId &&
                t.records[h].generation == e.generation
  {
  }

  /** The registry in place. */
  class ServerConnections {
    var records: map<nat, Record>
    var nextId: nat

    function View(): Table
      reads this
    {
      Table(records, nextId)
    }

    constructor ()
      ensures View() == Table(map[], 1) && Distinct(View())
    {
      records, nextId := map[], 1;
    }

    method RegisterConnection(handle: nat, owned: bool)
      requires Distinct(View())
      modifies this
      ensures View() == Apply(old(View()), Register(handle, owned)) && Distinct(View())
    {
      if handle == 0 { return; }
      var id := nextId;
      nextId := nextId + 1;
      records := records[handle := Record(id, 1, owned, false, false)];
    }

    method UnregisterConnection(handle: nat)
      requires Distinct(View())
      modifies this
      ensures View() == Apply(old(View()), Unregister(handle)) && Distinct(View())
    {
      records := records - {handle};
    }

    /** Walks the registry in any order; `shutdown` tells whether the connection was shut down. */
    method RequestShutdown(controller: nat, numericId: nat, generation: nat) returns (shutdown: bool)
      requires Distinct(View())
      modifies this
      ensures View() == Apply(old(View()), Request(controller, numericId, generation)) && Distinct(View())
      ensures shutdown == (Granted(old(View()), Request(controller, numericId, generation)) &&
              old(records)[Row(old(View()), controller)].owned)
    {
      ghost var e := Request(controller, numericId, generation);
      RowIsUnique(View(), controller);
      var todo := records.Keys;
      while todo != {}
        invariant todo <= records.Keys && View() == old(View())
        invariant forall h :: h in records && h !in todo ==> records[h].numericId != controller
      {
        var h :| h in todo;
        if records[h].numericId == controller {
          assert h == Row(View(), controller);
          if records[h].generation != generation || records[h].numericId != numericId { return false; }
          if records[h].reserved { return false; }
          if records[h].closing { return false; }
          shutdown := records[h].owned;
          records := records[h := records[h].(reserved := true)];
          records := records[h := records[h].(closing := true)];
          ApplyKeepsDistinct(old(View()), e);
          return;
        }
        todo := todo - {h};
      }
      shutdown := false;
    }
  }
}
