/**
 The slot layout of a client session: what the configuration check promises the slot builder, and that growing
 and shrinking keep the slot paths equal to a fresh build.
 */
module SlotLayout {
  import opened Prelude
  import opened Bytes
  import opened Endpoints
  import opened EndpointText
  import opened LocalAddresses
  import opened PeerLists

  datatype Path = Path(name: bytes, local: bytes, peer: bytes, connections: nat)

  datatype Config = Config(paths: seq<Path>, connections: nat, quicPeer: bytes)

  /** Where a slot connects from and to; text is the peer as it is shown. */
  datatype SlotPath = SlotPath(name: bytes, local: bytes, endpoint: Endpoint, text: bytes)

  const MAX_SLOTS := 128
  const DEFAULT: bytes := [100, 101, 102, 97, 117, 108, 116]

  // --- validation ----------------------------------------------------------------------------------------------------

  function TotalConnections(paths: seq<Path>): nat {
    if paths == [] then 0 else TotalConnections(paths[..|paths| - 1]) + paths[|paths| - 1].connections
  }

  predicate PathOk(p: Path) {
    p.name != [] && DottedQuad(p.local) && ParseEndpoint(p.peer).Some? && p.connections >= 1
  }

  predicate EachOk(paths: seq<Path>) {
    forall i :: 0 <= i < |paths| ==> PathOk(paths[i])
  }

  predicate DistinctNames(paths: seq<Path>) {
    forall i, j :: 0 <= i < j < |paths| ==> paths[i].name != paths[j].name
  }

  predicate PathsOk(paths: seq<Path>) {
    EachOk(paths) && DistinctNames(paths) && TotalConnections(paths) <= MAX_SLOTS
  }

  lemma {:induction false} TotalGrows(paths: seq<Path>, n: nat)
    requires n <= |paths|
    ensures TotalConnections(paths[..n]) <= TotalConnections(paths)
    decreases |paths| - n
  {
    if n < |paths| {
      assert paths[..n + 1][..n] == paths[..n];
      TotalGrows(paths, n + 1);
    } else {
      assert paths[..n] == paths;
    }
  }

  ghost predicate NamesOf(names: set<bytes>, paths: seq<Path>) {
    (forall i :: 0 <= i < |paths| ==> paths[i].name in names) &&
    forall name :: name in names ==> exists i :: 0 <= i < |paths| && paths[i].name == name
  }

  /** One path more is fine exactly when it is fine itself, has a new name and leaves the total in range. */
  lemma OneMorePath(front: seq<Path>, path: Path, names: set<bytes>)
    requires PathsOk(front) && NamesOf(names, front)
    ensures PathsOk(front + [path]) <==>
            PathOk(path) && path.name !in names && TotalConnections(front) + path.connections <= MAX_SLOTS
    ensures NamesOf(names + {path.name}, front + [path])
    ensures TotalConnections(front + [path]) == TotalConnections(front) + path.connections
  {
    var all, n := front + [path], |front|;
    assert all[..n] == front && all[n] == path;
    OneMoreName(front, path, names);
    OneMoreOk(front, path);
  }

  lemma OneMoreOk(front: seq<Path>, path: Path)
    ensures EachOk(front + [path]) <==> EachOk(front) && PathOk(path)
  {
    var all, n := front + [path], |front|;
    assert all[n] == path && forall i :: 0 <= i < n ==> all[i] == front[i];
  }

  lemma OneMoreName(front: seq<Path>, path: Path, names: set<bytes>)
    requires DistinctNames(front) && NamesOf(names, front)
    ensures DistinctNames(front + [path]) <==> path.name !in names
    ensures NamesOf(names + {path.name}, front + [path])
  {
    var all, n := front + [path], |front|;
    assert all[n] == path && forall i :: 0 <= i < n ==> all[i] == front[i];
    if path.name in names {
      var i :| 0 <= i < n && front[i].name == path.name;
      assert all[i].name == all[n].name;
    }
    forall name | name in names + {path.name} ensures exists i :: 0 <= i < |all| && all[i].name == name {
      if name in names {
        var i :| 0 <= i < n && front[i].name == name;
        assert all[i].name == name;
      }
    }
  }

  lemma PrefixOk(paths: seq<Path>, n: nat)
    requires n <= |paths| && PathsOk(paths)
    ensures PathsOk(paths[..n])
  {
    TotalGrows(paths, n);
  }

  lemma NextPath(paths: seq<Path>, i: nat, path: Path, names: set<bytes>, total: nat)
    requires i < |paths| && path == paths[i]
    requires PathsOk(paths[..i]) && total == TotalConnections(paths[..i]) && NamesOf(names, paths[..i])
    ensures if PathOk(path) && path.name !in names && total + path.connections <= MAX_SLOTS then
              && PathsOk(paths[..i + 1]) && total + path.connections == TotalConnections(paths[..i + 1])
              && NamesOf(names + {path.name}, paths[..i + 1])
            else !PathsOk(paths)
  {
    assert paths[..i + 1] == paths[..i] + [path];
    OneMorePath(paths[..i], path, names);
    if PathsOk(paths) { PrefixOk(paths, i + 1); }
  }

  /** The path part of TqValidateRouterConfig. */
  method ValidatePaths(paths: seq<Path>) returns (ok: bool)
    ensures ok == PathsOk(paths)
  {
    var names: set<bytes> := {};
    var total := 0;
    for i := 0 to |paths|
      invariant PathsOk(paths[..i]) && total == TotalConnections(paths[..i]) && NamesOf(names, paths[..i])
    {
      var path := paths[i];
      NextPath(paths, i, path, names, total);
      if path.name == [] || path.name in names {
        return false;
      }
      var local := IsLocalAddress(path.local);
      var hostPort := IsHostPort(path.peer);
      if !local || !hostPort {
        return false;
      }
      if path.connections == 0 || path.connections > MAX_SLOTS || total > MAX_SLOTS - path.connections {
        return false;
      }
      names := names + {path.name};
      total := total + path.connections;
    }
    assert paths[..|paths|] == paths;
    ok := true;
  }

  // --- the builder ---------------------------------------------------------------------------------------------------

  function Copies(p: SlotPath, n: nat): (r: seq<SlotPath>)
    ensures |r| == n
  {
    if n == 0 then [] else Copies(p, n - 1) + [p]
  }

  function SlotOf(name: bytes, local: bytes, endpoint: Endpoint): SlotPath {
    SlotPath(name, local, endpoint, Format(endpoint))
  }

  function PathSlots(paths: seq<Path>): Option<seq<SlotPath>> {
    if paths == [] then Some([])
    else
      var last := paths[|paths| - 1];
      var front := PathSlots(paths[..|paths| - 1]);
      var endpoint := ParseEndpoint(last.peer);
      if front.None? || last.connections == 0 || endpoint.None? then None
      else Some(front.value + Copies(SlotOf(last.name, last.local, endpoint.value), last.connections))
  }

  /** Slot i of a peer list goes to peer i modulo their number. */
  function PeerSlots(peers: seq<Endpoint>, n: nat): (r: seq<SlotPath>)
    requires peers != []
    ensures |r| == n
  {
    seq(n, i requires 0 <= i < n => SlotOf(DEFAULT, [], peers[i % |peers|]))
  }

  function Build(c: Config): Option<seq<SlotPath>> {
    if c.paths != [] then PathSlots(c.paths)
    else if c.connections == 0 || Peers(c.quicPeer).None? || Peers(c.quicPeer).value == [] then None
    else Some(PeerSlots(Peers(c.quicPeer).value, c.connections))
  }

  lemma {:induction false} PathSlotsFail(paths: seq<Path>, n: nat)
    requires n <= |paths| && PathSlots(paths[..n]).None?
    ensures PathSlots(paths).None?
    decreases |paths| - n
  {
    if n < |paths| {
      assert paths[..n + 1][..n] == paths[..n];
      PathSlotsFail(paths, n + 1);
    } else {
      assert paths[..n] == paths;
    }
  }

  /** TqBuildClientSlotPaths. */
  method BuildClientSlotPaths(c: Config) returns (slots: Option<seq<SlotPath>>)
    ensures slots == Build(c)
  {
    if c.paths != [] {
      slots := BuildPathSlots(c.paths);
      return;
    }
    if c.connections == 0 {
      return None;
    }
    var peers := ParseEndpointList(c.quicPeer);
    if peers.None? || peers.value == [] {
      return None;
    }
    var expanded := BuildPeerSlots(peers.value, c.connections);
    slots := Some(expanded);
  }

  method BuildPeerSlots(peers: seq<Endpoint>, n: nat) returns (expanded: seq<SlotPath>)
    requires peers != []
    ensures expanded == PeerSlots(peers, n)
  {
    expanded := [];
    for i := 0 to n
      invariant expanded == PeerSlots(peers, i)
    {
      expanded := expanded + [SlotPath(DEFAULT, [], peers[i % |peers|], Format(peers[i % |peers|]))];
    }
  }

  method BuildPathSlots(paths: seq<Path>) returns (slots: Option<seq<SlotPath>>)
    requires paths != []
    ensures slots == PathSlots(paths)
  {
    var expanded: seq<SlotPath> := [];
    for i := 0 to |paths|
      invariant PathSlots(paths[..i]) == Some(expanded)
    {
      var path := paths[i];
      assert paths[..i + 1][..i] == paths[..i];
      var endpoint := ParseEndpoint(path.peer);
      if path.connections == 0 || endpoint.None? {
        PathSlotsFail(paths, i + 1);
        return None;
      }
      ghost var before := expanded;
      var slot := SlotPath(path.name, path.local, endpoint.value, Format(endpoint.value));
      for k := 0 to path.connections
        invariant expanded == before + Copies(slot, k)
      {
        expanded := expanded + [slot];
      }
    }
    assert paths[..|paths|] == paths;
    slots := Some(expanded);
  }

  lemma {:induction false} PathSlotsCount(paths: seq<Path>)
    requires EachOk(paths)
    ensures PathSlots(paths).Some? && |PathSlots(paths).value| == TotalConnections(paths) >= |paths|
  {
    if paths == [] {
    } else {
      PathSlotsCount(paths[..|paths| - 1]);
    }
  }

  /** Every validated path-mode peer builds to between 1 and 128 slots. */
  lemma ValidatedPathsBuild(c: Config)
    requires c.paths != [] && PathsOk(c.paths)
    ensures Build(c).Some? && 1 <= |Build(c).value| <= MAX_SLOTS
  {
    PathSlotsCount(c.paths);
  }

  /** A peer list that passes the check builds one slot for each connection if and only if it has no blank item. */
  lemma AcceptedListBuilds(c: Config)
    requires c.paths == [] && c.connections > 0 && Accepted(c.quicPeer)
    ensures Build(c).Some? <==> NoBlankItem(Items(c.quicPeer, 0))
    ensures Build(c).Some? ==> |Build(c).value| == c.connections
  {
    ListsAgree(c.quicPeer);
  }

  // --- growing and shrinking -----------------------------------------------------------------------------------------

  /** Shortening a peer layout is building a shorter one. */
  lemma PeerSlotsPrefix(peers: seq<Endpoint>, m: nat, n: nat)
    requires peers != [] && m <= n
    ensures PeerSlots(peers, n)[..m] == PeerSlots(peers, m)
  {
  }

  datatype Layout = Layout(config: Config, paths: seq<SlotPath>, slots: nat, running: bool)

  /** SetDesiredConnectionCount and StopHighestConnection, as far as the layout goes; Halt is Stop. */
  datatype Change = Grow(desired: nat) | Shrink(index: nat) | Halt

  predicate MayGrow(l: Layout, desired: nat) {
    desired != 0 && l.config.paths == [] && l.running && desired >= l.slots &&
      Build(l.config.(connections := desired)).Some?
  }

  predicate MayShrink(l: Layout, index: nat) {
    l.config.paths == [] && l.running && l.slots != 0 && index == l.slots - 1
  }

  function Changed(l: Layout, ch: Change): Layout {
    match ch
    case Grow(desired) =>
      if MayGrow(l, desired)
      then Layout(l.config.(connections := desired), Build(l.config.(connections := desired)).value, desired, l.running)
      else l
    case Shrink(index) =>
      if MayShrink(l, index)
      then
        var paths := if |l.paths| > index then l.paths[..index] else l.paths;
        Layout(l.config.(connections := index), paths, index, l.running)
      else l
    case Halt => l.(running := false)
  }

  function AllChanged(l: Layout, changes: seq<Change>): Layout {
    if changes == [] then l else Changed(AllChanged(l, changes[..|changes| - 1]), changes[|changes| - 1])
  }

  /** With a slot left, the paths are a fresh build, one for each slot; with none, there are no paths. */
  predicate InStep(l: Layout) {
    if l.slots == 0 then l.paths == [] && l.config.paths == []
    else Build(l.config) == Some(l.paths) && (l.config.paths == [] ==> |l.paths| == l.slots == l.config.connections)
  }

  lemma ChangeKeepsStep(l: Layout, ch: Change)
    requires InStep(l)
    ensures InStep(Changed(l, ch))
  {
    if ch.Shrink? && MayShrink(l, ch.index) {
      PeerSlotsPrefix(Peers(l.config.quicPeer).value, ch.index, l.slots);
    }
  }

  /** After any sequence of changes that leaves a slot, the slot paths equal a fresh build from the configuration. */
  lemma {:induction false} LayoutStaysInStep(l: Layout, changes: seq<Change>)
    requires Build(l.config) == Some(l.paths) && l.slots == |l.paths|
    requires l.config.paths != [] ==> PathsOk(l.config.paths)
    ensures InStep(AllChanged(l, changes))
  {
    if changes == [] {
      if l.config.paths != [] { ValidatedPathsBuild(l.config); }
    } else {
      LayoutStaysInStep(l, changes[..|changes| - 1]);
      ChangeKeepsStep(AllChanged(l, changes[..|changes| - 1]), changes[|changes| - 1]);
    }
  }

  class SlotPaths {
    var config: Config
    var paths: seq<SlotPath>
    var slots: nat
    var running: bool

    ghost function View(): Layout
      reads this
    {
      Layout(config, paths, slots, running)
    }

    /** Start: build the paths and run. */
    constructor (config: Config, paths: seq<SlotPath>)
      requires Build(config) == Some(paths)
      ensures View() == Layout(config, paths, |paths|, true)
    {
      this.config, this.paths, slots, running := config, paths, |paths|, true;
    }

    method SetDesiredConnectionCount(desired: nat) returns (ok: bool)
      modifies this
      ensures ok == MayGrow(old(View()), desired) && View() == Changed(old(View()), Grow(desired))
    {
      if desired == 0 || config.paths != [] || !running || desired < slots {
        return false;
      }
      var updated := config.(connections := desired);
      var updatedPaths := BuildClientSlotPaths(updated);
      if updatedPaths.None? {
        return false;
      }
      config, paths, slots := updated, updatedPaths.value, desired;
      return true;
    }

    method StopHighestConnection(index: nat) returns (ok: bool)
      modifies this
      ensures ok == MayShrink(old(View()), index) && View() == Changed(old(View()), Shrink(index))
    {
      if config.paths != [] || !running || slots == 0 || index != slots - 1 {
        return false;
      }
      slots := slots - 1;
      config := config.(connections := slots);
      if |paths| > slots {
        paths := paths[..slots];
      }
      return true;
    }
  }
}
