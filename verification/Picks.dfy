/** Round-robin picking: a shared counter, tried once per slot. */
module Picks {
  import opened Prelude
  import opened Division

  /** Position p of the endless round over the slots is at a pickable slot. */
  predicate Hit(slots: seq<bool>, p: nat)
    requires slots != []
  {
    slots[p % |slots|]
  }

  ghost predicate AnyPickable(slots: seq<bool>) {
    exists i :: 0 <= i < |slots| && slots[i]
  }

  /** The loop of PickConnectionWithId: a pick succeeds whenever some slot is pickable, and takes the first pickable
      position from the counter on. */
  method Pick(slots: seq<bool>, counter: nat) returns (picked: Option<nat>, counter': nat)
    ensures picked.Some? <==> AnyPickable(slots)
    ensures slots == [] ==> counter' == counter
    ensures picked.Some? ==> counter < counter' && picked.value == (counter' - 1) % |slots| && Hit(slots, counter' - 1)
    ensures picked.Some? ==> forall p :: counter <= p < counter' - 1 ==> !Hit(slots, p)
  {
    counter' := counter;
    if slots == [] {
      return None, counter';
    }
    for attempt := 0 to |slots|
      invariant counter' == counter + attempt
      invariant forall p :: counter <= p < counter' ==> !Hit(slots, p)
    {
      var index := counter' % |slots|;
      counter' := counter' + 1;
      if slots[index] {
        return Some(index), counter';
      }
    }
    RoundHitsAll(slots, counter);
    return None, counter';
  }

  lemma RoundHitsAll(slots: seq<bool>, c: nat)
    requires slots != []
    ensures (forall p :: c <= p < c + |slots| ==> !Hit(slots, p)) ==> !AnyPickable(slots)
  {
    if AnyPickable(slots) {
      var i :| 0 <= i < |slots| && slots[i];
      var p := PositionOf(slots, c, i);
      assert Hit(slots, p);
    }
  }

  /** In every round of n positions each slot comes up. */
  lemma PositionOf(slots: seq<bool>, c: nat, i: nat) returns (p: nat)
    requires i < |slots|
    ensures c <= p < c + |slots| && p % |slots| == i
  {
    var n := |slots|;
    var r := c % n;
    p := if i >= r then c + (i - r) else c + (i + n - r);
    Residue(c, n, r, i);
  }

  lemma Residue(c: nat, n: nat, r: nat, i: nat)
    requires n > 0 && r == c % n && i < n
    ensures (if i >= r then c + (i - r) else c + (i + n - r)) % n == i
  {
    var q := c / n;
    assert c == q * n + r;
    if i >= r {
      Divides(c + (i - r), n, q, i);
    } else {
      assert (q + 1) * n == q * n + n;
      Divides(c + (i + n - r), n, q + 1, i);
    }
  }

  // --- k picks over k pickable slots ---------------------------------------------------------------------------------

  function Pickable(slots: seq<bool>): nat {
    if slots == [] then 0 else Pickable(slots[1..]) + if slots[0] then 1 else 0
  }

  /** How many positions in [a, b) are hits. */
  function Hits(slots: seq<bool>, a: nat, b: nat): nat
    requires slots != []
    decreases if a < b then b - a else 0
  {
    if a >= b then 0 else (if Hit(slots, a) then 1 else 0) + Hits(slots, a + 1, b)
  }

  lemma {:induction false} HitsSplit(slots: seq<bool>, a: nat, b: nat, c: nat)
    requires slots != [] && a <= b <= c
    ensures Hits(slots, a, c) == Hits(slots, a, b) + Hits(slots, b, c)
    decreases b - a
  {
    if a >= b {
    } else {
      HitsSplit(slots, a + 1, b, c);
    }
  }

  lemma {:induction false} HitsShift(slots: seq<bool>, c: nat)
    requires slots != []
    ensures Hits(slots, c, c + |slots|) == Hits(slots, 0, |slots|)
  {
    if c == 0 {
    } else {
      var n := |slots|;
      HitsShift(slots, c - 1);
      HitsSplit(slots, c - 1, c, c - 1 + n);
      HitsSplit(slots, c, c - 1 + n, c + n);
      SameSlot(c - 1, n);
    }
  }

  lemma SameSlot(p: nat, n: nat)
    requires n > 0
    ensures (p + n) % n == p % n
  {
    assert (p / n + 1) * n == p / n * n + n;
    Divides(p + n, n, p / n + 1, p % n);
  }

  lemma {:induction false} HitsOfRound(slots: seq<bool>, i: nat)
    requires slots != [] && i <= |slots|
    ensures Hits(slots, i, |slots|) == Pickable(slots[i..])
    decreases |slots| - i
  {
    if i >= |slots| {
    } else {
      HitsOfRound(slots, i + 1);
      assert slots[i..][1..] == slots[i + 1..];
      Divides(i, |slots|, 0, i);
    }
  }

  /** The counters of consecutive picks: each pick is the first hit from the counter before it. */
  ghost predicate ArePicks(slots: seq<bool>, cs: seq<nat>)
    requires slots != []
  {
    cs != [] &&
    forall j {:trigger IsPick(slots, cs, j)} :: 0 <= j < |cs| - 1 ==> IsPick(slots, cs, j)
  }

  ghost predicate IsPick(slots: seq<bool>, cs: seq<nat>, j: nat)
    requires slots != [] && j + 1 < |cs|
  {
    && cs[j] < cs[j + 1] && Hit(slots, cs[j + 1] - 1)
    && forall p :: cs[j] <= p < cs[j + 1] - 1 ==> !Hit(slots, p)
  }

  lemma {:induction false} NoHits(slots: seq<bool>, a: nat, b: nat)
    requires slots != [] && forall p :: a <= p < b ==> !Hit(slots, p)
    ensures Hits(slots, a, b) == 0
    decreases if a < b then b - a else 0
  {
    if a >= b {
    } else {
      NoHits(slots, a + 1, b);
    }
  }

  lemma {:induction false} SomeHit(slots: seq<bool>, a: nat, b: nat) returns (p: nat)
    requires slots != [] && Hits(slots, a, b) > 0
    ensures a <= p < b && Hit(slots, p)
    decreases if a < b then b - a else 0
  {
    if Hit(slots, a) { p := a; } else { p := SomeHit(slots, a + 1, b); }
  }

  /** After j picks, j of the hits of the first round are used. */
  lemma {:induction false} PicksUseHits(slots: seq<bool>, cs: seq<nat>, j: nat)
    requires slots != [] && ArePicks(slots, cs) && j < |cs| && j <= Pickable(slots)
    ensures cs[0] <= cs[j] <= cs[0] + |slots| && Hits(slots, cs[j], cs[0] + |slots|) == Pickable(slots) - j
    decreases j
  {
    var end := cs[0] + |slots|;
    if j == 0 {
      HitsShift(slots, cs[0]);
      HitsOfRound(slots, 0);
      assert slots[0..] == slots;
    } else {
      PicksUseHits(slots, cs, j - 1);
      assert IsPick(slots, cs, j - 1);
      var a, b := cs[j - 1], cs[j];
      var p := SomeHit(slots, a, end);
      NoHits(slots, a, b - 1);
      HitsSplit(slots, a, b - 1, end);
      HitsSplit(slots, b - 1, b, end);
    }
  }

  /** k consecutive picks over k pickable slots hit each of them exactly once. */
  lemma PicksAreFair(slots: seq<bool>, cs: seq<nat>, i: nat) returns (j: nat)
    requires slots != [] && ArePicks(slots, cs) && |cs| == Pickable(slots) + 1 && i < |slots| && slots[i]
    ensures IsTurn(slots, cs, i, j)
    ensures forall k :: IsTurn(slots, cs, i, k) ==> k == j
  {
    var p := PositionOf(slots, cs[0], i);
    UsedUp(slots, cs, p);
    j := TurnOf(slots, cs, p, Pickable(slots));
    forall k | IsTurn(slots, cs, i, k) ensures k == j { OneTurn(slots, cs, i, j, k); }
  }

  lemma UsedUp(slots: seq<bool>, cs: seq<nat>, p: nat)
    requires slots != [] && ArePicks(slots, cs) && |cs| == Pickable(slots) + 1
    requires cs[0] <= p < cs[0] + |slots| && Hit(slots, p)
    ensures p < cs[Pickable(slots)]
  {
    var c := cs[Pickable(slots)];
    PicksUseHits(slots, cs, Pickable(slots));
    if c <= p {
      HitsSplit(slots, c, p, cs[0] + |slots|);
    }
  }

  /** Pick j takes slot i. */
  ghost predicate IsTurn(slots: seq<bool>, cs: seq<nat>, i: nat, j: nat)
    requires slots != []
  {
    j + 1 < |cs| && cs[j + 1] > 0 && (cs[j + 1] - 1) % |slots| == i
  }

  lemma {:induction false} TurnOf(slots: seq<bool>, cs: seq<nat>, p: nat, k: nat) returns (j: nat)
    requires slots != [] && ArePicks(slots, cs) && k < |cs| && cs[0] <= p < cs[k] && Hit(slots, p)
    ensures j < k && cs[j + 1] == p + 1
    decreases k
  {
    assert IsPick(slots, cs, k - 1);
    if p < cs[k - 1] { j := TurnOf(slots, cs, p, k - 1); } else { j := k - 1; }
  }

  lemma {:induction false} CountersGrow(slots: seq<bool>, cs: seq<nat>, j: nat, k: nat)
    requires slots != [] && ArePicks(slots, cs) && j < k < |cs|
    ensures cs[j] < cs[k]
    decreases k
  {
    assert IsPick(slots, cs, k - 1);
    if j < k - 1 { CountersGrow(slots, cs, j, k - 1); }
  }

  lemma OneTurn(slots: seq<bool>, cs: seq<nat>, i: nat, j: nat, k: nat)
    requires slots != [] && ArePicks(slots, cs) && |cs| == Pickable(slots) + 1
    requires IsTurn(slots, cs, i, j) && IsTurn(slots, cs, i, k)
    ensures j == k
  {
    if j < k {
      TurnsAreClose(slots, cs, j, k);
      FarApart(cs[j + 1] - 1, cs[k + 1] - 1, |slots|);
    } else if k < j {
      TurnsAreClose(slots, cs, k, j);
      FarApart(cs[k + 1] - 1, cs[j + 1] - 1, |slots|);
    }
  }

  lemma TurnsAreClose(slots: seq<bool>, cs: seq<nat>, j: nat, k: nat)
    requires slots != [] && ArePicks(slots, cs) && |cs| == Pickable(slots) + 1 && j < k && k + 1 < |cs|
    ensures cs[0] < cs[j + 1] < cs[k + 1] <= cs[0] + |slots|
  {
    PicksUseHits(slots, cs, k + 1);
    CountersGrow(slots, cs, 0, j + 1);
    CountersGrow(slots, cs, j + 1, k + 1);
  }

  lemma FarApart(p: nat, q: nat, n: nat)
    requires n > 0 && p < q && p % n == q % n
    ensures q >= p + n
  {
    assert p == p / n * n + p % n && q == q / n * n + q % n;
    if p / n >= q / n { AtMost(q / n, p / n, n); } else { AtMost(p / n + 1, q / n, n); }
    assert (p / n + 1) * n == p / n * n + n;
  }
}
