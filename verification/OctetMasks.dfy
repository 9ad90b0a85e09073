/** The prefix mask on one octet: the bit operation and the integer it computes. */
module OctetMasks {
  import opened Prelude

  function Pow2(n: nat): (r: nat)
    ensures r > 0
  {
    if n == 0 then 1 else 2 * Pow2(n - 1)
  }

  /** b & (0xFF << k) in eight bits. */
  function Masked(b: byte, k: nat): nat
    requires k < 8
  {
    ((b as bv8) & (0xFF << k)) as nat
  }

  /** The masks spelled out. */
  function MaskOf(k: nat): bv8
    requires 1 <= k < 8
  {
    match k case 1 => 0xFE case 2 => 0xFC case 3 => 0xF8 case 4 => 0xF0 case 5 => 0xE0 case 6 => 0xC0 case 7 => 0x80
  }

  lemma Shifts(k: nat)
    requires 1 <= k < 8
    ensures (0xFF as bv8) << k == MaskOf(k)
  {
  }

  lemma Powers(k: nat)
    requires 1 <= k < 8
    ensures Pow2(k) == match k case 1 => 2 case 2 => 4 case 3 => 8 case 4 => 16 case 5 => 32 case 6 => 64 case 7 => 128
  {
    assert Pow2(3) == 8;
    assert Pow2(5) == 32;
  }

  lemma Mask1(x: bv8)
    ensures (x & 0xFE) as int == x as int / 2 * 2
  {
  }

  lemma Mask2(x: bv8)
    ensures (x & 0xFC) as int == x as int / 4 * 4
  {
  }

  lemma Mask3(x: bv8)
    ensures (x & 0xF8) as int == x as int / 8 * 8
  {
  }

  lemma Mask4(x: bv8)
    ensures (x & 0xF0) as int == x as int / 16 * 16
  {
  }

  lemma Mask5(x: bv8)
    ensures (x & 0xE0) as int == x as int / 32 * 32
  {
  }

  lemma Mask6(x: bv8)
    ensures (x & 0xC0) as int == x as int / 64 * 64
  {
  }

  lemma Mask7(x: bv8)
    ensures (x & 0x80) as int == x as int / 128 * 128
  {
  }

  lemma MaskRounds(x: bv8, k: nat)
    requires 1 <= k < 8
    ensures (x & MaskOf(k)) as int == x as int / Pow2(k) * Pow2(k)
  {
    Powers(k);
    match k {
      case 1 => Mask1(x);
      case 2 => Mask2(x);
      case 3 => Mask3(x);
      case 4 => Mask4(x);
      case 5 => Mask5(x);
      case 6 => Mask6(x);
      case 7 => Mask7(x);
    }
  }

  lemma NextOctet(x: bv8)
    requires x != 0xFF
    ensures (x + 1) as int == x as int + 1
  {
  }

  lemma OctetOf(b: byte, x: bv8)
    requires x as int == b
    ensures b as bv8 == x
  {
  }

  lemma {:induction false} SameOctet(b: byte)
    ensures (b as bv8) as int == b
  {
    if b == 0 {
      assert (0 as bv8) as int == 0;
    } else {
      var x := (b - 1) as bv8;
      SameOctet(b - 1);
      NextOctet(x);
      OctetOf(b, x + 1);
    }
  }

  /** Masking an octet rounds it down to a multiple of 2^k. */
  lemma MaskClearsLowBits(b: byte, k: nat)
    requires 1 <= k < 8
    ensures Masked(b, k) == b as nat / Pow2(k) * Pow2(k)
  {
    SameOctet(b);
    Shifts(k);
    MaskRounds(b as bv8, k);
  }
}
