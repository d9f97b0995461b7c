/**
 The 64-bit words a block bitmap is packed into: single bits, masks and the
 count of trailing zeros. Facts about words are proved on bit-vectors and then
 restated for shift amounts given as numbers below 64.
 */
module Words {

  const ALL_ONES: bv64 := 0xFFFF_FFFF_FFFF_FFFF

  predicate BitAt(w: bv64, k: bv6) {
    (w >> k) & 1 == 1
  }

  /** Bit `k` of `w`, counted from the least significant one. */
  predicate Bit(w: bv64, k: nat)
    requires k < 64
  {
    BitAt(w, k as bv6)
  }

  lemma RoundTrip(j: nat)
    requires j < 64
    ensures ((j as bv6) as nat) == j
  {}

  lemma Order(a: bv6, b: bv6)
    ensures a <= b <==> (a as nat) <= (b as nat)
  {}

  lemma ShiftOrder(j: nat, k: nat)
    requires j < 64 && k < 64
    ensures (j as bv6) <= (k as bv6) <==> j <= k
    ensures (j as bv6) == (k as bv6) <==> j == k
  {
    RoundTrip(j);
    RoundTrip(k);
    Order(j as bv6, k as bv6);
  }

  lemma SetAt(w: bv64, j: bv6, k: bv6)
    ensures BitAt(w | (1 << j), k) <==> k == j || BitAt(w, k)
  {}

  lemma AndNotAt(w: bv64, m: bv64, k: bv6)
    ensures BitAt(!w & m, k) <==> BitAt(m, k) && !BitAt(w, k)
  {}

  lemma OnesFromAt(j: bv6, k: bv6)
    ensures BitAt(ALL_ONES << j, k) <==> k >= j
  {}

  lemma ZeroHasNoBit(k: nat)
    requires k < 64
    ensures !Bit(0, k)
  {}

  lemma OnesHasEveryBit(k: nat)
    requires k < 64
    ensures Bit(ALL_ONES, k)
  {}

  /** `w` with bit `j` set. */
  function WithBit(w: bv64, j: nat): bv64
    requires j < 64
  {
    w | (1 << (j as bv6))
  }

  lemma SetBit(w: bv64, j: nat, k: nat)
    requires j < 64 && k < 64
    ensures Bit(WithBit(w, j), k) <==> k == j || Bit(w, k)
  {
    ShiftOrder(j, k);
    SetAt(w, j as bv6, k as bv6);
  }

  /** All ones from bit `j` up. */
  function OnesFrom(j: nat): bv64
    requires j < 64
  {
    ALL_ONES << (j as bv6)
  }

  lemma OnesFromBit(j: nat, k: nat)
    requires j < 64 && k < 64
    ensures Bit(OnesFrom(j), k) <==> j <= k
  {
    ShiftOrder(j, k);
    OnesFromAt(j as bv6, k as bv6);
  }

  lemma AndNotBit(w: bv64, m: bv64, k: nat)
    requires k < 64
    ensures Bit(!w & m, k) <==> Bit(m, k) && !Bit(w, k)
  {
    AndNotAt(w, m, k as bv6);
  }

  /** The bits of `w` below `k` are clear. */
  predicate LowClear(w: bv64, k: bv6) {
    w & ((1 << k) - 1) == 0
  }

  lemma LowClearStep(w: bv64, k: bv6)
    requires LowClear(w, k) && !BitAt(w, k) && w != 0
    ensures k != 63 && LowClear(w, k + 1)
  {}

  lemma Recover(k: bv6)
    ensures k as nat < 64 && (k as nat) as bv6 == k
  {}

  lemma LowClearAt(w: bv64, k: bv6, j: bv6)
    requires LowClear(w, k) && j < k
    ensures !BitAt(w, j)
  {}

  lemma LowClearBit(w: bv64, k: bv6, j: nat)
    requires LowClear(w, k) && j < k as nat
    ensures j < 64 && !Bit(w, j)
  {
    Recover(k);
    RoundTrip(j);
    Order(k, j as bv6);
    LowClearAt(w, k, j as bv6);
  }

  /** `__builtin_ctzll`: the index of the lowest set bit. */
  method CountTrailingZeros(w: bv64) returns (k: nat)
    requires w != 0
    ensures k < 64 && Bit(w, k)
    ensures forall j: nat | j < k :: !Bit(w, j)
  {
    var shift := LowestSetBit(w);
    Recover(shift);
    k := shift as nat;
    forall j: nat | j < k ensures !Bit(w, j) {
      LowClearBit(w, shift, j);
    }
  }

  method LowestSetBit(w: bv64) returns (shift: bv6)
    requires w != 0
    ensures LowClear(w, shift) && BitAt(w, shift)
  {
    shift := 0;
    while !BitAt(w, shift)
      invariant LowClear(w, shift)
      decreases 63 - shift
    {
      LowClearStep(w, shift);
      shift := shift + 1;
    }
  }
}
