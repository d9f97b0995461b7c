/**
 The received-block bitmap: a set of block indices packed into 64-bit words,
 with a member count and a lazily advanced cache of the first missing index.
 */
module BlockBitmaps {
  import opened Manifest
  import opened Words
  import opened Runs

  /** Block counts and indices are 32-bit. */
  const LIMIT: nat := 0x1_0000_0000

  /** The largest block count for which stepping over a whole word cannot wrap. */
  const MAX_SCANNED: nat := LIMIT - 64

  /** The largest file a manifest may list. */
  const MAX_FILE_SIZE: nat := PAYLOAD * (LIMIT - 1)

  /** `i += 64` on a 32-bit index. */
  function SkipWord(i: nat): nat {
    (i + 64) % LIMIT
  }

  /** The first index of the following word, as a 32-bit index. */
  function NextWord(i: nat): nat {
    (i / 64 + 1) * 64 % LIMIT
  }

  /** The first index of the word of `i`. */
  function WordBase(i: nat): nat {
    i / 64 * 64
  }

  lemma BaseFacts(i: nat)
    ensures WordBase(i) <= i < WordBase(i) + 64 && i % 64 == i - WordBase(i)
  {}

  lemma NextWordIs(i: nat)
    requires i / 64 * 64 + 64 < LIMIT
    ensures NextWord(i) == i / 64 * 64 + 64
  {
    var q := i / 64;
    assert (q + 1) * 64 == q * 64 + 64;
  }

  /** Scans of `size` blocks only ever move forward exactly up to `MAX_SCANNED` blocks. */
  lemma SkipAdvances(size: nat)
    requires size < LIMIT
    ensures (forall i: nat | i < size && i % 64 == 0 :: i < SkipWord(i)) <==> size <= MAX_SCANNED
  {
    assert MAX_SCANNED % 64 == 0 && SkipWord(MAX_SCANNED) == 0;
  }

  /** The words of a bitmap in which nothing is set. */
  function NoBits(size: nat): seq<bv64> {
    seq((size + 63) / 64, _ => 0)
  }

  /** One iteration of the loops that look for the next set bit. */
  function ScanStep(words: seq<bv64>, i: nat): nat {
    if i % 64 == 0 && i / 64 < |words| && words[i / 64] == 0 then SkipWord(i) else (i + 1) % LIMIT
  }

  /** The index after `k` iterations. */
  function ScanAt(words: seq<bv64>, k: nat): nat {
    if k == 0 then 0 else ScanStep(words, ScanAt(words, k - 1))
  }

  /**
   Above `MAX_SCANNED` blocks the search for a set bit in an empty bitmap never ends:
   after any number of iterations the index is in range and its bit is clear.
   */
  lemma {:induction false} EmptyScanNeverLeaves(size: nat, k: nat)
    requires MAX_SCANNED < size < LIMIT
    ensures var i := ScanAt(NoBits(size), k); i < size && i % 64 == 0 && NoBits(size)[i / 64] == 0
  {
    hide NoBits, SkipWord;
    if k > 0 {
      EmptyScanNeverLeaves(size, k - 1);
      SkipStaysBelow(size, ScanAt(NoBits(size), k - 1));
      NoBitAt(size, ScanAt(NoBits(size), k - 1));
    }
    NoBitAt(size, ScanAt(NoBits(size), k));
  }

  lemma NoBitAt(size: nat, i: nat)
    ensures i < size ==> i / 64 < |NoBits(size)| && NoBits(size)[i / 64] == 0
  {}

  lemma SkipStaysBelow(size: nat, i: nat)
    requires MAX_SCANNED < size < LIMIT && i < size && i % 64 == 0
    ensures SkipWord(i) < size && SkipWord(i) % 64 == 0
  {}

  /** The files that have so many blocks; the largest size a manifest may state is one of them. */
  lemma TooManyBlocks(size: nat)
    ensures BlockCount(size) > MAX_SCANNED <==> size > PAYLOAD * MAX_SCANNED
    ensures BlockCount(MAX_FILE_SIZE) == LIMIT - 1 > MAX_SCANNED
  {}

  /** The words hold exactly the members of `have`. */
  ghost predicate Packed(words: seq<bv64>, have: set<nat>) {
    forall i: nat | i < 64 * |words| :: i in have <==> Bit(words[i / 64], i % 64)
  }

  lemma PackedSet(words: seq<bv64>, have: set<nat>, index: nat)
    requires Packed(words, have) && index < 64 * |words|
    ensures
      var w := WithBit(words[index / 64], index % 64);
      Packed(words[index / 64 := w], have + {index})
  {
    var w := WithBit(words[index / 64], index % 64);
    var after := words[index / 64 := w];
    forall i: nat | i < 64 * |words|
      ensures i in have + {index} <==> Bit(after[i / 64], i % 64)
    {
      hide Bit, WithBit;
      if i / 64 == index / 64 {
        SetBit(words[index / 64], index % 64, i % 64);
        assert i % 64 == index % 64 <==> i == index;
      }
    }
  }

  lemma ZeroWord(words: seq<bv64>, have: set<nat>, i: nat)
    requires Packed(words, have) && i < 64 * |words| && i % 64 == 0 && words[i / 64] == 0
    ensures forall k: nat | i <= k < i + 64 :: k !in have
  {
    forall k: nat | i <= k < i + 64 ensures k !in have {
      ZeroHasNoBit(k % 64);
    }
  }

  lemma OnesWord(words: seq<bv64>, have: set<nat>, i: nat)
    requires Packed(words, have) && i < 64 * |words| && words[i / 64] == ALL_ONES
    ensures forall k: nat | i / 64 * 64 <= k < i / 64 * 64 + 64 :: k in have
  {
    forall k: nat | i / 64 * 64 <= k < i / 64 * 64 + 64 ensures k in have {
      OnesHasEveryBit(k % 64);
    }
  }

  /** The word `AckBase` searches has the indices from `i` on that are missing. */
  lemma MissingInWord(words: seq<bv64>, have: set<nat>, i: nat, masked: bv64, k: nat)
    requires Packed(words, have) && i < 64 * |words|
    requires masked == !words[i / 64] & OnesFrom(i % 64)
    requires k < 64
    ensures Bit(masked, k) <==> i % 64 <= k && i / 64 * 64 + k !in have
  {
    OnesFromBit(i % 64, k);
    AndNotBit(words[i / 64], OnesFrom(i % 64), k);
    assert (i / 64 * 64 + k) / 64 == i / 64 && (i / 64 * 64 + k) % 64 == k;
  }

  /** The least index below `n` that is not in `have`, or `n`. */
  ghost predicate IsAckBase(have: set<nat>, n: nat, a: nat) {
    a <= n && (forall k: nat | k < a :: k in have) && (a == n || a !in have)
  }

  lemma AckBaseFound(have: set<nat>, n: nat, i: nat)
    requires forall k: nat | k < i && k < n :: k in have
    requires i >= n || i !in have
    ensures IsAckBase(have, n, if i > n then n else i)
  {}

  class BlockBitmap {
    var words: seq<bv64>
    var size: nat
    var count: nat
    var ackBase: nat
    ghost var have: set<nat>

    ghost predicate Valid()
      reads this
    {
      && size < LIMIT
      && |words| == (size + 63) / 64
      && Packed(words, have)
      && have <= AllBelow(size)
      && count == |have|
      && ackBase <= size
      && forall k: nat | k < ackBase :: k in have
    }

    constructor (blockCount: nat)
      requires blockCount < LIMIT
      ensures Valid() && size == blockCount && have == {}
    {
      size, count, ackBase, have := blockCount, 0, 0, {};
      words := seq((blockCount + 63) / 64, _ => 0);
      new;
      EmptyPacked(words);
    }

    static lemma EmptyPacked(words: seq<bv64>)
      requires forall j | 0 <= j < |words| :: words[j] == 0
      ensures Packed(words, {})
    {
      forall i: nat | i < 64 * |words| ensures !Bit(words[i / 64], i % 64) {
        ZeroHasNoBit(i % 64);
      }
    }

    method Reset(blockCount: nat)
      requires blockCount < LIMIT
      modifies this
      ensures Valid() && size == blockCount && have == {}
    {
      size, count, ackBase, have := blockCount, 0, 0, {};
      words := seq((blockCount + 63) / 64, _ => 0);
      EmptyPacked(words);
    }

    predicate Test(index: nat)
      requires Valid()
      reads this
      ensures Test(index) <==> index in have
    {
      index < size && Bit(words[index / 64], index % 64)
    }

    predicate Complete()
      requires Valid()
      reads this
      ensures Complete() <==> have == AllBelow(size)
    {
      FullIffSize(have, size);
      count == size
    }

    /** Marks one block; returns whether it was new. Out-of-range indices are ignored. */
    method Set(index: nat) returns (added: bool)
      requires Valid()
      modifies this`words, this`count, this`have
      ensures Valid() && size == old(size) && ackBase == old(ackBase)
      ensures added <==> index < size && index !in old(have)
      ensures have == old(have) + (if index < size then {index} else {})
    {
      hide Packed, WithBit, Bit;
      if index >= size || Test(index) {
        return false;
      }
      PackedSet(words, have, index);
      words := words[index / 64 := WithBit(words[index / 64], index % 64)];
      count := count + 1;
      have := have + {index};
      return true;
    }

    /** The first missing index; equals `size` when complete. */
    method AckBase() returns (a: nat)
      requires Valid()
      modifies this`ackBase
      ensures Valid() && IsAckBase(have, size, a) && ackBase == a
    {
      a := FindAckBase();
      ackBase := a;
    }

    method FindAckBase() returns (i: nat)
      requires Valid()
      ensures IsAckBase(have, size, i)
    {
      CacheIsLowerBound();
      hide *;
      i := ackBase;
      while i < size
        invariant forall k: nat | k < i && k < size :: k in have
        decreases size - i
      {
        var found;
        i, found := SearchWord(i);
        if found { break; }
      }
      AckBaseFound(have, size, i);
      i := if i > size then size else i;
    }

    /** The first missing index at or after `i` in its word, or else the next word. */
    method SearchWord(i: nat) returns (next: nat, found: bool)
      requires Valid() && i < size
      ensures i <= next && forall k: nat | i <= k < next :: k in have
      ensures if found then next !in have else i < next
    {
      WordInRange(i);
      hide *;
      if words[i / 64] == ALL_ONES {
        FullWord(i);
        return NextWord(i), false;
      }
      next, found := SearchMasked(i);
    }

    /** The same, for a word that may have missing bits only below `i`. */
    method SearchMasked(i: nat) returns (next: nat, found: bool)
      requires Valid() && i < size
      ensures i <= next && forall k: nat | i <= k < next :: k in have
      ensures if found then next !in have else i < next
    {
      WordInRange(i);
      hide *;
      var masked := MissingMask(i);
      if masked == 0 {
        NoneMissing(i);
        return NextWord(i), false;
      }
      next := LowestMissing(i, masked);
      found := true;
    }

    /** The lowest bit of a mask that is not empty. */
    method LowestMissing(i: nat, masked: bv64) returns (next: nat)
      requires Valid() && i < size && i / 64 < |words| && masked == MissingMask(i) && masked != 0
      ensures i <= next && next !in have && forall k: nat | i <= k < next :: k in have
    {
      hide *;
      var z := CountTrailingZeros(masked);
      FirstMissing(i, masked, z);
      next := WordBase(i) + z;
    }

    /** The missing bits of the word of `i`, from `i` on. */
    function MissingMask(i: nat): bv64
      requires i / 64 < |words|
      reads this
    {
      !words[i / 64] & OnesFrom(i % 64)
    }

    lemma CacheIsLowerBound()
      requires Valid()
      ensures forall k: nat | k < ackBase :: k in have
    {}

    lemma WordInRange(i: nat)
      requires Valid() && i < size
      ensures i / 64 < |words|
    {}

    lemma FullWord(i: nat)
      requires Valid() && i < size && i / 64 < |words| && words[i / 64] == ALL_ONES
      ensures i < NextWord(i) && forall k: nat | i <= k < NextWord(i) :: k in have
    {
      OnesWord(words, have, i);
      hide Packed;
      FullWordEndsInRange(i);
    }

    lemma FullWordEndsInRange(i: nat)
      requires Valid() && i < size
      requires i / 64 * 64 + 63 in have
      ensures NextWord(i) == i / 64 * 64 + 64
    {
      hide Packed, NextWord;
      assert i / 64 * 64 + 63 in AllBelow(size);
      NextWordIs(i);
    }

    lemma MaskBit(i: nat, k: nat)
      requires Valid() && i / 64 < |words| && k < 64
      ensures Bit(MissingMask(i), k) <==> i <= WordBase(i) + k && WordBase(i) + k !in have
    {
      hide Packed, Bit, OnesFrom;
      MissingInWord(words, have, i, MissingMask(i), k);
      BaseFacts(i);
    }

    lemma NoneMissing(i: nat)
      requires Valid() && i < size && i / 64 < |words|
      requires MissingMask(i) == 0
      ensures i < NextWord(i) && forall k: nat | i <= k < NextWord(i) :: k in have
    {
      hide Bit, Valid, MissingMask, WordBase, NextWord;
      BaseFacts(i);
      var base := WordBase(i);
      forall k: nat | i <= k < base + 64 ensures k in have {
        MaskBit(i, k - base);
        ZeroHasNoBit(k - base);
      }
      FullWordEnds(i);
    }

    lemma FullWordEnds(i: nat)
      requires Valid() && i < size && WordBase(i) + 63 in have
      ensures NextWord(i) == WordBase(i) + 64
    {
      hide Packed;
      FullWordEndsInRange(i);
    }

    lemma FirstMissing(i: nat, masked: bv64, z: nat)
      requires Valid() && i < size && i / 64 < |words| && masked == MissingMask(i)
      requires z < 64 && Bit(masked, z) && forall j: nat | j < z :: !Bit(masked, j)
      ensures i <= WordBase(i) + z && WordBase(i) + z !in have
      ensures forall k: nat | i <= k < WordBase(i) + z :: k in have
    {
      hide Bit, Valid, MissingMask, WordBase;
      BaseFacts(i);
      var base := WordBase(i);
      MaskBit(i, z);
      forall k: nat | i <= k < base + z ensures k in have {
        MaskBit(i, k - base);
        assert !Bit(masked, k - base);
      }
    }

    /** The first `maxRuns` maximal runs of missing blocks at or after `from`. */
    method Holes(from: nat, maxRuns: nat) returns (out: seq<Run>)
      requires Valid() && size <= MAX_SCANNED
      modifies this`ackBase
      ensures Valid()
      ensures out == FirstRuns(AllBelow(size) - have, size, from, maxRuns)
    {
      ghost var missing := AllBelow(size) - have;
      if maxRuns == 0 { return []; }
      var a := AckBase();
      SkipNonMembers(missing, size, from, Max(from, a));
      out := HolesFrom(Max(from, a), maxRuns);
    }

    method HolesFrom(from: nat, maxRuns: nat) returns (out: seq<Run>)
      requires Valid() && size <= MAX_SCANNED
      ensures out == FirstRuns(AllBelow(size) - have, size, from, maxRuns)
    {
      ghost var missing := AllBelow(size) - have;
      out := [];
      var i := from;
      assert Scanned(missing, size, from, i, out);
      hide *;
      while i < size && |out| < maxRuns
        invariant Scanned(missing, size, from, i, out)
        invariant |out| <= maxRuns
        decreases size - i
      {
        var start := SkipSet(i);
        ScanSkip(missing, size, from, i, start, out);
        i := start;
        if start >= size { break; }
        i := SkipClear(start);
        ScanRun(missing, size, from, start, i, out);
        out := out + [Run(start, i - start)];
      }
      ScanDone(missing, size, from, i, out, maxRuns);
    }

    /** The first `maxRuns` maximal runs of received blocks. */
    method HaveRuns(maxRuns: nat) returns (out: seq<Run>)
      requires Valid() && size <= MAX_SCANNED
      ensures out == FirstRuns(have, size, 0, maxRuns)
    {
      out := [];
      var i := 0;
      assert Scanned(have, size, 0, i, out);
      hide *;
      while i < size && |out| < maxRuns
        invariant Scanned(have, size, 0, i, out)
        invariant |out| <= maxRuns
        decreases size - i
      {
        var start := SkipClear(i);
        ScanSkip(have, size, 0, i, start, out);
        i := start;
        if start >= size { break; }
        i := SkipSet(start);
        ScanRun(have, size, 0, start, i, out);
        out := out + [Run(start, i - start)];
      }
      ScanDone(have, size, 0, i, out, maxRuns);
    }

    lemma SkipOnes(i: nat)
      requires Valid() && i < size <= MAX_SCANNED && i / 64 < |words|
      requires i % 64 == 0 && words[i / 64] == ALL_ONES
      ensures i < SkipWord(i) && forall k: nat | i <= k < SkipWord(i) :: k in have
    {
      OnesWord(words, have, i);
    }

    lemma SkipZeros(i: nat)
      requires Valid() && i < size <= MAX_SCANNED && i / 64 < |words|
      requires i % 64 == 0 && words[i / 64] == 0
      ensures i < SkipWord(i) && forall k: nat | i <= k < SkipWord(i) :: k !in have
    {
      ZeroWord(words, have, i);
    }

    /** Steps over received blocks, a whole word at a time where possible. */
    method SkipSet(from: nat) returns (i: nat)
      requires Valid() && size <= MAX_SCANNED && from <= size
      ensures from <= i <= size
      ensures forall k: nat | from <= k < i :: k in have
      ensures i < size ==> i !in have
      ensures from < size && from in have ==> from < i
    {
      hide *;
      i := from;
      while i < size && Test(i)
        invariant from <= i
        invariant forall k: nat | from <= k < i && k < size :: k in have
        decreases size - i
      {
        WordInRange(i);
        if i % 64 == 0 && words[i / 64] == ALL_ONES {
          SkipOnes(i);
          i := SkipWord(i);
        } else {
          i := i + 1;
        }
      }
      if i > size { i := size; }
    }

    /** Steps over missing blocks, a whole word at a time where possible. */
    method SkipClear(from: nat) returns (i: nat)
      requires Valid() && size <= MAX_SCANNED && from <= size
      ensures from <= i <= size
      ensures forall k: nat | from <= k < i :: k !in have
      ensures i < size ==> i in have
      ensures from < size && from !in have ==> from < i
    {
      hide *;
      i := from;
      while i < size && !Test(i)
        invariant from <= i
        invariant forall k: nat | from <= k < i && k < size :: k !in have
        decreases size - i
      {
        WordInRange(i);
        if i % 64 == 0 && words[i / 64] == 0 {
          SkipZeros(i);
          i := SkipWord(i);
        } else {
          i := i + 1;
        }
      }
      if i > size { i := size; }
    }

    /** Marks every block of the runs, ignoring the parts out of range. */
    method SetRuns(runs: seq<Run>)
      requires Valid()
      modifies this`words, this`count, this`have
      ensures Valid() && size == old(size) && ackBase == old(ackBase)
      ensures have == old(have) + Marked(runs, size)
    {
      hide Packed;
      for a := 0 to |runs|
        invariant Valid() && size == old(size) && ackBase == old(ackBase)
        invariant forall k: nat :: k in have <==> k in old(have) || (k < size && InRuns(runs[..a], k))
      {
        SetRun(runs[a]);
        InRunsSnoc(runs, a);
      }
      assert runs[..|runs|] == runs;
    }

    method SetRun(r: Run)
      requires Valid()
      modifies this`words, this`count, this`have
      ensures Valid() && size == old(size) && ackBase == old(ackBase)
      ensures forall k: nat :: k in have <==> k in old(have) || (k < size && InRun(r, k))
    {
      hide Packed, AllBelow;
      if r.start >= size { return; }
      var end := Min(r.start + r.length, size);
      for i := r.start to end
        invariant Valid() && size == old(size) && ackBase == old(ackBase)
        invariant forall k: nat :: k in have <==> k in old(have) || r.start <= k < i
      {
        var _ := Set(i);
      }
    }
  }

  lemma InRunsSnoc(runs: seq<Run>, a: nat)
    requires a < |runs|
    ensures forall k: nat :: InRuns(runs[..a + 1], k) <==> InRuns(runs[..a], k) || InRun(runs[a], k)
  {
    assert runs[..a + 1] == runs[..a] + [runs[a]];
    forall k: nat ensures InRuns(runs[..a + 1], k) <==> InRuns(runs[..a], k) || InRun(runs[a], k) {
      InRunsConcat(runs[..a], [runs[a]], k);
    }
  }
}
