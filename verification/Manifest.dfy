/**
 How a file is cut into blocks: every block but the last has `PAYLOAD` bytes,
 and block `b` starts at byte `b * PAYLOAD`.
 */
module Manifest {
  import opened Wrappers

  const PAYLOAD: nat := 1100

  function BlockCount(size: nat): nat {
    if size == 0 then 0 else (size + PAYLOAD - 1) / PAYLOAD
  }

  function BlockLen(size: nat, index: nat): nat {
    var offset := index * PAYLOAD;
    if offset >= size then 0
    else if size - offset < PAYLOAD then size - offset else PAYLOAD
  }

  /** The blocks of a file are non-empty, lie back to back and end at its size. */
  lemma BlocksTile(size: nat, index: nat)
    requires index < BlockCount(size)
    ensures 0 < BlockLen(size, index) <= PAYLOAD
    ensures index + 1 < BlockCount(size) ==> BlockLen(size, index) == PAYLOAD
    ensures index * PAYLOAD + BlockLen(size, index)
         == if index + 1 == BlockCount(size) then size else (index + 1) * PAYLOAD
  {}

  /** The bytes of those blocks below `n` that are in `had`. */
  function HeldBytes(size: nat, had: set<nat>, n: nat): nat {
    if n == 0 then 0 else HeldBytes(size, had, n - 1) + if n - 1 in had then BlockLen(size, n - 1) else 0
  }

  lemma {:induction false} HeldGrows(size: nat, had: set<nat>, have: set<nat>, n: nat)
    requires had <= have
    ensures HeldBytes(size, had, n) <= HeldBytes(size, have, n)
  {
    if n > 0 { HeldGrows(size, had, have, n - 1); }
  }

  /** Byte `p` of a file belongs to block `p / PAYLOAD` and to no other. */
  lemma ByteInOneBlock(size: nat, p: nat, index: nat)
    requires p < size
    ensures p / PAYLOAD < BlockCount(size)
    ensures index * PAYLOAD <= p < index * PAYLOAD + BlockLen(size, index) <==> index == p / PAYLOAD
  {}

  /** The bytes of block `index` in a file of `size` bytes stored in `content`. */
  function BlockOf(content: seq<Byte>, size: nat, index: nat): (block: seq<Byte>)
    requires size <= |content| && index < BlockCount(size)
    ensures |block| == BlockLen(size, index)
  {
    BlocksTile(size, index);
    content[index * PAYLOAD..index * PAYLOAD + BlockLen(size, index)]
  }

  /** A file is determined by its blocks. */
  lemma BlocksDetermineFile(a: seq<Byte>, b: seq<Byte>)
    requires |a| == |b|
    requires forall i: nat | i < BlockCount(|a|) :: BlockOf(a, |a|, i) == BlockOf(b, |a|, i)
    ensures a == b
  {
    forall p: nat | p < |a| ensures a[p] == b[p] {
      var i := p / PAYLOAD;
      ByteInOneBlock(|a|, p, i);
      assert a[p] == BlockOf(a, |a|, i)[p - i * PAYLOAD];
      assert b[p] == BlockOf(b, |a|, i)[p - i * PAYLOAD];
    }
  }

  /** Writing `data` over `part` from byte `offset` on, as `pwrite` does inside the file. */
  function Overwrite(part: seq<Byte>, offset: nat, data: seq<Byte>): (r: seq<Byte>)
    requires offset + |data| <= |part|
    ensures |r| == |part|
  {
    part[..offset] + data + part[offset + |data|..]
  }

  lemma OverwriteAt(part: seq<Byte>, offset: nat, data: seq<Byte>, p: nat)
    requires offset + |data| <= |part| && p < |part|
    ensures Overwrite(part, offset, data)[p]
         == if offset <= p < offset + |data| then data[p - offset] else part[p]
  {}

  /** Two writes back to back are one write of the joined data. */
  lemma OverwriteJoin(part: seq<Byte>, offset: nat, a: seq<Byte>, b: seq<Byte>)
    requires offset + |a| + |b| <= |part|
    ensures Overwrite(Overwrite(part, offset, a), offset + |a|, b) == Overwrite(part, offset, a + b)
  {}

  /** Writing a block changes that block and no other. */
  lemma WriteBlock(part: seq<Byte>, size: nat, index: nat, data: seq<Byte>, other: nat)
    requires size <= |part| && index < BlockCount(size) && other < BlockCount(size)
    requires |data| == BlockLen(size, index)
    ensures index * PAYLOAD + |data| <= |part|
    ensures BlockOf(Overwrite(part, index * PAYLOAD, data), size, other)
         == if other == index then data else BlockOf(part, size, other)
  {
    BlocksTile(size, index);
    BlocksTile(size, other);
    var got := BlockOf(Overwrite(part, index * PAYLOAD, data), size, other);
    var want := if other == index then data else BlockOf(part, size, other);
    forall k: nat | k < BlockLen(size, other) ensures got[k] == want[k] {
      var p := other * PAYLOAD + k;
      ByteInOneBlock(size, p, index);
      ByteInOneBlock(size, p, other);
      OverwriteAt(part, index * PAYLOAD, data, p);
    }
    assert got == want;
  }
}
