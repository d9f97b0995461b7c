/** The datagrams of the block protocol: data blocks and selective acknowledgements. */
module BlockCodec {
  import opened Wrappers
  import opened Manifest
  import opened Runs
  import S = Sacks

  type U16 = v: int | 0 <= v < 0x1_0000
  type U32 = v: int | 0 <= v < 0x1_0000_0000

  const BLOCK_MAGIC: U16 := 0x4342
  const SACK_MAGIC: U16 := 0x4353
  const VERSION: Byte := 1
  const BLOCK_HEADER: nat := 12
  const SACK_HEADER: nat := 28
  const RUN_SIZE: nat := 8
  const MAX_DATAGRAM: nat := 1150

  datatype BlockHeader = BlockHeader(flags: Byte, file: U16, block: U32, len: U16)

  datatype WireRun = WireRun(start: U32, length: U32)

  datatype WireSack = WireSack(
    file: U16, flags: Byte, ackBase: U32, frontier: U32, count: U32, rate: U32, loss: U16, holes: seq<WireRun>)

  // ---- integers in network byte order -----------------------------------------------------

  function Bytes16(v: U16): (s: seq<Byte>)
    ensures |s| == 2
  {
    [v / 0x100, v % 0x100]
  }

  function Bytes32(v: U32): (s: seq<Byte>)
    ensures |s| == 4
  {
    [v / 0x100_0000, v / 0x1_0000 % 0x100, v / 0x100 % 0x100, v % 0x100]
  }

  function Get16(s: seq<Byte>, at: nat): U16
    requires at + 2 <= |s|
  {
    s[at] as int * 0x100 + s[at + 1]
  }

  function Get32(s: seq<Byte>, at: nat): U32
    requires at + 4 <= |s|
  {
    s[at] as int * 0x100_0000 + s[at + 1] as int * 0x1_0000 + s[at + 2] as int * 0x100 + s[at + 3]
  }

  /** The number that bytes stand for, the most significant one first. */
  function Value(s: seq<Byte>): nat {
    if s == [] then 0 else Value(s[..|s| - 1]) * 0x100 + s[|s| - 1]
  }

  lemma Value16(s: seq<Byte>, at: nat)
    requires at + 2 <= |s|
    ensures Value(s[at..at + 2]) == Get16(s, at)
  {
    var w := s[at..at + 2];
    assert w[..1][..0] == [] && w[..1] == [s[at]] && w[1] == s[at + 1];
    assert Value(w[..1]) == s[at] as int;
  }

  lemma Value32(s: seq<Byte>, at: nat)
    requires at + 4 <= |s|
    ensures Value(s[at..at + 4]) == Get32(s, at)
  {
    var w := s[at..at + 4];
    assert w[..2] == s[at..at + 2] && w[..3][..2] == w[..2];
    Value16(s, at);
    assert Value(w[..3]) == Value(w[..2]) * 0x100 + s[at + 2] as int;
  }

  /** Reading two bytes gives `v` exactly if they are the bytes of `v`. */
  lemma Word16(s: seq<Byte>, at: nat, v: U16)
    requires at + 2 <= |s|
    ensures Get16(s, at) == v <==> s[at..at + 2] == Bytes16(v)
  {
    assert s[at..at + 2] == [s[at], s[at + 1]];
  }

  lemma Word32(s: seq<Byte>, at: nat, v: U32)
    requires at + 4 <= |s|
    ensures Get32(s, at) == v <==> s[at..at + 4] == Bytes32(v)
  {
    assert s[at..at + 4] == [s[at], s[at + 1], s[at + 2], s[at + 3]];
    Digits(s[at], s[at + 1], s[at + 2], s[at + 3], v);
  }

  lemma Digits(a: Byte, b: Byte, c: Byte, d: Byte, v: U32)
    ensures a as int * 0x100_0000 + b as int * 0x1_0000 + c as int * 0x100 + d == v <==>
              a == v / 0x100_0000 && b == v / 0x1_0000 % 0x100 && c == v / 0x100 % 0x100 && d == v % 0x100
  {
    var x: nat := a as int * 0x100 + b;
    var y: nat := x * 0x100 + c;
    LastDigit(y, d, v);
    LastDigit(x, c, v / 0x100);
    LastDigit(a, b, v / 0x1_0000);
    assert v / 0x100 / 0x100 == v / 0x1_0000 && v / 0x1_0000 / 0x100 == v / 0x100_0000;
  }

  lemma LastDigit(x: nat, d: Byte, v: nat)
    ensures x * 0x100 + d == v <==> x == v / 0x100 && d == v % 0x100
  {}

  // ---- data blocks ------------------------------------------------------------------------------

  function HeaderBytes(h: BlockHeader): (s: seq<Byte>)
    ensures |s| == BLOCK_HEADER
  {
    Bytes16(BLOCK_MAGIC) + [VERSION] + [h.flags] + Bytes16(h.file) + Bytes32(h.block) + Bytes16(h.len)
  }

  function DecodeBlock(data: seq<Byte>): Option<(BlockHeader, seq<Byte>)> {
    if |data| < BLOCK_HEADER then None
    else if Get16(data, 0) != BLOCK_MAGIC || data[2] != VERSION then None
    else
      var len := Get16(data, 10);
      if len > PAYLOAD || |data| != BLOCK_HEADER + len then None
      else Some((BlockHeader(data[3], Get16(data, 4), Get32(data, 6), len), data[BLOCK_HEADER..]))
  }

  lemma ConcatEqual(x: seq<Byte>, y: seq<Byte>, a: seq<Byte>, b: seq<Byte>)
    requires |x| == |a|
    ensures x + y == a + b <==> x == a && y == b
  {
    if x + y == a + b {
      assert x == (x + y)[..|x|] && a == (a + b)[..|a|];
      assert y == (x + y)[|x|..] && b == (a + b)[|a|..];
    }
  }

  /** Bytes up to the end of a field are those before it and the field's own. */
  lemma NextField(data: seq<Byte>, at: nat, prefix: seq<Byte>, field: seq<Byte>)
    requires at == |prefix| && at + |field| <= |data|
    ensures data[..at + |field|] == prefix + field <==>
              data[..at] == prefix && data[at..at + |field|] == field
  {
    assert data[..at + |field|] == data[..at] + data[at..at + |field|];
    ConcatEqual(data[..at], data[at..at + |field|], prefix, field);
  }

  lemma NextByte(data: seq<Byte>, at: nat, prefix: seq<Byte>, b: Byte)
    requires at == |prefix| && at < |data|
    ensures data[..at + 1] == prefix + [b] <==> data[..at] == prefix && data[at] == b
  {
    NextField(data, at, prefix, [b]);
    assert data[at..at + 1] == [data[at]];
    assert [data[at]] == [b] <==> data[at] == b by {
      if [data[at]] == [b] { assert [data[at]][0] == [b][0]; }
    }
  }

  /** The header fields can be read off twelve bytes exactly if these are the header's. */
  lemma HeaderMeans(data: seq<Byte>, h: BlockHeader)
    requires |data| >= BLOCK_HEADER
    ensures data[..BLOCK_HEADER] == HeaderBytes(h) <==>
              && Get16(data, 0) == BLOCK_MAGIC && data[2] == VERSION && data[3] == h.flags
              && Get16(data, 4) == h.file && Get32(data, 6) == h.block && Get16(data, 10) == h.len
  {
    hide Get16, Get32, Bytes16, Bytes32;
    Word16(data, 0, BLOCK_MAGIC);
    Word16(data, 4, h.file);
    Word32(data, 6, h.block);
    Word16(data, 10, h.len);
    var p2 := Bytes16(BLOCK_MAGIC);
    var p3 := p2 + [VERSION];
    var p4 := p3 + [h.flags];
    var p6 := p4 + Bytes16(h.file);
    var p10 := p6 + Bytes32(h.block);
    NextByte(data, 2, p2, VERSION);
    NextByte(data, 3, p3, h.flags);
    NextField(data, 4, p4, Bytes16(h.file));
    NextField(data, 6, p6, Bytes32(h.block));
    NextField(data, 10, p10, Bytes16(h.len));
  }

  /**
   Decoding inverts encoding and encoding inverts decoding: a datagram decodes to a
   header and payload exactly if it is their encoding and the payload fits.
   */
  lemma BlockRoundTrip(data: seq<Byte>, h: BlockHeader, payload: seq<Byte>)
    ensures DecodeBlock(data) == Some((h, payload)) <==>
              data == HeaderBytes(h) + payload && |payload| == h.len && h.len <= PAYLOAD
  {
    hide HeaderBytes, Get16, Get32;
    if |data| >= BLOCK_HEADER {
      HeaderMeans(data, h);
      assert data == data[..BLOCK_HEADER] + data[BLOCK_HEADER..];
      if data == HeaderBytes(h) + payload {
        assert data[..BLOCK_HEADER] == HeaderBytes(h);
        assert data[BLOCK_HEADER..] == payload;
      }
    }
  }

  /** Where the fields of a block's datagram are, in network byte order. */
  lemma BlockLayout(h: BlockHeader, payload: seq<Byte>)
    ensures var data := HeaderBytes(h) + payload;
            && Value(data[0..2]) == 0x4342 && data[2] == 1 && data[3] == h.flags
            && Value(data[4..6]) == h.file && Value(data[6..10]) == h.block && Value(data[10..12]) == h.len
            && data[12..] == payload
  {
    hide HeaderBytes, Get16, Get32, Value;
    var data := HeaderBytes(h) + payload;
    assert data[..BLOCK_HEADER] == HeaderBytes(h);
    HeaderMeans(data, h);
    Value16(data, 0);
    Value16(data, 4);
    Value32(data, 6);
    Value16(data, 10);
  }

  /** Writes `s` at `at`, leaving the rest of the buffer alone. */
  method Put(out: array<Byte>, at: nat, s: seq<Byte>)
    requires at + |s| <= out.Length
    modifies out
    ensures out[..at + |s|] == old(out[..at]) + s
    ensures forall i | at + |s| <= i < out.Length :: out[i] == old(out[i])
  {
    for k := 0 to |s|
      invariant out[..at + k] == old(out[..at]) + s[..k]
      invariant forall i | at + k <= i < out.Length :: out[i] == old(out[i])
    {
      out[at + k] := s[k];
      assert out[..at + k + 1] == out[..at + k] + [s[k]];
    }
  }

  /** Encodes into a buffer; a missing payload or buffer, or one too small, gives 0. */
  method EncodeBlock(h: BlockHeader, payload: Option<seq<Byte>>, out: array?<Byte>) returns (n: nat)
    requires payload.Some? ==> h.len <= |payload.value|
    modifies out
    ensures n == 0 <==>
              || h.len > PAYLOAD || out == null || out.Length < BLOCK_HEADER + h.len
              || (h.len > 0 && payload.None?)
    ensures n > 0 ==>
              && n == BLOCK_HEADER + h.len <= out.Length
              && out[..n] == HeaderBytes(h) + (if h.len > 0 then payload.value[..h.len] else [])
              && forall i | n <= i < out.Length :: out[i] == old(out[i])
    ensures n == 0 && out != null ==> out[..] == old(out[..])
  {
    hide Bytes16, Bytes32;
    if h.len > PAYLOAD { return 0; }
    var total := BLOCK_HEADER + h.len;
    if out == null || out.Length < total { return 0; }
    if h.len > 0 && payload.None? { return 0; }
    PutHeader(h, out);
    if h.len > 0 {
      Put(out, BLOCK_HEADER, payload.value[..h.len]);
    }
    n := total;
  }

  method PutHeader(h: BlockHeader, out: array<Byte>)
    requires BLOCK_HEADER <= out.Length
    modifies out
    ensures out[..BLOCK_HEADER] == HeaderBytes(h)
    ensures forall i | BLOCK_HEADER <= i < out.Length :: out[i] == old(out[i])
  {
    hide Bytes16, Bytes32;
    Put(out, 0, Bytes16(BLOCK_MAGIC));
    Put(out, 2, [VERSION]);
    Put(out, 3, [h.flags]);
    Put(out, 4, Bytes16(h.file));
    Put(out, 6, Bytes32(h.block));
    Put(out, 10, Bytes16(h.len));
  }

  // ---- selective acknowledgements ------------------------------------------------------------------

  function SackHeaderBytes(s: WireSack, runs: U16, reserved: U16): (b: seq<Byte>)
    ensures |b| == SACK_HEADER
  {
    Bytes16(SACK_MAGIC) + [VERSION] + [s.flags] + Bytes16(s.file) + Bytes16(runs)
    + Bytes32(s.ackBase) + Bytes32(s.frontier) + Bytes32(s.count) + Bytes32(s.rate)
    + Bytes16(s.loss) + Bytes16(reserved)
  }

  function RunBytes(r: WireRun): (b: seq<Byte>)
    ensures |b| == RUN_SIZE
  {
    Bytes32(r.start) + Bytes32(r.length)
  }

  function RunsBytes(runs: seq<WireRun>): (b: seq<Byte>)
    ensures |b| == |runs| * RUN_SIZE
  {
    if runs == [] then [] else RunsBytes(runs[..|runs| - 1]) + RunBytes(runs[|runs| - 1])
  }

  function Kept(holes: seq<WireRun>): (k: seq<WireRun>)
    ensures |k| <= S.MAX_RUNS
  {
    if |holes| < S.MAX_RUNS then holes else holes[..S.MAX_RUNS]
  }

  function SackBytes(s: WireSack): seq<Byte> {
    SackHeaderBytes(s, |Kept(s.holes)|, 0) + RunsBytes(Kept(s.holes))
  }

  method EncodeSack(s: WireSack) returns (out: array<Byte>)
    ensures fresh(out) && out[..] == SackBytes(s) && out.Length <= MAX_DATAGRAM
  {
    hide SackHeaderBytes, RunsBytes, RunBytes;
    var kept := Kept(s.holes);
    var runs := if |s.holes| < S.MAX_RUNS then |s.holes| else S.MAX_RUNS;
    out := new Byte[SACK_HEADER + runs * RUN_SIZE];
    PutSackHeader(s, runs, out);
    var at := SACK_HEADER;
    NoRuns();
    assert kept[..0] == [];
    for i := 0 to runs
      invariant at == SACK_HEADER + i * RUN_SIZE
      invariant out[..at] == SackHeaderBytes(s, runs, 0) + RunsBytes(kept[..i])
    {
      PutRun(out, at, s.holes[i]);
      OneMoreRun(kept, i);
      at := at + RUN_SIZE;
    }
    assert kept[..runs] == kept;
  }

  lemma NoRuns()
    ensures RunsBytes([]) == []
  {}

  lemma OneMoreRun(runs: seq<WireRun>, i: nat)
    requires i < |runs|
    ensures RunsBytes(runs[..i + 1]) == RunsBytes(runs[..i]) + RunBytes(runs[i])
  {
    assert runs[..i + 1][..i] == runs[..i];
  }

  method PutRun(out: array<Byte>, at: nat, r: WireRun)
    requires at + RUN_SIZE <= out.Length
    modifies out
    ensures out[..at + RUN_SIZE] == old(out[..at]) + RunBytes(r)
  {
    hide Bytes32;
    Put(out, at, Bytes32(r.start));
    Put(out, at + 4, Bytes32(r.length));
  }

  method PutSackHeader(s: WireSack, runs: U16, out: array<Byte>)
    requires SACK_HEADER <= out.Length
    modifies out
    ensures out[..SACK_HEADER] == SackHeaderBytes(s, runs, 0)
  {
    hide Bytes16, Bytes32;
    PutSackStart(s, runs, out);
    Put(out, 12, Bytes32(s.frontier));
    Put(out, 16, Bytes32(s.count));
    Put(out, 20, Bytes32(s.rate));
    Put(out, 24, Bytes16(s.loss));
    Put(out, 26, Bytes16(0));
  }

  method PutSackStart(s: WireSack, runs: U16, out: array<Byte>)
    requires SACK_HEADER <= out.Length
    modifies out
    ensures out[..12]
         == Bytes16(SACK_MAGIC) + [VERSION] + [s.flags] + Bytes16(s.file) + Bytes16(runs) + Bytes32(s.ackBase)
  {
    hide Bytes16, Bytes32;
    Put(out, 0, Bytes16(SACK_MAGIC));
    Put(out, 2, [VERSION]);
    Put(out, 3, [s.flags]);
    Put(out, 4, Bytes16(s.file));
    Put(out, 6, Bytes16(runs));
    Put(out, 8, Bytes32(s.ackBase));
  }

  function RunAt(data: seq<Byte>, at: nat): WireRun
    requires at + RUN_SIZE <= |data|
  {
    WireRun(Get32(data, at), Get32(data, at + 4))
  }

  /** The first `k` runs behind the header. */
  function RunsOf(data: seq<Byte>, k: nat): (runs: seq<WireRun>)
    requires SACK_HEADER + k * RUN_SIZE <= |data|
    ensures |runs| == k
  {
    if k == 0 then [] else RunsOf(data, k - 1) + [RunAt(data, SACK_HEADER + (k - 1) * RUN_SIZE)]
  }

  predicate NonEmpty(runs: seq<WireRun>) {
    forall k | 0 <= k < |runs| :: runs[k].length != 0
  }

  function Fields(data: seq<Byte>, holes: seq<WireRun>): WireSack
    requires SACK_HEADER <= |data|
  {
    WireSack(Get16(data, 4), data[3], Get32(data, 8), Get32(data, 12), Get32(data, 16), Get32(data, 20),
             Get16(data, 24), holes)
  }

  predicate Accepted(data: seq<Byte>) {
    && |data| >= SACK_HEADER
    && Get16(data, 0) == SACK_MAGIC && data[2] == VERSION
    && |data| == SACK_HEADER + Get16(data, 6) * RUN_SIZE
    && NonEmpty(RunsOf(data, Get16(data, 6)))
  }

  function SackOf(data: seq<Byte>): Option<WireSack> {
    if Accepted(data) then Some(Fields(data, RunsOf(data, Get16(data, 6)))) else None
  }

  method DecodeSack(data: seq<Byte>) returns (r: Option<WireSack>)
    ensures r == SackOf(data)
  {
    hide Get16, Get32;
    if |data| < SACK_HEADER { return None; }
    if Get16(data, 0) != SACK_MAGIC || data[2] != VERSION { return None; }
    var runs := Get16(data, 6);
    if |data| != SACK_HEADER + runs * RUN_SIZE { return None; }
    var holes := [];
    var at := SACK_HEADER;
    for i := 0 to runs
      invariant at == SACK_HEADER + i * RUN_SIZE
      invariant holes == RunsOf(data, i) && NonEmpty(holes)
    {
      var run := RunAt(data, at);
      if run.length == 0 {
        ZeroRun(data, runs, i);
        return None;
      }
      holes := holes + [run];
      at := at + RUN_SIZE;
    }
    r := Some(Fields(data, holes));
  }

  lemma {:induction false} ZeroRun(data: seq<Byte>, k: nat, i: nat)
    requires i < k && SACK_HEADER + k * RUN_SIZE <= |data|
    ensures RunsOf(data, k)[i] == RunAt(data, SACK_HEADER + i * RUN_SIZE)
    decreases k
  {
    if i < k - 1 { ZeroRun(data, k - 1, i); }
  }

  // ---- round trips of acknowledgements ----------------------------------------------------------------

  lemma SackHeaderMeans(data: seq<Byte>, s: WireSack, runs: U16, reserved: U16)
    requires |data| >= SACK_HEADER
    ensures data[..SACK_HEADER] == SackHeaderBytes(s, runs, reserved) <==>
              && Get16(data, 0) == SACK_MAGIC && data[2] == VERSION
              && Get16(data, 6) == runs && Get16(data, 26) == reserved
              && Fields(data, s.holes) == s
  {
    hide Get16, Get32, Bytes16, Bytes32;
    Word16(data, 0, SACK_MAGIC);
    Word16(data, 4, s.file);
    Word16(data, 6, runs);
    Word32(data, 8, s.ackBase);
    Word32(data, 12, s.frontier);
    Word32(data, 16, s.count);
    Word32(data, 20, s.rate);
    Word16(data, 24, s.loss);
    Word16(data, 26, reserved);
    SackHeaderParts(data, s, runs, reserved);
  }

  lemma SackHeaderParts(data: seq<Byte>, s: WireSack, runs: U16, reserved: U16)
    requires |data| >= SACK_HEADER
    ensures data[..SACK_HEADER] == SackHeaderBytes(s, runs, reserved) <==>
              && data[0..2] == Bytes16(SACK_MAGIC) && data[2] == VERSION && data[3] == s.flags
              && data[4..6] == Bytes16(s.file) && data[6..8] == Bytes16(runs)
              && data[8..12] == Bytes32(s.ackBase) && data[12..16] == Bytes32(s.frontier)
              && data[16..20] == Bytes32(s.count) && data[20..24] == Bytes32(s.rate)
              && data[24..26] == Bytes16(s.loss) && data[26..28] == Bytes16(reserved)
  {
    hide Bytes16, Bytes32;
    var p2 := Bytes16(SACK_MAGIC);
    var p3 := p2 + [VERSION];
    var p4 := p3 + [s.flags];
    var p6 := p4 + Bytes16(s.file);
    var p8 := p6 + Bytes16(runs);
    var p12 := p8 + Bytes32(s.ackBase);
    var p16 := p12 + Bytes32(s.frontier);
    var p20 := p16 + Bytes32(s.count);
    var p24 := p20 + Bytes32(s.rate);
    var p26 := p24 + Bytes16(s.loss);
    NextByte(data, 2, p2, VERSION);
    NextByte(data, 3, p3, s.flags);
    NextField(data, 4, p4, Bytes16(s.file));
    NextField(data, 6, p6, Bytes16(runs));
    NextField(data, 8, p8, Bytes32(s.ackBase));
    NextField(data, 12, p12, Bytes32(s.frontier));
    NextField(data, 16, p16, Bytes32(s.count));
    NextField(data, 20, p20, Bytes32(s.rate));
    NextField(data, 24, p24, Bytes16(s.loss));
    NextField(data, 26, p26, Bytes16(reserved));
  }

  lemma RunMeans(data: seq<Byte>, at: nat, r: WireRun)
    requires at + RUN_SIZE <= |data|
    ensures RunAt(data, at) == r <==> data[at..at + RUN_SIZE] == RunBytes(r)
  {
    hide Get32, Bytes32;
    Word32(data, at, r.start);
    Word32(data, at + 4, r.length);
    assert data[at..at + RUN_SIZE] == data[at..at + 4] + data[at + 4..at + 8];
    ConcatEqual(data[at..at + 4], data[at + 4..at + 8], Bytes32(r.start), Bytes32(r.length));
  }

  /** Runs are read back exactly from their own bytes. */
  lemma {:induction false} RunsMean(data: seq<Byte>, runs: seq<WireRun>)
    requires SACK_HEADER + |runs| * RUN_SIZE <= |data|
    ensures RunsOf(data, |runs|) == runs <==> data[SACK_HEADER..SACK_HEADER + |runs| * RUN_SIZE] == RunsBytes(runs)
    decreases |runs|
  {
    hide RunAt, RunBytes, RunsOf, RunsBytes;
    if runs == [] {
      NoRuns();
      NoneOf(data);
      assert data[SACK_HEADER..SACK_HEADER] == [];
    } else {
      var k := |runs| - 1;
      var mid, end := SACK_HEADER + k * RUN_SIZE, SACK_HEADER + |runs| * RUN_SIZE;
      assert end == mid + RUN_SIZE;
      RunsMean(data, runs[..k]);
      RunMeans(data, mid, runs[k]);
      Slices(data, SACK_HEADER, mid, end);
      ConcatEqual(data[SACK_HEADER..mid], data[mid..end], RunsBytes(runs[..k]), RunBytes(runs[k]));
      LastRun(data, runs);
      SnocEqual(RunsOf(data, k), RunAt(data, mid), runs);
    }
  }

  lemma NoneOf(data: seq<Byte>)
    requires SACK_HEADER <= |data|
    ensures RunsOf(data, 0) == []
  {}

  lemma Slices(data: seq<Byte>, a: nat, b: nat, c: nat)
    requires a <= b <= c <= |data|
    ensures data[a..c] == data[a..b] + data[b..c]
  {}

  lemma LastRun(data: seq<Byte>, runs: seq<WireRun>)
    requires runs != [] && SACK_HEADER + |runs| * RUN_SIZE <= |data|
    ensures var k := |runs| - 1;
            && RunsOf(data, |runs|) == RunsOf(data, k) + [RunAt(data, SACK_HEADER + k * RUN_SIZE)]
            && RunsBytes(runs) == RunsBytes(runs[..k]) + RunBytes(runs[k])
  {
    hide RunAt, RunBytes;
  }

  lemma SnocEqual(init: seq<WireRun>, last: WireRun, runs: seq<WireRun>)
    requires |runs| == |init| + 1
    ensures init + [last] == runs <==> init == runs[..|init|] && last == runs[|init|]
  {
    assert runs == runs[..|init|] + [runs[|init|]];
    if init + [last] == runs {
      assert init == (init + [last])[..|init|] && last == (init + [last])[|init|];
    }
  }

  /**
   Encoding then decoding: the acknowledgement with its first 140 holes, if none of
   these is empty, and a refusal otherwise.
   */
  lemma SackRoundTrip(s: WireSack)
    ensures SackOf(SackBytes(s)) == if NonEmpty(Kept(s.holes)) then Some(s.(holes := Kept(s.holes))) else None
    ensures |SackBytes(s)| <= MAX_DATAGRAM
  {
    hide SackHeaderBytes, RunsBytes, RunsOf, Get16, Get32, Kept, NonEmpty;
    var data, kept := SackBytes(s), Kept(s.holes);
    SackHeaderMeans(data, s, |kept|, 0);
    assert data[..SACK_HEADER] == SackHeaderBytes(s, |kept|, 0);
    RunsMean(data, kept);
    assert data[SACK_HEADER..SACK_HEADER + |kept| * RUN_SIZE] == RunsBytes(kept);
  }

  /**
   Decoding then encoding gives back the datagram exactly if its reserved bytes are
   zero and it holds at most 140 runs; the decoder asks for neither.
   */
  lemma SackReencode(data: seq<Byte>)
    requires Accepted(data)
    ensures SackBytes(SackOf(data).value) == data <==> Get16(data, 26) == 0 && Get16(data, 6) <= S.MAX_RUNS
  {
    hide SackHeaderBytes, RunsBytes, RunsOf, Get16, Get32, NonEmpty, Fields;
    var runs := RunsOf(data, Get16(data, 6));
    var s := Fields(data, runs);
    FieldsStable(data, runs);
    SackHeaderMeans(data, s, Get16(data, 6), Get16(data, 26));
    SackHeaderMeans(data, s, |Kept(s.holes)|, 0);
    RunsMean(data, runs);
    var b := SackBytes(s);
    assert data == data[..SACK_HEADER] + data[SACK_HEADER..];
    assert b[..SACK_HEADER] == SackHeaderBytes(s, |Kept(s.holes)|, 0);
    assert |runs| <= S.MAX_RUNS ==> Kept(runs) == runs;
  }

  lemma FieldsStable(data: seq<Byte>, runs: seq<WireRun>)
    requires SACK_HEADER <= |data|
    ensures Fields(data, runs).holes == runs
    ensures Fields(data, Fields(data, runs).holes) == Fields(data, runs)
  {}

  /** Where the fields of an acknowledgement are, in network byte order. */
  lemma SackLayout(s: WireSack)
    ensures var data := SackBytes(s);
            && Value(data[0..2]) == 0x4353 && data[2] == 1 && data[3] == s.flags
            && Value(data[4..6]) == s.file && Value(data[6..8]) == |Kept(s.holes)|
            && Value(data[8..12]) == s.ackBase && Value(data[12..16]) == s.frontier
            && Value(data[16..20]) == s.count && Value(data[20..24]) == s.rate
            && Value(data[24..26]) == s.loss && Value(data[26..28]) == 0
            && |data| == 28 + 8 * |Kept(s.holes)|
  {
    hide SackHeaderBytes, RunsBytes, Get16, Get32, Kept, Value;
    var data := SackBytes(s);
    assert data[..SACK_HEADER] == SackHeaderBytes(s, |Kept(s.holes)|, 0);
    SackHeaderMeans(data, s, |Kept(s.holes)|, 0);
    Value16(data, 0);
    Value16(data, 4);
    Value16(data, 6);
    Value32(data, 8);
    Value32(data, 12);
    Value32(data, 16);
    Value32(data, 20);
    Value16(data, 24);
    Value16(data, 26);
  }

  /** Its runs follow in order, each with its start and then its length. */
  lemma RunLayout(s: WireSack, i: nat)
    requires i < |Kept(s.holes)|
    ensures |SackBytes(s)| == 28 + 8 * |Kept(s.holes)|
    ensures var at := 28 + 8 * i;
            && Value(SackBytes(s)[at..at + 4]) == Kept(s.holes)[i].start
            && Value(SackBytes(s)[at + 4..at + 8]) == Kept(s.holes)[i].length
  {
    hide SackHeaderBytes, RunsBytes, Get32, Kept, Value, RunsOf;
    var data, kept := SackBytes(s), Kept(s.holes);
    RunsMean(data, kept);
    assert data[SACK_HEADER..SACK_HEADER + |kept| * RUN_SIZE] == RunsBytes(kept);
    ZeroRun(data, |kept|, i);
    Value32(data, SACK_HEADER + i * RUN_SIZE);
    Value32(data, SACK_HEADER + i * RUN_SIZE + 4);
  }

  // ---- the receiver's acknowledgements ---------------------------------------------------------------------

  function WireRuns(runs: seq<Run>): (w: seq<WireRun>)
    requires forall r | r in runs :: r.start < 0x1_0000_0000 && r.length < 0x1_0000_0000
    ensures |w| == |runs|
    ensures forall k | 0 <= k < |runs| :: w[k] == WireRun(runs[k].start, runs[k].length)
  {
    seq(|runs|, k requires 0 <= k < |runs| => WireRun(runs[k].start, runs[k].length))
  }

  /**
   Every acknowledgement the receiver builds, for any received set and frontier, fits
   one datagram and is decoded with all its fields and holes.
   */
  lemma ReceiverSackDecodes(have: set<nat>, n: U32, frontier: U32, file: U16, rate: U32, loss: U16)
    requires have <= AllBelow(n)
    ensures var s := S.MakeSack(have, n, frontier);
            && (forall r | r in s.holes :: r.start < 0x1_0000_0000 && r.length < 0x1_0000_0000)
            && s.ackBase < 0x1_0000_0000 && s.frontier < 0x1_0000_0000 && s.count < 0x1_0000_0000
            && var w := WireSack(file, if s.complete then 1 else 0, s.ackBase, s.frontier, s.count,
                                 rate, loss, WireRuns(s.holes));
               SackOf(SackBytes(w)) == Some(w) && |SackBytes(w)| <= MAX_DATAGRAM
  {
    hide SackOf, SackBytes;
    S.SackRunsValid(have, n, frontier);
    FullIffSize(have, n);
    var s := S.MakeSack(have, n, frontier);
    var w := WireSack(file, if s.complete then 1 else 0, s.ackBase, s.frontier, s.count, rate, loss, WireRuns(s.holes));
    forall k | 0 <= k < |w.holes| ensures w.holes[k].length != 0 {
      assert s.holes[k] in s.holes;
    }
    assert w.holes[..|w.holes|] == w.holes;
    assert Kept(w.holes) == w.holes;
    SackRoundTrip(w);
  }
}
