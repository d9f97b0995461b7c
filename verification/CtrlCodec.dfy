/** Chunking of control messages for the reliable stream, and their reassembly. */
module CtrlCodec {
  import opened Wrappers

  const CHUNK: nat := 16384
  const MAX_MESSAGE: nat := 16777216

  type Bytes = seq<Byte>

  // ---- splitting ---------------------------------------------------------------------

  /** The chunks of a message, each led by a flag byte that is 1 in the last one only. */
  function Split(m: Bytes): (chunks: seq<Bytes>)
    ensures chunks != []
  {
    if |m| <= CHUNK then [[1] + m] else [[0] + m[..CHUNK]] + Split(m[CHUNK..])
  }

  /** The number of chunks: one for every 16 KiB begun, and one for the empty message. */
  function ChunkCount(length: nat): nat {
    if length == 0 then 1 else (length + CHUNK - 1) / CHUNK
  }

  /** What each chunk holds: its part of the message, behind a flag that is set in the last one. */
  lemma {:induction false} SplitLayout(m: Bytes, i: nat)
    ensures |Split(m)| == ChunkCount(|m|)
    ensures i < |Split(m)| ==>
              var from, to := i * 16384, if i + 1 < |Split(m)| then (i + 1) * 16384 else |m|;
              from <= to <= |m| && Split(m)[i] == [if i + 1 < |Split(m)| then 0 else 1] + m[from..to]
    decreases |m|
  {
    if |m| > CHUNK {
      var rest := m[CHUNK..];
      SplitLayout(rest, if i == 0 then 0 else i - 1);
      assert Split(m)[1..] == Split(rest);
      if 0 < i < |Split(m)| {
        var from, to := (i - 1) * CHUNK, if i < |Split(rest)| then i * CHUNK else |rest|;
        assert rest[from..to] == m[from + CHUNK..to + CHUNK];
      }
    } else {
      assert m[0..|m|] == m;
    }
  }

  method SplitCtrlMessage(m: Bytes) returns (out: seq<Bytes>)
    ensures out == Split(m)
  {
    out := [];
    var offset := 0;
    var more := true;
    assert m[0..] == m;
    while more
      invariant 0 <= offset <= |m|
      invariant more ==> (offset < |m| || offset == 0) && out + Split(m[offset..]) == Split(m)
      invariant !more ==> out == Split(m)
      decreases more, |m| - offset
    {
      var n := if CHUNK <= |m| - offset then CHUNK else |m| - offset;
      var flag: Byte := if offset + n >= |m| then 1 else 0;
      var chunk := [flag] + m[offset..offset + n];
      assert m[offset..][..n] == m[offset..offset + n];
      assert m[offset..][n..] == m[offset + n..];
      ghost var before := out;
      out := out + [chunk];
      assert flag == 1 ==> m[offset..offset + n] == m[offset..];
      assert flag == 1 ==> Split(m[offset..]) == [chunk];
      assert flag == 0 ==> out + Split(m[offset + n..]) == before + Split(m[offset..]);
      offset := offset + n;
      more := offset < |m|;
    }
  }

  // ---- reassembly -----------------------------------------------------------------------

  /** A reassembler, with everything it has handed out. */
  datatype Rx = Rx(buffer: Bytes, messages: seq<Bytes>, errors: nat)

  datatype Fed = More | Message(message: Bytes) | Error(error: string)

  predicate Rejected(buffer: Bytes, chunk: Bytes) {
    chunk == [] || chunk[0] > 1 || |buffer| + |chunk| - 1 > MAX_MESSAGE
  }

  function FeedOne(rx: Rx, chunk: Bytes): Rx {
    if Rejected(rx.buffer, chunk) then Rx([], rx.messages, rx.errors + 1)
    else if chunk[0] == 1 then Rx([], rx.messages + [rx.buffer + chunk[1..]], rx.errors)
    else Rx(rx.buffer + chunk[1..], rx.messages, rx.errors)
  }

  function FeedAll(rx: Rx, chunks: seq<Bytes>): Rx
    decreases |chunks|
  {
    if chunks == [] then rx else FeedAll(FeedOne(rx, chunks[0]), chunks[1..])
  }

  class CtrlReassembler {
    var buffer: Bytes

    ghost predicate Valid()
      reads this
    {
      |buffer| <= MAX_MESSAGE
    }

    constructor ()
      ensures Valid() && buffer == []
    {
      buffer := [];
    }

    method Feed(data: Bytes) returns (r: Fed)
      requires Valid()
      modifies this
      ensures Valid()
      ensures var rx := FeedOne(Rx(old(buffer), [], 0), data);
              && buffer == rx.buffer
              && (r.Message? <==> rx.messages != []) && (r.Message? ==> rx.messages == [r.message])
              && (r.Error? <==> rx.errors == 1)
      ensures data == [] <==> r == Error("empty ctrl chunk")
      ensures data != [] && data[0] > 1 <==> r == Error("bad ctrl chunk flags")
      ensures data != [] && data[0] <= 1 && |old(buffer)| + |data| - 1 > MAX_MESSAGE <==>
                r == Error("ctrl message too large")
      ensures !r.Error? ==> (r.Message? <==> data[0] == 1)
      ensures r.Message? ==> r.message == old(buffer) + data[1..]
      ensures buffer == if r.More? then old(buffer) + data[1..] else []
    {
      if |data| == 0 {
        buffer := [];
        return Error("empty ctrl chunk");
      }
      if data[0] > 1 {
        buffer := [];
        return Error("bad ctrl chunk flags");
      }
      if |buffer| + |data| - 1 > MAX_MESSAGE {
        buffer := [];
        return Error("ctrl message too large");
      }
      buffer := buffer + data[1..];
      if data[0] == 1 {
        r := Message(buffer);
        buffer := [];
        return;
      }
      r := More;
    }
  }

  // ---- the two together --------------------------------------------------------------------

  lemma {:induction false} FeedConcat(rx: Rx, a: seq<Bytes>, b: seq<Bytes>)
    ensures FeedAll(rx, a + b) == FeedAll(FeedAll(rx, a), b)
    decreases |a|
  {
    if a == [] {
      assert a + b == b;
    } else {
      assert (a + b)[1..] == a[1..] + b;
      FeedConcat(FeedOne(rx, a[0]), a[1..], b);
    }
  }

  /** A message that fits is delivered, whole, after what was already buffered. */
  lemma {:induction false} SplitFeeds(rx: Rx, m: Bytes)
    requires |rx.buffer| + |m| <= MAX_MESSAGE
    ensures FeedAll(rx, Split(m)) == Rx([], rx.messages + [rx.buffer + m], rx.errors)
    decreases |m|
  {
    if |m| <= CHUNK {
      var c: Bytes := [1] + m;
      assert c[1..] == m;
      assert [c][1..] == [];
      FeedEmpty(FeedOne(rx, c));
    } else {
      var c: Bytes, tail := [0] + m[..CHUNK], Split(m[CHUNK..]);
      assert c[1..] == m[..CHUNK];
      assert ([c] + tail)[1..] == tail;
      SplitFeeds(Rx(rx.buffer + m[..CHUNK], rx.messages, rx.errors), m[CHUNK..]);
      assert rx.buffer + m[..CHUNK] + m[CHUNK..] == rx.buffer + m;
    }
  }

  lemma FeedEmpty(rx: Rx)
    ensures FeedAll(rx, []) == rx
  {}

  /** The chunks of several messages, one after the other. */
  function Wire(messages: seq<Bytes>): seq<Bytes> {
    if messages == [] then [] else Wire(messages[..|messages| - 1]) + Split(messages[|messages| - 1])
  }

  ghost predicate AllFit(messages: seq<Bytes>) {
    forall k | 0 <= k < |messages| :: |messages[k]| <= MAX_MESSAGE
  }

  /** The round trip: every message once, in order, and nothing left over. */
  lemma {:induction false} WireRoundTrip(messages: seq<Bytes>)
    requires AllFit(messages)
    ensures FeedAll(Rx([], [], 0), Wire(messages)) == Rx([], messages, 0)
  {
    if messages != [] {
      var n := |messages| - 1;
      WireRoundTrip(messages[..n]);
      FeedConcat(Rx([], [], 0), Wire(messages[..n]), Split(messages[n]));
      SplitFeeds(Rx([], messages[..n], 0), messages[n]);
      assert [] + messages[n] == messages[n];
      assert messages[..n] + [messages[n]] == messages;
    }
  }

  ghost predicate Prefix(a: seq<Bytes>, b: seq<Bytes>) {
    |a| <= |b| && a == b[..|a|]
  }

  /** Messages handed out are never taken back. */
  lemma {:induction false} FeedGrows(rx: Rx, chunks: seq<Bytes>)
    ensures Prefix(rx.messages, FeedAll(rx, chunks).messages)
    decreases |chunks|
  {
    if chunks != [] { FeedGrows(FeedOne(rx, chunks[0]), chunks[1..]); }
  }

  /** Whatever part of the stream has arrived, the peer has a prefix of the messages. */
  lemma PartialDelivery(messages: seq<Bytes>, arrived: nat)
    requires AllFit(messages) && arrived <= |Wire(messages)|
    ensures Prefix(FeedAll(Rx([], [], 0), Wire(messages)[..arrived]).messages, messages)
  {
    var w := Wire(messages);
    assert w == w[..arrived] + w[arrived..];
    FeedConcat(Rx([], [], 0), w[..arrived], w[arrived..]);
    FeedGrows(FeedAll(Rx([], [], 0), w[..arrived]), w[arrived..]);
    WireRoundTrip(messages);
  }

  // ---- messages that are too large ------------------------------------------------------------

  /** Where the reassembler stands inside a long message: at a chunk boundary. */
  ghost predicate AtBoundary(buffer: Bytes) {
    |buffer| % CHUNK == 0 && |buffer| <= MAX_MESSAGE
  }

  /** The chunk that exceeds the limit is dropped with everything before it. */
  lemma {:induction false} TooLargeFeeds(rx: Rx, m: Bytes)
    requires AtBoundary(rx.buffer) && |rx.buffer| + |m| > MAX_MESSAGE
    ensures var dropped := MAX_MESSAGE - |rx.buffer| + CHUNK;
            var after := Rx([], rx.messages, rx.errors + 1);
            FeedAll(rx, Split(m)) == if |m| <= dropped then after else FeedAll(after, Split(m[dropped..]))
    decreases |m|
  {
    if |rx.buffer| == MAX_MESSAGE {
      if |m| <= CHUNK {
        var c: Bytes := [1] + m;
        assert [c][1..] == [];
        FeedEmpty(FeedOne(rx, c));
      } else {
        var c: Bytes, tail := [0] + m[..CHUNK], Split(m[CHUNK..]);
        assert ([c] + tail)[1..] == tail;
      }
    } else {
      TooLargeStep(rx, m);
      var c: Bytes, tail := [0] + m[..CHUNK], Split(m[CHUNK..]);
      assert ([c] + tail)[1..] == tail;
      var next := Rx(rx.buffer + m[..CHUNK], rx.messages, rx.errors);
      var dropped := MAX_MESSAGE - |rx.buffer| + CHUNK;
      TooLargeFeeds(next, m[CHUNK..]);
      assert |m| > dropped ==> m[CHUNK..][dropped - CHUNK..] == m[dropped..];
    }
  }

  lemma TooLargeStep(rx: Rx, m: Bytes)
    requires AtBoundary(rx.buffer) && |rx.buffer| < MAX_MESSAGE && |rx.buffer| + |m| > MAX_MESSAGE
    ensures |rx.buffer| + CHUNK <= MAX_MESSAGE && |m| > CHUNK
    ensures AtBoundary(rx.buffer + m[..CHUNK])
    ensures FeedOne(rx, [0] + m[..CHUNK]) == Rx(rx.buffer + m[..CHUNK], rx.messages, rx.errors)
  {
    var q := |rx.buffer| / CHUNK;
    assert |rx.buffer| == q * CHUNK && q < 1024;
    assert ([0] + m[..CHUNK])[1..] == m[..CHUNK];
  }

  /**
   The sender does not check the size. A message arrives as itself exactly if it is at
   most 16 MiB; a longer one is not merely lost: what follows the rejected chunk is
   taken for a message of its own.
   */
  lemma DeliveredIffFits(m: Bytes)
    ensures FeedAll(Rx([], [], 0), Split(m)) == Rx([], [m], 0) <==> |m| <= MAX_MESSAGE
    ensures MAX_MESSAGE + CHUNK < |m| <= 2 * MAX_MESSAGE + CHUNK ==>
              FeedAll(Rx([], [], 0), Split(m)) == Rx([], [m[MAX_MESSAGE + CHUNK..]], 1)
  {
    hide FeedAll, Split, FeedOne;
    if |m| <= MAX_MESSAGE {
      SplitFeeds(Rx([], [], 0), m);
      assert [] + m == m;
    } else {
      TooLargeFeeds(Rx([], [], 0), m);
      var after := Rx([], [], 1);
      if |m| > MAX_MESSAGE + CHUNK {
        var rest := m[MAX_MESSAGE + CHUNK..];
        ErrorsGrow(after, Split(rest));
        if |rest| <= MAX_MESSAGE {
          SplitFeeds(after, rest);
          assert [] + rest == rest;
        }
      }
    }
  }

  lemma {:induction false} ErrorsGrow(rx: Rx, chunks: seq<Bytes>)
    ensures FeedAll(rx, chunks).errors >= rx.errors
    decreases |chunks|
  {
    if chunks != [] { ErrorsGrow(FeedOne(rx, chunks[0]), chunks[1..]); }
  }
}
