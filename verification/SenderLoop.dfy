/**
 The order in which the sending engine works through the files: swept files stay in
 flight until the receiver verified them, at most eight at a time.
 */
module SenderLoop {

  const MAX_INFLIGHT: nat := 8

  /** `next` is the first file not swept or skipped yet. */
  datatype Loop = Loop(next: nat, inflight: seq<nat>, finished: bool)

  const LOOP_START := Loop(0, [], false)

  /** The files in flight that are not verified yet, in order. */
  function Reaped(inflight: seq<nat>, ok: seq<bool>): seq<nat> {
    if inflight == [] then []
    else
      var rest := Reaped(inflight[1..], ok);
      if inflight[0] < |ok| && ok[inflight[0]] then rest else [inflight[0]] + rest
  }

  lemma {:induction false} ReapedSplit(a: seq<nat>, x: nat, b: seq<nat>, ok: seq<bool>)
    ensures Reaped(a + [x] + b, ok) == Reaped(a, ok) + (if x < |ok| && ok[x] then [] else [x]) + Reaped(b, ok)
  {
    if a == [] {
      assert a + [x] + b == [x] + b;
      assert ([x] + b)[1..] == b;
    } else {
      assert (a + [x] + b)[1..] == a[1..] + [x] + b;
      ReapedSplit(a[1..], x, b, ok);
    }
  }

  lemma {:induction false} ReapedMembers(inflight: seq<nat>, ok: seq<bool>)
    ensures forall j :: j in Reaped(inflight, ok) <==> j in inflight && !(j < |ok| && ok[j])
    ensures |Reaped(inflight, ok)| <= |inflight|
  {
    if inflight != [] {
      ReapedMembers(inflight[1..], ok);
      assert inflight == [inflight[0]] + inflight[1..];
    }
  }

  /** `ReapInflight`: erases the verified files one by one. */
  method ReapInflight(inflight: seq<nat>, ok: seq<bool>) returns (kept: seq<nat>)
    ensures kept == Reaped(inflight, ok)
  {
    kept := inflight;
    var i := 0;
    while i < |kept|
      invariant i <= |kept|
      invariant Reaped(kept, ok) == Reaped(inflight, ok)
      invariant Reaped(kept[..i], ok) == kept[..i]
      decreases |kept| - i
    {
      var x := kept[i];
      assert kept == kept[..i] + [x] + kept[i + 1..];
      ReapedSplit(kept[..i], x, kept[i + 1..], ok);
      if x < |ok| && ok[x] {
        ghost var before := kept;
        kept := kept[..i] + kept[i + 1..];
        ReapedAppend(before[..i], before[i + 1..], ok);
        assert kept[..i] == before[..i];
      } else {
        assert kept[..i + 1] == kept[..i] + [x] + [];
        ReapedSplit(kept[..i], x, [], ok);
        i := i + 1;
      }
    }
    assert kept[..i] == kept;
  }

  lemma {:induction false} ReapedAppend(a: seq<nat>, b: seq<nat>, ok: seq<bool>)
    ensures Reaped(a + b, ok) == Reaped(a, ok) + Reaped(b, ok)
  {
    if a == [] {
      assert a + b == b;
    } else {
      assert (a + b)[1..] == a[1..] + b;
      ReapedAppend(a[1..], b, ok);
    }
  }

  datatype Move = SkipVerified | SweepNext | Reap | Finish

  predicate CanMove(c: Loop, ok: seq<bool>, m: Move) {
    && !c.finished
    && match m
       case SkipVerified => c.next < |ok| && ok[c.next] && |c.inflight| < MAX_INFLIGHT
       case SweepNext => c.next < |ok| && !ok[c.next] && |c.inflight| < MAX_INFLIGHT
       case Reap => true
       case Finish => c.next == |ok| && Reaped(c.inflight, ok) == []
  }

  function Moved(c: Loop, ok: seq<bool>, m: Move): Loop {
    match m
    case SkipVerified => c.(next := c.next + 1)
    case SweepNext => c.(next := c.next + 1, inflight := c.inflight + [c.next])
    case Reap => c.(inflight := Reaped(c.inflight, ok))
    case Finish => c.(inflight := [], finished := true)
  }

  /** Every file passed is verified or still in flight. */
  ghost predicate LoopInv(c: Loop, ok: seq<bool>) {
    && c.next <= |ok|
    && |c.inflight| <= MAX_INFLIGHT
    && (forall j: nat | j < c.next :: ok[j] || j in c.inflight)
    && (c.finished ==> forall j: nat | j < |ok| :: ok[j])
  }

  lemma MoveInv(c: Loop, ok: seq<bool>, m: Move)
    requires LoopInv(c, ok) && CanMove(c, ok, m)
    ensures LoopInv(Moved(c, ok, m), ok) && |Moved(c, ok, m).inflight| <= 8
  {
    ReapedMembers(c.inflight, ok);
    if m.SweepNext? {
      var d := Moved(c, ok, m);
      forall j: nat | j < d.next ensures ok[j] || j in d.inflight {
        assert j == c.next ==> d.inflight[|c.inflight|] == j;
      }
    }
  }

  /** Verdicts arriving meanwhile only help. */
  lemma MoreOkInv(c: Loop, ok: seq<bool>, more: seq<bool>)
    requires LoopInv(c, ok) && |more| == |ok| && forall j | 0 <= j < |ok| && ok[j] :: more[j]
    ensures LoopInv(c, more)
  {}
}
