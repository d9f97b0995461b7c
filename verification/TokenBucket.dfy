/**
 The sender's pacing: an AIMD rate, clamped, fills a bucket of tokens from which every
 block is paid. Times are milliseconds; doubles are modelled as reals.
 */
module TokenBuckets {

  const MIN_RATE: int := 300_000
  const MAX_RATE: int := 1_000_000_000
  const FIRST_RATE: int := 200_000_000
  const UPDATE_INTERVAL: nat := 200
  const WORD: nat := 0x1_0000_0000

  /** The pacing fields of the sender; rates are in bits per second. */
  datatype Bucket = Bucket(tokens: real, last: real, target: int, aimd: int, updatedAt: nat)

  /** What an attempt finds: both clocks, and the loss and bandwidth reported meanwhile. */
  datatype Reading = Reading(now: real, ms: nat, loss: nat, bandwidth: int)

  // ---- the rate ----------------------------------------------------------------------------

  function Clamp(x: int): (r: int)
    ensures MIN_RATE <= r <= MAX_RATE && (MIN_RATE <= x <= MAX_RATE ==> r == x)
  {
    if x < MIN_RATE then MIN_RATE else if x > MAX_RATE then MAX_RATE else x
  }

  function UpdateRate(b: Bucket, r: Reading): (u: Bucket)
    ensures u.tokens == b.tokens && u.last == b.last
    ensures MIN_RATE <= u.target <= u.aimd <= MAX_RATE
  {
    var aimd := Clamp(if r.loss > 100 then (b.aimd as real * 0.7).Floor
                      else if r.loss > 30 then (b.aimd as real * 0.9).Floor
                      else b.aimd + 2_000_000);
    var cap := r.bandwidth + r.bandwidth / 10;
    var target := if r.bandwidth > 0 && cap < aimd then cap else aimd;
    b.(aimd := aimd, target := Clamp(target), updatedAt := r.ms)
  }

  /** The 32-bit age of the last rate update. */
  function Age(ms: nat, updatedAt: nat): nat {
    (ms - updatedAt) % WORD
  }

  // ---- the bucket ----------------------------------------------------------------------------

  function BytesPerMs(bps: int): real {
    bps as real / 8000.0
  }

  /** The tokens that come in during `elapsed` milliseconds. */
  function Accrued(elapsed: real, bps: int): real {
    elapsed * BytesPerMs(bps)
  }

  function Burst(bps: int): (r: real)
    ensures r >= 65536.0 && r >= 50.0 * BytesPerMs(bps) && (r == 65536.0 || r == 50.0 * BytesPerMs(bps))
  {
    if BytesPerMs(bps) * 50.0 > 65536.0 then BytesPerMs(bps) * 50.0 else 65536.0
  }

  /** The bucket before an attempt is decided. */
  function Refill(b: Bucket, r: Reading): Bucket {
    var u := if Age(r.ms, b.updatedAt) >= UPDATE_INTERVAL then UpdateRate(b, r) else b;
    var t := b.tokens + Accrued(r.now - b.last, u.target);
    u.(tokens := if t > Burst(u.target) then Burst(u.target) else t, last := r.now)
  }

  predicate Grants(b: Bucket, r: Reading, bytes: nat) {
    Refill(b, r).tokens >= bytes as real
  }

  function Attempt(b: Bucket, r: Reading, bytes: nat): Bucket {
    var c := Refill(b, r);
    if Grants(b, r, bytes) then c.(tokens := c.tokens - bytes as real) else c
  }

  /** Resuming after a pause: nothing has accumulated meanwhile. */
  function Resume(b: Bucket, now: real): Bucket {
    b.(tokens := 0.0, last := now)
  }

  ghost predicate Inv(b: Bucket) {
    && MIN_RATE <= b.target <= MAX_RATE && MIN_RATE <= b.aimd <= MAX_RATE
    && 0.0 <= b.tokens <= Burst(MAX_RATE)
  }

  /** A higher rate brings in more, and allows a larger burst. */
  lemma RateOrder(elapsed: real, a: int, b: int)
    requires a <= b && 0.0 <= elapsed
    ensures Accrued(elapsed, a) <= Accrued(elapsed, b) && Burst(a) <= Burst(b)
    ensures 0 <= a ==> 0.0 <= Accrued(elapsed, a)
  {
    var x, y := BytesPerMs(a), BytesPerMs(b);
    assert x <= y;
    assert elapsed * (y - x) >= 0.0;
  }

  lemma AccruedSum(x: real, y: real, bps: int)
    ensures Accrued(x, bps) + Accrued(y, bps) == Accrued(x + y, bps)
  {}

  lemma RefillInv(b: Bucket, r: Reading)
    requires Inv(b) && b.last <= r.now
    ensures Inv(Refill(b, r)) && Refill(b, r).last == r.now
    ensures Refill(b, r).tokens <= Burst(Refill(b, r).target)
    ensures Refill(b, r).tokens <= b.tokens + Accrued(r.now - b.last, Refill(b, r).target)
  {
    hide Burst, UpdateRate, Accrued;
    RateBounded(b, r);
    var u := if Age(r.ms, b.updatedAt) >= UPDATE_INTERVAL then UpdateRate(b, r) else b;
    RateOrder(r.now - b.last, u.target, MAX_RATE);
  }

  /** After an update the rate is within its bounds, whatever is reported. */
  lemma RateBounded(b: Bucket, r: Reading)
    ensures MIN_RATE <= UpdateRate(b, r).target <= MAX_RATE
    ensures MIN_RATE <= UpdateRate(b, r).aimd <= MAX_RATE
    ensures r.bandwidth > 0 ==>
              UpdateRate(b, r).target <= MIN_RATE || UpdateRate(b, r).target <= r.bandwidth + r.bandwidth / 10
  {}

  /** Losses lower the rate and quiet periods raise it, between the bounds. */
  lemma RateMoves(b: Bucket, r: Reading)
    requires Inv(b)
    ensures r.loss > 30 && b.aimd > MIN_RATE ==> UpdateRate(b, r).aimd < b.aimd
    ensures r.loss <= 30 && b.aimd < MAX_RATE ==> UpdateRate(b, r).aimd > b.aimd
  {
    var x := b.aimd as real;
    assert (x * 0.7).Floor as real <= x * 0.7 < x;
    assert (x * 0.9).Floor as real <= x * 0.9 < x;
  }

  /**
   By how much, as long as the bounds allow: heavy loss takes 30 per cent, loss 10 per
   cent, and quiet adds 2 Mbit/s.
   */
  lemma RateFactors(b: Bucket, r: Reading)
    requires Inv(b)
    ensures var aimd := UpdateRate(b, r).aimd;
            && (r.loss > 100 && MIN_RATE < aimd ==> 10 * aimd <= 7 * b.aimd < 10 * (aimd + 1))
            && (r.loss > 100 && aimd == MIN_RATE ==> 7 * b.aimd < 10 * (MIN_RATE + 1))
            && (30 < r.loss <= 100 && MIN_RATE < aimd ==> 10 * aimd <= 9 * b.aimd < 10 * (aimd + 1))
            && (30 < r.loss <= 100 && aimd == MIN_RATE ==> 9 * b.aimd < 10 * (MIN_RATE + 1))
            && (r.loss <= 30 && aimd < MAX_RATE ==> aimd == b.aimd + 2_000_000)
            && (r.loss <= 30 && aimd == MAX_RATE ==> b.aimd + 2_000_000 >= MAX_RATE)
  {
    Portion(b.aimd, 7, 0.7);
    Portion(b.aimd, 9, 0.9);
  }

  lemma Portion(x: int, tenths: int, share: real)
    requires 0 <= x && share * 10.0 == tenths as real
    ensures var y := (x as real * share).Floor; 10 * y <= tenths * x < 10 * (y + 1)
  {
    var y := (x as real * share).Floor;
    assert y as real <= x as real * share < y as real + 1.0;
    assert (tenths * x) as real == x as real * share * 10.0;
    assert (10 * y) as real <= (tenths * x) as real < (10 * (y + 1)) as real;
  }

  /** Nothing but the AIMD rate and a known bandwidth keeps the target down. */
  lemma TargetIsHighest(b: Bucket, r: Reading, x: int)
    requires x <= UpdateRate(b, r).aimd && (r.bandwidth > 0 ==> x <= r.bandwidth + r.bandwidth / 10)
    ensures x <= UpdateRate(b, r).target
  {}

  /** An attempt never runs on a rate 200 ms old, and leaves a younger one alone. */
  lemma RateIsFresh(b: Bucket, r: Reading, bytes: nat)
    ensures var c := Attempt(b, r, bytes);
            && (r.ms - c.updatedAt) % 0x1_0000_0000 < 200
            && ((r.ms - b.updatedAt) % 0x1_0000_0000 < 200 ==>
                  c.target == b.target && c.aimd == b.aimd && c.updatedAt == b.updatedAt)
  {}

  lemma AttemptInv(b: Bucket, r: Reading, bytes: nat)
    requires Inv(b) && b.last <= r.now
    ensures Inv(Attempt(b, r, bytes))
  {
    RefillInv(b, r);
  }

  // ---- what is granted over time -----------------------------------------------------------------

  datatype Event = Take(reading: Reading, bytes: nat) | Resumed(now: real)

  function Time(e: Event): real {
    match e
    case Take(r, _) => r.now
    case Resumed(now) => now
  }

  function Step(b: Bucket, e: Event): Bucket {
    match e
    case Take(r, bytes) => Attempt(b, r, bytes)
    case Resumed(now) => Resume(b, now)
  }

  function After(b: Bucket, events: seq<Event>): Bucket {
    if events == [] then b else Step(After(b, events[..|events| - 1]), events[|events| - 1])
  }

  function Paid(b: Bucket, e: Event): nat {
    match e
    case Take(r, bytes) => if Grants(b, r, bytes) then bytes else 0
    case _ => 0
  }

  /** The bytes granted during a run. */
  function Granted(b: Bucket, events: seq<Event>): nat {
    if events == [] then 0
    else
      var init := events[..|events| - 1];
      Granted(b, init) + Paid(After(b, init), events[|events| - 1])
  }

  /** The clock never goes back. */
  ghost predicate Monotone(b: Bucket, events: seq<Event>) {
    && (forall k | 0 <= k < |events| :: b.last <= Time(events[k]))
    && forall j, k | 0 <= j < k < |events| :: Time(events[j]) <= Time(events[k])
  }

  /** The target never exceeds `cap` during the run. */
  ghost predicate Capped(b: Bucket, events: seq<Event>, cap: int) {
    b.target <= cap && forall k | 0 <= k <= |events| :: After(b, events[..k]).target <= cap
  }

  lemma StepInv(b: Bucket, e: Event)
    requires Inv(b) && b.last <= Time(e)
    ensures Inv(Step(b, e)) && Step(b, e).last == Time(e)
  {
    if e.Take? {
      AttemptInv(b, e.reading, e.bytes);
      RefillInv(b, e.reading);
    }
  }

  /** Tokens stay non-negative and the rate within its bounds in every run. */
  lemma {:induction false} RunInv(b: Bucket, events: seq<Event>)
    requires Inv(b) && Monotone(b, events)
    ensures Inv(After(b, events))
    ensures After(b, events).last == if events == [] then b.last else Time(events[|events| - 1])
  {
    hide Inv;
    if events != [] {
      var n := |events| - 1;
      MonotoneInit(b, events);
      RunInv(b, events[..n]);
      StepInv(After(b, events[..n]), events[n]);
    }
  }

  lemma MonotoneInit(b: Bucket, events: seq<Event>)
    requires events != [] && Monotone(b, events)
    ensures Monotone(b, events[..|events| - 1])
    ensures |events| > 1 ==> Time(events[|events| - 2]) <= Time(events[|events| - 1])
  {}

  lemma CappedInit(b: Bucket, events: seq<Event>, cap: int)
    requires events != [] && Capped(b, events, cap)
    ensures Capped(b, events[..|events| - 1], cap)
    ensures After(b, events).target <= cap
  {
    hide After;
    var n := |events| - 1;
    forall k | 0 <= k <= n ensures After(b, events[..n][..k]).target <= cap {
      assert events[..n][..k] == events[..k];
    }
    assert events[..n + 1] == events;
  }

  /** One step: what is paid and what remains come from what was there and the refill. */
  lemma StepBound(b: Bucket, e: Event, cap: int)
    requires Inv(b) && b.last <= Time(e) && Step(b, e).target <= cap
    ensures Paid(b, e) as real + Step(b, e).tokens <= Burst(cap)
    ensures Paid(b, e) as real + Step(b, e).tokens <= b.tokens + Accrued(Time(e) - b.last, cap)
  {
    hide Burst, Refill, Accrued;
    StepInv(b, e);
    if e.Take? {
      var c := Refill(b, e.reading);
      RefillInv(b, e.reading);
      RateOrder(Time(e) - b.last, c.target, cap);
    } else {
      RateOrder(Time(e) - b.last, b.target, cap);
    }
  }

  /**
   The bytes granted between any two moments of any run: one burst and the rate times
   the elapsed time, for every bound on the rate that holds meanwhile.
   */
  lemma {:induction false} GrantedBound(b: Bucket, events: seq<Event>, cap: int)
    requires Inv(b) && Monotone(b, events) && Capped(b, events, cap) && events != []
    ensures Granted(b, events) as real + After(b, events).tokens
         <= Burst(cap) + Accrued(Time(events[|events| - 1]) - Time(events[0]), cap)
  {
    hide Inv, Burst, Accrued, Step, Paid, Capped, Monotone;
    var n := |events| - 1;
    var init, e := events[..n], events[n];
    var a := After(b, init);
    MonotoneInit(b, events);
    CappedInit(b, events, cap);
    RunInv(b, init);
    FirstTime(b, events);
    StepBound(a, e, cap);
    if n > 0 {
      GrantedBound(b, init, cap);
      AccruedSum(Time(init[n - 1]) - Time(events[0]), Time(e) - Time(init[n - 1]), cap);
    } else {
      NoTime(cap);
    }
  }

  lemma NoTime(cap: int)
    ensures Accrued(0.0, cap) == 0.0
  {}

  lemma FirstTime(b: Bucket, events: seq<Event>)
    requires events != [] && Monotone(b, events)
    ensures b.last <= Time(events[|events| - 1])
  {}

  /** The bound for the highest rate: 6.25 MB and 125 kB per millisecond. */
  lemma GrantedAtMost(b: Bucket, events: seq<Event>)
    requires Inv(b) && Monotone(b, events) && events != []
    ensures Granted(b, events) as real
         <= 6_250_000.0 + 125_000.0 * (Time(events[|events| - 1]) - Time(events[0]))
  {
    hide *;
    AlwaysCapped(b, events);
    GrantedBound(b, events, MAX_RATE);
    RunInv(b, events);
    TargetBounded(After(b, events));
    AtMaxRate(Time(events[|events| - 1]) - Time(events[0]));
  }

  lemma AtMaxRate(elapsed: real)
    ensures Burst(MAX_RATE) == 6_250_000.0 && Accrued(elapsed, MAX_RATE) == 125_000.0 * elapsed
  {}

  lemma AlwaysCapped(b: Bucket, events: seq<Event>)
    requires Inv(b) && Monotone(b, events)
    ensures Capped(b, events, MAX_RATE)
  {
    hide Inv, Monotone, After;
    TargetBounded(b);
    forall k | 0 <= k <= |events| ensures After(b, events[..k]).target <= MAX_RATE {
      MonotonePrefix(b, events, k);
      RunInv(b, events[..k]);
      TargetBounded(After(b, events[..k]));
    }
  }

  lemma TargetBounded(b: Bucket)
    requires Inv(b)
    ensures b.target <= MAX_RATE && 0.0 <= b.tokens
  {}

  lemma MonotonePrefix(b: Bucket, events: seq<Event>, k: nat)
    requires Monotone(b, events) && k <= |events|
    ensures Monotone(b, events[..k])
  {}

  // ---- waiting ends ----------------------------------------------------------------------------------

  /** A refused attempt keeps what it gathered, at the lowest rate or better. */
  lemma RefusedGathers(b: Bucket, r: Reading, bytes: nat)
    requires Inv(b) && b.last <= r.now && bytes <= 65536 && !Grants(b, r, bytes)
    ensures b.tokens + Accrued(r.now - b.last, MIN_RATE) <= Attempt(b, r, bytes).tokens < bytes as real
  {
    hide Accrued, UpdateRate;
    RefillInv(b, r);
    RateOrder(r.now - b.last, MIN_RATE, Refill(b, r).target);
  }

  /**
   Waiting for a block ends: a row of refused attempts for the same bytes is shorter
   than the time these bytes take at the lowest rate.
   */
  lemma {:induction false} WaitBounded(b: Bucket, events: seq<Event>, bytes: nat)
    requires Inv(b) && Monotone(b, events) && 0 < bytes <= 65536 && events != []
    requires forall k | 0 <= k < |events| :: events[k].Take? && events[k].bytes == bytes
    requires Granted(b, events) == 0
    ensures Accrued(Time(events[|events| - 1]) - b.last, MIN_RATE) <= After(b, events).tokens < bytes as real
  {
    hide Inv, Grants, Attempt, Accrued;
    var n := |events| - 1;
    var init, e := events[..n], events[n];
    MonotoneInit(b, events);
    RunInv(b, init);
    FirstTime(b, events);
    RefusedGathers(After(b, init), e.reading, bytes);
    if n > 0 {
      WaitBounded(b, init, bytes);
      AccruedSum(Time(init[n - 1]) - b.last, Time(e) - Time(init[n - 1]), MIN_RATE);
    }
    TargetBounded(b);
  }

  // ---- the sender's fields --------------------------------------------------------------------------------

  class Pacer {
    var tokens: real
    var lastTokenMs: real
    var targetBps: int
    var aimdBps: int
    var lastRateUpdateMs: nat

    ghost function View(): Bucket
      reads this
    {
      Bucket(tokens, lastTokenMs, targetBps, aimdBps, lastRateUpdateMs)
    }

    /** The fields as the sender thread begins, after the first rate update. */
    constructor (r: Reading)
      ensures Inv(View()) && tokens == 0.0 && lastTokenMs == r.now
    {
      tokens, lastTokenMs, targetBps, aimdBps, lastRateUpdateMs := 0.0, r.now, 0, FIRST_RATE, 0;
      new;
      Update(r);
    }

    /**
     Whatever the rate was and whatever is reported, it ends within its bounds and under
     a known bandwidth; loss lowers it and its absence raises it; the tokens stay.
     */
    method Update(r: Reading)
      modifies this
      ensures View() == UpdateRate(old(View()), r)
      ensures MIN_RATE <= targetBps <= aimdBps <= MAX_RATE
      ensures r.bandwidth > 0 && targetBps > MIN_RATE ==> targetBps <= r.bandwidth + r.bandwidth / 10
      ensures old(Inv(View())) ==> Inv(View())
      ensures old(Inv(View())) && r.loss > 30 && old(aimdBps) > MIN_RATE ==> aimdBps < old(aimdBps)
      ensures old(Inv(View())) && r.loss <= 30 && old(aimdBps) < MAX_RATE ==> aimdBps > old(aimdBps)
      ensures targetBps == aimdBps
           || (r.bandwidth > 0 && targetBps == Clamp(r.bandwidth + r.bandwidth / 10))
      ensures tokens == old(tokens) && lastTokenMs == old(lastTokenMs)
    {
      RateBounded(View(), r);
      if Inv(View()) { RateMoves(View(), r); }
      hide Burst;
      lastRateUpdateMs := r.ms;
      if r.loss > 100 {
        aimdBps := (aimdBps as real * 0.7).Floor;
      } else if r.loss > 30 {
        aimdBps := (aimdBps as real * 0.9).Floor;
      } else {
        aimdBps := aimdBps + 2_000_000;
      }
      aimdBps := Clamp(aimdBps);
      var target := aimdBps;
      if r.bandwidth > 0 && r.bandwidth + r.bandwidth / 10 < target {
        target := r.bandwidth + r.bandwidth / 10;
      }
      targetBps := Clamp(target);
    }

    /**
     Attempts at the given readings until one is granted; without one the sender was
     stopped while waiting.
     */
    method WaitTokens(bytes: nat, readings: seq<Reading>) returns (granted: bool, used: nat)
      requires Inv(View()) && Monotone(View(), Takes(readings, bytes))
      modifies this
      ensures used <= |readings| && Inv(View())
      ensures View() == After(old(View()), Takes(readings[..used], bytes))
      ensures Granted(old(View()), Takes(readings[..used], bytes)) == if granted then bytes else 0
      ensures !granted ==> used == |readings|
    {
      hide Inv, Monotone, Attempt;
      ghost var b := View();
      granted, used := false, 0;
      assert readings[..|readings|] == readings;
      while used < |readings|
        invariant used <= |readings|
        invariant View() == After(b, Takes(readings[..used], bytes))
        invariant Granted(b, Takes(readings[..used], bytes)) == 0
      {
        OneMore(b, readings, bytes, used);
        granted := TryTake(bytes, readings[used]);
        used := used + 1;
        if granted { break; }
      }
      TakesPrefix(b, readings, bytes, used);
      RunInv(b, Takes(readings[..used], bytes));
    }

    method TryTake(bytes: nat, r: Reading) returns (granted: bool)
      modifies this
      ensures View() == Attempt(old(View()), r, bytes) && granted == Grants(old(View()), r, bytes)
    {
      hide UpdateRate, Burst, Accrued;
      if Age(r.ms, lastRateUpdateMs) >= UPDATE_INTERVAL {
        Update(r);
      }
      tokens := tokens + Accrued(r.now - lastTokenMs, targetBps);
      lastTokenMs := r.now;
      var burst := Burst(targetBps);
      if tokens > burst {
        tokens := burst;
      }
      granted := tokens >= bytes as real;
      if granted {
        tokens := tokens - bytes as real;
      }
    }

    /** Goes on at once unless paused; after a pause no tokens have gathered. */
    method PauseWait(paused: bool, now: real)
      requires Inv(View()) && lastTokenMs <= now
      modifies this`tokens, this`lastTokenMs
      ensures View() == (if paused then Resume(old(View()), now) else old(View())) && Inv(View())
      ensures paused ==> tokens == 0.0 && lastTokenMs == now
    {
      if !paused { return; }
      lastTokenMs := now;
      tokens := 0.0;
    }
  }

  function Takes(readings: seq<Reading>, bytes: nat): (events: seq<Event>)
    ensures |events| == |readings|
    ensures forall k | 0 <= k < |events| :: events[k] == Take(readings[k], bytes)
  {
    if readings == [] then [] else Takes(readings[..|readings| - 1], bytes) + [Take(readings[|readings| - 1], bytes)]
  }

  lemma OneMore(b: Bucket, readings: seq<Reading>, bytes: nat, k: nat)
    requires k < |readings|
    ensures var before := Takes(readings[..k], bytes);
            var after := Takes(readings[..k + 1], bytes);
            && After(b, after) == Attempt(After(b, before), readings[k], bytes)
            && Granted(b, after)
               == Granted(b, before) + if Grants(After(b, before), readings[k], bytes) then bytes else 0
  {
    hide Attempt, Grants;
    assert readings[..k + 1][..k] == readings[..k];
    var after := Takes(readings[..k + 1], bytes);
    assert after[..k] == Takes(readings[..k], bytes);
  }

  lemma TakesPrefix(b: Bucket, readings: seq<Reading>, bytes: nat, k: nat)
    requires k <= |readings| && Monotone(b, Takes(readings, bytes))
    ensures Monotone(b, Takes(readings[..k], bytes))
  {
    assert Takes(readings[..k], bytes) == Takes(readings, bytes)[..k];
    MonotonePrefix(b, Takes(readings, bytes), k);
  }
}
