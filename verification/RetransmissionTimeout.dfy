/** RetransmissionTimeoutEstimator: integer SRTT and RTTVAR, clamped, with exponential backoff. */
module RetransmissionTimeout {

  newtype uint64 = x: int | 0 <= x < 0x1_0000_0000_0000_0000
  newtype int64 = x: int | -0x8000_0000_0000_0000 <= x < 0x8000_0000_0000_0000

  const CLOCK_GRANULARITY_MS: nat := 1
  const NANOSECONDS_PER_MS: int64 := 1_000_000
  const LARGEST_SAMPLE_MS: nat := 9_223_372_036_854  // a steady_clock duration is below 2^63 ns

  function Max(a: int, b: int): int { if a >= b then a else b }
  function Min(a: int, b: int): int { if a <= b then a else b }
  function Clamp(x: int, lo: int, hi: int): int { if x < lo then lo else if x > hi then hi else x }
  function Gap(a: int, b: int): int { if a > b then a - b else b - a }

  // SRTT and RTTVAR; None before the first sample.
  datatype Rtt = NoSample | Rtt(smoothed: nat, variation: nat)

  datatype Estimator = Estimator(rtt: Rtt, minRto: nat, maxRto: nat, rto: nat, suppressedUntil: nat)

  // Whole milliseconds, but at least one.
  function SampleMs(sample: int64): (ms: nat)
    ensures 1 <= ms <= LARGEST_SAMPLE_MS && sample as int < (ms + 1) * 1_000_000
    ensures ms > 1 ==> ms * 1_000_000 <= sample as int
  {
    var count := if sample < 0 then 0 else (sample / NANOSECONDS_PER_MS) as int;
    if count > 1 then count else 1
  }

  function Smooth(rtt: Rtt, ms: nat): (r: Rtt)
    ensures r.Rtt?
  {
    match rtt
    case NoSample => Rtt(ms, ms / 2)
    case Rtt(s, v) => Rtt((7 * s + ms) / 8, (3 * v + Gap(s, ms)) / 4)
  }

  function Timeout(rtt: Rtt): nat
    requires rtt.Rtt?
  {
    rtt.smoothed + Max(CLOCK_GRANULARITY_MS, 4 * rtt.variation)
  }

  // The bounds asked for, raised where they must be, and the value within them nearest to the initial one.
  function Configured(initial: nat, min: nat, max: nat): (e: Estimator)
    ensures e.rtt == NoSample && e.suppressedUntil == 0
    ensures e.minRto == (if min == 0 then 1 else min) && e.maxRto == (if max < e.minRto then e.minRto else max)
    ensures e.minRto <= e.rto <= e.maxRto
    ensures forall r :: e.minRto <= r <= e.maxRto ==> Gap(e.rto, initial) <= Gap(r, initial)
  {
    var lo := Max(1, min);
    var hi := Max(lo, max);
    Estimator(NoSample, lo, hi, Clamp(initial, lo, hi), 0)
  }

  function AfterSample(e: Estimator, ms: nat): Estimator {
    var rtt := Smooth(e.rtt, ms);
    e.(rtt := rtt, rto := Clamp(Timeout(rtt), e.minRto, e.maxRto), suppressedUntil := 0)
  }

  // `now` and suppressedUntil are times in milliseconds; 0 means not set.
  predicate Backs(e: Estimator, now: nat) {
    e.suppressedUntil == 0 || now >= e.suppressedUntil
  }

  function AfterTimeout(e: Estimator, now: nat): Estimator {
    if !Backs(e, now) then e
    else
      var next := Clamp(e.rto * 2, e.minRto, e.maxRto);
      e.(rto := next, suppressedUntil := now + next)
  }

  // The values a run of samples can reach, far below 2^64.
  predicate Small(rtt: Rtt) {
    rtt.Rtt? ==> rtt.smoothed <= LARGEST_SAMPLE_MS && rtt.variation <= LARGEST_SAMPLE_MS
  }

  predicate InRange(e: Estimator) {
    1 <= e.minRto <= e.maxRto < 0x1_0000_0000 && e.minRto <= e.rto <= e.maxRto
  }

  // Every intermediate value is a uint64, so none of the steps wraps.
  class RetransmissionTimeoutEstimator {
    var hasRttSample: bool
    var smoothedRttMs: uint64
    var rttVariationMs: uint64
    var minRtoMs: uint64
    var maxRtoMs: uint64
    var cachedRtoMs: uint64
    var backoffSuppressedUntil: nat

    ghost function View(): Estimator
      reads this
    {
      Estimator(if hasRttSample then Rtt(smoothedRttMs as nat, rttVariationMs as nat) else NoSample,
                minRtoMs as nat, maxRtoMs as nat, cachedRtoMs as nat, backoffSuppressedUntil)
    }

    ghost predicate Valid()
      reads this
    {
      InRange(View()) && Small(View().rtt)
    }

    constructor (inInitialRtoMs: nat, inMinRtoMs: nat, inMaxRtoMs: nat)
      requires inInitialRtoMs < 0x1_0000_0000 && inMinRtoMs < 0x1_0000_0000 && inMaxRtoMs < 0x1_0000_0000
      ensures Valid() && View() == Configured(inInitialRtoMs, inMinRtoMs, inMaxRtoMs)
    {
      minRtoMs, maxRtoMs, cachedRtoMs := 1, 1, 1;
      hasRttSample, smoothedRttMs, rttVariationMs := false, 0, 0;
      backoffSuppressedUntil := 0;
      new;
      Configure(inInitialRtoMs, inMinRtoMs, inMaxRtoMs);
    }

    method Configure(inInitialRtoMs: nat, inMinRtoMs: nat, inMaxRtoMs: nat)
      requires inInitialRtoMs < 0x1_0000_0000 && inMinRtoMs < 0x1_0000_0000 && inMaxRtoMs < 0x1_0000_0000
      modifies this
      ensures Valid() && View() == Configured(inInitialRtoMs, inMinRtoMs, inMaxRtoMs)
    {
      minRtoMs := Max(1, inMinRtoMs) as uint64;
      maxRtoMs := Max(minRtoMs as int, inMaxRtoMs) as uint64;
      hasRttSample := false;
      smoothedRttMs := 0;
      rttVariationMs := 0;
      backoffSuppressedUntil := 0;
      cachedRtoMs := ClampRto(inInitialRtoMs as uint64);
    }

    function ClampRto(rtoMs: uint64): (r: uint64)
      requires minRtoMs <= maxRtoMs
      reads this
      ensures r as int == Clamp(rtoMs as int, minRtoMs as int, maxRtoMs as int)
    {
      if rtoMs < minRtoMs then minRtoMs else if rtoMs > maxRtoMs then maxRtoMs else rtoMs
    }

    // (weight * old + x) / (weight + 1) without wrapping
    static function Weighted(weight: uint64, previous: uint64, x: uint64): (r: uint64)
      requires weight <= 7 && previous as int <= LARGEST_SAMPLE_MS && x as int <= LARGEST_SAMPLE_MS
      ensures r as int == (weight as int * previous as int + x as int) / (weight as int + 1)
    {
      (weight * previous + x) / (weight + 1)
    }

    method SmoothRtt(sampleMs: uint64)
      requires Small(View().rtt) && sampleMs as int <= LARGEST_SAMPLE_MS
      modifies this`hasRttSample, this`smoothedRttMs, this`rttVariationMs
      ensures View() == old(View()).(rtt := Smooth(old(View()).rtt, sampleMs as nat))
    {
      if !hasRttSample {
        smoothedRttMs := sampleMs;
        rttVariationMs := sampleMs / 2;
        hasRttSample := true;
      } else {
        var deviation := if smoothedRttMs > sampleMs then smoothedRttMs - sampleMs else sampleMs - smoothedRttMs;
        rttVariationMs := Weighted(3, rttVariationMs, deviation);
        smoothedRttMs := Weighted(7, smoothedRttMs, sampleMs);
      }
    }

    method OnRttSample(sample: int64)
      requires Valid()
      modifies this
      ensures Valid() && View() == AfterSample(old(View()), SampleMs(sample))
    {
      var sampleMs := SampleMs(sample) as uint64;
      SmoothSmall(View().rtt, sampleMs as nat);
      SmoothRtt(sampleMs);
      hide Smooth, SampleMs;
      var fourfold := 4 * rttVariationMs;
      var rtoMs := smoothedRttMs + (if fourfold > 1 then fourfold else 1);
      cachedRtoMs := ClampRto(rtoMs);
      backoffSuppressedUntil := 0;
    }

    method OnTimeout(now: nat) returns (applied: bool)
      requires Valid()
      modifies this
      ensures Valid() && View() == AfterTimeout(old(View()), now) && applied == Backs(old(View()), now)
    {
      if backoffSuppressedUntil != 0 && now < backoffSuppressedUntil { return false; }
      var nextRtoMs := ClampRto(cachedRtoMs * 2);
      cachedRtoMs := nextRtoMs;
      backoffSuppressedUntil := now + nextRtoMs as nat;
      return true;
    }
  }

  lemma SmoothSmall(rtt: Rtt, ms: nat)
    requires Small(rtt) && ms <= LARGEST_SAMPLE_MS
    ensures Small(Smooth(rtt, ms))
  {
  }

  // --- Against section 2 of RFC 6298 in exact arithmetic ---

  // SRTT and RTTVAR as the section defines them, with alpha = 1/8, beta = 1/4 and K = 4.
  datatype Exact = Exact(srtt: real, rttvar: real)

  function Abs(x: real): real { if x >= 0.0 then x else -x }

  function ExactSmooth(samples: seq<nat>): Exact
    requires samples != []
    decreases |samples|
  {
    var r := samples[|samples| - 1] as real;
    if |samples| == 1 then Exact(r, r / 2.0)
    else
      var before := ExactSmooth(samples[..|samples| - 1]);
      Exact(0.875 * before.srtt + 0.125 * r, 0.75 * before.rttvar + 0.25 * Abs(before.srtt - r))
  }

  function ExactTimeout(x: Exact): real {
    x.srtt + (if 4.0 * x.rttvar >= 1.0 then 4.0 * x.rttvar else 1.0)
  }

  function SmoothAll(samples: seq<nat>): (r: Rtt)
    requires samples != []
    ensures r.Rtt?
    decreases |samples|
  {
    var ms := samples[|samples| - 1];
    Smooth(if |samples| == 1 then NoSample else SmoothAll(samples[..|samples| - 1]), ms)
  }

  ghost predicate Close(rtt: Rtt, x: Exact)
    requires rtt.Rtt?
  {
    && 0.0 <= x.srtt - rtt.smoothed as real <= 7.0
    && -10.0 <= rtt.variation as real - x.rttvar <= 7.0
  }

  lemma SrttStep(s: nat, ms: nat, exact: real)
    requires 0.0 <= exact - s as real <= 7.0
    ensures 0.0 <= 0.875 * exact + 0.125 * ms as real - ((7 * s + ms) / 8) as real <= 7.0
  {
    var total := 7 * s + ms;
    var q := total / 8;
    assert 8 * q <= total <= 8 * q + 7;
    assert 8.0 * q as real <= 7.0 * s as real + ms as real <= 8.0 * q as real + 7.0;
  }

  lemma RttvarStep(v: nat, s: nat, ms: nat, exactV: real, exactS: real)
    requires 0.0 <= exactS - s as real <= 7.0 && -10.0 <= v as real - exactV <= 7.0
    ensures -10.0 <= ((3 * v + Gap(s, ms)) / 4) as real - (0.75 * exactV + 0.25 * Abs(exactS - ms as real)) <= 7.0
  {
    var gap := Gap(s, ms);
    var total := 3 * v + gap;
    var q := total / 4;
    assert 4 * q <= total <= 4 * q + 3;
    assert 4.0 * q as real <= 3.0 * v as real + gap as real <= 4.0 * q as real + 3.0;
    assert -7.0 <= gap as real - Abs(exactS - ms as real) <= 7.0;
  }

  lemma {:induction false} SmoothClose(samples: seq<nat>)
    requires samples != []
    ensures Close(SmoothAll(samples), ExactSmooth(samples))
    decreases |samples|
  {
    var ms := samples[|samples| - 1];
    if |samples| == 1 {
      var half := ms / 2;
      assert 2 * half <= ms <= 2 * half + 1;
    } else {
      var before := samples[..|samples| - 1];
      SmoothClose(before);
      var rtt, x := SmoothAll(before), ExactSmooth(before);
      SrttStep(rtt.smoothed, ms, x.srtt);
      RttvarStep(rtt.variation, rtt.smoothed, ms, x.rttvar, x.srtt);
    }
  }

  // Over every run of samples SRTT is low by at most 7, RTTVAR is off by at most 10, and the timeout
  // before clamping by at most 47 milliseconds.
  lemma {:induction false} TracksRfc6298(samples: seq<nat>)
    requires samples != []
    ensures var rtt, x := SmoothAll(samples), ExactSmooth(samples);
            && 0.0 <= x.srtt - rtt.smoothed as real <= 7.0
            && -10.0 <= rtt.variation as real - x.rttvar <= 7.0
            && -47.0 <= Timeout(rtt) as real - ExactTimeout(x) <= 28.0
  {
    SmoothClose(samples);
    var rtt, x := SmoothAll(samples), ExactSmooth(samples);
    assert (4 * rtt.variation) as real == 4.0 * rtt.variation as real;
    assert Timeout(rtt) as real == rtt.smoothed as real + Max(1, 4 * rtt.variation) as real;
  }

  // SRTT never leaves the range of the samples.
  lemma {:induction false} SrttBetweenSamples(samples: seq<nat>, lo: nat, hi: nat)
    requires samples != [] && forall ms :: ms in samples ==> lo <= ms <= hi
    ensures lo <= SmoothAll(samples).smoothed <= hi
    decreases |samples|
  {
    assert samples[|samples| - 1] in samples;
    if |samples| > 1 {
      var before := samples[..|samples| - 1];
      assert forall ms :: ms in before ==> ms in samples;
      SrttBetweenSamples(before, lo, hi);
    }
  }

  // --- Backoff ---

  datatype Event = Sample(ms: nat) | TimedOut(now: nat)

  function Step(e: Estimator, event: Event): Estimator {
    match event
    case Sample(ms) => AfterSample(e, ms)
    case TimedOut(now) => AfterTimeout(e, now)
  }

  function After(e: Estimator, events: seq<Event>): Estimator
    decreases |events|
  {
    if events == [] then e else After(Step(e, events[0]), events[1..])
  }

  function Samples(events: seq<Event>): seq<nat> {
    if events == [] then []
    else
      var last := events[|events| - 1];
      Samples(events[..|events| - 1]) + if last.Sample? then [last.ms] else []
  }

  lemma {:induction false} AfterAppend(e: Estimator, events: seq<Event>, event: Event)
    ensures After(e, events + [event]) == Step(After(e, events), event)
    decreases |events|
  {
    if events == [] {
      assert [event][1..] == [];
    } else {
      assert (events + [event])[1..] == events[1..] + [event];
      AfterAppend(Step(e, events[0]), events[1..], event);
    }
  }

  lemma {:induction false} RttOfRun(e: Estimator, events: seq<Event>)
    requires e.rtt == NoSample
    ensures After(e, events).rtt == if Samples(events) == [] then NoSample else SmoothAll(Samples(events))
    decreases |events|
  {
    if events != [] {
      var before, last := events[..|events| - 1], events[|events| - 1];
      assert events == before + [last];
      RttOfRun(e, before);
      AfterAppend(e, before, last);
      if last.Sample? {
        assert Samples(events) == Samples(before) + [last.ms];
        assert (Samples(before) + [last.ms])[..|Samples(before)|] == Samples(before);
      } else {
        assert Samples(events) == Samples(before);
      }
    }
  }

  // The estimator itself, over every run of samples and timeouts since it was configured: its SRTT,
  // RTTVAR and the timeout it clamps are within these bounds of the exact values for its samples.
  lemma EstimatorTracksRfc6298(initial: nat, min: nat, max: nat, events: seq<Event>)
    requires Samples(events) != []
    ensures var rtt, x := After(Configured(initial, min, max), events).rtt, ExactSmooth(Samples(events));
            && rtt.Rtt?
            && 0.0 <= x.srtt - rtt.smoothed as real <= 7.0
            && -10.0 <= rtt.variation as real - x.rttvar <= 7.0
            && -47.0 <= Timeout(rtt) as real - ExactTimeout(x) <= 28.0
  {
    RttOfRun(Configured(initial, min, max), events);
    TracksRfc6298(Samples(events));
  }

  function ClampReal(x: real, lo: nat, hi: nat): real {
    if x < lo as real then lo as real else if x > hi as real then hi as real else x
  }

  lemma ClampClose(t: nat, x: real, lo: nat, hi: nat)
    requires lo <= hi && -47.0 <= t as real - x <= 28.0
    ensures -47.0 <= Clamp(t, lo, hi) as real - ClampReal(x, lo, hi) <= 28.0
  {
  }

  // The timeout in force after any run that ends in a sample is the RFC's for the samples so far, up
  // to rounding and clamped to the bounds; and a timeout right after a sample is applied.
  lemma RtoTracksRfc6298(initial: nat, min: nat, max: nat, events: seq<Event>)
    requires events != [] && events[|events| - 1].Sample?
    ensures var start, e := Configured(initial, min, max), After(Configured(initial, min, max), events);
            && Samples(events) != []
            && (var exact := ExactTimeout(ExactSmooth(Samples(events)));
                -47.0 <= e.rto as real - ClampReal(exact, start.minRto, start.maxRto) <= 28.0)
            && forall now :: Backs(e, now)
  {
    hide Smooth, ExactSmooth, ExactTimeout;
    var start, last := Configured(initial, min, max), events[|events| - 1];
    var before := After(start, events[..|events| - 1]);
    assert events == events[..|events| - 1] + [last];
    AfterAppend(start, events[..|events| - 1], last);
    EstimatorTracksRfc6298(initial, min, max, events);
    BoundsStay(start, events[..|events| - 1]);
    var e := After(start, events);
    ClampClose(Timeout(e.rtt), ExactTimeout(ExactSmooth(Samples(events))), start.minRto, start.maxRto);
  }

  lemma {:induction false} BoundsStay(e: Estimator, events: seq<Event>)
    ensures After(e, events).minRto == e.minRto && After(e, events).maxRto == e.maxRto
    decreases |events|
  {
    hide Smooth;
    if events != [] { BoundsStay(Step(e, events[0]), events[1..]); }
  }

  lemma {:induction false} RtoStaysInRange(e: Estimator, events: seq<Event>)
    requires InRange(e)
    ensures InRange(After(e, events)) && After(e, events).minRto == e.minRto && After(e, events).maxRto == e.maxRto
    decreases |events|
  {
    if events != [] {
      hide Smooth;
      assert InRange(Step(e, events[0]));
      RtoStaysInRange(Step(e, events[0]), events[1..]);
    }
  }

  function Doubled(r: nat, k: nat): nat {
    if k == 0 then r else 2 * Doubled(r, k - 1)
  }

  // The times at which a timeout is applied.
  function Applied(e: Estimator, times: seq<nat>): seq<nat>
    decreases |times|
  {
    if times == [] then []
    else (if Backs(e, times[0]) then [times[0]] else []) + Applied(AfterTimeout(e, times[0]), times[1..])
  }

  function AfterTimeouts(e: Estimator, times: seq<nat>): Estimator
    decreases |times|
  {
    if times == [] then e else AfterTimeouts(AfterTimeout(e, times[0]), times[1..])
  }

  lemma {:induction false} DoubledMoves(r: nat, k: nat)
    ensures Doubled(2 * r, k) == Doubled(r, k + 1)
  {
    if k > 0 { DoubledMoves(r, k - 1); }
  }

  lemma {:induction false} DoubledCapped(r: nat, cap: nat, k: nat)
    requires r >= 1
    ensures Doubled(r, k) >= r
    ensures Min(cap, Doubled(Min(cap, r), k)) == Min(cap, Doubled(r, k))
  {
    if k > 0 {
      DoubledCapped(r, cap, k - 1);
      if cap <= r { DoubledAtLeast(cap, k); }
    }
  }

  lemma {:induction false} DoubledAtLeast(r: nat, k: nat)
    ensures Doubled(r, k) >= r
  {
    if k > 0 { DoubledAtLeast(r, k - 1); }
  }

  // The k-th timeout applied without a sample in between leaves min(max, r * 2^k), and comes at
  // least that much after the one before it.
  lemma {:induction false} BackoffDoubles(e: Estimator, times: seq<nat>)
    requires InRange(e)
    ensures var applied := Applied(e, times);
            && AfterTimeouts(e, times).rto == Min(e.maxRto, Doubled(e.rto, |applied|))
            && (applied != [] && e.suppressedUntil != 0 ==> applied[0] >= e.suppressedUntil)
            && (forall i :: 0 < i < |applied| ==> applied[i] >= applied[i - 1] + Min(e.maxRto, Doubled(e.rto, i)))
    decreases |times|
  {
    if times != [] {
      var next := AfterTimeout(e, times[0]);
      BackoffDoubles(next, times[1..]);
      var applied, rest := Applied(e, times), Applied(next, times[1..]);
      if Backs(e, times[0]) {
        assert next.rto == Min(e.maxRto, 2 * e.rto);
        assert applied == [times[0]] + rest;
        forall k: nat ensures Min(e.maxRto, Doubled(next.rto, k)) == Min(e.maxRto, Doubled(e.rto, k + 1)) {
          DoubledCapped(2 * e.rto, e.maxRto, k);
          DoubledMoves(e.rto, k);
        }
        forall i | 0 < i < |applied| ensures applied[i] >= applied[i - 1] + Min(e.maxRto, Doubled(e.rto, i)) {
          if i == 1 {
            assert Doubled(e.rto, 1) == 2 * Doubled(e.rto, 0);
            assert applied[1] == rest[0];
          } else {
            assert applied[i] == rest[i - 1] && applied[i - 1] == rest[i - 2];
            assert Min(e.maxRto, Doubled(next.rto, i - 1)) == Min(e.maxRto, Doubled(e.rto, i - 1 + 1));
          }
        }
      }
    }
  }

  function Windows(r: nat, cap: nat, k: nat): nat {
    if k == 0 then 0 else Windows(r, cap, k - 1) + Min(cap, Doubled(r, k))
  }

  lemma {:induction false} SpreadOut(e: Estimator, times: seq<nat>, k: nat)
    requires InRange(e) && k < |Applied(e, times)|
    ensures Applied(e, times)[k] >= Applied(e, times)[0] + Windows(e.rto, e.maxRto, k)
    decreases k
  {
    hide Applied, Doubled;
    if k > 0 {
      BackoffDoubles(e, times);
      SpreadOut(e, times, k - 1);
    }
  }

  // Backoff over a run: from an RTO r, k applied timeouts give min(max, r * 2^k), and the k-th comes
  // no sooner than the sum of the windows opened by those after the first.
  lemma BackoffLaw(e: Estimator, times: seq<nat>)
    requires InRange(e)
    ensures var applied := Applied(e, times);
            && AfterTimeouts(e, times).rto == Min(e.maxRto, Doubled(e.rto, |applied|))
            && (applied != [] ==> applied[|applied| - 1] >= applied[0] + Windows(e.rto, e.maxRto, |applied| - 1))
  {
    BackoffDoubles(e, times);
    if Applied(e, times) != [] { SpreadOut(e, times, |Applied(e, times)| - 1); }
  }

  // A timeout is applied exactly from the end of the window that the last one applied opened.
  lemma {:induction false} WindowExactly(e: Estimator, times: seq<nat>, now: nat)
    requires InRange(e)
    ensures var applied, end := Applied(e, times), AfterTimeouts(e, times);
            if applied == [] then end == e
            else Backs(end, now) <==> now >= applied[|applied| - 1] + end.rto
    decreases |times|
  {
    if times != [] {
      var next := AfterTimeout(e, times[0]);
      WindowExactly(next, times[1..], now);
      var applied, rest := Applied(e, times), Applied(next, times[1..]);
      if Backs(e, times[0]) { assert applied == [times[0]] + rest; }
    }
  }
}
