/**
 * The angle filter of one rotary encoder.
 *
 * Each read takes the raw absolute angle of the sensor (0..360 degrees),
 * subtracts the calibrated null angle, wraps the result into +-180 degrees and,
 * unless filtering is switched off for calibration, blends it into the current
 * angle with a first-order complementary low-pass filter.  A failed
 * transmission leaves the angle stale and counts the failure.  Calibration
 * takes a number of unfiltered samples and computes their mean and population
 * variance.
 *
 * The sensor is replaced by a `Reading` (the raw angle, whether the
 * transmission succeeded, and the clock value `millis()` would have returned
 * at that moment); floating-point numbers are modelled as reals.
 */
module RotaryEncoderModel {
  import Spatial

  /** Response time of the low-pass filter in milliseconds (a positive constant). */
  const EncoderFilterResponseTime: real := 8.0

  /** Largest variance (in square degrees) a calibration may show to pass (a positive constant). */
  const EncoderCheckMaxVariance: real := 0.03

  /** Number of samples a variance check takes (a positive constant). */
  const EncoderCheckNoOfSamples: nat := 16

  /** The millisecond clock and the failure counter are unsigned 32-bit integers. */
  const Modulus32: nat := 0x1_0000_0000

  /** One read of the sensor: raw angle, transmission status and the time of the read. */
  datatype Reading = Reading(rawAngle: real, transmissionOk: bool, now: nat)

  /** The fields a read updates. */
  datatype FilterState = FilterState(currentSensorAngle: real, failedReadingCounter: nat, lastSensorRead: nat)

  function Min(a: real, b: real): real
  {
    if a <= b then a else b
  }

  function Max(a: real, b: real): real
  {
    if a <= b then b else a
  }

  // ---------------------------------------------------------------------------
  // Nulling and wrap-around
  // ---------------------------------------------------------------------------

  /** The raw angle minus the null angle, reduced by 360 above 180 and raised by 360 below -180. */
  function NulledAngle(rawAngle: real, nullAngle: real): (r: real)
    ensures r == rawAngle - nullAngle || r == rawAngle - nullAngle - 360.0 || r == rawAngle - nullAngle + 360.0
    ensures -180.0 <= rawAngle - nullAngle <= 180.0 ==> r == rawAngle - nullAngle
    ensures rawAngle - nullAngle > 180.0 ==> r == rawAngle - nullAngle - 360.0
    ensures rawAngle - nullAngle < -180.0 ==> r == rawAngle - nullAngle + 360.0
  {
    var d := rawAngle - nullAngle;
    var d1 := if d > 180.0 then d - 360.0 else d;
    if d1 < -180.0 then d1 + 360.0 else d1
  }

  /** For a raw angle and a null angle in [0, 360) the nulled angle lies in [-180, 180]. */
  lemma NulledAngleRange(rawAngle: real, nullAngle: real)
    requires 0.0 <= rawAngle < 360.0 && 0.0 <= nullAngle < 360.0
    ensures -180.0 <= NulledAngle(rawAngle, nullAngle) <= 180.0
  {
  }

  /** Raw 10 with null 0 gives 10; raw 359 with null 0 wraps to -1. */
  lemma NulledAngleExamples()
    ensures NulledAngle(10.0, 0.0) == 10.0
    ensures NulledAngle(359.0, 0.0) == -1.0
  {
  }

  // ---------------------------------------------------------------------------
  // Clock and failure counter
  // ---------------------------------------------------------------------------

  /** The unsigned 32-bit difference `now - lastSensorRead` of two clock values. */
  function ElapsedMillis(now: nat, last: nat): (r: nat)
    ensures r < Modulus32
    ensures last <= now < Modulus32 ==> r == now - last
    ensures now < last < Modulus32 ==> r == now + Modulus32 - last
  {
    (now - last) % Modulus32
  }

  /** `max(c, c+1)` computed in unsigned 32-bit arithmetic, where `c+1` wraps to 0 at the top. */
  function SaturatingIncrement(c: nat): (r: nat)
    requires c < Modulus32
    ensures r < Modulus32
    ensures r == if c < Modulus32 - 1 then c + 1 else c
  {
    var next := (c + 1) % Modulus32;
    if c < next then next else c
  }

  // ---------------------------------------------------------------------------
  // The complementary filter
  // ---------------------------------------------------------------------------

  /** The filter's response time in seconds. */
  const ResponseTimeSeconds: real := EncoderFilterResponseTime / 1000.0

  /** The weight of the previous value, tau / (tau + dt). */
  function Alpha(dtSeconds: real): (alpha: real)
    requires dtSeconds >= 0.0
    ensures 0.0 < alpha <= 1.0
    ensures alpha == 1.0 <==> dtSeconds == 0.0
  {
    ResponseTimeSeconds / (ResponseTimeSeconds + dtSeconds)
  }

  /** One filter step: (1 - alpha) times the new value plus alpha times the previous one. */
  function Filtered(previous: real, nulled: real, dtSeconds: real): real
    requires dtSeconds >= 0.0
  {
    var alpha := Alpha(dtSeconds);
    (1.0 - alpha) * nulled + alpha * previous
  }

  lemma MulNonneg(a: real, b: real)
    requires a >= 0.0 && b >= 0.0
    ensures a * b >= 0.0
  {
  }

  lemma MulMonotone(a: real, b: real, c: real)
    requires a >= 0.0 && b <= c
    ensures a * b <= a * c
  {
    MulNonneg(a, c - b);
  }

  lemma MulStrictMonotone(a: real, b: real, c: real)
    requires a > 0.0 && b < c
    ensures a * b < a * c
  {
  }

  lemma MulAssociative(a: real, b: real, c: real)
    ensures a * (b * c) == (a * b) * c
    ensures a * (b * c) == b * (a * c)
  {
  }

  lemma ProductZero(a: real, b: real)
    requires a * b == 0.0
    ensures a == 0.0 || b == 0.0
  {
  }

  lemma ProductNonnegative(a: real, b: real)
    requires (a >= 0.0 && b >= 0.0) || (a <= 0.0 && b <= 0.0)
    ensures a * b >= 0.0
  {
  }

  /** The filtered value lies between the previous value and the new one. */
  lemma FilteredBetween(previous: real, nulled: real, dtSeconds: real)
    requires dtSeconds >= 0.0
    ensures Min(previous, nulled) <= Filtered(previous, nulled, dtSeconds) <= Max(previous, nulled)
  {
    var alpha := Alpha(dtSeconds);
    var r := Filtered(previous, nulled, dtSeconds);
    assert r - nulled == alpha * (previous - nulled);
    assert r - previous == (1.0 - alpha) * (nulled - previous);
    if previous <= nulled {
      MulNonneg(alpha, nulled - previous);
      MulNonneg(1.0 - alpha, nulled - previous);
    } else {
      MulNonneg(alpha, previous - nulled);
      MulNonneg(1.0 - alpha, previous - nulled);
    }
  }

  /** No time elapsed since the previous read leaves the value unchanged. */
  lemma FilteredZeroElapsed(previous: real, nulled: real)
    ensures Filtered(previous, nulled, 0.0) == previous
  {
  }

  /** Each step shrinks the distance to the new value by the factor alpha. */
  lemma FilteredContracts(previous: real, nulled: real, dtSeconds: real)
    requires dtSeconds >= 0.0
    ensures Spatial.Abs(Filtered(previous, nulled, dtSeconds) - nulled) == Alpha(dtSeconds) * Spatial.Abs(previous - nulled)
  {
    var alpha := Alpha(dtSeconds);
    assert Filtered(previous, nulled, dtSeconds) - nulled == alpha * (previous - nulled);
    if previous - nulled < 0.0 {
      MulNonneg(alpha, nulled - previous);
    } else {
      MulNonneg(alpha, previous - nulled);
    }
  }

  /** The value after `k` filter steps that all see the same new value and the same interval. */
  function FilterIterate(v: real, nulled: real, dtSeconds: real, k: nat): real
    requires dtSeconds >= 0.0
  {
    if k == 0 then v else Filtered(FilterIterate(v, nulled, dtSeconds, k - 1), nulled, dtSeconds)
  }

  function Power(x: real, k: nat): real
  {
    if k == 0 then 1.0 else x * Power(x, k - 1)
  }

  /** After `k` steps the offset from the new value is alpha^k times the initial offset. */
  lemma {:induction false} FilterIterateOffset(v: real, nulled: real, dtSeconds: real, k: nat)
    requires dtSeconds >= 0.0
    ensures FilterIterate(v, nulled, dtSeconds, k) - nulled == Power(Alpha(dtSeconds), k) * (v - nulled)
  {
    if k > 0 {
      var alpha := Alpha(dtSeconds);
      FilterIterateOffset(v, nulled, dtSeconds, k - 1);
      FilterStepOffset(FilterIterate(v, nulled, dtSeconds, k - 1), nulled, dtSeconds,
                       Power(alpha, k - 1), Power(alpha, k), v - nulled);
    }
  }

  /** The induction step of FilterIterateOffset: one more step multiplies the offset by alpha. */
  lemma FilterStepOffset(previous: real, nulled: real, dtSeconds: real, p: real, q: real, d0: real)
    requires dtSeconds >= 0.0
    requires previous - nulled == p * d0
    requires q == Alpha(dtSeconds) * p
    ensures Filtered(previous, nulled, dtSeconds) - nulled == q * d0
  {
    assert Filtered(previous, nulled, dtSeconds) - nulled == Alpha(dtSeconds) * (previous - nulled);
    MulAssociative(Alpha(dtSeconds), p, d0);
  }

  /** After `k` steps the distance to the new value is alpha^k times the initial distance. */
  lemma FilterIterateDistance(v: real, nulled: real, dtSeconds: real, k: nat)
    requires dtSeconds >= 0.0
    ensures Spatial.Abs(FilterIterate(v, nulled, dtSeconds, k) - nulled) == Power(Alpha(dtSeconds), k) * Spatial.Abs(v - nulled)
  {
    var p := Power(Alpha(dtSeconds), k);
    FilterIterateOffset(v, nulled, dtSeconds, k);
    PowerBound(Alpha(dtSeconds), k);
    if v - nulled < 0.0 {
      MulNonneg(p, nulled - v);
      assert p * (nulled - v) == -(p * (v - nulled));
    } else {
      MulNonneg(p, v - nulled);
    }
  }

  /** Bernoulli's bound for 0 < a <= 1: a^k (1 + k (1/a - 1)) <= 1. */
  lemma {:induction false} PowerBound(a: real, k: nat)
    requires 0.0 < a <= 1.0
    ensures 0.0 < Power(a, k)
    ensures Power(a, k) * (1.0 + (k as real) * (1.0 / a - 1.0)) <= 1.0
  {
    if k > 0 {
      PowerBound(a, k - 1);
      var d := 1.0 / a - 1.0;
      var p := Power(a, k - 1);
      var b := 1.0 + ((k - 1) as real) * d;
      assert a * d == 1.0 - a;
      assert d >= 0.0 by {
        MulMonotone(1.0 / a, a, 1.0);
        assert (1.0 / a) * a == 1.0;
      }
      MulNonneg((k - 1) as real, d);
      assert 1.0 + (k as real) * d == b + d;
      MulStrictMonotone(a, 0.0, p);
      assert a * (b + d) == a * b + (1.0 - a);
      MulNonneg(1.0 - a, b - 1.0);
      assert a * (b + d) <= b;
      MulMonotone(p, a * (b + d), b);
      MulAssociative(a, p, b + d);
      assert Power(a, k) == a * p;
    }
  }

  /**
   * Feeding the same raw angle at a fixed positive interval drives the filtered
   * value within any tolerance of the nulled angle.
   */
  lemma FilterConverges(v: real, nulled: real, dtSeconds: real, eps: real) returns (k: nat)
    requires dtSeconds > 0.0 && eps > 0.0
    ensures Spatial.Abs(FilterIterate(v, nulled, dtSeconds, k) - nulled) < eps
  {
    k := PowerEventuallySmall(Alpha(dtSeconds), Spatial.Abs(v - nulled), eps);
    FilterIterateDistance(v, nulled, dtSeconds, k);
  }

  /** For 0 < a < 1 some power of `a` scales `dist` below `eps`. */
  lemma PowerEventuallySmall(a: real, dist: real, eps: real) returns (k: nat)
    requires 0.0 < a < 1.0 && dist >= 0.0 && eps > 0.0
    ensures Power(a, k) * dist < eps
  {
    var d := 1.0 / a - 1.0;
    assert d > 0.0 by {
      MulStrictMonotone(1.0 / a, a, 1.0);
      assert (1.0 / a) * a == 1.0;
    }
    k := CountExceeds(dist, eps, d);
    var b := 1.0 + (k as real) * d;
    PowerBound(a, k);
    var p := Power(a, k);
    MulStrictMonotone(p, dist, b * eps);
    MulAssociative(p, b, eps);
    MulMonotone(eps, p * b, 1.0);
  }

  /** A count `k` with (1 + k d) eps > dist, for positive `d` and `eps`. */
  lemma CountExceeds(dist: real, eps: real, d: real) returns (k: nat)
    requires dist >= 0.0 && eps > 0.0 && d > 0.0
    ensures (1.0 + (k as real) * d) * eps > dist
  {
    var ed := eps * d;
    MulStrictMonotone(eps, 0.0, d);
    var q := dist / ed;
    k := q.Floor as nat + 1;
    var kr := k as real;
    assert kr > q;
    MulStrictMonotone(ed, q, kr);
    assert ed * q == dist;
    MulAssociative(kr, eps, d);
    assert (1.0 + kr * d) * eps == eps + kr * ed;
  }

  // ---------------------------------------------------------------------------
  // One read
  // ---------------------------------------------------------------------------

  /** readNewAngleFromSensor on the values of the state it updates. */
  function Read(s: FilterState, filterAngle: bool, nullAngle: real, r: Reading): (s': FilterState)
    requires s.failedReadingCounter < Modulus32
    ensures s'.failedReadingCounter < Modulus32
    ensures !r.transmissionOk ==> s'.currentSensorAngle == s.currentSensorAngle
    ensures !r.transmissionOk ==> s'.failedReadingCounter == SaturatingIncrement(s.failedReadingCounter)
    ensures !r.transmissionOk || !filterAngle ==> s'.lastSensorRead == s.lastSensorRead
    ensures r.transmissionOk ==> s'.failedReadingCounter == 0
    ensures r.transmissionOk && !filterAngle ==> s'.currentSensorAngle == NulledAngle(r.rawAngle, nullAngle)
    ensures r.transmissionOk && filterAngle ==> s'.lastSensorRead == r.now
  {
    var nulled := NulledAngle(r.rawAngle, nullAngle);
    if !r.transmissionOk then
      s.(failedReadingCounter := SaturatingIncrement(s.failedReadingCounter))
    else if filterAngle then
      var dt := (ElapsedMillis(r.now, s.lastSensorRead) as real) * (1.0 / 1000.0);
      FilterState(Filtered(s.currentSensorAngle, nulled, dt), 0, r.now)
    else
      s.(failedReadingCounter := 0, currentSensorAngle := nulled)
  }

  /** With filtering on, a successful read blends in the nulled angle by the time since the previous read. */
  lemma ReadFiltered(s: FilterState, nullAngle: real, r: Reading)
    requires s.failedReadingCounter < Modulus32
    requires r.transmissionOk
    ensures var dt := (ElapsedMillis(r.now, s.lastSensorRead) as real) / 1000.0;
      Read(s, true, nullAngle, r).currentSensorAngle == Filtered(s.currentSensorAngle, NulledAngle(r.rawAngle, nullAngle), dt)
  {
    var e := ElapsedMillis(r.now, s.lastSensorRead) as real;
    assert e * (1.0 / 1000.0) == e / 1000.0;
  }

  /** The state after a sequence of reads, in order. */
  function ReadAll(s: FilterState, filterAngle: bool, nullAngle: real, rs: seq<Reading>): (s': FilterState)
    requires s.failedReadingCounter < Modulus32
    ensures s'.failedReadingCounter < Modulus32
    decreases |rs|
  {
    if rs == [] then s
    else Read(ReadAll(s, filterAngle, nullAngle, rs[..|rs| - 1]), filterAngle, nullAngle, rs[|rs| - 1])
  }

  /** The angle recorded after each read of `rs`, with filtering off. */
  function Samples(s: FilterState, nullAngle: real, rs: seq<Reading>): (t: seq<real>)
    requires s.failedReadingCounter < Modulus32
    ensures |t| == |rs|
    decreases |rs|
  {
    if rs == [] then []
    else Samples(s, nullAngle, rs[..|rs| - 1]) + [ReadAll(s, false, nullAngle, rs).currentSensorAngle]
  }

  /** A sample is the nulled angle of its read, or the previous value when that read failed. */
  lemma {:induction false} SampleIsNulledOrStale(s: FilterState, nullAngle: real, rs: seq<Reading>, i: nat)
    requires s.failedReadingCounter < Modulus32
    requires i < |rs|
    ensures rs[i].transmissionOk ==> Samples(s, nullAngle, rs)[i] == NulledAngle(rs[i].rawAngle, nullAngle)
    ensures !rs[i].transmissionOk ==>
      Samples(s, nullAngle, rs)[i] == (if i == 0 then s.currentSensorAngle else Samples(s, nullAngle, rs)[i - 1])
    decreases |rs|
  {
    var n := |rs| - 1;
    if i < n {
      SampleIsNulledOrStale(s, nullAngle, rs[..n], i);
      assert rs[..n][i] == rs[i];
      assert Samples(s, nullAngle, rs)[i] == Samples(s, nullAngle, rs[..n])[i];
      if i > 0 {
        assert Samples(s, nullAngle, rs)[i - 1] == Samples(s, nullAngle, rs[..n])[i - 1];
      }
    } else {
      if i > 0 {
        SampleIsLastState(s, nullAngle, rs[..n]);
        assert Samples(s, nullAngle, rs)[i - 1] == Samples(s, nullAngle, rs[..n])[i - 1];
      } else {
        assert rs[..n] == [];
      }
    }
  }

  /**
   * Readings that all succeed and carry the same raw angle, each arriving `d`
   * milliseconds after the previous one (the first after the last filtered read
   * recorded in `s`).
   */
  ghost predicate SteadyReadings(s: FilterState, raw: real, d: nat, rs: seq<Reading>)
  {
    forall i :: 0 <= i < |rs| ==> SteadyAt(s, raw, d, rs, i)
  }

  /** Reading `i` succeeds with angle `raw`, `d` milliseconds after the read before it. */
  ghost predicate SteadyAt(s: FilterState, raw: real, d: nat, rs: seq<Reading>, i: nat)
    requires i < |rs|
  {
    rs[i].transmissionOk && rs[i].rawAngle == raw &&
    ElapsedMillis(rs[i].now, if i == 0 then s.lastSensorRead else rs[i - 1].now) == d
  }

  /** Dropping the last reading keeps a run of readings steady. */
  lemma SteadyPrefix(s: FilterState, raw: real, d: nat, rs: seq<Reading>)
    requires rs != [] && SteadyReadings(s, raw, d, rs)
    ensures SteadyReadings(s, raw, d, rs[..|rs| - 1])
  {
    var init := rs[..|rs| - 1];
    forall i | 0 <= i < |init|
      ensures SteadyAt(s, raw, d, init, i)
    {
      assert SteadyAt(s, raw, d, rs, i);
      assert init[i] == rs[i];
      if i > 0 { assert init[i - 1] == rs[i - 1]; }
    }
  }

  /** Filtered reads of steady readings are the filter recurrence at the interval `d`. */
  lemma {:induction false} SteadyReadsIterateFilter(s: FilterState, nullAngle: real, raw: real, d: nat, rs: seq<Reading>)
    requires s.failedReadingCounter < Modulus32
    requires SteadyReadings(s, raw, d, rs)
    ensures ReadAll(s, true, nullAngle, rs).currentSensorAngle
         == FilterIterate(s.currentSensorAngle, NulledAngle(raw, nullAngle), (d as real) / 1000.0, |rs|)
    ensures ReadAll(s, true, nullAngle, rs).lastSensorRead == if rs == [] then s.lastSensorRead else rs[|rs| - 1].now
    decreases |rs|
  {
    if rs != [] {
      var n := |rs| - 1;
      var init := rs[..n];
      SteadyPrefix(s, raw, d, rs);
      SteadyReadsIterateFilter(s, nullAngle, raw, d, init);
      var prev := ReadAll(s, true, nullAngle, init);
      assert prev.lastSensorRead == if n == 0 then s.lastSensorRead else rs[n - 1].now;
      assert SteadyAt(s, raw, d, rs, n);
      ReadFiltered(prev, nullAngle, rs[n]);
      assert ReadAll(s, true, nullAngle, rs) == Read(prev, true, nullAngle, rs[n]);
    }
  }

  /**
   * Enough steady filtered reads bring the encoder's angle within any tolerance
   * of the nulled raw angle.
   */
  lemma FilteredReadsConverge(s: FilterState, nullAngle: real, raw: real, d: nat, eps: real) returns (k: nat)
    requires s.failedReadingCounter < Modulus32
    requires d > 0 && eps > 0.0
    ensures forall rs :: |rs| == k && SteadyReadings(s, raw, d, rs) ==>
      Spatial.Abs(ReadAll(s, true, nullAngle, rs).currentSensorAngle - NulledAngle(raw, nullAngle)) < eps
  {
    k := FilterConverges(s.currentSensorAngle, NulledAngle(raw, nullAngle), (d as real) / 1000.0, eps);
    forall rs | |rs| == k && SteadyReadings(s, raw, d, rs)
      ensures Spatial.Abs(ReadAll(s, true, nullAngle, rs).currentSensorAngle - NulledAngle(raw, nullAngle)) < eps
    {
      SteadyReadsIterateFilter(s, nullAngle, raw, d, rs);
    }
  }

  /** One more read extends the state fold by one step and the samples by the new angle. */
  lemma SampleStep(s: FilterState, nullAngle: real, rs: seq<Reading>, i: nat)
    requires s.failedReadingCounter < Modulus32 && i < |rs|
    ensures ReadAll(s, false, nullAngle, rs[..i + 1])
         == Read(ReadAll(s, false, nullAngle, rs[..i]), false, nullAngle, rs[i])
    ensures Samples(s, nullAngle, rs[..i + 1])
         == Samples(s, nullAngle, rs[..i]) + [ReadAll(s, false, nullAngle, rs[..i + 1]).currentSensorAngle]
  {
    assert rs[..i + 1][..i] == rs[..i];
  }

  /** The last sample is the angle the state ends with. */
  lemma SampleIsLastState(s: FilterState, nullAngle: real, rs: seq<Reading>)
    requires s.failedReadingCounter < Modulus32
    requires rs != []
    ensures Samples(s, nullAngle, rs)[|rs| - 1] == ReadAll(s, false, nullAngle, rs).currentSensorAngle
  {
  }

  /** When every read fails, every sample is the stale angle from before the calibration. */
  lemma {:induction false} FailedReadsGiveStaleSamples(s: FilterState, nullAngle: real, rs: seq<Reading>)
    requires s.failedReadingCounter < Modulus32
    requires forall i :: 0 <= i < |rs| ==> !rs[i].transmissionOk
    ensures forall i :: 0 <= i < |rs| ==> Samples(s, nullAngle, rs)[i] == s.currentSensorAngle
    ensures ReadAll(s, false, nullAngle, rs).currentSensorAngle == s.currentSensorAngle
    decreases |rs|
  {
    if rs != [] {
      var n := |rs| - 1;
      FailedReadsGiveStaleSamples(s, nullAngle, rs[..n]);
    }
  }

  // ---------------------------------------------------------------------------
  // Mean and population variance
  // ---------------------------------------------------------------------------

  function Sum(s: seq<real>): real
    decreases |s|
  {
    if s == [] then 0.0 else Sum(s[..|s| - 1]) + s[|s| - 1]
  }

  /** Appending a value adds it to the sum. */
  lemma SumAppend(t: seq<real>, x: real)
    ensures Sum(t + [x]) == Sum(t) + x
  {
    assert (t + [x])[..|t|] == t;
  }

  /** The mean: the value that, taken |s| times, adds up to the sum. */
  function Mean(s: seq<real>): (m: real)
    requires |s| > 0
    ensures m * (|s| as real) == Sum(s)
  {
    Sum(s) / (|s| as real)
  }

  /** Sum of the squared deviations from `m`. */
  function SumSquares(s: seq<real>, m: real): real
    decreases |s|
  {
    if s == [] then 0.0 else SumSquares(s[..|s| - 1], m) + (s[|s| - 1] - m) * (s[|s| - 1] - m)
  }

  function PopulationVariance(s: seq<real>): real
    requires |s| > 0
  {
    SumSquares(s, Mean(s)) / (|s| as real)
  }

  /** A sum of squares is never negative, and it is zero exactly when every element equals `m`. */
  lemma {:induction false} SumSquaresZero(s: seq<real>, m: real)
    ensures SumSquares(s, m) >= 0.0
    ensures SumSquares(s, m) == 0.0 <==> forall i :: 0 <= i < |s| ==> s[i] == m
    decreases |s|
  {
    if s != [] {
      var n := |s| - 1;
      SumSquaresZero(s[..n], m);
      ProductNonnegative(s[n] - m, s[n] - m);
      if SumSquares(s, m) == 0.0 {
        ProductZero(s[n] - m, s[n] - m);
        forall i | 0 <= i < |s| ensures s[i] == m {
          if i < n {
            assert s[..n][i] == s[i];
          }
        }
      }
      if forall i :: 0 <= i < |s| ==> s[i] == m {
        assert forall i :: 0 <= i < n ==> s[..n][i] == m;
      }
    }
  }

  /** The population variance is never negative, and zero exactly when all samples are equal to their mean. */
  lemma VarianceZeroIffConstant(s: seq<real>)
    requires |s| > 0
    ensures PopulationVariance(s) >= 0.0
    ensures PopulationVariance(s) == 0.0 <==> forall i :: 0 <= i < |s| ==> s[i] == Mean(s)
  {
    SumSquaresZero(s, Mean(s));
  }

  /** The mean of values inside [lo, hi] is inside [lo, hi]. */
  lemma {:induction false} SumBounds(s: seq<real>, lo: real, hi: real)
    requires forall i :: 0 <= i < |s| ==> lo <= s[i] <= hi
    ensures (|s| as real) * lo <= Sum(s) <= (|s| as real) * hi
    decreases |s|
  {
    if s != [] {
      var n := |s| - 1;
      assert forall i :: 0 <= i < n ==> s[..n][i] == s[i];
      SumBounds(s[..n], lo, hi);
      assert Sum(s) == Sum(s[..n]) + s[n];
      assert (|s| as real) * lo == (n as real) * lo + lo;
      assert (|s| as real) * hi == (n as real) * hi + hi;
    }
  }

  lemma MeanBounds(s: seq<real>, lo: real, hi: real)
    requires |s| > 0
    requires forall i :: 0 <= i < |s| ==> lo <= s[i] <= hi
    ensures lo <= Mean(s) <= hi
  {
    SumBounds(s, lo, hi);
    var n := |s| as real;
    assert Sum(s) / n >= (n * lo) / n;
    assert Sum(s) / n <= (n * hi) / n;
  }

  /** Equal samples have that value as their mean. */
  lemma {:induction false} SumOfConstant(s: seq<real>, c: real)
    requires forall i :: 0 <= i < |s| ==> s[i] == c
    ensures Sum(s) == (|s| as real) * c
    decreases |s|
  {
    if s != [] {
      var n := |s| - 1;
      assert forall i :: 0 <= i < n ==> s[..n][i] == c;
      SumOfConstant(s[..n], c);
    }
  }

  /**
   * A calibration during which every transmission fails records the stale
   * angle n times, so its variance is zero and it passes the check.
   */
  lemma FailedCalibrationPasses(s: FilterState, nullAngle: real, rs: seq<Reading>)
    requires s.failedReadingCounter < Modulus32
    requires |rs| > 0
    requires forall i :: 0 <= i < |rs| ==> !rs[i].transmissionOk
    ensures PopulationVariance(Samples(s, nullAngle, rs)) == 0.0
    ensures PopulationVariance(Samples(s, nullAngle, rs)) <= EncoderCheckMaxVariance
  {
    var t := Samples(s, nullAngle, rs);
    FailedReadsGiveStaleSamples(s, nullAngle, rs);
    SumOfConstant(t, s.currentSensorAngle);
    assert Mean(t) == s.currentSensorAngle;
    VarianceZeroIffConstant(t);
  }

  // ---------------------------------------------------------------------------
  // The encoder object
  // ---------------------------------------------------------------------------

  /** One encoder: the filter state, the calibration values it is configured with, and the check verdict. */
  class RotaryEncoder {
    var currentSensorAngle: real
    var failedReadingCounter: nat
    var lastSensorRead: nat
    var filterAngle: bool
    var passedCheck: bool
    // the configuration the encoder was set up with
    var nullAngle: real
    var angleOffset: real

    ghost predicate Valid()
      reads this
    {
      failedReadingCounter < Modulus32 && lastSensorRead < Modulus32
    }

    /** The fields a read updates. */
    function State(): FilterState
      reads this
    {
      FilterState(currentSensorAngle, failedReadingCounter, lastSensorRead)
    }

    /** getAngle: the current angle minus the configured offset. */
    function GetAngle(): (angle: real)
      reads this
      ensures angle + angleOffset == currentSensorAngle
    {
      currentSensorAngle - angleOffset
    }

    /** setNullAngle */
    method SetNullAngle(rawAngle: real)
      modifies this`nullAngle
      ensures GetNullAngle() == rawAngle
    {
      nullAngle := rawAngle;
    }

    /** getNullAngle */
    function GetNullAngle(): real
      reads this
    {
      nullAngle
    }

    /** getAngleOffset */
    function GetAngleOffset(): real
      reads this
    {
      angleOffset
    }

    /** getLastRawSensorAngle: the current angle, filtered or not, before the offset is applied. */
    function GetLastRawSensorAngle(): (angle: real)
      reads this
      ensures angle == GetAngle() + GetAngleOffset()
    {
      currentSensorAngle
    }

    /** readNewAngleFromSensor: false, and a stale angle, when the transmission failed. */
    method ReadNewAngleFromSensor(r: Reading) returns (ok: bool)
      requires Valid() && r.now < Modulus32
      modifies this`currentSensorAngle, this`failedReadingCounter, this`lastSensorRead
      ensures Valid()
      ensures ok == r.transmissionOk
      ensures State() == Read(old(State()), filterAngle, nullAngle, r)
    {
      var rawAngle := r.rawAngle;
      var nulledRawAngle := rawAngle - GetNullAngle();
      if nulledRawAngle > 180.0 {
        nulledRawAngle := nulledRawAngle - 360.0;
      }
      if nulledRawAngle < -180.0 {
        nulledRawAngle := nulledRawAngle + 360.0;
      }

      if !r.transmissionOk {
        failedReadingCounter := SaturatingIncrement(failedReadingCounter);
        return false;
      } else {
        failedReadingCounter := 0;
      }

      if filterAngle {
        var now := r.now;
        var durationSeconds := (ElapsedMillis(now, lastSensorRead) as real) * (1.0 / 1000.0);
        lastSensorRead := now;
        var responseTime := EncoderFilterResponseTime / 1000.0;
        var complementaryFilter := responseTime / (responseTime + durationSeconds);
        var antiComplementaryFilter := 1.0 - complementaryFilter;
        currentSensorAngle := antiComplementaryFilter * nulledRawAngle + complementaryFilter * currentSensorAngle;
      } else {
        currentSensorAngle := nulledRawAngle;
      }
      return true;
    }

    /**
     * fetchSample(no, sample, avr, variance): takes `n` unfiltered samples
     * into `sample`, one read of `rs` each, and computes their mean and
     * population variance; the verdict is whether the variance is within
     * EncoderCheckMaxVariance. Filtering is on afterwards.
     */
    method FetchSample(n: nat, sample: array<real>, rs: seq<Reading>) returns (ok: bool, avr: real, variance: real)
      requires Valid()
      requires n < 256 && n <= sample.Length && n <= |rs|
      requires forall i :: 0 <= i < |rs| ==> rs[i].now < Modulus32
      modifies this`currentSensorAngle, this`failedReadingCounter, this`lastSensorRead, this`filterAngle, sample
      ensures Valid() && filterAngle
      ensures State() == ReadAll(old(State()), false, nullAngle, rs[..n])
      ensures sample[..n] == Samples(old(State()), nullAngle, rs[..n])
      ensures sample[n..] == old(sample[n..])
      ensures n > 0 ==> avr == Mean(sample[..n]) && variance == PopulationVariance(sample[..n])
      ensures ok <==> n > 0 && variance <= EncoderCheckMaxVariance
    {
      avr := 0.0;
      filterAngle := false;
      // the source waits 10 ms before every sample but the first
      avr := TakeSamples(n, sample, rs);
      filterAngle := true;

      ok := false;
      if n > 0 {
        avr := avr / (n as real);
        variance := SquaredDeviations(sample, n, avr);
        variance := variance / (n as real);
        ok := variance <= EncoderCheckMaxVariance;
      } else {
        // 0/0 in the source: mean and variance are NaN and the comparison is false
        variance := 0.0;
      }
    }

    /** The sampling loop of fetchSample: `n` unfiltered reads into `sample`, returning their sum. */
    method TakeSamples(n: nat, sample: array<real>, rs: seq<Reading>) returns (sum: real)
      requires Valid() && !filterAngle
      requires n <= sample.Length && n <= |rs|
      requires forall i :: 0 <= i < |rs| ==> rs[i].now < Modulus32
      modifies this`currentSensorAngle, this`failedReadingCounter, this`lastSensorRead, sample
      ensures Valid()
      ensures State() == ReadAll(old(State()), false, nullAngle, rs[..n])
      ensures sample[..n] == Samples(old(State()), nullAngle, rs[..n])
      ensures sample[n..] == old(sample[n..])
      ensures sum == Sum(sample[..n])
    {
      ghost var s0 := State();
      sum := 0.0;
      for check := 0 to n
        invariant Valid()
        invariant State() == ReadAll(s0, false, nullAngle, rs[..check])
        invariant sample[..check] == Samples(s0, nullAngle, rs[..check])
        invariant sample[n..] == old(sample[n..])
        invariant sum == Sum(sample[..check])
      {
        ghost var before := sample[..check];
        SampleStep(s0, nullAngle, rs, check);
        var _ := ReadNewAngleFromSensor(rs[check]);
        var x := GetLastRawSensorAngle();
        sample[check] := x;
        sum := sum + x;
        assert sample[..check + 1] == before + [x];
        SumAppend(before, x);
      }
    }

    /** The variance loop of fetchSample: the sum of squared deviations of the first `n` samples from `avr`. */
    static method SquaredDeviations(sample: array<real>, n: nat, avr: real) returns (sq: real)
      requires n <= sample.Length
      ensures sq == SumSquares(sample[..n], avr)
    {
      sq := 0.0;
      for check := 0 to n
        invariant sq == SumSquares(sample[..check], avr)
      {
        var d := sample[check] - avr;
        sq := sq + d * d;
        assert sample[..check + 1][..check] == sample[..check];
      }
    }

    /** fetchSample(avr, variance): EncoderCheckNoOfSamples samples into a local buffer. */
    method FetchSampleDefault(rs: seq<Reading>) returns (ok: bool, avr: real, variance: real)
      requires Valid()
      requires EncoderCheckNoOfSamples <= |rs|
      requires forall i :: 0 <= i < |rs| ==> rs[i].now < Modulus32
      modifies this`currentSensorAngle, this`failedReadingCounter, this`lastSensorRead, this`filterAngle
      ensures Valid() && filterAngle
      ensures State() == ReadAll(old(State()), false, nullAngle, rs[..EncoderCheckNoOfSamples])
      ensures avr == Mean(Samples(old(State()), nullAngle, rs[..EncoderCheckNoOfSamples]))
      ensures variance == PopulationVariance(Samples(old(State()), nullAngle, rs[..EncoderCheckNoOfSamples]))
      ensures ok <==> variance <= EncoderCheckMaxVariance
    {
      var sample := new real[EncoderCheckNoOfSamples];
      ok, avr, variance := FetchSample(EncoderCheckNoOfSamples, sample, rs);
    }

    /** checkEncoderVariance: records the verdict of a full sample in `passedCheck` and returns the variance. */
    method CheckEncoderVariance(rs: seq<Reading>) returns (variance: real)
      requires Valid()
      requires EncoderCheckNoOfSamples <= |rs|
      requires forall i :: 0 <= i < |rs| ==> rs[i].now < Modulus32
      modifies this`currentSensorAngle, this`failedReadingCounter, this`lastSensorRead, this`filterAngle,
        this`passedCheck
      ensures Valid() && filterAngle
      ensures State() == ReadAll(old(State()), false, nullAngle, rs[..EncoderCheckNoOfSamples])
      ensures variance == PopulationVariance(Samples(old(State()), nullAngle, rs[..EncoderCheckNoOfSamples]))
      ensures passedCheck <==> variance <= EncoderCheckMaxVariance
      ensures variance >= 0.0
    {
      var value := new real[EncoderCheckNoOfSamples];
      var avr;
      passedCheck, avr, variance := FetchSample(EncoderCheckNoOfSamples, value, rs);
      VarianceZeroIffConstant(value[..EncoderCheckNoOfSamples]);
    }
  }
}
