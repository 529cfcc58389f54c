/**
 * Segment slopes and the acceleration rule (backend/services/backtester.py,
 * backend/scripts/full_market_scan.py, backend/scripts/select_new_uptrends.py).
 *
 * The least-squares slope itself (`scipy.stats.linregress`, `numpy.polyfit`
 * of degree 1, both fitting y against x = 0, 1, ..., n-1) is floating-point
 * library numerics; the model takes it as a parameter `fit` and states
 * everything around it: which points are fitted, how they are rebased to
 * percentages, and how the two half slopes are compared.
 */
module Slopes {
  import opened Common

  /** `(prices / prices[0] - 1) * 100`: the window as percent change from its first price. */
  function PercentSeries(w: seq<real>): (y: seq<real>)
    requires |w| > 0 && AllPositive(w)
    ensures |y| == |w| && y[0] == 0.0
  {
    seq(|w|, k requires 0 <= k < |w| => (w[k] / w[0] - 1.0) * 100.0)
  }

  /** The percent series determines the window again from its first price. */
  lemma PercentSeriesRoundTrip(w: seq<real>)
    requires |w| > 0 && AllPositive(w)
    ensures forall k :: 0 <= k < |w| ==> w[k] == w[0] * (1.0 + PercentSeries(w)[k] / 100.0)
  {
  }

  /** `y[mid:] - y[mid]`: a percent series moved to start at zero. */
  function Rebase(y: seq<real>): (r: seq<real>)
    requires |y| > 0
    ensures |r| == |y| && r[0] == 0.0
  {
    seq(|y|, k requires 0 <= k < |y| => y[k] - y[0])
  }

  /** Rebasing keeps every difference between two points. */
  lemma RebaseKeepsDifferences(y: seq<real>)
    requires |y| > 0
    ensures forall a, b :: 0 <= a < b < |y| ==> Rebase(y)[b] - Rebase(y)[a] == y[b] - y[a]
  {
  }

  /** The acceleration value: a ratio, or `float('inf')`. */
  datatype Acceleration = Ratio(value: real) | Infinite

  /**
   * The acceleration rule (backtester.py:219-222, 264-267): slope2 / slope1
   * when slope1 > 0.01, otherwise +inf when slope2 > 0 and 0 when not.
   */
  function Accel(slope1: real, slope2: real): Acceleration {
    if slope1 > 0.01 then Ratio(slope2 / slope1)
    else if slope2 > 0.0 then Infinite
    else Ratio(0.0)
  }

  /** `acceleration > threshold`, with +inf above every threshold. */
  predicate Exceeds(a: Acceleration, threshold: real) {
    match a
    case Infinite => true
    case Ratio(v) => v > threshold
  }

  /**
   * The rule without the division: above 0.01 the second slope must exceed
   * `threshold` times the first; at or below it, any rising second slope
   * counts as accelerating.
   */
  lemma AccelCharacterized(slope1: real, slope2: real, threshold: real)
    ensures slope1 > 0.01 ==> (Exceeds(Accel(slope1, slope2), threshold) <==> slope2 > threshold * slope1)
    ensures slope1 <= 0.01 ==>
              (Exceeds(Accel(slope1, slope2), threshold) <==> slope2 > 0.0 || threshold < 0.0)
  {
    if slope1 > 0.01 {
      var q := slope2 / slope1;
      assert q * slope1 == slope2;
      if q > threshold {
        assert q * slope1 > threshold * slope1;
      } else {
        assert q * slope1 <= threshold * slope1;
      }
    }
  }

  /** The three values `_calculate_segment_slopes` returns. */
  datatype SegmentSlopes = SegmentSlopes(first: real, second: real, acceleration: Acceleration)

  /**
   * Slopes of the two halves y[:mid] and y[mid:] - y[mid], mid = n // 2
   * (backtester.py:203-216, 248-261).
   */
  function HalfSlopes(w: seq<real>, fit: seq<real> -> real): (r: SegmentSlopes)
    requires |w| > 0 && AllPositive(w)
    ensures r.acceleration == Accel(r.first, r.second)
  {
    var mid := |w| / 2;
    var y := PercentSeries(w);
    var slope1 := fit(y[..mid]);
    var slope2 := fit(Rebase(y[mid..]));
    SegmentSlopes(slope1, slope2, Accel(slope1, slope2))
  }

  /** The two backtester halves split the percent series without overlap. */
  lemma HalvesPartition(w: seq<real>)
    requires |w| > 0 && AllPositive(w)
    ensures var y := PercentSeries(w); y[..|w| / 2] + y[|w| / 2..] == y
    ensures |w| >= 2 ==> |w| / 2 >= 1 && |w| - |w| / 2 >= 1
  {
  }

  /**
   * `UptrendPhaseDetector._calculate_segment_slopes` (backtester.py:197-224):
   * fewer than four points give (0, 0, 1).
   */
  function PhaseSlopes(w: seq<real>, fit: seq<real> -> real): (r: SegmentSlopes)
    requires |w| > 0 && AllPositive(w)
    ensures |w| < 4 ==> r == SegmentSlopes(0.0, 0.0, Ratio(1.0))
  {
    if |w| < 4 then SegmentSlopes(0.0, 0.0, Ratio(1.0)) else HalfSlopes(w, fit)
  }

  /** A phase of fewer than four points is never accelerating (1 > 1.3 fails). */
  lemma ShortPhaseNotAccelerating(w: seq<real>, fit: seq<real> -> real)
    requires |w| > 0 && AllPositive(w)
    requires Exceeds(PhaseSlopes(w, fit).acceleration, 1.3)
    ensures |w| >= 4
  {
  }

  // ---------------------------------------------------------------------
  // The scripts' split (full_market_scan.py:89-104, select_new_uptrends.py:88-95)
  // ---------------------------------------------------------------------

  /** `mid = duration // 2` for a window of duration + 1 points. */
  function ScriptMid(w: seq<real>): nat
    requires |w| > 0
  {
    (|w| - 1) / 2
  }

  /** `prices[phase_start : phase_start + mid + 1]`. */
  function FirstHalf(w: seq<real>): seq<real>
    requires |w| > 0
  {
    w[..ScriptMid(w) + 1]
  }

  /** `prices[phase_start + mid : phase_end + 1]`. */
  function SecondHalf(w: seq<real>): seq<real>
    requires |w| > 0
  {
    w[ScriptMid(w)..]
  }

  /**
   * The halves share the midpoint and together cover the window; both have
   * at least two points once the phase spans two steps.
   */
  lemma ScriptHalvesShareMidpoint(w: seq<real>)
    requires |w| > 0
    ensures FirstHalf(w)[|FirstHalf(w)| - 1] == SecondHalf(w)[0] == w[ScriptMid(w)]
    ensures FirstHalf(w) + SecondHalf(w)[1..] == w
    ensures |FirstHalf(w)| + |SecondHalf(w)| == |w| + 1
    ensures |w| >= 3 ==> |FirstHalf(w)| >= 2 && |SecondHalf(w)| >= 2
  {
    assert FirstHalf(w) + SecondHalf(w)[1..] == w[..ScriptMid(w) + 1] + w[ScriptMid(w) + 1..];
  }

  /**
   * The slope of one half: 0 for at most one point, otherwise the fitted slope
   * of `(p - p[0]) / p[0] * 100` (equal over the reals to the percent series).
   */
  function PolySlope(h: seq<real>, fit: seq<real> -> real): (s: real)
    requires AllPositive(h)
    ensures |h| <= 1 ==> s == 0.0
  {
    if |h| > 1 then fit(PercentSeries(h)) else 0.0
  }

  /** full_market_scan.py:113: `slope_second > slope_first * 1.3`, with no guard. */
  predicate ScriptAccelerating(slopeFirst: real, slopeSecond: real) {
    slopeSecond > slopeFirst * 1.3
  }

  /**
   * The scripts' rule agrees with the backtester's rule when the first slope
   * is above 0.01 or exactly 0. Elsewhere they differ: for a first slope in
   * (0, 0.01] the backtester calls any rising second slope accelerating and the
   * script need not (0.005 then 0.001); for a negative first slope the script
   * accepts a falling second slope that falls less steeply and the backtester
   * does not (-1 then -0.5).
   */
  lemma AccelerationRulesCompared(slope1: real, slope2: real)
    ensures slope1 > 0.01 || slope1 == 0.0 ==>
              (Exceeds(Accel(slope1, slope2), 1.3) <==> ScriptAccelerating(slope1, slope2))
    ensures Exceeds(Accel(0.005, 0.001), 1.3) && !ScriptAccelerating(0.005, 0.001)
    ensures !Exceeds(Accel(-1.0, -0.5), 1.3) && ScriptAccelerating(-1.0, -0.5)
  {
    AccelCharacterized(slope1, slope2, 1.3);
  }
}
