/**
 * Drawdown bookkeeping of `UptrendPhaseDetector` (backend/services/backtester.py):
 * the running peak of a price window, the percentage drawdown from it, the
 * maximum drawdown of a window (`_calculate_max_drawdown`) and the trim that
 * cuts a window at the peak preceding its first excessive drawdown
 * (`_find_valid_phase_end`).
 */
module Drawdown {
  import opened Common

  /** Percentage by which `price` lies below `peak`: (peak - price) / peak * 100. */
  function PercentBelow(peak: real, price: real): (d: real)
    requires peak > 0.0
    ensures price <= peak ==> d >= 0.0
    ensures price == peak ==> d == 0.0
    ensures price > peak ==> d < 0.0
  {
    (peak - price) / peak * 100.0
  }

  /**
   * The running peak at position k: `peak` after the loop has seen w[0..k],
   * raised only when a price is strictly above it. No price of w[0..k] lies
   * above it, and `PeakIndex` names the position that holds it.
   */
  function RunningPeak(w: seq<real>, k: nat): (r: real)
    requires k < |w|
    ensures forall m :: 0 <= m <= k ==> w[m] <= r
    decreases k
  {
    if k == 0 then w[0]
    else if w[k] > RunningPeak(w, k - 1) then w[k]
    else RunningPeak(w, k - 1)
  }

  /**
   * The position of the running peak at position k (`peak_idx`): the first
   * position holding the maximum of w[0..k].
   */
  function PeakIndex(w: seq<real>, k: nat): (p: nat)
    requires k < |w|
    ensures p <= k && w[p] == RunningPeak(w, k)
    ensures forall m :: 0 <= m < p ==> w[m] < w[p]
    decreases k
  {
    if k == 0 then 0
    else if w[k] > RunningPeak(w, k - 1) then k
    else PeakIndex(w, k - 1)
  }

  /** Drawdown of position k from the running peak (backtester.py:101, 173, 191). */
  function DrawdownAt(w: seq<real>, k: nat): (d: real)
    requires AllPositive(w) && k < |w|
    ensures d >= 0.0
    ensures k == 0 ==> d == 0.0
  {
    PercentBelow(RunningPeak(w, k), w[k])
  }

  /** No position of w has a drawdown from its running peak above `tol`. */
  predicate WithinTolerance(w: seq<real>, tol: real)
    requires AllPositive(w)
  {
    forall k :: 0 <= k < |w| ==> DrawdownAt(w, k) <= tol
  }

  /**
   * Position k makes `_find_valid_phase_end` stop: it is not a new peak and its
   * drawdown exceeds the tolerance.
   */
  predicate Breaks(w: seq<real>, k: nat, tol: real)
    requires AllPositive(w)
  {
    0 < k < |w| && w[k] <= RunningPeak(w, k - 1) && DrawdownAt(w, k) > tol
  }

  /** The first position at or after k that breaks the tolerance, if any. */
  function FirstBreak(w: seq<real>, tol: real, k: nat): (r: Option<nat>)
    requires AllPositive(w)
    ensures r.Some? ==> k <= r.value < |w|
    decreases |w| - k
  {
    if k >= |w| then None
    else if Breaks(w, k, tol) then Some(k)
    else FirstBreak(w, tol, k + 1)
  }

  /** The break found is a break, and no position before it (or none at all, when none is found) breaks. */
  lemma {:induction false} FirstBreakIsFirst(w: seq<real>, tol: real, k: nat)
    requires AllPositive(w)
    ensures var r := FirstBreak(w, tol, k);
            && (r.Some? ==> Breaks(w, r.value, tol) && forall m :: k <= m < r.value ==> !Breaks(w, m, tol))
            && (r.None? ==> forall m :: k <= m < |w| ==> !Breaks(w, m, tol))
    decreases |w| - k
  {
    if k < |w| && !Breaks(w, k, tol) {
      FirstBreakIsFirst(w, tol, k + 1);
    }
  }

  /**
   * What `_find_valid_phase_end` returns: 0 for fewer than two points, the
   * peak position preceding the first break, or the last index when nothing
   * breaks.
   */
  function ValidEnd(w: seq<real>, tol: real): (r: nat)
    requires AllPositive(w)
    ensures |w| < 2 ==> r == 0
    ensures |w| >= 2 ==> r < |w|
  {
    if |w| < 2 then 0
    else match FirstBreak(w, tol, 1)
      case None => |w| - 1
      case Some(b) => PeakIndex(w, b)
  }

  /** `_find_valid_phase_end` (backtester.py:157-178). */
  method FindValidPhaseEnd(prices: seq<real>, tol: real) returns (validEnd: nat)
    requires AllPositive(prices)
    ensures validEnd == ValidEnd(prices, tol)
  {
    if |prices| < 2 {
      return 0;
    }
    var peak := prices[0];
    var peakIdx := 0;
    for i := 1 to |prices|
      invariant peak == RunningPeak(prices, i - 1)
      invariant peakIdx == PeakIndex(prices, i - 1)
      invariant FirstBreak(prices, tol, 1) == FirstBreak(prices, tol, i)
    {
      ScanStep(prices, tol, i);
      if prices[i] > peak {
        peak := prices[i];
        peakIdx := i;
      } else {
        var drawdown := PercentBelow(peak, prices[i]);
        if drawdown > tol {
          return peakIdx;
        }
      }
    }
    return |prices| - 1;
  }

  /**
   * One step of the trim's scan: a new peak moves the peak, any other price
   * keeps it and breaks exactly when its drawdown exceeds the tolerance.
   */
  lemma ScanStep(w: seq<real>, tol: real, i: nat)
    requires AllPositive(w) && 0 < i < |w|
    ensures w[i] > RunningPeak(w, i - 1) ==>
              RunningPeak(w, i) == w[i] && PeakIndex(w, i) == i && FirstBreak(w, tol, i) == FirstBreak(w, tol, i + 1)
    ensures w[i] <= RunningPeak(w, i - 1) ==>
              && RunningPeak(w, i) == RunningPeak(w, i - 1) && PeakIndex(w, i) == PeakIndex(w, i - 1)
              && (PercentBelow(RunningPeak(w, i - 1), w[i]) > tol ==> FirstBreak(w, tol, i) == Some(i))
              && (PercentBelow(RunningPeak(w, i - 1), w[i]) <= tol ==> FirstBreak(w, tol, i) == FirstBreak(w, tol, i + 1))
  {
  }

  /**
   * The running maximum of the drawdowns of w[0..n-1], starting from 0 and
   * replaced only by a strictly larger drawdown.
   */
  function MaxDrawdownOf(w: seq<real>, n: nat): real
    requires AllPositive(w) && n <= |w|
  {
    if n == 0 then 0.0
    else
      var d := MaxDrawdownOf(w, n - 1);
      var e := DrawdownAt(w, n - 1);
      if e > d then e else d
  }

  /** What `_calculate_max_drawdown` returns: 0 for fewer than two prices. */
  function MaxDrawdown(w: seq<real>): real
    requires AllPositive(w)
  {
    if |w| < 2 then 0.0 else MaxDrawdownOf(w, |w|)
  }

  /** `_calculate_max_drawdown` (backtester.py:180-195). */
  method CalculateMaxDrawdown(prices: seq<real>) returns (maxDd: real)
    requires AllPositive(prices)
    ensures maxDd == MaxDrawdown(prices)
  {
    if |prices| < 2 {
      return 0.0;
    }
    var peak := prices[0];
    maxDd := 0.0;
    for k := 0 to |prices|
      invariant peak == RunningPeak(prices, if k == 0 then 0 else k - 1)
      invariant maxDd == MaxDrawdownOf(prices, k)
    {
      if prices[k] > peak {
        peak := prices[k];
      }
      var dd := PercentBelow(peak, prices[k]);
      assert dd == DrawdownAt(prices, k);
      if dd > maxDd {
        maxDd := dd;
      }
    }
  }

  // ---------------------------------------------------------------------
  // Properties of the drawdown vocabulary.
  // ---------------------------------------------------------------------

  /** The running peak at k depends only on w[0..k]. */
  lemma {:induction false} RunningPeakPrefix(w: seq<real>, m: nat, k: nat)
    requires k < m <= |w|
    ensures RunningPeak(w[..m], k) == RunningPeak(w, k)
  {
    if k > 0 {
      RunningPeakPrefix(w, m, k - 1);
    }
  }

  lemma DrawdownAtPrefix(w: seq<real>, m: nat, k: nat)
    requires AllPositive(w) && k < m <= |w|
    ensures AllPositive(w[..m])
    ensures DrawdownAt(w[..m], k) == DrawdownAt(w, k)
  {
    RunningPeakPrefix(w, m, k);
  }

  /**
   * With a non-negative tolerance, no position up to the valid end has a
   * drawdown above the tolerance.
   */
  lemma ValidEndWithinTolerance(w: seq<real>, tol: real)
    requires AllPositive(w) && tol >= 0.0
    ensures forall k :: 0 <= k <= ValidEnd(w, tol) && k < |w| ==> DrawdownAt(w, k) <= tol
  {
    var r := ValidEnd(w, tol);
    FirstBreakIsFirst(w, tol, 1);
    forall k | 0 <= k <= r && k < |w|
      ensures DrawdownAt(w, k) <= tol
    {
      if k > 0 {
        assert !Breaks(w, k, tol);
        if w[k] > RunningPeak(w, k - 1) {
          assert RunningPeak(w, k) == w[k];
        }
      }
    }
  }

  /**
   * When the window ends at its maximum, so does the trimmed window: the
   * valid end is a position no earlier price exceeds.
   */
  lemma ValidEndAtPeak(w: seq<real>, tol: real)
    requires AllPositive(w) && |w| > 0
    requires forall m :: 0 <= m < |w| ==> w[m] <= w[|w| - 1]
    ensures forall m :: 0 <= m <= ValidEnd(w, tol) ==> w[m] <= w[ValidEnd(w, tol)]
  {
    if |w| >= 2 {
      FirstBreakIsFirst(w, tol, 1);
      match FirstBreak(w, tol, 1)
      case None =>
      case Some(b) =>
        var p := PeakIndex(w, b);
        assert w[p] == RunningPeak(w, b);
    }
  }

  /**
   * The trim is a no-op on a window whose drawdowns all stay within a
   * non-negative tolerance: it returns the window's last index.
   */
  lemma ValidEndKeepsWholeWindow(w: seq<real>, tol: real)
    requires AllPositive(w) && |w| > 0 && tol >= 0.0
    requires forall k :: 0 <= k < |w| ==> DrawdownAt(w, k) <= tol
    ensures ValidEnd(w, tol) == |w| - 1
  {
    if |w| >= 2 {
      FirstBreakIsFirst(w, tol, 1);
      assert FirstBreak(w, tol, 1).None?;
    }
  }

  lemma {:induction false} MaxDrawdownOfBounds(w: seq<real>, n: nat)
    requires AllPositive(w) && n <= |w|
    ensures MaxDrawdownOf(w, n) >= 0.0
    ensures forall m :: 0 <= m < n ==> DrawdownAt(w, m) <= MaxDrawdownOf(w, n)
    ensures n > 0 ==> exists m :: 0 <= m < n && DrawdownAt(w, m) == MaxDrawdownOf(w, n)
  {
    if n > 0 {
      MaxDrawdownOfBounds(w, n - 1);
      if n == 1 {
        assert DrawdownAt(w, 0) == MaxDrawdownOf(w, 1);
      }
    }
  }

  /**
   * The maximum drawdown is non-negative, 0 for fewer than two prices, no
   * drawdown in the window exceeds it, and some position attains it.
   */
  lemma MaxDrawdownIsLargest(w: seq<real>)
    requires AllPositive(w)
    ensures MaxDrawdown(w) >= 0.0
    ensures |w| < 2 ==> MaxDrawdown(w) == 0.0
    ensures forall k :: 0 <= k < |w| ==> DrawdownAt(w, k) <= MaxDrawdown(w)
    ensures |w| > 0 ==> exists k :: 0 <= k < |w| && DrawdownAt(w, k) == MaxDrawdown(w)
  {
    if |w| < 2 {
      if |w| == 1 {
        assert DrawdownAt(w, 0) == 0.0;
      }
    } else {
      MaxDrawdownOfBounds(w, |w|);
    }
  }

  /** A window within the tolerance has its maximum drawdown within it. */
  lemma MaxDrawdownWithinTolerance(w: seq<real>, tol: real)
    requires AllPositive(w) && |w| > 0 && WithinTolerance(w, tol)
    ensures MaxDrawdown(w) <= tol
  {
    MaxDrawdownIsLargest(w);
  }
}
