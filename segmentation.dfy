/**
 * The uptrend-phase scan shared by `UptrendPhaseDetector.detect_phases`
 * (backend/services/backtester.py) and the two `detect_uptrend` copies in
 * backend/scripts/full_market_scan.py and backend/scripts/select_new_uptrends.py.
 *
 * A phase starts wherever the next price rises, grows while the drawdown from
 * the running peak stays within the tolerance, is cut at the running peak and
 * (backtester only, `trim`) trimmed again by `_find_valid_phase_end`; it is kept
 * when it gains at least `minGain` percent over at least `minDur` steps, and the
 * scan resumes after it.
 */
module Segmentation {
  import opened Common
  import opened Drawdown

  /** A phase as index range [start, end] of the price series. */
  datatype Span = Span(start: nat, end: nat)

  lemma PositiveSlice(prices: seq<real>, lo: nat, hi: nat)
    requires AllPositive(prices) && lo <= hi <= |prices|
    ensures AllPositive(prices[lo..hi])
  {
  }

  /**
   * What every emitted phase satisfies: a rise at its start, at least `minDur`
   * steps, at least `minGain` percent, its last price the maximum of the
   * window, and (for a non-negative tolerance) no drawdown from the running
   * peak above the tolerance inside it.
   */
  predicate ValidPhase(prices: seq<real>, s: Span, tol: real, minGain: real, minDur: int)
    requires AllPositive(prices)
  {
    && s.start < s.end < |prices|
    && prices[s.start] < prices[s.start + 1]
    && s.end - s.start >= minDur
    && Gain(prices[s.start], prices[s.end]) >= minGain
    && (forall m :: s.start <= m <= s.end ==> prices[m] <= prices[s.end])
    && (tol >= 0.0 ==> WithinTolerance(prices[s.start..s.end + 1], tol))
  }

  /** Phases come out in increasing, non-overlapping index ranges. */
  predicate Ordered(spans: seq<Span>) {
    forall a, b :: 0 <= a < b < |spans| ==> spans[a].end < spans[b].start
  }

  // ---------------------------------------------------------------------
  // The reference scan: which phases the loops find.
  // ---------------------------------------------------------------------

  /**
   * The first position at or after k whose drawdown from the running peak
   * (the peak already raised by that position's own price) exceeds `tol`:
   * where the inner loop breaks.
   */
  function FirstExceed(w: seq<real>, tol: real, k: nat): (r: Option<nat>)
    requires AllPositive(w)
    ensures r.Some? ==> k <= r.value < |w|
    decreases |w| - k
  {
    if k >= |w| then None
    else if DrawdownAt(w, k) > tol then Some(k)
    else FirstExceed(w, tol, k + 1)
  }

  /** The position found exceeds the tolerance and no earlier one from k does. */
  lemma {:induction false} FirstExceedIsFirst(w: seq<real>, tol: real, k: nat)
    requires AllPositive(w)
    ensures var r := FirstExceed(w, tol, k);
            && (r.Some? ==> DrawdownAt(w, r.value) > tol && forall m :: k <= m < r.value ==> DrawdownAt(w, m) <= tol)
            && (r.None? ==> forall m :: k <= m < |w| ==> DrawdownAt(w, m) <= tol)
    decreases |w| - k
  {
    if k < |w| && DrawdownAt(w, k) <= tol {
      FirstExceedIsFirst(w, tol, k + 1);
    }
  }

  /** Where the inner loop stops (`j`) and the running peak's position there (`running_peak_idx`). */
  datatype Growth = Growth(stop: nat, peak: nat)

  /**
   * The inner loop from a rising start i (backtester.py:91-110): it stops at
   * the first position whose drawdown exceeds the tolerance, or at the end of
   * the series, and the phase end is the running peak's position there.
   */
  function Grow(prices: seq<real>, i: nat, tol: real): (g: Growth)
    requires AllPositive(prices) && i + 1 < |prices| && prices[i] < prices[i + 1]
    ensures i < g.peak <= g.stop <= |prices| && g.peak < |prices|
  {
    var w := prices[i..];
    match FirstExceed(w, tol, 1)
    case Some(k) => RisePeak(w, k); Growth(i + k, i + PeakIndex(w, k))
    case None => RisePeak(w, |w| - 1); Growth(|prices|, i + PeakIndex(w, |w| - 1))
  }

  /** After a rise from w[0] to w[1], the running peak is never at position 0 again. */
  lemma RisePeak(w: seq<real>, k: nat)
    requires 1 <= k < |w| && w[0] < w[1]
    ensures PeakIndex(w, k) >= 1
  {
    assert w[1] <= RunningPeak(w, k);
  }

  /**
   * The grown phase ends at the maximum of its window, and for a
   * non-negative tolerance the loop stopped after the peak and no drawdown up
   * to the peak exceeds the tolerance.
   */
  lemma GrowSound(prices: seq<real>, i: nat, tol: real)
    requires AllPositive(prices) && i + 1 < |prices| && prices[i] < prices[i + 1]
    ensures var g := Grow(prices, i, tol);
            && (forall m :: i <= m <= g.peak ==> prices[m] <= prices[g.peak])
            && (tol >= 0.0 ==> g.peak < g.stop && WithinTolerance(prices[i..g.peak + 1], tol))
  {
    var last := GrowShape(prices, i, tol);
    var g := Grow(prices, i, tol);
    var w := prices[i..];
    PeakIsMaximum(w, last);
    forall m | i <= m <= g.peak
      ensures prices[m] <= prices[g.peak]
    {
      assert w[m - i] == prices[m];
    }
    if tol >= 0.0 {
      if g.stop < |prices| {
        ExceedBelowPeak(w, last, tol);
      }
      GrownWindowWithinTolerance(prices, i, g.peak, g.stop, tol);
    }
  }

  /**
   * The inner loop in terms of the window w = prices[i..]: it stopped at
   * `last` when a drawdown exceeded the tolerance there, or ran to the end,
   * and every drawdown it passed stayed within the tolerance.
   */
  lemma GrowShape(prices: seq<real>, i: nat, tol: real) returns (last: nat)
    requires AllPositive(prices) && i + 1 < |prices| && prices[i] < prices[i + 1]
    ensures var g := Grow(prices, i, tol);
            && 1 <= last < |prices| - i && g.peak == i + PeakIndex(prices[i..], last)
            && (g.stop < |prices| ==> g.stop == i + last && DrawdownAt(prices[i..], last) > tol)
            && (g.stop == |prices| ==> last == |prices| - i - 1)
            && (forall m :: 0 < m < g.stop - i ==> DrawdownAt(prices[i..], m) <= tol)
  {
    var w := prices[i..];
    FirstExceedIsFirst(w, tol, 1);
    last := if FirstExceed(w, tol, 1).Some? then FirstExceed(w, tol, 1).value else |w| - 1;
  }

  /** The running peak's position holds the largest price up to k. */
  lemma PeakIsMaximum(w: seq<real>, k: nat)
    requires k < |w|
    ensures forall m :: 0 <= m <= k ==> w[m] <= w[PeakIndex(w, k)]
  {
  }

  /** A position whose drawdown exceeds a non-negative tolerance is not a new peak. */
  lemma ExceedBelowPeak(w: seq<real>, k: nat, tol: real)
    requires AllPositive(w) && 0 < k < |w| && tol >= 0.0 && DrawdownAt(w, k) > tol
    ensures PeakIndex(w, k) < k
  {
    if w[k] > RunningPeak(w, k - 1) {
      assert RunningPeak(w, k) == w[k];
    }
  }

  /**
   * One step of the inner loop at position k: the running peak moves to k
   * exactly on a strictly higher price, the loop breaks at k exactly when
   * the drawdown from that peak exceeds the tolerance.
   */
  lemma GrowStep(w: seq<real>, tol: real, k: nat)
    requires AllPositive(w) && 0 < k < |w|
    ensures w[k] > RunningPeak(w, k - 1) ==> RunningPeak(w, k) == w[k] && PeakIndex(w, k) == k
    ensures w[k] <= RunningPeak(w, k - 1) ==>
              RunningPeak(w, k) == RunningPeak(w, k - 1) && PeakIndex(w, k) == PeakIndex(w, k - 1)
    ensures DrawdownAt(w, k) == PercentBelow(RunningPeak(w, k), w[k])
    ensures DrawdownAt(w, k) > tol ==> FirstExceed(w, tol, k) == Some(k)
    ensures DrawdownAt(w, k) <= tol ==> FirstExceed(w, tol, k) == FirstExceed(w, tol, k + 1)
  {
  }

  /**
   * Where a grown phase [start, end] ends (backtester.py:110-120): at the
   * running peak, or, with `trim`, at `_find_valid_phase_end` of its window.
   */
  function Cut(prices: seq<real>, start: nat, end: nat, tol: real, trim: bool): (e: nat)
    requires AllPositive(prices) && start < end < |prices|
    ensures start <= e <= end
  {
    PositiveSlice(prices, start, end + 1);
    if trim then start + ValidEnd(prices[start..end + 1], tol) else end
  }

  /** One attempt's outcome: where the scan resumes and the phase it keeps, if any. */
  datatype Attempt = Attempt(next: nat, kept: Option<Span>)

  /**
   * One phase attempt from a rising start i (backtester.py:85-127, 153): the
   * phase grown and cut is kept iff it is longer than its start, gains at
   * least `minGain` percent and lasts at least `minDur` steps; the scan
   * resumes at `max(j, phase_end + 1)`.
   */
  function TryPhase(prices: seq<real>, i: nat, tol: real, minGain: real, minDur: int, trim: bool): (a: Attempt)
    requires AllPositive(prices) && i + 1 < |prices| && prices[i] < prices[i + 1]
    ensures i < a.next <= |prices|
  {
    var g := Grow(prices, i, tol);
    var kept :=
      if g.peak > i then
        var e := Cut(prices, i, g.peak, tol, trim);
        if e > i && Gain(prices[i], prices[e]) >= minGain && e - i >= minDur then Some(Span(i, e)) else None
      else None;
    Attempt(if g.stop < g.peak + 1 then g.peak + 1 else g.stop, kept)
  }

  /**
   * The cut end of a phase grown to its maximum is again a maximum of its
   * window, and it is the grown end itself for a non-negative tolerance.
   */
  lemma CutSound(prices: seq<real>, start: nat, end: nat, tol: real, trim: bool)
    requires AllPositive(prices) && start < end < |prices|
    requires forall m :: start <= m <= end ==> prices[m] <= prices[end]
    requires tol >= 0.0 ==> WithinTolerance(prices[start..end + 1], tol)
    ensures var e := Cut(prices, start, end, tol, trim);
            && (forall m :: start <= m <= e ==> prices[m] <= prices[e])
            && (tol >= 0.0 ==> e == end)
  {
    TrimmedPhase(prices, start, end, tol);
  }

  /** A kept phase starts at i, ends before the scan resumes, and is a valid phase. */
  lemma TryPhaseSound(prices: seq<real>, i: nat, tol: real, minGain: real, minDur: int, trim: bool)
    requires AllPositive(prices) && i + 1 < |prices| && prices[i] < prices[i + 1]
    ensures var a := TryPhase(prices, i, tol, minGain, minDur, trim);
            a.kept.Some? ==> a.kept.value.start == i && a.kept.value.end < a.next &&
                             ValidPhase(prices, a.kept.value, tol, minGain, minDur)
  {
    var a := TryPhase(prices, i, tol, minGain, minDur, trim);
    if a.kept.Some? {
      var peak := KeptByAttempt(prices, i, tol, minGain, minDur, trim);
      GrownPhaseValid(prices, i, peak, a.kept.value.end, tol, minGain, minDur, trim);
    }
  }

  /** What keeping a phase means: the cut end of the grown phase passes the gain and duration tests. */
  lemma KeptByAttempt(prices: seq<real>, i: nat, tol: real, minGain: real, minDur: int, trim: bool)
    returns (peak: nat)
    requires AllPositive(prices) && i + 1 < |prices| && prices[i] < prices[i + 1]
    requires TryPhase(prices, i, tol, minGain, minDur, trim).kept.Some?
    ensures peak == Grow(prices, i, tol).peak && i < peak < |prices|
    ensures var a := TryPhase(prices, i, tol, minGain, minDur, trim);
            var e := a.kept.value.end;
            && a.kept.value.start == i && e == Cut(prices, i, peak, tol, trim) && e < a.next
            && i < e && Gain(prices[i], prices[e]) >= minGain && e - i >= minDur
  {
    peak := Grow(prices, i, tol).peak;
  }

  /** The phase cut from a grown phase and passing the tests is a valid phase. */
  lemma GrownPhaseValid(prices: seq<real>, i: nat, peak: nat, e: nat, tol: real, minGain: real, minDur: int, trim: bool)
    requires AllPositive(prices) && i + 1 < |prices| && prices[i] < prices[i + 1]
    requires peak == Grow(prices, i, tol).peak && i < peak < |prices|
    requires e == Cut(prices, i, peak, tol, trim) && i < e
    requires Gain(prices[i], prices[e]) >= minGain && e - i >= minDur
    ensures ValidPhase(prices, Span(i, e), tol, minGain, minDur)
  {
    GrowSound(prices, i, tol);
    CutSound(prices, i, peak, tol, trim);
    ValidPhaseIntro(prices, Span(i, e), tol, minGain, minDur);
  }

  /** The conditions of `ValidPhase`, one by one. */
  lemma ValidPhaseIntro(prices: seq<real>, s: Span, tol: real, minGain: real, minDur: int)
    requires AllPositive(prices) && s.start < s.end < |prices|
    requires prices[s.start] < prices[s.start + 1]
    requires s.end - s.start >= minDur && Gain(prices[s.start], prices[s.end]) >= minGain
    requires forall m :: s.start <= m <= s.end ==> prices[m] <= prices[s.end]
    requires tol >= 0.0 ==> WithinTolerance(prices[s.start..s.end + 1], tol)
    ensures ValidPhase(prices, s, tol, minGain, minDur)
  {
  }

  /**
   * The phases `detect_phases` / `detect_uptrend` find from position i on
   * (backtester.py:79-155): skip positions without a rise, try a phase at
   * each rise, and resume where the attempt says.
   */
  function Phases(prices: seq<real>, tol: real, minGain: real, minDur: int, trim: bool, i: nat): seq<Span>
    requires AllPositive(prices)
    decreases |prices| - i
  {
    if i + 1 >= |prices| then []
    else if prices[i + 1] <= prices[i] then Phases(prices, tol, minGain, minDur, trim, i + 1)
    else
      var a := TryPhase(prices, i, tol, minGain, minDur, trim);
      (if a.kept.Some? then [a.kept.value] else []) + Phases(prices, tol, minGain, minDur, trim, a.next)
  }

  /** All phases of a series: none when it is shorter than `minDur` (backtester.py:70-71). */
  function Detected(prices: seq<real>, tol: real, minGain: real, minDur: int, trim: bool): seq<Span>
    requires AllPositive(prices)
  {
    if |prices| < minDur then [] else Phases(prices, tol, minGain, minDur, trim, 0)
  }

  /** Every phase found from i on starts at or after i, is valid, and they come in order. */
  lemma {:induction false} PhasesSound(prices: seq<real>, tol: real, minGain: real, minDur: int, trim: bool, i: nat)
    requires AllPositive(prices)
    ensures var ps := Phases(prices, tol, minGain, minDur, trim, i);
            && (forall k :: 0 <= k < |ps| ==> i <= ps[k].start && ValidPhase(prices, ps[k], tol, minGain, minDur))
            && Ordered(ps)
    decreases |prices| - i
  {
    if i + 1 >= |prices| {
    } else if prices[i + 1] <= prices[i] {
      PhasesSound(prices, tol, minGain, minDur, trim, i + 1);
    } else {
      var a := TryPhase(prices, i, tol, minGain, minDur, trim);
      TryPhaseSound(prices, i, tol, minGain, minDur, trim);
      PhasesSound(prices, tol, minGain, minDur, trim, a.next);
    }
  }

  /** Every detected phase is valid, and the phases come in increasing, non-overlapping order. */
  lemma DetectedSound(prices: seq<real>, tol: real, minGain: real, minDur: int, trim: bool)
    requires AllPositive(prices)
    ensures var ps := Detected(prices, tol, minGain, minDur, trim);
            && (forall k :: 0 <= k < |ps| ==> ValidPhase(prices, ps[k], tol, minGain, minDur))
            && Ordered(ps)
  {
    if |prices| >= minDur {
      PhasesSound(prices, tol, minGain, minDur, trim, 0);
    }
  }

  /**
   * A strictly rising series, long and steep enough, is one phase from its
   * first to its last price, with or without the trim.
   */
  lemma RisingSeriesIsOnePhase(prices: seq<real>, tol: real, minGain: real, minDur: int, trim: bool)
    requires AllPositive(prices) && |prices| >= 2
    requires forall a, b :: 0 <= a < b < |prices| ==> prices[a] < prices[b]
    requires tol >= 0.0 && |prices| - 1 >= minDur && Gain(prices[0], prices[|prices| - 1]) >= minGain
    ensures Detected(prices, tol, minGain, minDur, trim) == [Span(0, |prices| - 1)]
  {
    var last := |prices| - 1;
    assert prices[0..] == prices;
    RisingNeverExceeds(prices, tol, 1);
    RisingPeak(prices, last);
    assert Grow(prices, 0, tol) == Growth(|prices|, last);
    GrowSound(prices, 0, tol);
    CutSound(prices, 0, last, tol, trim);
    assert TryPhase(prices, 0, tol, minGain, minDur, trim) == Attempt(|prices|, Some(Span(0, last)));
    PhasesStep(prices, tol, minGain, minDur, trim, 0);
  }

  /** On a strictly rising series every price is a new running peak. */
  lemma {:induction false} RisingPeak(w: seq<real>, k: nat)
    requires k < |w| && forall a, b :: 0 <= a < b < |w| ==> w[a] < w[b]
    ensures RunningPeak(w, k) == w[k] && PeakIndex(w, k) == k
  {
    if k > 0 {
      RisingPeak(w, k - 1);
    }
  }

  /** On a strictly rising series no drawdown exceeds a non-negative tolerance. */
  lemma {:induction false} RisingNeverExceeds(w: seq<real>, tol: real, k: nat)
    requires AllPositive(w) && tol >= 0.0
    requires forall a, b :: 0 <= a < b < |w| ==> w[a] < w[b]
    ensures FirstExceed(w, tol, k) == None
    decreases |w| - k
  {
    if k < |w| {
      RisingPeak(w, k);
      RisingNeverExceeds(w, tol, k + 1);
    }
  }

  // ---------------------------------------------------------------------
  // The loops, proved equal to the reference scan.
  // ---------------------------------------------------------------------

  /**
   * The inner loop (backtester.py:91-110): from a rising start i, advance j
   * while the drawdown from the running peak stays within the tolerance.
   * Returns where it stopped and the running peak's position.
   */
  method GrowPhase(prices: seq<real>, i: nat, tol: real) returns (j: nat, peakIdx: nat)
    requires AllPositive(prices)
    requires i + 1 < |prices| && prices[i] < prices[i + 1]
    ensures Growth(j, peakIdx) == Grow(prices, i, tol)
  {
    ghost var w := prices[i..];
    var runningPeak := prices[i];
    peakIdx := i;
    j := i + 1;
    ghost var k: nat := 1;     // j's position in w
    ghost var seen: nat := 0;  // the last position of w the loop has passed
    var stop := false;
    while j < |prices| && !stop
      invariant i + 1 <= j <= |prices| && k == j - i && seen + 1 == k
      invariant stop ==> j < |prices|
      invariant !stop ==> runningPeak == RunningPeak(w, seen) && peakIdx == i + PeakIndex(w, seen)
      invariant !stop ==> FirstExceed(w, tol, 1) == FirstExceed(w, tol, k)
      invariant stop ==> peakIdx == i + PeakIndex(w, k) && FirstExceed(w, tol, 1) == Some(k)
      decreases |prices| - j, if stop then 0 else 1
    {
      GrowStep(w, tol, k);
      SliceAt(prices, i, k);
      var currentPrice := prices[j];
      if currentPrice > runningPeak {
        runningPeak := currentPrice;
        peakIdx := j;
      }
      var drawdownFromPeak := PercentBelow(runningPeak, currentPrice);
      if drawdownFromPeak > tol {
        stop := true;
      } else {
        j, k, seen := j + 1, k + 1, k;
      }
    }
  }

  lemma SliceAt(prices: seq<real>, i: nat, k: nat)
    requires i + k < |prices|
    ensures prices[i..][k] == prices[i + k]
  {
  }

  lemma GrownWindowWithinTolerance(prices: seq<real>, i: nat, peakIdx: nat, j: nat, tol: real)
    requires AllPositive(prices) && i <= peakIdx < j <= |prices| && tol >= 0.0
    requires forall k :: 0 < k < j - i ==> DrawdownAt(prices[i..], k) <= tol
    ensures WithinTolerance(prices[i..peakIdx + 1], tol)
  {
    var w := prices[i..];
    var win := prices[i..peakIdx + 1];
    assert win == w[..peakIdx - i + 1];
    forall k | 0 <= k < |win|
      ensures DrawdownAt(win, k) <= tol
    {
      DrawdownAtPrefix(w, peakIdx - i + 1, k);
    }
  }

  /**
   * The scan (backtester.py:70-155, full_market_scan.py:52-118,
   * select_new_uptrends.py:51-107). `trim` selects the backtester's extra
   * `_find_valid_phase_end` pass. The loop finds exactly the reference
   * scan's phases, which are valid and ordered.
   */
  method Segment(prices: seq<real>, tol: real, minGain: real, minDur: int, trim: bool)
    returns (spans: seq<Span>)
    requires AllPositive(prices)
    ensures spans == Detected(prices, tol, minGain, minDur, trim)
  {
    spans := [];
    if |prices| < minDur {
      return;
    }
    var i := 0;
    while i + 1 < |prices|
      invariant i <= |prices|
      invariant spans + Phases(prices, tol, minGain, minDur, trim, i) == Phases(prices, tol, minGain, minDur, trim, 0)
      decreases |prices| - i
    {
      // look for a rise: the next price must be strictly higher
      if prices[i + 1] <= prices[i] {
        PhasesStep(prices, tol, minGain, minDur, trim, i);
        i := i + 1;
        continue;
      }
      var next, kept := ScanFrom(prices, i, tol, minGain, minDur, trim);
      var found := if kept.Some? then [kept.value] else [];
      PhasesAdvance(prices, tol, minGain, minDur, trim, i, spans, next, kept);
      spans := spans + found;
      // move past the phase
      i := next;
    }
  }

  /** The scan's bookkeeping after one attempt at a rise: the phases found so far plus the rest. */
  lemma PhasesAdvance(prices: seq<real>, tol: real, minGain: real, minDur: int, trim: bool, i: nat,
                      spans: seq<Span>, next: nat, kept: Option<Span>)
    requires AllPositive(prices) && i + 1 < |prices| && prices[i] < prices[i + 1]
    requires Attempt(next, kept) == TryPhase(prices, i, tol, minGain, minDur, trim)
    requires spans + Phases(prices, tol, minGain, minDur, trim, i) == Phases(prices, tol, minGain, minDur, trim, 0)
    ensures (spans + if kept.Some? then [kept.value] else []) + Phases(prices, tol, minGain, minDur, trim, next)
            == Phases(prices, tol, minGain, minDur, trim, 0)
  {
    PhasesStep(prices, tol, minGain, minDur, trim, i);
    AppendAssociative(spans, if kept.Some? then [kept.value] else [], Phases(prices, tol, minGain, minDur, trim, next));
  }

  /** One step of the reference scan at position i, before its end. */
  lemma PhasesStep(prices: seq<real>, tol: real, minGain: real, minDur: int, trim: bool, i: nat)
    requires AllPositive(prices) && i + 1 < |prices|
    ensures prices[i + 1] <= prices[i] ==>
              Phases(prices, tol, minGain, minDur, trim, i) == Phases(prices, tol, minGain, minDur, trim, i + 1)
    ensures prices[i + 1] > prices[i] ==>
              var a := TryPhase(prices, i, tol, minGain, minDur, trim);
              Phases(prices, tol, minGain, minDur, trim, i) ==
                (if a.kept.Some? then [a.kept.value] else []) + Phases(prices, tol, minGain, minDur, trim, a.next)
  {
  }

  /**
   * One phase of the scan from a rising start i (backtester.py:85-127, 153): grow
   * it, cut it, keep it when it is long and steep enough, and say where the
   * scan resumes.
   */
  method ScanFrom(prices: seq<real>, i: nat, tol: real, minGain: real, minDur: int, trim: bool)
    returns (next: nat, kept: Option<Span>)
    requires AllPositive(prices)
    requires i + 1 < |prices| && prices[i] < prices[i + 1]
    ensures Attempt(next, kept) == TryPhase(prices, i, tol, minGain, minDur, trim)
    ensures i < next <= |prices|
  {
    GrowSound(prices, i, tol);
    var phaseStart := i;
    var phaseStartPrice := prices[i];
    var j, phaseEnd := GrowPhase(prices, i, tol);
    kept := None;
    if phaseEnd > phaseStart {
      var actualEnd := CutPhase(prices, phaseStart, phaseEnd, tol, trim);
      if actualEnd > phaseStart {
        var totalGain := Gain(phaseStartPrice, prices[actualEnd]);
        var duration := actualEnd - phaseStart;
        if totalGain >= minGain && duration >= minDur {
          kept := Some(Span(phaseStart, actualEnd));
        }
      }
    }
    next := if j < phaseEnd + 1 then phaseEnd + 1 else j;
  }

  /**
   * Where a grown phase [start, end] ends (backtester.py:110-122): at the
   * running peak, or, with `trim`, at `_find_valid_phase_end` of its window;
   * still at a maximum, and the whole phase when the tolerance is
   * non-negative.
   */
  method CutPhase(prices: seq<real>, start: nat, end: nat, tol: real, trim: bool)
    returns (actualEnd: nat)
    requires AllPositive(prices) && start < end < |prices|
    requires forall m :: start <= m <= end ==> prices[m] <= prices[end]
    requires tol >= 0.0 ==> WithinTolerance(prices[start..end + 1], tol)
    ensures actualEnd == Cut(prices, start, end, tol, trim)
    ensures start <= actualEnd <= end
    ensures !trim ==> actualEnd == end
    ensures forall m :: start <= m <= actualEnd ==> prices[m] <= prices[actualEnd]
    ensures tol >= 0.0 ==> actualEnd == end
  {
    actualEnd := end;
    if trim {
      PositiveSlice(prices, start, end + 1);
      var validEnd := FindValidPhaseEnd(prices[start..end + 1], tol);
      actualEnd := start + validEnd;
      TrimmedPhase(prices, start, end, tol);
    }
  }

  /**
   * What the trim keeps of a grown phase [start, end]: an end no later than
   * `end`, still at the maximum of its window, and the whole phase when the
   * tolerance is non-negative.
   */
  lemma TrimmedPhase(prices: seq<real>, start: nat, end: nat, tol: real)
    requires AllPositive(prices) && start < end < |prices|
    requires forall m :: start <= m <= end ==> prices[m] <= prices[end]
    requires tol >= 0.0 ==> WithinTolerance(prices[start..end + 1], tol)
    ensures AllPositive(prices[start..end + 1])
    ensures start + ValidEnd(prices[start..end + 1], tol) <= end
    ensures var e := start + ValidEnd(prices[start..end + 1], tol);
            forall m :: start <= m <= e ==> prices[m] <= prices[e]
    ensures tol >= 0.0 ==> start + ValidEnd(prices[start..end + 1], tol) == end
  {
    var w := prices[start..end + 1];
    ValidEndAtPeak(w, tol);
    var v := ValidEnd(w, tol);
    forall m | start <= m <= start + v
      ensures prices[m] <= prices[start + v]
    {
      assert w[m - start] == prices[m];
    }
    if tol >= 0.0 {
      ValidEndKeepsWholeWindow(w, tol);
    }
  }

  /**
   * Every phase rises overall, whatever `minGain` is: its last price is above
   * its first, so its gain is positive.
   */
  lemma PhaseGainPositive(prices: seq<real>, s: Span, tol: real, minGain: real, minDur: int)
    requires AllPositive(prices) && ValidPhase(prices, s, tol, minGain, minDur)
    ensures prices[s.end] > prices[s.start]
    ensures Gain(prices[s.start], prices[s.end]) > 0.0
  {
    assert prices[s.start + 1] <= prices[s.end];
  }

  /** Ordered phases are pairwise disjoint, inclusive of their end points. */
  lemma OrderedDisjoint(spans: seq<Span>, a: nat, b: nat)
    requires Ordered(spans) && a < |spans| && b < |spans| && a != b
    requires forall k :: 0 <= k < |spans| ==> spans[k].start < spans[k].end
    ensures spans[a].end < spans[b].start || spans[b].end < spans[a].start
  {
  }
}
