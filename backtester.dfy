/**
 * `UptrendPhaseDetector.detect_phases` (backend/services/backtester.py): the
 * shared scan with the trim, and the record built for every phase it keeps.
 */
module Backtester {
  import opened Common
  import opened Drawdown
  import opened Segmentation
  import opened Slopes

  /** The detector's settings; the defaults are 5 %, 10 % and 5 days. */
  datatype PhaseDetectorConfig = PhaseDetectorConfig(
    maxDrawdownTolerance: real,
    minGain: real,
    minDuration: int)

  const DefaultPhaseDetector := PhaseDetectorConfig(5.0, 10.0, 5)

  /** `UptrendPhase` (backtester.py:28-45), without the final rounding. */
  datatype UptrendPhase = UptrendPhase(
    code: string,
    name: string,
    startDate: string,
    endDate: string,
    startIdx: nat,
    endIdx: nat,
    durationDays: nat,
    totalGain: real,
    maxDrawdown: real,
    avgDailyGain: real,
    peakDate: string,
    peakGain: real,
    slopeFirst: real,
    slopeSecond: real,
    isAccelerating: bool)

  /**
   * The record `detect_phases` builds for the phase [s.start, s.end]
   * (backtester.py:124-150): gain and duration, the maximum drawdown and the
   * slopes of the window, and the acceleration flag. Its fields agree: the
   * phase peaks at its end, lasts at least a day, has a drawdown that is not
   * negative, and is accelerating only with at least four prices.
   */
  function PhaseOf(cfg: PhaseDetectorConfig, code: string, name: string,
                   prices: seq<real>, dates: seq<string>, fit: seq<real> -> real, s: Span): (p: UptrendPhase)
    requires AllPositive(prices) && |dates| == |prices| && s.start < s.end < |prices|
    ensures p.peakDate == p.endDate && p.peakGain == p.totalGain
    ensures p.durationDays > 0
    ensures p.maxDrawdown >= 0.0
    ensures p.isAccelerating ==> p.durationDays >= 3
  {
    var w := prices[s.start..s.end + 1];
    MaxDrawdownIsLargest(w);
    assert Exceeds(PhaseSlopes(w, fit).acceleration, 1.3) ==> |w| >= 4 by {
      if Exceeds(PhaseSlopes(w, fit).acceleration, 1.3) {
        ShortPhaseNotAccelerating(w, fit);
      }
    }
    var totalGain := Gain(prices[s.start], prices[s.end]);
    var duration := s.end - s.start;
    var slopes := PhaseSlopes(w, fit);
    UptrendPhase(
      code, name, dates[s.start], dates[s.end], s.start, s.end, duration,
      totalGain, MaxDrawdown(w), AverageDailyGain(totalGain, duration), dates[s.end], totalGain,
      slopes.first, slopes.second, Exceeds(slopes.acceleration, 1.3))
  }

  /** A detected phase: a valid phase for the settings, reported by its record. */
  predicate DescribesPhase(cfg: PhaseDetectorConfig, code: string, name: string,
                           prices: seq<real>, dates: seq<string>, fit: seq<real> -> real,
                           p: UptrendPhase)
    requires AllPositive(prices) && |dates| == |prices|
  {
    && ValidPhase(prices, Span(p.startIdx, p.endIdx), cfg.maxDrawdownTolerance, cfg.minGain, cfg.minDuration)
    && p == PhaseOf(cfg, code, name, prices, dates, fit, Span(p.startIdx, p.endIdx))
  }

  /** `avg_daily_gain`: the total gain spread evenly over the phase's days. */
  function AverageDailyGain(totalGain: real, days: nat): real
    requires days > 0
  {
    totalGain / (days as real)
  }

  /** Spread over the phase's days, the average adds back up to the total gain. */
  lemma AverageSpreadsGain(totalGain: real, days: nat)
    requires days > 0
    ensures AverageDailyGain(totalGain, days) * (days as real) == totalGain
    ensures totalGain > 0.0 ==> AverageDailyGain(totalGain, days) > 0.0
  {
  }

  /**
   * The dates, duration and gains a phase record reports: the dates of its
   * ends, its end as its peak, at least `minDuration` days, and a positive
   * gain of at least `minGain` percent.
   */
  lemma PhaseOfGain(cfg: PhaseDetectorConfig, code: string, name: string,
                    prices: seq<real>, dates: seq<string>, fit: seq<real> -> real, s: Span)
    requires AllPositive(prices) && |dates| == |prices|
    requires ValidPhase(prices, s, cfg.maxDrawdownTolerance, cfg.minGain, cfg.minDuration)
    ensures var p := PhaseOf(cfg, code, name, prices, dates, fit, s);
            && p.code == code && p.name == name
            && p.startIdx == s.start && p.endIdx == s.end
            && p.startDate == dates[s.start] && p.endDate == dates[s.end] && p.peakDate == p.endDate
            && p.durationDays == s.end - s.start && p.durationDays as int >= cfg.minDuration
            && p.totalGain == Gain(prices[s.start], prices[s.end]) && p.peakGain == p.totalGain
            && p.totalGain >= cfg.minGain && p.totalGain > 0.0
  {
    PhaseGainPositive(prices, s, cfg.maxDrawdownTolerance, cfg.minGain, cfg.minDuration);
  }

  /**
   * The drawdown a phase record reports is the largest drawdown from the
   * running peak inside its window, some position attains it, and it is
   * within the detector's tolerance when that is non-negative.
   */
  lemma PhaseOfDrawdown(cfg: PhaseDetectorConfig, code: string, name: string,
                        prices: seq<real>, dates: seq<string>, fit: seq<real> -> real, s: Span)
    requires AllPositive(prices) && |dates| == |prices|
    requires ValidPhase(prices, s, cfg.maxDrawdownTolerance, cfg.minGain, cfg.minDuration)
    ensures var p := PhaseOf(cfg, code, name, prices, dates, fit, s);
            var w := prices[s.start..s.end + 1];
            && p.maxDrawdown >= 0.0
            && (forall k :: 0 <= k < |w| ==> DrawdownAt(w, k) <= p.maxDrawdown)
            && (exists k :: 0 <= k < |w| && DrawdownAt(w, k) == p.maxDrawdown)
            && (cfg.maxDrawdownTolerance >= 0.0 ==> p.maxDrawdown <= cfg.maxDrawdownTolerance)
  {
    var w := prices[s.start..s.end + 1];
    MaxDrawdownIsLargest(w);
    if cfg.maxDrawdownTolerance >= 0.0 {
      MaxDrawdownWithinTolerance(w, cfg.maxDrawdownTolerance);
    }
  }

  /**
   * The acceleration flag of a phase record: never set for a phase of fewer
   * than four prices; otherwise, when the first half rises by more than 0.01
   * per day, set exactly when the second half's slope exceeds 1.3 times the
   * first's, and when it does not, set exactly when the second half rises.
   */
  lemma PhaseOfSlopes(cfg: PhaseDetectorConfig, code: string, name: string,
                      prices: seq<real>, dates: seq<string>, fit: seq<real> -> real, s: Span)
    requires AllPositive(prices) && |dates| == |prices| && s.start < s.end < |prices|
    ensures var p := PhaseOf(cfg, code, name, prices, dates, fit, s);
            && (s.end - s.start < 3 ==> !p.isAccelerating && p.slopeFirst == 0.0 && p.slopeSecond == 0.0)
            && (s.end - s.start >= 3 && p.slopeFirst > 0.01 ==>
                  (p.isAccelerating <==> p.slopeSecond > 1.3 * p.slopeFirst))
            && (s.end - s.start >= 3 && p.slopeFirst <= 0.01 ==>
                  (p.isAccelerating <==> p.slopeSecond > 0.0))
  {
    var p := PhaseOf(cfg, code, name, prices, dates, fit, s);
    var w := prices[s.start..s.end + 1];
    AccelCharacterized(p.slopeFirst, p.slopeSecond, 1.3);
    if |w| >= 4 {
      assert PhaseSlopes(w, fit) == HalfSlopes(w, fit);
    }
  }

  /** The records of the phases the scan with the trim finds, in order. */
  function DetectedPhases(cfg: PhaseDetectorConfig, code: string, name: string,
                          prices: seq<real>, dates: seq<string>, fit: seq<real> -> real): seq<UptrendPhase>
    requires AllPositive(prices) && |dates| == |prices|
  {
    var spans := Detected(prices, cfg.maxDrawdownTolerance, cfg.minGain, cfg.minDuration, true);
    DetectedSound(prices, cfg.maxDrawdownTolerance, cfg.minGain, cfg.minDuration, true);
    seq(|spans|, k requires 0 <= k < |spans| => PhaseOf(cfg, code, name, prices, dates, fit, spans[k]))
  }

  /**
   * `detect_phases` over the fund's series (backtester.py:66-155); the series
   * is a parameter in place of the database read. The result is the records
   * of exactly the phases the reference scan finds; each describes a valid
   * phase, and they come in increasing, non-overlapping index ranges.
   */
  method DetectPhases(cfg: PhaseDetectorConfig, code: string, name: string,
                      prices: seq<real>, dates: seq<string>, fit: seq<real> -> real)
    returns (phases: seq<UptrendPhase>)
    requires AllPositive(prices) && |dates| == |prices|
    ensures phases == DetectedPhases(cfg, code, name, prices, dates, fit)
    ensures |prices| < cfg.minDuration ==> phases == []
    ensures forall k :: 0 <= k < |phases| ==> DescribesPhase(cfg, code, name, prices, dates, fit, phases[k])
    ensures forall a, b :: 0 <= a < b < |phases| ==> phases[a].endIdx < phases[b].startIdx
  {
    var spans := Segment(prices, cfg.maxDrawdownTolerance, cfg.minGain, cfg.minDuration, true);
    DetectedSound(prices, cfg.maxDrawdownTolerance, cfg.minGain, cfg.minDuration, true);
    phases := BuildPhases(cfg, code, name, prices, dates, fit, spans);
    forall k | 0 <= k < |phases|
      ensures DescribesPhase(cfg, code, name, prices, dates, fit, phases[k])
    {
      assert Span(phases[k].startIdx, phases[k].endIdx) == spans[k];
    }
  }

  /** One record per kept span, in the order of the spans (backtester.py:123-152). */
  method BuildPhases(cfg: PhaseDetectorConfig, code: string, name: string,
                     prices: seq<real>, dates: seq<string>, fit: seq<real> -> real, spans: seq<Span>)
    returns (phases: seq<UptrendPhase>)
    requires AllPositive(prices) && |dates| == |prices|
    requires forall k :: 0 <= k < |spans| ==> spans[k].start < spans[k].end < |prices|
    ensures |phases| == |spans|
    ensures forall k :: 0 <= k < |spans| ==> phases[k].startIdx == spans[k].start && phases[k].endIdx == spans[k].end
    ensures forall k :: 0 <= k < |spans| ==> phases[k] == PhaseOf(cfg, code, name, prices, dates, fit, spans[k])
  {
    phases := [];
    for n := 0 to |spans|
      invariant |phases| == n
      invariant forall k :: 0 <= k < n ==> phases[k].startIdx == spans[k].start && phases[k].endIdx == spans[k].end
      invariant forall k :: 0 <= k < n ==> phases[k] == PhaseOf(cfg, code, name, prices, dates, fit, spans[k])
    {
      var phase := BuildPhase(cfg, code, name, prices, dates, fit, spans[n]);
      phases := phases + [phase];
    }
  }

  /** The record of one kept phase (backtester.py:124-150). */
  method BuildPhase(cfg: PhaseDetectorConfig, code: string, name: string,
                    prices: seq<real>, dates: seq<string>, fit: seq<real> -> real, s: Span)
    returns (phase: UptrendPhase)
    requires AllPositive(prices) && |dates| == |prices| && s.start < s.end < |prices|
    ensures phase.startIdx == s.start && phase.endIdx == s.end
    ensures phase == PhaseOf(cfg, code, name, prices, dates, fit, s)
  {
    var actualPrices := prices[s.start..s.end + 1];
    var totalGain := Gain(prices[s.start], prices[s.end]);
    var duration := s.end - s.start;
    var maxDd := CalculateMaxDrawdown(actualPrices);
    var slopes := PhaseSlopes(actualPrices, fit);
    phase := UptrendPhase(
      code, name, dates[s.start], dates[s.end], s.start, s.end, duration,
      totalGain, maxDd, AverageDailyGain(totalGain, duration), dates[s.end], totalGain,
      slopes.first, slopes.second, Exceeds(slopes.acceleration, 1.3));
  }
}
