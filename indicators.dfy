/**
 * `IndicatorService.calculate_indicators` (backend/services/indicators.py):
 * momentum, relative strength against the CSI 300 index and the
 * volatility-compression ratio over the last `days + 1` points, turned into a
 * score from 0 to 6 and a warning level.
 *
 * The volatility (`pct_change().std() * 100` in pandas) is a parameter
 * `volatility`; the series of the fund and of the index are parameters in
 * place of the database reads.
 */
module Indicators {
  import opened Common

  /** `warning_level`: "NONE", "LOW", "MEDIUM" or "HIGH". */
  datatype WarningLevel = NoLevel | Low | Medium | High

  /** The result dictionary, without the rounding. */
  datatype IndicatorResult = IndicatorResult(
    fundCode: string,
    periodDays: nat,
    momentum: real,
    relativeStrength: real,
    indexReturn: real,
    volatility: real,
    volRatio: real,
    analysis: seq<string>,
    warningLevel: WarningLevel,
    score: int)

  // The analysis labels (indicators.py:83-106, 33).
  const StrongOutperform := "强势跑赢"
  const SlightOutperform := "略微跑赢"
  const Underperform := "跑输大盘"
  const StrongMomentum := "上涨动能强"
  const TrendingUp := "趋势向上"
  const TrendingDown := "下跌趋势"
  const VolatilitySqueeze := "波动压缩(蓄势)"
  const VolatilityNarrowing := "波动收窄"
  const InsufficientData := "数据不足"

  /**
   * `_empty_result(reason)` (indicators.py:130-142): the reason as the only
   * analysis entry, score 0, and the level NONE, which no score is given.
   */
  function EmptyResult(reason: string): (r: IndicatorResult)
    ensures r.analysis == [reason] && r.score == 0
    ensures r.warningLevel == NoLevel && forall score :: LevelOf(score) != r.warningLevel
  {
    IndicatorResult("", 0, 0.0, 0.0, 0.0, 0.0, 1.0, [reason], NoLevel, 0)
  }

  /** `df.tail(n)`: the last n points, or all of them when there are fewer. */
  function Tail(s: seq<real>, n: nat): (t: seq<real>)
    ensures |t| == if |s| < n then |s| else n
    ensures forall k :: 0 <= k < |t| ==> t[k] == s[|s| - |t| + k]
  {
    if |s| <= n then s else s[|s| - n..]
  }

  /**
   * `index_return` (indicators.py:46-54): the index's change over the last
   * `days + 1` points, or 0 when the index has fewer.
   */
  function IndexReturn(index: seq<real>, days: nat): (r: real)
    requires AllPositive(index)
    ensures |index| < days + 1 ==> r == 0.0
    ensures |index| >= days + 1 ==> r == Gain(index[|index| - days - 1], index[|index| - 1])
  {
    if |index| >= days + 1 then
      var w := Tail(index, days + 1);
      Gain(w[0], w[|w| - 1])
    else 0.0
  }

  /**
   * `vol_ratio` (indicators.py:63-75): the current volatility over that of
   * the preceding `days + 1` points, or 1 when the history is shorter than
   * twice the period or the earlier volatility is not positive.
   */
  function VolRatio(fund: seq<real>, days: nat, volatility: seq<real> -> real): (v: real)
    ensures |fund| < 2 * (days + 1) ==> v == 1.0
    ensures |fund| >= 2 * (days + 1) ==>
              var prev := volatility(fund[|fund| - 2 * (days + 1)..|fund| - (days + 1)]);
              v == if prev > 0.0 then volatility(Tail(fund, days + 1)) / prev else 1.0
  {
    if |fund| >= 2 * (days + 1) then
      var prevWindow := Tail(fund, 2 * (days + 1))[..days + 1];
      assert prevWindow == fund[|fund| - 2 * (days + 1)..|fund| - (days + 1)];
      var prevVolatility := volatility(prevWindow);
      if prevVolatility > 0.0 then volatility(Tail(fund, days + 1)) / prevVolatility else 1.0
    else 1.0
  }

  // ---------------------------------------------------------------------
  // Scoring (indicators.py:78-115)
  // ---------------------------------------------------------------------

  /** Points for relative strength: 2 above 5, 1 above 0. */
  function RsPoints(rs: real): int {
    if rs > 5.0 then 2 else if rs > 0.0 then 1 else 0
  }

  /** Points for momentum: 2 above 10, 1 above 0. */
  function MomentumPoints(momentum: real): int {
    if momentum > 10.0 then 2 else if momentum > 0.0 then 1 else 0
  }

  /** Points for the volatility ratio: 2 below 0.6, 1 below 0.8. */
  function VolPoints(volRatio: real): int {
    if volRatio < 0.6 then 2 else if volRatio < 0.8 then 1 else 0
  }

  function RsLabel(rs: real): string {
    if rs > 5.0 then StrongOutperform else if rs > 0.0 then SlightOutperform else Underperform
  }

  /** The momentum label; none between -5 and 0 inclusive. */
  function MomentumLabels(momentum: real): seq<string> {
    if momentum > 10.0 then [StrongMomentum]
    else if momentum > 0.0 then [TrendingUp]
    else if momentum < -5.0 then [TrendingDown]
    else []
  }

  /** The volatility label; none at 0.8 and above. */
  function VolLabels(volRatio: real): seq<string> {
    if volRatio < 0.6 then [VolatilitySqueeze]
    else if volRatio < 0.8 then [VolatilityNarrowing]
    else []
  }

  /**
   * Each signal's label and its points come from the same thresholds: the
   * strong label goes with 2 points, the mild one with 1, and a signal
   * without points gets the underperforming label, a falling or no momentum
   * label, and no volatility label.
   */
  lemma LabelsMatchPoints(rs: real, momentum: real, volRatio: real)
    ensures RsLabel(rs) == StrongOutperform <==> RsPoints(rs) == 2
    ensures RsLabel(rs) == SlightOutperform <==> RsPoints(rs) == 1
    ensures RsLabel(rs) == Underperform <==> RsPoints(rs) == 0
    ensures MomentumLabels(momentum) == [StrongMomentum] <==> MomentumPoints(momentum) == 2
    ensures MomentumLabels(momentum) == [TrendingUp] <==> MomentumPoints(momentum) == 1
    ensures MomentumPoints(momentum) == 0 <==> MomentumLabels(momentum) in {[], [TrendingDown]}
    ensures VolLabels(volRatio) == [VolatilitySqueeze] <==> VolPoints(volRatio) == 2
    ensures VolLabels(volRatio) == [VolatilityNarrowing] <==> VolPoints(volRatio) == 1
    ensures VolLabels(volRatio) == [] <==> VolPoints(volRatio) == 0
  {
  }

  /** The warning level of a score: HIGH from 4, MEDIUM from 2, LOW below. */
  function LevelOf(score: int): (level: WarningLevel)
    ensures level == High <==> score >= 4
    ensures level == Medium <==> 2 <= score < 4
    ensures level == Low <==> score < 2
  {
    if score >= 4 then High else if score >= 2 then Medium else Low
  }

  /** The order of the levels, NONE lowest. */
  function Rank(level: WarningLevel): nat {
    match level
    case NoLevel => 0
    case Low => 1
    case Medium => 2
    case High => 3
  }

  /** A higher score never gives a lower level. */
  lemma LevelMonotone(s1: int, s2: int)
    requires s1 <= s2
    ensures Rank(LevelOf(s1)) <= Rank(LevelOf(s2))
  {
  }

  /**
   * The scoring block: one relative-strength label and its points, then at
   * most one momentum label and one volatility label with theirs.
   */
  method ScoreSignals(rs: real, momentum: real, volRatio: real)
    returns (analysis: seq<string>, score: int)
    ensures score == RsPoints(rs) + MomentumPoints(momentum) + VolPoints(volRatio)
    ensures analysis == [RsLabel(rs)] + MomentumLabels(momentum) + VolLabels(volRatio)
    ensures 0 <= score <= 6 && 1 <= |analysis| <= 3
  {
    analysis := [];
    score := 0;
    if rs > 5.0 {
      analysis := analysis + [StrongOutperform];
      score := score + 2;
    } else if rs > 0.0 {
      analysis := analysis + [SlightOutperform];
      score := score + 1;
    } else {
      analysis := analysis + [Underperform];
    }
    if momentum > 10.0 {
      analysis := analysis + [StrongMomentum];
      score := score + 2;
    } else if momentum > 0.0 {
      analysis := analysis + [TrendingUp];
      score := score + 1;
    } else if momentum < -5.0 {
      analysis := analysis + [TrendingDown];
    }
    if volRatio < 0.6 {
      analysis := analysis + [VolatilitySqueeze];
      score := score + 2;
    } else if volRatio < 0.8 {
      analysis := analysis + [VolatilityNarrowing];
      score := score + 1;
    }
  }

  /**
   * `calculate_indicators` (indicators.py:17-128). Fewer than `days + 1`
   * fund points give the empty result; otherwise momentum is the change over
   * the last `days + 1` points, relative strength is momentum minus the
   * index return, and the score and level follow the three signals.
   */
  method CalculateIndicators(fundCode: string, days: nat, fund: seq<real>, index: seq<real>,
                             volatility: seq<real> -> real)
    returns (r: IndicatorResult)
    requires AllPositive(fund) && AllPositive(index)
    ensures |fund| < days + 1 ==> r == EmptyResult(InsufficientData)
    ensures r.warningLevel == NoLevel <==> |fund| < days + 1
    ensures |fund| >= days + 1 ==>
              && r.fundCode == fundCode && r.periodDays == days
              && r.momentum == Gain(fund[|fund| - days - 1], fund[|fund| - 1])
              && r.indexReturn == IndexReturn(index, days)
              && r.relativeStrength == r.momentum - r.indexReturn
              && r.volatility == volatility(Tail(fund, days + 1))
              && r.volRatio == VolRatio(fund, days, volatility)
              && r.score == RsPoints(r.relativeStrength) + MomentumPoints(r.momentum) + VolPoints(r.volRatio)
              && r.warningLevel == LevelOf(r.score)
              && 0 <= r.score <= 6 && 1 <= |r.analysis| <= 3
              && r.analysis == [RsLabel(r.relativeStrength)] + MomentumLabels(r.momentum) + VolLabels(r.volRatio)
  {
    if |fund| < days + 1 {
      return EmptyResult(InsufficientData);
    }
    var window := Tail(fund, days + 1);
    var currentPrice := window[|window| - 1];
    var startPrice := window[0];
    var momentum := Gain(startPrice, currentPrice);
    var indexReturn := IndexReturn(index, days);
    var rsValue := momentum - indexReturn;
    var vol := volatility(window);
    var volRatio := VolRatio(fund, days, volatility);
    var analysis, score := ScoreSignals(rsValue, momentum, volRatio);
    var warningLevel := LevelOf(score);
    r := IndicatorResult(fundCode, days, momentum, rsValue, indexReturn, vol, volRatio,
                         analysis, warningLevel, score);
  }

  // ---------------------------------------------------------------------
  // Properties of the scoring.
  // ---------------------------------------------------------------------

  /** Each signal's points never fall as the signal improves. */
  lemma PointsMonotone(rs1: real, rs2: real, m1: real, m2: real, v1: real, v2: real)
    requires rs1 <= rs2 && m1 <= m2 && v2 <= v1
    ensures RsPoints(rs1) + MomentumPoints(m1) + VolPoints(v1)
            <= RsPoints(rs2) + MomentumPoints(m2) + VolPoints(v2)
  {
  }

  /**
   * A HIGH warning needs at least two favourable signals: of "outperforms the
   * index", "rising" and "volatility below 0.8", at most one fails.
   */
  lemma HighNeedsTwoSignals(rs: real, momentum: real, volRatio: real)
    requires LevelOf(RsPoints(rs) + MomentumPoints(momentum) + VolPoints(volRatio)) == High
    ensures (if rs > 0.0 then 1 else 0) + (if momentum > 0.0 then 1 else 0)
            + (if volRatio < 0.8 then 1 else 0) >= 2
  {
  }

  /** The score is 0 exactly when no signal is favourable. */
  lemma ZeroScore(rs: real, momentum: real, volRatio: real)
    ensures RsPoints(rs) + MomentumPoints(momentum) + VolPoints(volRatio) == 0
            <==> rs <= 0.0 && momentum <= 0.0 && volRatio >= 0.8
  {
  }
}
