/**
 * backend/scripts/full_market_scan.py: the scan's own `detect_uptrend`
 * (the shared scan without the trim, with slopes of two overlapping halves)
 * and `scan_fund`, which keeps a fund when its latest phase ended recently and
 * still rose steeply.
 */
module FullMarketScan {
  import opened Common
  import opened Segmentation
  import opened Slopes

  /** The script's settings (full_market_scan.py:16-20). */
  const MaxDrawdown: real := 5.0
  const MinGain: real := 5.0
  const MinDuration: int := 5
  const MinSlope: real := 1.0
  /** The fixed cut-off date of `scan_fund`. */
  const RecentFrom: string := "2025-12-01"

  /** A phase dictionary of `detect_uptrend`, without the rounding. */
  datatype ScanPhase = ScanPhase(
    startDate: string,
    endDate: string,
    duration: nat,
    totalGain: real,
    slopeFirst: real,
    slopeSecond: real,
    isAccelerating: bool)

  function EndDate(p: ScanPhase): string {
    p.endDate
  }

  /** The dictionary built for a kept phase (full_market_scan.py:84-114). */
  function PhaseRecord(prices: seq<real>, dates: seq<string>, fit: seq<real> -> real, s: Span): ScanPhase
    requires AllPositive(prices) && |dates| == |prices| && s.start < s.end < |prices|
  {
    var w := prices[s.start..s.end + 1];
    var slopeFirst := PolySlope(FirstHalf(w), fit);
    var slopeSecond := PolySlope(SecondHalf(w), fit);
    ScanPhase(dates[s.start], dates[s.end], s.end - s.start, Gain(prices[s.start], prices[s.end]),
              slopeFirst, slopeSecond, ScriptAccelerating(slopeFirst, slopeSecond))
  }

  /**
   * `spans` are exactly the phases the scan without the trim finds for the
   * given tolerance, gain and duration, and `phases` are their records. The
   * spans are ordered and valid (`Segmentation.DetectedSound`); those facts
   * are spelled out here because the records need them.
   */
  predicate UptrendsOf(prices: seq<real>, dates: seq<string>, maxDd: real, minGain: real, minDur: int,
                       fit: seq<real> -> real, phases: seq<ScanPhase>, spans: seq<Span>)
    requires AllPositive(prices) && |dates| == |prices|
  {
    && spans == Detected(prices, maxDd, minGain, minDur, false)
    && |spans| == |phases|
    && Ordered(spans)
    && (forall k :: 0 <= k < |spans| ==> ValidPhase(prices, spans[k], maxDd, minGain, minDur))
    && (forall k :: 0 <= k < |spans| ==> phases[k] == PhaseRecord(prices, dates, fit, spans[k]))
  }

  /** `detect_uptrend` (full_market_scan.py:50-118). */
  method DetectUptrend(prices: seq<real>, dates: seq<string>, maxDd: real, minGain: real, minDur: int,
                       fit: seq<real> -> real)
    returns (phases: seq<ScanPhase>, ghost spans: seq<Span>)
    requires AllPositive(prices) && |dates| == |prices|
    ensures |prices| < minDur ==> phases == []
    ensures UptrendsOf(prices, dates, maxDd, minGain, minDur, fit, phases, spans)
  {
    var found := Segment(prices, maxDd, minGain, minDur, false);
    DetectedSound(prices, maxDd, minGain, minDur, false);
    spans := found;
    phases := [];
    for n := 0 to |found|
      invariant |phases| == n
      invariant forall k :: 0 <= k < n ==> phases[k] == PhaseRecord(prices, dates, fit, found[k])
    {
      assert ValidPhase(prices, found[n], maxDd, minGain, minDur);
      phases := phases + [PhaseRecord(prices, dates, fit, found[n])];
    }
  }

  /** The phase a fund is reported for: ended on or after the cut-off and steep in its second half. */
  predicate Qualifies(p: ScanPhase) {
    LexLe(RecentFrom, p.endDate) && p.slopeSecond > MinSlope
  }

  /** `{'code': code, 'name': name, **latest}`. */
  datatype ScanHit = ScanHit(code: string, name: string, phase: ScanPhase)

  /**
   * The selection of `scan_fund` (full_market_scan.py:130-146): the latest
   * phase, the first with the greatest end date, if it qualifies.
   */
  function SelectLatest(code: string, name: string, phases: seq<ScanPhase>): (r: Option<ScanHit>)
    ensures r.Some? ==> r.value.code == code && r.value.name == name && r.value.phase in phases
    ensures r.Some? ==> Qualifies(r.value.phase)
    ensures r.Some? ==> forall q :: q in phases ==> LexLe(q.endDate, r.value.phase.endDate)
    ensures r.None? ==> |phases| == 0 || !Qualifies(phases[LatestBy(phases, EndDate)])
  {
    if |phases| == 0 then None
    else
      var latest := phases[LatestBy(phases, EndDate)];
      LatestByMaximal(phases, EndDate);
      if Qualifies(latest) then Some(ScanHit(code, name, latest)) else None
  }

  /**
   * `scan_fund` (full_market_scan.py:120-147) over the fund's recent series,
   * which is a parameter in place of the download. `phases` and `spans` are
   * what `detect_uptrend` found.
   */
  method ScanFund(code: string, name: string, prices: seq<real>, dates: seq<string>, fit: seq<real> -> real)
    returns (r: Option<ScanHit>, ghost phases: seq<ScanPhase>, ghost spans: seq<Span>)
    requires AllPositive(prices) && |dates| == |prices|
    ensures |prices| < MinDuration ==> r.None?
    ensures |prices| >= MinDuration ==>
              UptrendsOf(prices, dates, MaxDrawdown, MinGain, MinDuration, fit, phases, spans) &&
              r == SelectLatest(code, name, phases)
  {
    phases, spans := [], [];
    if |prices| < MinDuration {
      return None, phases, spans;
    }
    var found;
    found, spans := DetectUptrend(prices, dates, MaxDrawdown, MinGain, MinDuration, fit);
    phases := found;
    r := SelectLatest(code, name, found);
  }

  /**
   * A reported fund's phase gained at least 5 % over at least 5 days, with no
   * drawdown above 5 % inside it, ended on or after the cut-off and rose more
   * than 1 % a day in its second half.
   */
  lemma ReportedPhase(code: string, name: string, prices: seq<real>, dates: seq<string>,
                      fit: seq<real> -> real, phases: seq<ScanPhase>, spans: seq<Span>)
    requires AllPositive(prices) && |dates| == |prices|
    requires UptrendsOf(prices, dates, MaxDrawdown, MinGain, MinDuration, fit, phases, spans)
    requires SelectLatest(code, name, phases).Some?
    ensures var p := SelectLatest(code, name, phases).value.phase;
            exists k :: 0 <= k < |spans| && p == phases[k] &&
              p.totalGain >= MinGain && p.duration >= MinDuration && p.slopeSecond > MinSlope &&
              LexLe(RecentFrom, p.endDate) &&
              ValidPhase(prices, spans[k], MaxDrawdown, MinGain, MinDuration)
  {
    var p := SelectLatest(code, name, phases).value.phase;
    var k :| 0 <= k < |phases| && phases[k] == p;
    assert ValidPhase(prices, spans[k], MaxDrawdown, MinGain, MinDuration);
  }

  /**
   * On a series whose dates strictly increase (as the download returns them),
   * the latest phase is simply the last one found.
   */
  lemma LatestIsLastPhase(prices: seq<real>, dates: seq<string>, maxDd: real, minGain: real, minDur: int,
                          fit: seq<real> -> real, phases: seq<ScanPhase>, spans: seq<Span>)
    requires AllPositive(prices) && |dates| == |prices|
    requires forall a, b :: 0 <= a < b < |dates| ==> LexLt(dates[a], dates[b])
    requires UptrendsOf(prices, dates, maxDd, minGain, minDur, fit, phases, spans)
    requires |phases| > 0
    ensures LatestBy(phases, EndDate) == |phases| - 1
  {
    forall a, b | 0 <= a < b < |phases|
      ensures LexLt(EndDate(phases[a]), EndDate(phases[b]))
    {
      EndDatesIncrease(prices, dates, maxDd, minGain, minDur, fit, phases, spans, a, b);
    }
    LatestOfIncreasing(phases, EndDate);
  }

  /** Later phases end on later dates. */
  lemma EndDatesIncrease(prices: seq<real>, dates: seq<string>, maxDd: real, minGain: real, minDur: int,
                         fit: seq<real> -> real, phases: seq<ScanPhase>, spans: seq<Span>, a: nat, b: nat)
    requires AllPositive(prices) && |dates| == |prices|
    requires forall a, b :: 0 <= a < b < |dates| ==> LexLt(dates[a], dates[b])
    requires UptrendsOf(prices, dates, maxDd, minGain, minDur, fit, phases, spans)
    requires a < b < |phases|
    ensures LexLt(phases[a].endDate, phases[b].endDate)
  {
  }
}
