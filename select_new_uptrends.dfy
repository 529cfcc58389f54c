/**
 * backend/scripts/select_new_uptrends.py: the same scan as the full-market
 * script with its own settings, recording only the second-half slope, and a
 * `scan_fund` that keeps a fund when its latest phase ended recently, lasted
 * 5 to 10 days and rose 1 % to 2 % a day in its second half.
 */
module SelectNewUptrends {
  import opened Common
  import opened Segmentation
  import opened Slopes
  import FullMarketScan

  /** The script's settings (select_new_uptrends.py:16-21). */
  const MinDuration: int := 5
  const MaxDuration: int := 10
  const MinSlope: real := 1.0
  const MaxSlope: real := 2.0
  const MaxDrawdown: real := 5.0
  const MinGain: real := 5.0
  /** The fixed cut-off date of `scan_fund`. */
  const RecentFrom: string := "2025-12-01"

  /** A phase dictionary of `detect_uptrend`, without the rounding. */
  datatype NewPhase = NewPhase(
    startDate: string,
    endDate: string,
    duration: nat,
    totalGain: real,
    slopeSecond: real)

  function EndDate(p: NewPhase): string {
    p.endDate
  }

  /** The dictionary built for a kept phase (select_new_uptrends.py:84-103). */
  function PhaseRecord(prices: seq<real>, dates: seq<string>, fit: seq<real> -> real, s: Span): NewPhase
    requires AllPositive(prices) && |dates| == |prices| && s.start < s.end < |prices|
  {
    var w := prices[s.start..s.end + 1];
    NewPhase(dates[s.start], dates[s.end], s.end - s.start, Gain(prices[s.start], prices[s.end]),
             PolySlope(SecondHalf(w), fit))
  }

  /**
   * `spans` are exactly the phases the scan without the trim finds under the
   * script's settings, and `phases` are their records; the spans' order and
   * validity (`Segmentation.DetectedSound`) are spelled out for the records.
   */
  predicate UptrendsOf(prices: seq<real>, dates: seq<string>, fit: seq<real> -> real,
                       phases: seq<NewPhase>, spans: seq<Span>)
    requires AllPositive(prices) && |dates| == |prices|
  {
    && spans == Detected(prices, MaxDrawdown, MinGain, MinDuration, false)
    && |spans| == |phases|
    && Ordered(spans)
    && (forall k :: 0 <= k < |spans| ==> ValidPhase(prices, spans[k], MaxDrawdown, MinGain, MinDuration))
    && (forall k :: 0 <= k < |spans| ==> phases[k] == PhaseRecord(prices, dates, fit, spans[k]))
  }

  /** `detect_uptrend` (select_new_uptrends.py:50-107). */
  method DetectUptrend(prices: seq<real>, dates: seq<string>, fit: seq<real> -> real)
    returns (phases: seq<NewPhase>, ghost spans: seq<Span>)
    requires AllPositive(prices) && |dates| == |prices|
    ensures |prices| < MinDuration ==> phases == []
    ensures UptrendsOf(prices, dates, fit, phases, spans)
  {
    var found := Segment(prices, MaxDrawdown, MinGain, MinDuration, false);
    DetectedSound(prices, MaxDrawdown, MinGain, MinDuration, false);
    spans := found;
    phases := [];
    for n := 0 to |found|
      invariant |phases| == n
      invariant forall k :: 0 <= k < n ==> phases[k] == PhaseRecord(prices, dates, fit, found[k])
    {
      assert ValidPhase(prices, found[n], MaxDrawdown, MinGain, MinDuration);
      phases := phases + [PhaseRecord(prices, dates, fit, found[n])];
    }
  }

  /**
   * Both scripts record the same dates, duration, gain and second-half slope
   * for a phase; this one leaves out the first-half slope and the
   * acceleration flag.
   */
  lemma SameRecordAsFullMarketScan(prices: seq<real>, dates: seq<string>, fit: seq<real> -> real, s: Span)
    requires AllPositive(prices) && |dates| == |prices| && s.start < s.end < |prices|
    ensures var p := PhaseRecord(prices, dates, fit, s);
            var q := FullMarketScan.PhaseRecord(prices, dates, fit, s);
            p.startDate == q.startDate && p.endDate == q.endDate && p.duration == q.duration &&
            p.totalGain == q.totalGain && p.slopeSecond == q.slopeSecond
  {
  }

  /** The band filter of `scan_fund` (select_new_uptrends.py:126-128), bounds included. */
  predicate InBand(p: NewPhase) {
    && LexLe(RecentFrom, p.endDate)
    && MinDuration <= p.duration <= MaxDuration
    && MinSlope <= p.slopeSecond <= MaxSlope
  }

  datatype Selected = Selected(code: string, name: string, phase: NewPhase)

  /**
   * The selection of `scan_fund` (select_new_uptrends.py:119-135): the latest
   * phase, the first with the greatest end date, if it lies in the band.
   */
  function SelectLatest(code: string, name: string, phases: seq<NewPhase>): (r: Option<Selected>)
    ensures r.Some? ==> r.value.code == code && r.value.name == name && r.value.phase in phases
    ensures r.Some? ==> InBand(r.value.phase)
    ensures r.Some? ==> forall q :: q in phases ==> LexLe(q.endDate, r.value.phase.endDate)
    ensures r.None? ==> |phases| == 0 || !InBand(phases[LatestBy(phases, EndDate)])
  {
    if |phases| == 0 then None
    else
      var latest := phases[LatestBy(phases, EndDate)];
      LatestByMaximal(phases, EndDate);
      if InBand(latest) then Some(Selected(code, name, latest)) else None
  }

  /**
   * `scan_fund` (select_new_uptrends.py:109-136) over the fund's recent
   * series, which is a parameter in place of the download.
   */
  method ScanFund(code: string, name: string, prices: seq<real>, dates: seq<string>, fit: seq<real> -> real)
    returns (r: Option<Selected>, ghost phases: seq<NewPhase>, ghost spans: seq<Span>)
    requires AllPositive(prices) && |dates| == |prices|
    ensures |prices| < MinDuration ==> r.None?
    ensures |prices| >= MinDuration ==>
              UptrendsOf(prices, dates, fit, phases, spans) && r == SelectLatest(code, name, phases)
  {
    phases, spans := [], [];
    if |prices| < MinDuration {
      return None, phases, spans;
    }
    var found;
    found, spans := DetectUptrend(prices, dates, fit);
    phases := found;
    r := SelectLatest(code, name, found);
  }

  /**
   * A selected fund's phase spans 5 to 10 steps, gained at least 5 % with no
   * drawdown above 5 % inside it, and its last price is its highest.
   */
  lemma SelectedPhase(code: string, name: string, prices: seq<real>, dates: seq<string>,
                      fit: seq<real> -> real, phases: seq<NewPhase>, spans: seq<Span>)
    requires AllPositive(prices) && |dates| == |prices|
    requires UptrendsOf(prices, dates, fit, phases, spans)
    requires SelectLatest(code, name, phases).Some?
    ensures var p := SelectLatest(code, name, phases).value.phase;
            exists k :: 0 <= k < |spans| && p == phases[k] &&
              MinDuration <= spans[k].end - spans[k].start <= MaxDuration &&
              p.totalGain >= MinGain &&
              ValidPhase(prices, spans[k], MaxDrawdown, MinGain, MinDuration)
  {
    var p := SelectLatest(code, name, phases).value.phase;
    var k :| 0 <= k < |phases| && phases[k] == p;
    assert ValidPhase(prices, spans[k], MaxDrawdown, MinGain, MinDuration);
  }
}
