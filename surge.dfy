/**
 * `SurgeDetector` (backend/services/backtester.py): fixed-length windows that
 * gained enough, fast enough, and were still rising in their second half.
 */
module Surge {
  import opened Common
  import opened Segmentation
  import opened Slopes

  /** The detector's settings (backtester.py:229-238). */
  datatype SurgeConfig = SurgeConfig(
    windows: seq<nat>,
    minGain: real,
    minSlope: real,
    accelerationThreshold: real)

  const DefaultSurge := SurgeConfig([10, 20, 30], 15.0, 0.3, 1.3)

  /** The details dictionary of `is_surge`, without the rounding. */
  datatype SurgeDetails = SurgeDetails(
    totalGain: real,
    slopeFirst: real,
    slopeSecond: real,
    acceleration: Acceleration,
    avgSlope: real,
    isAccelerating: bool)

  /**
   * The figures `is_surge` computes for a window (backtester.py:278-297):
   * total gain from the first to the last price, its average per point, the
   * two half slopes and whether the acceleration exceeds the threshold.
   */
  function Details(cfg: SurgeConfig, w: seq<real>, fit: seq<real> -> real): (d: SurgeDetails)
    requires |w| > 0 && AllPositive(w)
    ensures d.totalGain == Gain(w[0], w[|w| - 1])
    ensures d.avgSlope * (|w| as real) == d.totalGain
    ensures d.acceleration == Accel(d.slopeFirst, d.slopeSecond)
    ensures d.isAccelerating <==> Exceeds(d.acceleration, cfg.accelerationThreshold)
  {
    var totalGain := (w[|w| - 1] / w[0] - 1.0) * 100.0;
    assert totalGain == Gain(w[0], w[|w| - 1]);
    var slopes := HalfSlopes(w, fit);
    var avgSlope := totalGain / (|w| as real);
    SurgeDetails(totalGain, slopes.first, slopes.second, slopes.acceleration, avgSlope,
                 Exceeds(slopes.acceleration, cfg.accelerationThreshold))
  }

  /** The surge condition on the computed figures (backtester.py:291-295). */
  predicate SurgeCondition(cfg: SurgeConfig, d: SurgeDetails) {
    d.totalGain >= cfg.minGain && d.avgSlope >= cfg.minSlope && d.slopeSecond > 0.0
  }

  /**
   * `is_surge`: the condition on the window's figures. On the prices, it says
   * the window gained at least `minGain` percent, at least `minSlope` percent
   * per point of the window, and its second half's fitted slope is positive.
   */
  predicate IsSurge(cfg: SurgeConfig, w: seq<real>, fit: seq<real> -> real)
    requires |w| > 0 && AllPositive(w)
    ensures IsSurge(cfg, w, fit) <==>
      && Gain(w[0], w[|w| - 1]) >= cfg.minGain
      && Gain(w[0], w[|w| - 1]) >= cfg.minSlope * (|w| as real)
      && HalfSlopes(w, fit).second > 0.0
  {
    SurgeCondition(cfg, Details(cfg, w, fit))
  }

  /**
   * What a surge guarantees about the prices: the last is at least
   * (1 + minGain / 100) times the first, and the total gain is at least
   * minSlope per point of the window.
   */
  lemma SurgeGrowth(cfg: SurgeConfig, w: seq<real>, fit: seq<real> -> real)
    requires |w| > 0 && AllPositive(w) && IsSurge(cfg, w, fit)
    ensures w[|w| - 1] >= w[0] * (1.0 + cfg.minGain / 100.0)
    ensures Gain(w[0], w[|w| - 1]) >= cfg.minSlope * (|w| as real)
    ensures cfg.minGain > 0.0 || cfg.minSlope > 0.0 ==> w[|w| - 1] > w[0]
  {
    var d := Details(cfg, w, fit);
    assert w[0] > 0.0;
    assert SurgeCondition(cfg, d);
    assert d.totalGain == Gain(w[0], w[|w| - 1]);
    assert d.avgSlope * (|w| as real) == d.totalGain;
    ConditionGrowth(cfg, d, w[0], w[|w| - 1], |w| as real);
  }

  lemma ConditionGrowth(cfg: SurgeConfig, d: SurgeDetails, first: real, last: real, n: real)
    requires first > 0.0 && n > 0.0 && SurgeCondition(cfg, d)
    requires d.totalGain == Gain(first, last) && d.avgSlope * n == d.totalGain
    ensures last >= first * (1.0 + cfg.minGain / 100.0)
    ensures d.totalGain >= cfg.minSlope * n
    ensures cfg.minGain > 0.0 || cfg.minSlope > 0.0 ==> last > first
  {
    var g := d.totalGain;
    GainRoundTrip(first, last);
    var extra := (g - cfg.minGain) / 100.0;
    assert first * extra >= 0.0;
    assert first * (1.0 + g / 100.0) == first * (1.0 + cfg.minGain / 100.0) + first * extra;
    assert (d.avgSlope - cfg.minSlope) * n >= 0.0;
    if cfg.minSlope > 0.0 {
      assert cfg.minSlope * n > 0.0;
    }
  }

  /** `SurgeEvent` (backtester.py:13-25), without the rounding. */
  datatype SurgeEvent = SurgeEvent(
    code: string,
    name: string,
    startDate: string,
    endDate: string,
    window: nat,
    totalGain: real,
    slopeFirst: real,
    slopeSecond: real,
    acceleration: Acceleration,
    isAccelerating: bool)

  function EndDate(e: SurgeEvent): string {
    e.endDate
  }

  /** `range_key`: the start and end date of an event. */
  function Key(e: SurgeEvent): (string, string) {
    (e.startDate, e.endDate)
  }

  function KeySet(events: seq<SurgeEvent>): set<(string, string)> {
    set e | e in events :: Key(e)
  }

  /** No two events share a start and end date. */
  predicate DistinctKeys(events: seq<SurgeEvent>) {
    forall a, b :: 0 <= a < b < |events| ==> Key(events[a]) != Key(events[b])
  }

  /** The window of `window + 1` points ending at index i. */
  function WindowAt(prices: seq<real>, window: nat, i: nat): (w: seq<real>)
    requires window <= i < |prices| && AllPositive(prices)
    ensures |w| == window + 1 && AllPositive(w)
    ensures w[0] == prices[i - window] && w[|w| - 1] == prices[i]
  {
    prices[i - window..i + 1]
  }

  predicate SurgeAt(cfg: SurgeConfig, prices: seq<real>, fit: seq<real> -> real, window: nat, i: nat)
    requires window <= i < |prices| && AllPositive(prices)
  {
    IsSurge(cfg, WindowAt(prices, window, i), fit)
  }

  /** The event recorded for the window ending at i (backtester.py:330-341). */
  function EventAt(cfg: SurgeConfig, code: string, name: string, prices: seq<real>,
                   dates: seq<string>, fit: seq<real> -> real, window: nat, i: nat): (e: SurgeEvent)
    requires window <= i < |prices| == |dates| && AllPositive(prices)
    ensures Key(e) == (dates[i - window], dates[i]) && e.window == window
  {
    var d := Details(cfg, WindowAt(prices, window, i), fit);
    SurgeEvent(code, name, dates[i - window], dates[i], window, d.totalGain,
               d.slopeFirst, d.slopeSecond, d.acceleration, d.isAccelerating)
  }

  /** e is the event of a surge window of one of the configured lengths. */
  predicate Detected(cfg: SurgeConfig, code: string, name: string, prices: seq<real>,
                     dates: seq<string>, fit: seq<real> -> real, e: SurgeEvent)
    requires |prices| == |dates| && AllPositive(prices)
  {
    exists window, i :: window in cfg.windows && window <= i < |prices| &&
      SurgeAt(cfg, prices, fit, window, i) && e == EventAt(cfg, code, name, prices, dates, fit, window, i)
  }

  /** The largest window, `max(self.windows)`. */
  function MaxWindow(windows: seq<nat>): (m: nat)
    requires |windows| > 0
    ensures m in windows
    ensures forall k :: 0 <= k < |windows| ==> windows[k] <= m
  {
    if |windows| == 1 then windows[0]
    else
      var rest := MaxWindow(windows[1..]);
      assert forall k :: 1 <= k < |windows| ==> windows[k] == windows[1..][k - 1];
      if windows[0] < rest then rest else windows[0]
  }

  /**
   * `scan_fund` (backtester.py:301-345) over a fund's series. Nothing comes
   * out for an empty series; a non-empty series with no windows configured
   * raises (`max` of an empty list); a series shorter than the largest window
   * plus one gives nothing. Otherwise the events are the surge windows, one per
   * start and end date, in order of end date, and every surge window's dates
   * are among them.
   */
  method ScanFund(cfg: SurgeConfig, code: string, name: string, prices: seq<real>,
                  dates: seq<string>, fit: seq<real> -> real)
    returns (r: Result<seq<SurgeEvent>, string>)
    requires AllPositive(prices) && |dates| == |prices|
    ensures |prices| == 0 ==> r == Ok([])
    ensures r.Err? <==> |prices| > 0 && |cfg.windows| == 0
    ensures |prices| > 0 && |cfg.windows| > 0 && |prices| < MaxWindow(cfg.windows) + 1 ==> r == Ok([])
    ensures r.Ok? ==> SortedBy(r.value, EndDate)
    ensures r.Ok? ==> DistinctKeys(r.value)
    ensures r.Ok? ==> forall e :: e in r.value ==> Detected(cfg, code, name, prices, dates, fit, e)
    ensures r.Ok? && |cfg.windows| > 0 && |prices| >= MaxWindow(cfg.windows) + 1 ==>
              forall window, i ::
                (window in cfg.windows && window <= i < |prices| && SurgeAt(cfg, prices, fit, window, i)) ==>
                (dates[i - window], dates[i]) in KeySet(r.value)
  {
    if |prices| == 0 {
      return Ok([]);
    }
    if |cfg.windows| == 0 {
      return Err("max() arg is an empty sequence");
    }
    if |prices| < MaxWindow(cfg.windows) + 1 {
      return Ok([]);
    }
    var events := CollectEvents(cfg, code, name, prices, dates, fit);
    var sorted := SortBy(events, EndDate);
    SortedEvents(cfg, code, name, prices, dates, fit, events);
    return Ok(sorted);
  }

  /**
   * The two loops of `scan_fund` (backtester.py:314-341): every window length
   * in turn, every end index in turn; the first event of each date pair is
   * kept.
   */
  method CollectEvents(cfg: SurgeConfig, code: string, name: string, prices: seq<real>,
                       dates: seq<string>, fit: seq<real> -> real)
    returns (events: seq<SurgeEvent>)
    requires AllPositive(prices) && |dates| == |prices|
    ensures DistinctKeys(events)
    ensures forall e :: e in events ==> Detected(cfg, code, name, prices, dates, fit, e)
    ensures forall window, i ::
              (window in cfg.windows && window <= i < |prices| && SurgeAt(cfg, prices, fit, window, i)) ==>
              (dates[i - window], dates[i]) in KeySet(events)
  {
    events := [];
    var detected: set<(string, string)> := {};
    for n := 0 to |cfg.windows|
      invariant detected == KeySet(events)
      invariant DistinctKeys(events)
      invariant forall e :: e in events ==> Detected(cfg, code, name, prices, dates, fit, e)
      invariant forall window, i ::
                  (window in cfg.windows[..n] && window <= i < |prices| && SurgeAt(cfg, prices, fit, window, i)) ==>
                  (dates[i - window], dates[i]) in detected
    {
      var window := cfg.windows[n];
      events, detected := ScanWindow(cfg, code, name, prices, dates, fit, window, events, detected);
      assert cfg.windows[..n + 1] == cfg.windows[..n] + [window];
    }
    assert cfg.windows[..|cfg.windows|] == cfg.windows;
  }

  /** `events.sort(key=lambda e: e.end_date)` keeps what the scan established. */
  lemma SortedEvents(cfg: SurgeConfig, code: string, name: string, prices: seq<real>,
                     dates: seq<string>, fit: seq<real> -> real, events: seq<SurgeEvent>)
    requires AllPositive(prices) && |dates| == |prices|
    requires DistinctKeys(events)
    requires forall e :: e in events ==> Detected(cfg, code, name, prices, dates, fit, e)
    ensures SortedBy(SortBy(events, EndDate), EndDate)
    ensures DistinctKeys(SortBy(events, EndDate))
    ensures forall e :: e in SortBy(events, EndDate) ==> Detected(cfg, code, name, prices, dates, fit, e)
    ensures KeySet(SortBy(events, EndDate)) == KeySet(events)
  {
    var sorted := SortBy(events, EndDate);
    SortBySorted(events, EndDate);
    DistinctKeysPermuted(events, sorted, Key);
    forall e
      ensures e in sorted <==> e in events
    {
      SortByMembers(events, EndDate, e);
    }
  }

  /**
   * The inner loop of `scan_fund` for one window length (backtester.py:316-341):
   * every surge window whose date pair is new is appended, and its dates
   * recorded.
   */
  method ScanWindow(cfg: SurgeConfig, code: string, name: string, prices: seq<real>,
                    dates: seq<string>, fit: seq<real> -> real, window: nat,
                    events0: seq<SurgeEvent>, detected0: set<(string, string)>)
    returns (events: seq<SurgeEvent>, detected: set<(string, string)>)
    requires AllPositive(prices) && |dates| == |prices| && window in cfg.windows
    requires detected0 == KeySet(events0) && DistinctKeys(events0)
    requires forall e :: e in events0 ==> Detected(cfg, code, name, prices, dates, fit, e)
    ensures detected == KeySet(events) && DistinctKeys(events)
    ensures forall e :: e in events ==> Detected(cfg, code, name, prices, dates, fit, e)
    ensures detected0 <= detected
    ensures forall i :: window <= i < |prices| && SurgeAt(cfg, prices, fit, window, i) ==>
              (dates[i - window], dates[i]) in detected
  {
    events, detected := events0, detected0;
    var i := window;
    while i < |prices|
      invariant detected == KeySet(events) && DistinctKeys(events)
      invariant forall e :: e in events ==> Detected(cfg, code, name, prices, dates, fit, e)
      invariant detected0 <= detected
      invariant forall i' :: window <= i' < i && i' < |prices| && SurgeAt(cfg, prices, fit, window, i') ==>
                  (dates[i' - window], dates[i']) in detected
    {
      if SurgeAt(cfg, prices, fit, window, i) {
        var e := EventAt(cfg, code, name, prices, dates, fit, window, i);
        if Key(e) !in detected {
          AppendDetected(cfg, code, name, prices, dates, fit, events, window, i);
          AppendNewKey(events, e);
          detected := detected + {Key(e)};
          events := events + [e];
        }
      }
      i := i + 1;
    }
  }

  lemma AppendDetected(cfg: SurgeConfig, code: string, name: string, prices: seq<real>,
                        dates: seq<string>, fit: seq<real> -> real, events: seq<SurgeEvent>, window: nat, i: nat)
    requires AllPositive(prices) && |dates| == |prices| && window in cfg.windows && window <= i < |prices|
    requires SurgeAt(cfg, prices, fit, window, i)
    requires forall e :: e in events ==> Detected(cfg, code, name, prices, dates, fit, e)
    ensures forall e :: e in events + [EventAt(cfg, code, name, prices, dates, fit, window, i)] ==>
              Detected(cfg, code, name, prices, dates, fit, e)
  {
    assert Detected(cfg, code, name, prices, dates, fit, EventAt(cfg, code, name, prices, dates, fit, window, i));
  }

  lemma AppendNewKey(events: seq<SurgeEvent>, e: SurgeEvent)
    requires DistinctKeys(events) && Key(e) !in KeySet(events)
    ensures DistinctKeys(events + [e])
    ensures KeySet(events + [e]) == KeySet(events) + {Key(e)}
  {
    forall a | 0 <= a < |events|
      ensures Key(events[a]) != Key(e)
    {
      assert events[a] in events;
    }
  }
}
