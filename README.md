# fund_trend_lab backend: trend detection, scoring, dividend adjustment and favorites in Dafny

This project models the parts of the fund_trend_lab backend that compute over
price series and lists. Each part is proved against a specification.

- **Uptrend phases** (`UptrendPhaseDetector` in backend/services/backtester.py):
  - a phase starts wherever the next price rises;
  - it grows while the drawdown from the running peak stays within the tolerance;
  - it is cut at the running peak and trimmed by `_find_valid_phase_end`;
  - it is kept when it gains at least `min_gain` percent over at least `min_duration` steps.
  - Each kept phase is reported with its maximum drawdown, its average daily gain and its two half slopes.
- **The two scripts' copies** of that scan, `detect_uptrend` in backend/scripts/full_market_scan.py and backend/scripts/select_new_uptrends.py:
  - the same scan without the trim;
  - their own slope split;
  - their `scan_fund` selection of the latest phase.
- **Surge windows** (`SurgeDetector` in backtester.py):
  - the per-window decision `is_surge`;
  - `scan_fund`, which enumerates windows of each configured length, keeps one event per (start date, end date) pair and sorts the events by end date.
- **Signal scoring** (`IndicatorService.calculate_indicators` in backend/services/indicators.py):
  - momentum, relative strength against the index and the volatility ratio;
  - the 0–6 score, the analysis labels and the HIGH/MEDIUM/LOW level;
  - the empty result for short histories.
- **Dividend-adjusted NAV** (`DataFetcher.fetch_fund_history` in backend/services/data_fetcher.py):
  - the `([0-9.]+)元` amount parser;
  - collection of the dividends;
  - the per-row cumulative reinvestment factor, computed in place on an array column;
  - the adjusted value;
  - the inclusive date-range filter.
- **Favorites** (`set_favorites` and `batch_add_funds` in backend/main.py):
  - the replace / add / remove modes;
  - the per-code results and errors of a batch add, its counters and its favorites merge, on a store object whose `favorites` field the endpoints rewrite.

Modelling choices:
- Prices are exact positive reals.
- Dates are ISO `YYYY-MM-DD` strings compared in Python string order (`Common.LexLe`). That is also the chronological order pandas uses for the timestamps.
- The least-squares slope (`linregress`, `polyfit`) is a parameter `fit: seq<real> -> real`.
- The standard deviation of daily returns is a parameter `volatility: seq<real> -> real`.
- Downloads and database reads become parameters holding the data they return.

The loops of the source are methods (`Segmentation.Segment`, `Drawdown.FindValidPhaseEnd`, `Drawdown.CalculateMaxDrawdown`, `Surge.ScanWindow`, `Indicators.ScoreSignals`, `NavHistory.ComputeFactors`, `Favorites.AddFunds`, …). Each method is proved equal to a specification function, or to satisfy the properties the source promises. Lemmas relate those functions to each other. The phase scan in particular has a recursive reference definition, `Segmentation.Phases` and `Segmentation.Detected`. The loops `Segment`, `ScanFrom`, `GrowPhase` and `CutPhase` return exactly what it computes, and `DetectedSound` proves that every phase it finds is valid and that the phases are ordered.

## Model

| member | source | states |
|---|---|---|
| Common.Gain | backend/services/backtester.py:124 | The percent gain is positive exactly when the later price is higher, and zero exactly when the two prices are equal |
| Common.GainRoundTrip | backend/services/backtester.py:124 | The later price is recovered from the earlier price and the gain: p1 = p0 · (1 + gain/100) |
| Common.LatestByMaximal | backend/scripts/full_market_scan.py:136 | `max(phases, key=end_date)` picks an element whose key is at least every other key, and it is the first element with that key |
| Common.LatestOfIncreasing | backend/scripts/full_market_scan.py:136 | On strictly increasing keys, the latest element is the last one |
| Common.LatestBy | backend/scripts/full_market_scan.py:136 | `max(..., key=...)` of a non-empty sequence picks a position inside it. `Common.LatestByMaximal` shows its key is the greatest |
| Common.SortBySorted | backend/services/backtester.py:344 | Sorting by a date key gives a sequence sorted by that key and a permutation of the input |
| Common.SortBy | backend/services/data_fetcher.py:138 | Sorting keeps the length and the multiset of elements |
| Common.SortByMembers | backend/services/data_fetcher.py:138 | Sorting keeps exactly the same elements |
| Common.DistinctKeysPermuted | backend/services/backtester.py:343-344 | A permutation of events with pairwise distinct keys still has pairwise distinct keys |
| Common.FilterMapMembers | backend/services/data_fetcher.py:127-135 | An item is produced by the filtering loop exactly when some input row maps to it |
| Drawdown.PercentBelow | backend/services/backtester.py:101 | The drawdown from a positive peak is non-negative for a price at or below the peak, zero at the peak and negative above it |
| Drawdown.RunningPeak | backend/services/backtester.py:96-98 | No price seen so far lies above the running peak |
| Drawdown.PeakIndex | backend/services/backtester.py:96-98 | The peak index holds the running peak, and every earlier price is strictly below it, since the peak moves only on a strictly higher price |
| Drawdown.DrawdownAt | backend/services/backtester.py:101 | The drawdown of a position from its running peak is non-negative, and 0 at the first position |
| Drawdown.FirstBreakIsFirst | backend/services/backtester.py:166-176 | The break found is a non-peak position whose drawdown exceeds the tolerance, and no earlier position is one |
| Drawdown.ValidEnd | backend/services/backtester.py:159-160 | `_find_valid_phase_end` gives 0 for fewer than two points and otherwise an index of the window |
| Drawdown.FindValidPhaseEnd | backend/services/backtester.py:157-178 | The loop returns `ValidEnd`: the peak index at the first break, or the last index when nothing breaks |
| Drawdown.ScanStep | backend/services/backtester.py:167-176 | One loop step: a higher price moves the peak, and any other price breaks exactly when its drawdown exceeds the tolerance |
| Drawdown.ValidEndWithinTolerance | backend/services/backtester.py:157-178 | For a non-negative tolerance, no position up to the valid end has a drawdown above the tolerance |
| Drawdown.ValidEndAtPeak | backend/services/backtester.py:110-120 | When the window ends at its maximum, the trimmed window also ends at its own maximum |
| Drawdown.ValidEndKeepsWholeWindow | backend/services/backtester.py:114-120 | On a window already within a non-negative tolerance, the trim returns the last index, so it changes nothing |
| Drawdown.CalculateMaxDrawdown | backend/services/backtester.py:180-195 | The loop returns `MaxDrawdown`: 0 for fewer than two prices, otherwise the running maximum of the drawdowns |
| Drawdown.MaxDrawdownOfBounds | backend/services/backtester.py:188-193 | The running maximum after n prices is non-negative, bounds every drawdown seen and is attained by one of them |
| Drawdown.MaxDrawdownIsLargest | backend/services/backtester.py:180-195 | The maximum drawdown is ≥ 0, is 0 for fewer than two prices, is ≥ every position's drawdown and is attained by some position |
| Drawdown.MaxDrawdownWithinTolerance | backend/services/backtester.py:129 | A window whose drawdowns are all within the tolerance has its maximum drawdown within the tolerance |
| Segmentation.FirstExceedIsFirst | backend/services/backtester.py:91-107 | The position where the inner loop breaks is the first one from k on whose drawdown from the running peak exceeds the tolerance. With no such position the loop runs to the end of the series |
| Segmentation.Grow | backend/services/backtester.py:88-110 | From a rise at i, the loop stops at j ≤ len and its peak index lies strictly after i and before the end of the series |
| Segmentation.GrowSound | backend/services/backtester.py:88-110 | The peak index holds the maximum of prices[i..peak]. For a non-negative tolerance the stop lies after the peak, and the window up to the peak has no drawdown above the tolerance |
| Segmentation.GrowPhase | backend/services/backtester.py:88-110 | The inner loop returns exactly the stop and the peak index of the reference scan `Grow` |
| Segmentation.GrownWindowWithinTolerance | backend/services/backtester.py:91-107 | Drawdowns within the tolerance up to where the loop stopped carry over to the window cut at the peak |
| Segmentation.Cut | backend/services/backtester.py:110-120 | The phase's end after the optional trim lies between its start and the grown end |
| Segmentation.CutSound | backend/services/backtester.py:110-122 | When the grown end is its window's maximum, so is the cut end, and with a non-negative tolerance the cut keeps the grown end |
| Segmentation.CutPhase | backend/services/backtester.py:110-122 | Returns exactly `Cut`: `start + _find_valid_phase_end(...)` with the trim and the grown end without it. The result lies in [start, end] and is a maximum of its window, and it is the grown end for a non-negative tolerance |
| Segmentation.TrimmedPhase | backend/services/backtester.py:114-122 | The trimmed end is no later than the grown end, is at its window's maximum, and equals the grown end for a non-negative tolerance |
| Segmentation.TryPhase | backend/services/backtester.py:85-153 | One attempt from a rise at i resumes at `max(j, peak + 1)`, strictly after i and at most at the end of the series, so the outer loop always advances |
| Segmentation.TryPhaseSound | backend/services/backtester.py:85-153 | A kept phase starts at i, ends before the resumption point and is a `ValidPhase`: a rise at its start, long enough, enough gain, at its window's maximum, and within a non-negative tolerance |
| Segmentation.ScanFrom | backend/services/backtester.py:85-127 | One pass of the outer loop's body returns exactly `TryPhase`'s resumption point and kept phase |
| Segmentation.PhasesSound | backend/services/backtester.py:79-155 | Every phase the outer loop finds from position i starts at or after i and is a `ValidPhase`, and the phases are ordered, each ending before the next starts |
| Segmentation.DetectedSound | backend/services/backtester.py:76-155 | The phases found on a series are valid and ordered |
| Segmentation.RisingSeriesIsOnePhase | backend/services/backtester.py:79-155 | A strictly increasing series that is long enough and gains enough is found as exactly one phase spanning the whole series, with or without the trim |
| Segmentation.PhasesStep | backend/services/backtester.py:79-153 | One step of the outer loop: a non-rise moves to i + 1 and finds what is found from there. A rise contributes the attempt's kept phase and continues from its resumption point |
| Segmentation.Segment | backend/services/backtester.py:76-155 | The loop returns exactly the phases of the reference scan `Detected`: none for fewer than `min_duration` prices, otherwise those found from position 0 |
| Segmentation.PhaseGainPositive | backend/services/backtester.py:81-86 | Every phase ends above its start price, so its gain is positive whatever `min_gain` is |
| Segmentation.OrderedDisjoint | backend/services/backtester.py:153 | Ordered phases are pairwise disjoint, end points included |
| Slopes.PercentSeries | backend/services/backtester.py:206 | The percent series has the window's length and starts at 0 |
| Slopes.PercentSeriesRoundTrip | backend/services/backtester.py:206 | Every price is recovered from the first price and its percent change |
| Slopes.Rebase | backend/services/backtester.py:215 | The rebased second half has the same length and starts at 0 |
| Slopes.RebaseKeepsDifferences | backend/services/backtester.py:215 | Rebasing keeps every difference between two points, so the fitted slope is fitted to the same shape |
| Slopes.AccelCharacterized | backend/services/backtester.py:218-222 | Above a first slope of 0.01, the acceleration exceeds t iff slope2 > t·slope1. At or below it, the acceleration exceeds t iff slope2 > 0 or t < 0 |
| Slopes.HalfSlopes | backend/services/backtester.py:203-224 | The acceleration returned is the rule applied to the two half slopes |
| Slopes.HalvesPartition | backend/services/backtester.py:203-215 | `y[:mid]` and `y[mid:]` split the series without overlap, and both halves are non-empty from two points up |
| Slopes.PhaseSlopes | backend/services/backtester.py:199-201 | Fewer than four points give (0, 0, 1) |
| Slopes.ShortPhaseNotAccelerating | backend/services/backtester.py:149 | An accelerating phase has at least four points |
| Slopes.ScriptHalvesShareMidpoint | backend/scripts/full_market_scan.py:89-91 | The halves at `mid = duration // 2` share the midpoint, together cover the window, and have at least two points each from a duration of 2 |
| Slopes.PolySlope | backend/scripts/full_market_scan.py:96-104 | A half of at most one point has slope 0 |
| Slopes.AccelerationRulesCompared | backend/scripts/full_market_scan.py:113 | The scripts' `slope_second > slope_first * 1.3` agrees with the backtester's rule when the first slope is > 0.01 or 0. It differs for (0.005, 0.001) and for (-1, -0.5) |
| Backtester.AverageSpreadsGain | backend/services/backtester.py:144 | The average daily gain times the duration is the total gain, and it is positive when the gain is |
| Backtester.PhaseOf | backend/services/backtester.py:124-151 | A phase record is consistent: `peak_date = end_date` and `peak_gain = total_gain`, it lasts at least one day, its drawdown is ≥ 0, and it is accelerating only with at least four prices |
| Backtester.PhaseOfGain | backend/services/backtester.py:124-146 | A phase record carries the code, name, indices and dates of the phase, `peak_date = end_date`, duration = end − start ≥ min_duration, and total gain = peak gain ≥ min_gain and > 0 |
| Backtester.PhaseOfDrawdown | backend/services/backtester.py:129 | The reported maximum drawdown is ≥ 0, is ≥ every drawdown in the window, is attained, and is ≤ the tolerance when that is non-negative |
| Backtester.PhaseOfSlopes | backend/services/backtester.py:132-149 | Under four points: not accelerating, slopes 0. Otherwise, with slope_first > 0.01: accelerating iff slope_second > 1.3·slope_first. Otherwise: accelerating iff slope_second > 0 |
| Backtester.DetectPhases | backend/services/backtester.py:66-155 | The result is the records (`PhaseOf`) of exactly the phases `Segmentation.Detected` finds with the trim: none for fewer than `min_duration` points. Every record describes a valid phase, and the phases come in increasing, disjoint index order |
| Backtester.BuildPhases | backend/services/backtester.py:123-150 | One record per kept phase, in order, each the record of its phase |
| Backtester.BuildPhase | backend/services/backtester.py:123-150 | The record built for a phase is `PhaseOf` that phase |
| Surge.Details | backend/services/backtester.py:278-297 | total gain = percent change first→last; avg_slope · len = total gain; acceleration by the rule; `is_accelerating` iff the acceleration exceeds the threshold |
| Surge.IsSurge | backend/services/backtester.py:291-295 | A window is a surge iff, on its prices, it gained at least `min_gain` percent, at least `min_slope` percent per point of the window, and its second half's fitted slope is positive |
| Surge.SurgeGrowth | backend/services/backtester.py:291-295 | A surge window's last price is ≥ (1 + min_gain/100) × its first price, its gain is ≥ min_slope × its length, and it rises when either threshold is positive |
| Surge.WindowAt | backend/services/backtester.py:317 | `prices[i-window:i+1]` has window + 1 points, from `prices[i-window]` to `prices[i]` |
| Surge.EventAt | backend/services/backtester.py:321-341 | The event of window i has the key (dates[i−window], dates[i]) and its window length |
| Surge.MaxWindow | backend/services/backtester.py:306 | `max(windows)` is one of the windows and is at least every window |
| Surge.ScanFund | backend/services/backtester.py:301-345 | Empty data gives []. No windows on non-empty data is an error (`max` of an empty list). Fewer than max(windows)+1 points give []. Otherwise events are sorted by end date, have distinct (start, end) keys and are all surge windows, and every surge window's key is among them |
| Surge.CollectEvents | backend/services/backtester.py:315-341 | Over all window lengths: distinct keys, only surge windows, and every surge window's key recorded |
| Surge.ScanWindow | backend/services/backtester.py:316-341 | For one window length: the `detected_ranges` set stays the key set of the events, keys stay distinct, only surge windows are added, and every surge window of that length is recorded |
| Surge.SortedEvents | backend/services/backtester.py:343-344 | Sorting by end date keeps distinct keys, the surge property and the key set, and yields end-date order |
| Surge.AppendNewKey | backend/services/backtester.py:325-328 | Appending an event whose key is new keeps keys distinct and adds exactly that key |
| FullMarketScan.DetectUptrend | backend/scripts/full_market_scan.py:50-118 | The phases are the records (`PhaseRecord`) of exactly the phases `Segmentation.Detected` finds without the trim: none for fewer than `min_dur` prices. The phases are ordered and valid |
| FullMarketScan.SelectLatest | backend/scripts/full_market_scan.py:132-145 | A fund is reported only for a phase with the greatest end date, and only if it ended on or after 2025-12-01 and slope_second > 1. Otherwise the latest phase fails that test |
| FullMarketScan.ScanFund | backend/scripts/full_market_scan.py:120-147 | Fewer than 5 points give None. Otherwise the result is `SelectLatest` over the records of exactly the phases found with the script's settings |
| FullMarketScan.ReportedPhase | backend/scripts/full_market_scan.py:83-87 | A reported phase gained ≥ 5 % over ≥ 5 steps, is a valid phase of the series, ended on or after the cut-off and has slope_second > 1 |
| FullMarketScan.LatestIsLastPhase | backend/scripts/full_market_scan.py:136 | On strictly increasing dates, the latest phase is the last one found |
| FullMarketScan.EndDatesIncrease | backend/scripts/full_market_scan.py:116 | Later phases end on strictly later dates |
| SelectNewUptrends.DetectUptrend | backend/scripts/select_new_uptrends.py:50-107 | The phases are the records of exactly the phases `Segmentation.Detected` finds without the trim under the script's settings: none for fewer than MIN_DURATION prices. The phases are ordered and valid |
| SelectNewUptrends.SameRecordAsFullMarketScan | backend/scripts/select_new_uptrends.py:97-103 | Dates, duration, gain and second-half slope match the full-market script's record of the same phase |
| SelectNewUptrends.SelectLatest | backend/scripts/select_new_uptrends.py:123-134 | Only the phase with the greatest end date is considered. It is accepted iff it ended on or after 2025-12-01, 5 ≤ duration ≤ 10 and 1 ≤ slope_second ≤ 2 |
| SelectNewUptrends.ScanFund | backend/scripts/select_new_uptrends.py:109-136 | Fewer than 5 points give None. Otherwise the result is the band selection over the records of exactly the phases found with the script's settings |
| SelectNewUptrends.SelectedPhase | backend/scripts/select_new_uptrends.py:126-128 | A selected phase spans 5 to 10 steps, gained ≥ 5 % and is a valid phase of the series |
| Indicators.Tail | backend/services/indicators.py:38 | `tail(n)` has min(n, len) points, the last ones of the series |
| Indicators.IndexReturn | backend/services/indicators.py:46-54 | 0 when the index has fewer than days+1 points, otherwise the index's percent change over its last days+1 points |
| Indicators.VolRatio | backend/services/indicators.py:63-75 | 1 when the history is shorter than 2·(days+1) or the previous volatility is not > 0, otherwise current over previous volatility, over the right two windows |
| Indicators.LevelOf | backend/services/indicators.py:110-115 | HIGH iff score ≥ 4, MEDIUM iff 2 ≤ score < 4, LOW iff score < 2 |
| Indicators.LevelMonotone | backend/services/indicators.py:110-115 | A higher score never gives a lower level |
| Indicators.ScoreSignals | backend/services/indicators.py:78-107 | The score is the sum of the three signals' points, in [0, 6]. The analysis is one relative-strength label followed by at most one momentum label and one volatility label, so 1 to 3 entries |
| Indicators.LabelsMatchPoints | backend/services/indicators.py:81-107 | Each signal's label and its points share thresholds: the strong label iff 2 points, the mild label iff 1 point. No points goes with "跑输大盘", with no momentum label or "下跌趋势", and with no volatility label |
| Indicators.CalculateIndicators | backend/services/indicators.py:17-128 | Fewer than days+1 points give the empty result (level NONE, score 0, vol_ratio 1), and only then is the level NONE. Otherwise: momentum is the change over the last days+1 points; rs = momentum − index return; the stated score, level and labels |
| Indicators.EmptyResult | backend/services/indicators.py:130-142 | The empty result has the reason as its only analysis entry, score 0, and the level NONE, which no score is ever given |
| Indicators.PointsMonotone | backend/services/indicators.py:81-107 | Better signals never lower the score |
| Indicators.HighNeedsTwoSignals | backend/services/indicators.py:110-111 | A HIGH level needs at least two of: outperforming the index, rising, volatility ratio below 0.8 |
| Indicators.ZeroScore | backend/services/indicators.py:81-107 | The score is 0 exactly when rs ≤ 0, momentum ≤ 0 and vol_ratio ≥ 0.8 |
| NavHistory.FindAmountFromSound | backend/services/data_fetcher.py:123 | From any point before which no match has ended, the scan finds nothing exactly when the text holds no match, and otherwise captures a match that no other match starts before |
| NavHistory.FindAmount | backend/services/data_fetcher.py:123 | `re.search(r'([0-9.]+)元')` gives None iff the text holds no maximal run of digits and dots directly followed by 元. Otherwise it captures the leftmost such run |
| NavHistory.FindAmountFirst | backend/services/data_fetcher.py:123 | The search finds the leftmost amount: after a prefix free of 元 that does not end in a digit or dot, exactly that amount is captured |
| NavHistory.DecimalIsAmount | backend/services/data_fetcher.py:123-124 | Every string `float()` accepts here consists of pattern characters |
| NavHistory.ParseDividend | backend/services/data_fetcher.py:122-124 | No match gives 0. The result is an error (the row is skipped) exactly when the match is not a number `float()` accepts. Any value returned is ≥ 0 |
| NavHistory.NoYuanParsesZero | backend/services/data_fetcher.py:124 | A text without 元 parses as 0 |
| NavHistory.ParseDividendExample | backend/services/data_fetcher.py:122-124 | "每份派现金0.0320元" parses as 0.032 |
| NavHistory.KeptDividendsMembers | backend/services/data_fetcher.py:127-135 | A dividend is kept exactly when some row with a parseable date yields it, and every kept amount is > 0 |
| NavHistory.CollectDividends | backend/services/data_fetcher.py:127-135 | The loop yields the kept dividends in table order |
| NavHistory.LastOnOrBefore | backend/services/data_fetcher.py:148-151 | The row found is dated on or before the dividend and no later row is; None exactly when no row is |
| NavHistory.ComputeFactors | backend/services/data_fetcher.py:141-157 | Every row's factor is the product, over the dividends strictly before its date, of 1 + amount / NAV at that dividend |
| NavHistory.ApplyDividend | backend/services/data_fetcher.py:143-157 | One dividend takes the factors from the first n dividends' product to the first n+1's |
| NavHistory.ScaleAfter | backend/services/data_fetcher.py:156-157 | Rows dated strictly after the dividend have their factor multiplied by the ratio, and all others keep theirs |
| NavHistory.ScaledColumn | backend/services/data_fetcher.py:152-157 | Scaling the rows after a dividend by its multiplier yields the next cumulative factors |
| NavHistory.UnchangedColumn | backend/services/data_fetcher.py:149-152 | A dividend with no row on or before it, or a NAV ≤ 0 there, changes no factor |
| NavHistory.FactorStep | backend/services/data_fetcher.py:143-157 | Taking one more dividend multiplies a row's factor by its multiplier exactly when the dividend is strictly before the row |
| NavHistory.FactorBeforeDividends | backend/services/data_fetcher.py:141 | Rows dated on or before every dividend keep factor 1 |
| NavHistory.MultiplierAtLeastOne | backend/services/data_fetcher.py:152-157 | A positive dividend's multiplier is ≥ 1 |
| NavHistory.FactorMonotone | backend/services/data_fetcher.py:141-157 | With positive dividends, every factor is ≥ 1 and a later row never has a smaller factor |
| NavHistory.Scaled | backend/services/data_fetcher.py:160 | The adjusted rows keep the rows' dates and count |
| NavHistory.NoDividendsUnadjusted | backend/services/data_fetcher.py:161-163 | Without dividends every value is the unit NAV |
| NavHistory.FilterRange | backend/services/data_fetcher.py:169-172 | Every kept row lies within the inclusive bounds |
| NavHistory.FilterRangeMembers | backend/services/data_fetcher.py:169-172 | A row is kept exactly when it lies within the bounds; an empty or missing bound does not filter |
| NavHistory.FilterRangeSorted | backend/services/data_fetcher.py:169-172 | The filter keeps the order, so a sorted series stays sorted |
| NavHistory.FetchFundHistory | backend/services/data_fetcher.py:98-184 | An empty NAV table gives an empty result. Otherwise the result is the date-sorted rows, adjusted by the sorted kept dividends (none without a dividend table), filtered by the date range |
| Favorites.Dedup | backend/main.py:620 | `list(set(...))` has no duplicates, the same codes, and is no longer than its input |
| Favorites.RemoveAll | backend/main.py:622 | A code is kept iff it is an existing code not requested for removal |
| Favorites.RemoveAllKeepsOrder | backend/main.py:622 | Removal keeps the remaining codes in their original order |
| Favorites.RemoveAllKeepsCount | backend/main.py:622 | A code that is not removed keeps its multiplicity |
| Favorites.NewFavorites | backend/main.py:617-624 | "replace" gives exactly the requested codes; "add" gives a duplicate-free list whose codes are existing ∪ requested; "remove" gives existing minus requested; any other mode gives none |
| Favorites.AddTwice | backend/main.py:619-620 | Adding the same codes twice gives the same codes as adding them once |
| Favorites.AddThenRemove | backend/main.py:619-622 | Removing what was just added leaves the existing codes that were not requested |
| Favorites.EveryCodeAccounted | backend/main.py:523-557 | Every requested code ends in exactly one of results and errors |
| Favorites.AddedFundsMembers | backend/main.py:526-547 | An added entry comes from a requested code whose lookup found a record, named by the record or else "基金" + code, and every such code is added |
| Favorites.FundErrorsMembers | backend/main.py:529-557 | An error comes from a requested code whose lookup found nothing, with the fixed message, or whose `upsert_instrument` raised, with the exception's message, and every such code is recorded |
| Favorites.AddFunds | backend/main.py:516-557 | The loop's results and errors are the added and failed codes in request order; added = number of results; results + errors = requests; synced = added when syncing, else 0 |
| Favorites.FavoritesStore.SetFavorites | backend/main.py:599-633 | An unknown mode answers 400 and saves nothing. Otherwise the new list for the mode is saved, and the response carries success, the saved list, its length and the mode |
| Favorites.FavoritesStore.BatchAddFunds | backend/main.py:500-575 | success iff no errors; added = number of results; synced as above. With set_favorite, favorites become the duplicate-free union of old and all requested codes and favorites_updated = number of requested codes; otherwise favorites are unchanged and 0 |
| Favorites.BatchFavoritesUnion | backend/main.py:561-566 | The merged favorites are duplicate-free and hold exactly old ∪ requested |
| Favorites.FavoritesUpdatedCountsRequests | backend/main.py:564-566 | `favorites_updated` counts requests, not changes: with favorite 000001 and request [000001, 000001], the list keeps one code while 2 is reported |

## Left out

- Downloads (akshare), database reads and writes, FastAPI routing and the background sync tasks are left out. The data they would supply is passed as parameters: price series, NAV and dividend tables, and the per-code `get_fund_info` outcome.
- `get_fund_data` of both scripts is not part of this model. That includes its `datetime.now()`-based recent-days filter and its date reformatting.
- The scripts' `main()` functions, thread pools and JSON file output are not part of this model, nor is `SurgeBacktester`, whose reports and database saves are string formatting and I/O.
- The least-squares slope and the standard deviation of daily returns are floating-point library numerics. They are the uninterpreted parameters `fit` and `volatility`, and nothing about their values is assumed.
- Rounding (`round(x, 2)` and the like) is left out of every record. Prices are exact reals, so floating-point error, NaN and pandas' `dropna` are not modelled.
- The chart-side helpers are not part of this model: calendar alignment, return rebasing, axis bounds, slope tiers, span consolidation and tooltip placement.
- The `except` paths that swallow arbitrary exceptions are left out: the scripts' `scan_fund` and `fetch_fund_history`'s outer handler. `batch_add_funds`' handler is modelled: a code whose `upsert_instrument` raises is recorded in `errors` with the exception's message (`Favorites.FundInfo.Failed`). The paths the code itself reaches are modelled: an empty NAV table, an unparseable dividend date or amount, an empty `get_fund_info` result, and `max` of no windows.
- Surge.SurgeConfig: window lengths are natural numbers. The source's `List[int]` could hold negative lengths, which are not modelled.
- Surge.ScanFund: the error for an empty window list carries a stand-in message rather than Python's exception object.
- Surge.Key: `range_key` is the string `f"{start}_{end}"`. The model uses the pair (start, end), which is the same key for ISO dates, since they contain no `_`.
- Surge.Details: a window length of 0 gives a one-point window, whose empty first half makes `linregress` raise. The model's `fit` returns some value there instead.
- Common.SortBy: the contracts promise sortedness and a permutation, not stability. The model's insertion sort keeps equal keys in input order, as Python's `sorted` does. pandas' default `sort_values` does not promise this for NAV rows with equal dates.
- NavHistory.DivRow: `pd.to_datetime` of the record date is modelled as an already parsed ISO date, or None when it fails.
- Favorites.Dedup: Python leaves the order of `list(set(...))` unspecified. The model keeps first occurrences, and its contracts promise only the set of codes and the absence of duplicates.
- Favorites.FavoritesStore: the stored favorites are a JSON string in the user-state table. The model keeps the decoded list, with an absent entry read as the empty list.
- Indicators.CalculateIndicators: `days` is a natural number. The source accepts any integer, and `tail` of a negative count is not modelled.
