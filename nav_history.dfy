/**
 * The adjusted NAV history of `DataFetcher.fetch_fund_history`
 * (backend/services/data_fetcher.py:80-184): rows sorted by date, dividends
 * parsed from their "... 元" text, a cumulative reinvestment factor per row,
 * the adjusted value, and the inclusive date-range filter.
 *
 * Dates are ISO "YYYY-MM-DD" strings, whose string order is the
 * chronological order pandas uses for its timestamps.
 */
module NavHistory {
  import opened Common

  /** A row of the unit-NAV table: date and unit NAV. */
  datatype NavRow = NavRow(date: string, unitNav: real)

  /** A row of the dividend table: its record date (None when unparseable) and its per-share text. */
  datatype DivRow = DivRow(date: Option<string>, text: string)

  datatype Dividend = Dividend(date: string, amount: real)

  /** A row of the returned frame: date and adjusted value. */
  datatype HistoryRow = HistoryRow(date: string, value: real)

  function NavDate(r: NavRow): string { r.date }

  function DividendDate(d: Dividend): string { d.date }

  // ---------------------------------------------------------------------
  // parse_dividend (data_fetcher.py:122-124): `re.search(r'([0-9.]+)元')`
  // then `float(...)`, 0 without a match.
  // ---------------------------------------------------------------------

  const Yuan: char := '元'

  predicate IsAmountChar(c: char) {
    '0' <= c <= '9' || c == '.'
  }

  predicate IsAmount(m: string) {
    |m| > 0 && forall k :: 0 <= k < |m| ==> IsAmountChar(m[k])
  }

  /**
   * `m` occurs in `s` as a maximal run of amount characters directly followed
   * by 元: where the regular expression can match.
   */
  predicate AmountAt(s: string, m: string, p: nat) {
    && IsAmount(m)
    && p + |m| < |s|
    && s[p..p + |m|] == m
    && s[p + |m|] == Yuan
    && (p == 0 || !IsAmountChar(s[p - 1]))
  }

  /**
   * The scan for the leftmost match: `runStart` is where the current run of
   * amount characters began. A run that meets 元 is the match; a greedy
   * `[0-9.]+` cannot end inside a run, and 元 is not an amount character.
   */
  function FindAmountFrom(s: string, i: nat, runStart: nat): (r: Option<string>)
    requires runStart <= i <= |s|
    requires forall k :: runStart <= k < i ==> IsAmountChar(s[k])
    requires runStart == 0 || !IsAmountChar(s[runStart - 1])
    decreases |s| - i
  {
    if i == |s| then None
    else if s[i] == Yuan && runStart < i then Some(s[runStart..i])
    else if IsAmountChar(s[i]) then FindAmountFrom(s, i + 1, runStart)
    else FindAmountFrom(s, i + 1, i + 1)
  }

  /** No match has its 元 before position `i`. */
  ghost predicate NoMatchEndsBefore(s: string, i: nat) {
    forall m: string, p: nat :: AmountAt(s, m, p) ==> i <= p + |m|
  }

  /**
   * The scan is the regular expression's search: it finds nothing exactly
   * when the text holds no match, and what it captures is the leftmost match.
   */
  lemma {:induction false} FindAmountFromSound(s: string, i: nat, runStart: nat)
    requires runStart <= i <= |s|
    requires forall k :: runStart <= k < i ==> IsAmountChar(s[k])
    requires runStart == 0 || !IsAmountChar(s[runStart - 1])
    requires NoMatchEndsBefore(s, i)
    ensures FindAmountFrom(s, i, runStart).None? ==> forall m: string, p: nat :: !AmountAt(s, m, p)
    ensures FindAmountFrom(s, i, runStart).Some? ==>
      exists p :: AmountAt(s, FindAmountFrom(s, i, runStart).value, p) && forall m: string, q: nat :: q < p ==> !AmountAt(s, m, q)
    decreases |s| - i
  {
    if i == |s| {
    } else if s[i] == Yuan && runStart < i {
      assert AmountAt(s, s[runStart..i], runStart);
      forall m: string, q: nat | q < runStart
        ensures !AmountAt(s, m, q)
      {
        if AmountAt(s, m, q) {
          // the run of `m` would cross the non-amount character before runStart
          assert false;
        }
      }
    } else if IsAmountChar(s[i]) {
      FindAmountFromSound(s, i + 1, runStart);
    } else {
      forall m: string, p: nat | AmountAt(s, m, p)
        ensures i + 1 <= p + |m|
      {
        if p + |m| == i {
          // the run of `m` would end in the non-amount character at i - 1
          assert false;
        }
      }
      FindAmountFromSound(s, i + 1, i + 1);
    }
  }

  /**
   * The text captured by `([0-9.]+)元`: None exactly when the text holds no
   * match, otherwise the leftmost match.
   */
  function FindAmount(s: string): (r: Option<string>)
    ensures r.None? <==> forall m: string, p: nat :: !AmountAt(s, m, p)
    ensures r.Some? ==> exists p :: AmountAt(s, r.value, p) && forall m: string, q: nat :: q < p ==> !AmountAt(s, m, q)
  {
    FindAmountFromSound(s, 0, 0);
    FindAmountFrom(s, 0, 0)
  }

  /** The leading part of a text contains no 元 and does not end in an amount character. */
  predicate CleanPrefix(p: string) {
    (forall k :: 0 <= k < |p| ==> p[k] != Yuan) && (|p| == 0 || !IsAmountChar(p[|p| - 1]))
  }

  /**
   * The regular expression finds the first amount: with a prefix free of
   * 元 that does not end in a digit or '.', the text `p + m + "元" + rest`
   * yields exactly `m`.
   */
  lemma FindAmountFirst(p: string, m: string, rest: string)
    requires CleanPrefix(p) && IsAmount(m)
    ensures FindAmount(p + m + [Yuan] + rest) == Some(m)
  {
    var s := p + m + [Yuan] + rest;
    var start, end := |p|, |p| + |m|;
    assert forall k :: 0 <= k < start ==> s[k] == p[k];
    assert forall k :: start <= k < end ==> s[k] == m[k - start];
    assert s[end] == Yuan;
    if start > 0 {
      SkipPrefix(s, start, 0, 0);
    }
    ReadAmount(s, start, end, start);
    assert s[start..end] == m;
  }

  /** Inside a prefix free of 元 that ends in a non-amount character, the scan finds nothing. */
  lemma {:induction false} SkipPrefix(s: string, j: nat, i: nat, runStart: nat)
    requires runStart <= i < j <= |s|
    requires forall k :: i <= k < j ==> s[k] != Yuan
    requires !IsAmountChar(s[j - 1])
    requires forall k :: runStart <= k < i ==> IsAmountChar(s[k])
    requires runStart == 0 || !IsAmountChar(s[runStart - 1])
    ensures FindAmountFrom(s, i, runStart) == FindAmountFrom(s, j, j)
    decreases j - i
  {
    if i + 1 < j {
      if IsAmountChar(s[i]) {
        SkipPrefix(s, j, i + 1, runStart);
      } else {
        SkipPrefix(s, j, i + 1, i + 1);
      }
    }
  }

  /** A run of amount characters from `start` that meets 元 at `end` is captured whole. */
  lemma {:induction false} ReadAmount(s: string, start: nat, end: nat, i: nat)
    requires start < end < |s| && start <= i <= end
    requires forall k :: start <= k < end ==> IsAmountChar(s[k])
    requires s[end] == Yuan
    requires start == 0 || !IsAmountChar(s[start - 1])
    ensures FindAmountFrom(s, i, start) == Some(s[start..end])
    decreases end - i
  {
    if i < end {
      ReadAmount(s, start, end, i + 1);
    }
  }

  function DigitValue(c: char): nat
    requires '0' <= c <= '9'
  {
    (c as int - '0' as int) as nat
  }

  predicate AllDigits(s: string) {
    forall k :: 0 <= k < |s| ==> '0' <= s[k] <= '9'
  }

  /** The value of a string of decimal digits, 0 for the empty string. */
  function DigitsValue(s: string): nat
    requires AllDigits(s)
  {
    if |s| == 0 then 0 else DigitsValue(s[..|s| - 1]) * 10 + DigitValue(s[|s| - 1])
  }

  function Pow10(n: nat): (r: nat)
    ensures r > 0
  {
    if n == 0 then 1 else 10 * Pow10(n - 1)
  }

  /** The position of the first '.', or |m| when there is none. */
  function DotIndex(m: string): (d: nat)
    ensures d <= |m|
    ensures d < |m| ==> m[d] == '.'
    ensures forall k :: 0 <= k < d ==> m[k] != '.'
  {
    if |m| == 0 then 0 else if m[0] == '.' then 0 else 1 + DotIndex(m[1..])
  }

  /**
   * The strings of digits and dots `float()` accepts: at most one dot and at
   * least one digit ("3", "0.5", "2.", ".5").
   */
  predicate IsDecimal(m: string) {
    var d := DotIndex(m);
    && |m| > 0 && m != "."
    && AllDigits(m[..d])
    && (d == |m| || AllDigits(m[d + 1..]))
  }

  /** The value `float()` gives a decimal string: whole part plus fraction. */
  function DecimalValue(m: string): (v: real)
    requires IsDecimal(m)
    ensures v >= 0.0
  {
    var d := DotIndex(m);
    DigitsValue(m[..d]) as real +
      (if d < |m| then DigitsValue(m[d + 1..]) as real / Pow10(|m| - d - 1) as real else 0.0)
  }

  /** A decimal is a run of amount characters, so it is what the pattern can capture. */
  lemma DecimalIsAmount(m: string)
    requires IsDecimal(m)
    ensures IsAmount(m)
  {
    var d := DotIndex(m);
    forall k | 0 <= k < |m|
      ensures IsAmountChar(m[k])
    {
      if k < d {
        assert m[k] == m[..d][k];
      } else if k > d {
        assert m[k] == m[d + 1..][k - d - 1];
      }
    }
  }

  /**
   * `parse_dividend`: 0 without a match, the captured number when `float()`
   * accepts it, and an error (the row is skipped) when it does not.
   */
  function ParseDividend(text: string): (r: Result<real, string>)
    ensures FindAmount(text).None? ==> r == Ok(0.0)
    ensures r.Ok? ==> r.value >= 0.0
    ensures r.Err? <==> FindAmount(text).Some? && !IsDecimal(FindAmount(text).value)
  {
    match FindAmount(text)
    case None => Ok(0.0)
    case Some(m) =>
      if IsDecimal(m) then Ok(DecimalValue(m)) else Err("could not convert string to float")
  }

  /** A text without 元 has no match and parses as 0. */
  lemma NoYuanParsesZero(text: string)
    requires forall k :: 0 <= k < |text| ==> text[k] != Yuan
    ensures ParseDividend(text) == Ok(0.0)
  {
  }

  /** "每份派现金0.0320元" parses as 0.032. */
  lemma ParseDividendExample(p: string, m: string)
    requires p == "每份派现金" && m == "0.0320"
    ensures ParseDividend(p + m + [Yuan]) == Ok(0.032)
  {
    DecimalExample();
    DecimalIsAmount(m);
    FindAmountFirst(p, m, []);
    assert p + m + [Yuan] + [] == p + m + [Yuan];
  }

  lemma DecimalExample()
    ensures IsDecimal("0.0320") && DecimalValue("0.0320") == 0.032
  {
    var m := "0.0320";
    assert DotIndex(m) == 1 by {
      assert m[0] != '.' && m[1] == '.';
      assert DotIndex(m[1..]) == 0;
    }
    assert m[..1] == "0" && m[2..] == "0320";
    assert DigitsValue("0") == 0;
    assert DigitsValue("0320") == 320 by {
      assert "0320"[..3] == "032" && "032"[..2] == "03" && "03"[..1] == "0";
    }
    assert Pow10(4) == 10000;
  }

  // ---------------------------------------------------------------------
  // Dividend collection (data_fetcher.py:127-138).
  // ---------------------------------------------------------------------

  /** The dividend a row contributes: none when its date or amount cannot be parsed or the amount is not positive. */
  function DividendOf(row: DivRow): Option<Dividend> {
    if row.date.None? then None
    else
      match ParseDividend(row.text)
      case Err(_) => None
      case Ok(amount) => if amount > 0.0 then Some(Dividend(row.date.value, amount)) else None
  }

  /** The rows' dividends in table order. */
  function KeptDividends(rows: seq<DivRow>): seq<Dividend> {
    FilterMap(rows, DividendOf)
  }

  /** A dividend is kept exactly when some row yields it; every kept amount is positive. */
  lemma KeptDividendsMembers(rows: seq<DivRow>, d: Dividend)
    ensures d in KeptDividends(rows) <==> exists k :: 0 <= k < |rows| && DividendOf(rows[k]) == Some(d)
    ensures d in KeptDividends(rows) ==> d.amount > 0.0
  {
    FilterMapMembers(rows, DividendOf, d);
  }

  /** The loop over the dividend table: skip unparseable rows, keep positive amounts. */
  method CollectDividends(rows: seq<DivRow>) returns (dividends: seq<Dividend>)
    ensures dividends == KeptDividends(rows)
  {
    dividends := [];
    for n := 0 to |rows|
      invariant dividends == FilterMap(rows[..n], DividendOf)
    {
      assert rows[..n + 1][..n] == rows[..n];
      var row := rows[n];
      if row.date.Some? {
        var parsed := ParseDividend(row.text);
        if parsed.Ok? && parsed.value > 0.0 {
          dividends := dividends + [Dividend(row.date.value, parsed.value)];
        }
      }
    }
    assert rows[..|rows|] == rows;
  }

  // ---------------------------------------------------------------------
  // Adjustment factors (data_fetcher.py:141-163).
  // ---------------------------------------------------------------------

  /** The last row, in table order, dated on or before `date` (`nav_df.loc[mask].iloc[-1]`). */
  function LastOnOrBefore(rows: seq<NavRow>, date: string): (r: Option<nat>)
    ensures r.Some? ==> r.value < |rows| && LexLe(rows[r.value].date, date)
    ensures r.Some? ==> forall k :: r.value < k < |rows| ==> !LexLe(rows[k].date, date)
    ensures r.None? ==> forall k :: 0 <= k < |rows| ==> !LexLe(rows[k].date, date)
  {
    if |rows| == 0 then None
    else if LexLe(rows[|rows| - 1].date, date) then Some(|rows| - 1)
    else LastOnOrBefore(rows[..|rows| - 1], date)
  }

  /**
   * The factor a dividend applies to later rows: 1 + amount / NAV at the
   * dividend date, or 1 when no row precedes it or that NAV is not positive.
   */
  function Multiplier(rows: seq<NavRow>, d: Dividend): real {
    match LastOnOrBefore(rows, d.date)
    case None => 1.0
    case Some(j) => if rows[j].unitNav > 0.0 then 1.0 + d.amount / rows[j].unitNav else 1.0
  }

  /** `factor * ratio` for a row the dividend applies to, `factor` for any other. */
  function ScaledIf(applies: bool, factor: real, ratio: real): real {
    if applies then factor * ratio else factor
  }

  /** The cumulative factor of a row dated `date`: the product of the multipliers of the dividends strictly before it. */
  function FactorAt(rows: seq<NavRow>, dividends: seq<Dividend>, date: string): real {
    if |dividends| == 0 then 1.0
    else
      var d := dividends[|dividends| - 1];
      ScaledIf(LexLt(d.date, date), FactorAt(rows, dividends[..|dividends| - 1], date), Multiplier(rows, d))
  }

  /**
   * The adjustment loop: every row's factor starts at 1 and each dividend
   * multiplies the factor of the rows dated strictly after it, in place.
   */
  method ComputeFactors(rows: seq<NavRow>, dividends: seq<Dividend>) returns (factor: array<real>)
    ensures fresh(factor) && factor.Length == |rows|
    ensures forall k :: 0 <= k < |rows| ==> factor[k] == FactorAt(rows, dividends, rows[k].date)
  {
    factor := new real[|rows|](_ => 1.0);
    for n := 0 to |dividends|
      invariant forall k :: 0 <= k < |rows| ==> factor[k] == FactorAt(rows, dividends[..n], rows[k].date)
    {
      ApplyDividend(rows, dividends, n, factor);
    }
    assert dividends[..|dividends|] == dividends;
  }

  /**
   * One pass of the adjustment loop (data_fetcher.py:144-157): the NAV of the
   * last row on or before the dividend date gives the ratio, and the factor
   * of every row dated strictly after the dividend is multiplied by it.
   */
  method ApplyDividend(rows: seq<NavRow>, dividends: seq<Dividend>, n: nat, factor: array<real>)
    requires n < |dividends| && factor.Length == |rows|
    requires forall k :: 0 <= k < |rows| ==> factor[k] == FactorAt(rows, dividends[..n], rows[k].date)
    modifies factor
    ensures forall k :: 0 <= k < |rows| ==> factor[k] == FactorAt(rows, dividends[..n + 1], rows[k].date)
  {
    var div := dividends[n];
    var at := LastOnOrBefore(rows, div.date);
    if at.Some? && rows[at.value].unitNav > 0.0 {
      var extraRatio := div.amount / rows[at.value].unitNav;
      ghost var before := factor[..];
      ScaleAfter(rows, div.date, 1.0 + extraRatio, factor);
      ScaledColumn(rows, dividends, n, 1.0 + extraRatio, before, factor[..]);
    } else {
      UnchangedColumn(rows, dividends, n, factor[..]);
    }
  }

  /** The factors after a dividend whose ratio is applied to the rows after it. */
  lemma ScaledColumn(rows: seq<NavRow>, dividends: seq<Dividend>, n: nat, ratio: real,
                     before: seq<real>, after: seq<real>)
    requires n < |dividends| && ratio == Multiplier(rows, dividends[n])
    requires |before| == |after| == |rows|
    requires forall k :: 0 <= k < |rows| ==> before[k] == FactorAt(rows, dividends[..n], rows[k].date)
    requires forall k :: 0 <= k < |rows| ==> after[k] == ScaledIf(LexLt(dividends[n].date, rows[k].date), before[k], ratio)
    ensures forall k :: 0 <= k < |rows| ==> after[k] == FactorAt(rows, dividends[..n + 1], rows[k].date)
  {
    forall k | 0 <= k < |rows|
      ensures after[k] == FactorAt(rows, dividends[..n + 1], rows[k].date)
    {
      FactorStep(rows, dividends, n, rows[k].date);
    }
  }

  /** A dividend without a positive NAV on or before its date leaves every factor as it was. */
  lemma UnchangedColumn(rows: seq<NavRow>, dividends: seq<Dividend>, n: nat, f: seq<real>)
    requires n < |dividends| && |f| == |rows|
    requires var at := LastOnOrBefore(rows, dividends[n].date); !(at.Some? && rows[at.value].unitNav > 0.0)
    requires forall k :: 0 <= k < |rows| ==> f[k] == FactorAt(rows, dividends[..n], rows[k].date)
    ensures forall k :: 0 <= k < |rows| ==> f[k] == FactorAt(rows, dividends[..n + 1], rows[k].date)
  {
    forall k | 0 <= k < |rows|
      ensures f[k] == FactorAt(rows, dividends[..n + 1], rows[k].date)
    {
      FactorStep(rows, dividends, n, rows[k].date);
    }
  }

  /**
   * `nav_df.loc[nav_df['净值日期'] > div_date, 'adj_factor'] *= (1 + extra_ratio)`:
   * the factor of every row dated strictly after the dividend is multiplied
   * by `ratio`, every other factor stays.
   */
  method ScaleAfter(rows: seq<NavRow>, divDate: string, ratio: real, factor: array<real>)
    requires factor.Length == |rows|
    modifies factor
    ensures forall k :: 0 <= k < |rows| ==> factor[k] == ScaledIf(LexLt(divDate, rows[k].date), old(factor[k]), ratio)
  {
    for k := 0 to |rows|
      invariant forall k' :: 0 <= k' < k ==> factor[k'] == ScaledIf(LexLt(divDate, rows[k'].date), old(factor[k']), ratio)
      invariant forall k' :: k <= k' < |rows| ==> factor[k'] == old(factor[k'])
    {
      if LexLt(divDate, rows[k].date) {
        factor[k] := factor[k] * ratio;
      }
    }
  }

  /** Taking one more dividend multiplies the factor by its multiplier when it lies strictly before the date. */
  lemma FactorStep(rows: seq<NavRow>, dividends: seq<Dividend>, n: nat, date: string)
    requires n < |dividends|
    ensures FactorAt(rows, dividends[..n + 1], date) ==
            ScaledIf(LexLt(dividends[n].date, date), FactorAt(rows, dividends[..n], date), Multiplier(rows, dividends[n]))
  {
    assert dividends[..n + 1][..n] == dividends[..n];
  }

  /** A row dated on or before every dividend keeps factor 1. */
  lemma {:induction false} FactorBeforeDividends(rows: seq<NavRow>, dividends: seq<Dividend>, date: string)
    requires forall k :: 0 <= k < |dividends| ==> LexLe(date, dividends[k].date)
    ensures FactorAt(rows, dividends, date) == 1.0
  {
    if |dividends| > 0 {
      var d := dividends[|dividends| - 1];
      FactorBeforeDividends(rows, dividends[..|dividends| - 1], date);
      if LexLt(d.date, date) {
        LexLeAntisymmetric(d.date, date);
      }
    }
  }

  lemma MultiplierAtLeastOne(rows: seq<NavRow>, d: Dividend)
    requires d.amount > 0.0
    ensures Multiplier(rows, d) >= 1.0
  {
    match LastOnOrBefore(rows, d.date)
    case None =>
    case Some(j) =>
      if rows[j].unitNav > 0.0 {
        assert d.amount / rows[j].unitNav > 0.0;
      }
  }

  lemma ScaleMonotone(f1: real, f2: real, m1: real, m2: real)
    requires 1.0 <= f1 <= f2 && 1.0 <= m1 <= m2
    ensures 1.0 <= f1 * m1 <= f2 * m2
  {
    assert f1 * m1 <= f2 * m1;
    assert f2 * m1 <= f2 * m2;
    assert 1.0 * 1.0 <= f1 * m1;
  }

  /** A conditional scaling is a product with 1 when the condition fails. */
  lemma ScaledIfIsProduct(applies: bool, factor: real, ratio: real)
    ensures ScaledIf(applies, factor, ratio) == factor * (if applies then ratio else 1.0)
  {
  }

  /** With positive dividends, a later row never has a smaller factor, and every factor is at least 1. */
  lemma {:induction false} FactorMonotone(rows: seq<NavRow>, dividends: seq<Dividend>, d1: string, d2: string)
    requires forall k :: 0 <= k < |dividends| ==> dividends[k].amount > 0.0
    requires LexLe(d1, d2)
    ensures 1.0 <= FactorAt(rows, dividends, d1) <= FactorAt(rows, dividends, d2)
  {
    if |dividends| > 0 {
      var init := dividends[..|dividends| - 1];
      var d := dividends[|dividends| - 1];
      FactorMonotone(rows, init, d1, d2);
      MultiplierAtLeastOne(rows, d);
      var m := Multiplier(rows, d);
      var m1 := if LexLt(d.date, d1) then m else 1.0;
      var m2 := if LexLt(d.date, d2) then m else 1.0;
      if LexLt(d.date, d1) {
        LexLeTransitive(d.date, d1, d2);
        if d.date == d2 {
          LexLeAntisymmetric(d1, d2);
        }
      }
      ScaleMonotone(FactorAt(rows, init, d1), FactorAt(rows, init, d2), m1, m2);
      ScaledIfIsProduct(LexLt(d.date, d1), FactorAt(rows, init, d1), m);
      ScaledIfIsProduct(LexLt(d.date, d2), FactorAt(rows, init, d2), m);
    }
  }

  /** The factor column after the adjustment loop. */
  function Factors(rows: seq<NavRow>, dividends: seq<Dividend>): (f: seq<real>)
    ensures |f| == |rows|
  {
    seq(|rows|, k requires 0 <= k < |rows| => FactorAt(rows, dividends, rows[k].date))
  }

  /** `nav_df['单位净值'] * nav_df['adj_factor']`, with the date column. */
  function Scaled(rows: seq<NavRow>, factors: seq<real>): (r: seq<HistoryRow>)
    requires |factors| == |rows|
    ensures |r| == |rows|
    ensures forall k :: 0 <= k < |rows| ==> r[k].date == rows[k].date
  {
    seq(|rows|, k requires 0 <= k < |rows| => HistoryRow(rows[k].date, rows[k].unitNav * factors[k]))
  }

  /** The adjusted series: unit NAV times the row's factor. */
  function Adjusted(rows: seq<NavRow>, dividends: seq<Dividend>): (r: seq<HistoryRow>)
    ensures |r| == |rows|
  {
    Scaled(rows, Factors(rows, dividends))
  }

  /** Without dividends every value is the unit NAV. */
  lemma NoDividendsUnadjusted(rows: seq<NavRow>)
    ensures Adjusted(rows, []) == seq(|rows|, k requires 0 <= k < |rows| => HistoryRow(rows[k].date, rows[k].unitNav))
  {
  }

  // ---------------------------------------------------------------------
  // Date filter (data_fetcher.py:169-172): an empty or missing bound does
  // not filter; both bounds are inclusive.
  // ---------------------------------------------------------------------

  predicate InRange(date: string, start: Option<string>, end: Option<string>) {
    && (start.None? || start.value == "" || LexLe(start.value, date))
    && (end.None? || end.value == "" || LexLe(date, end.value))
  }

  function FilterRange(rows: seq<HistoryRow>, start: Option<string>, end: Option<string>): (r: seq<HistoryRow>)
    ensures |r| <= |rows|
    ensures forall k :: 0 <= k < |r| ==> InRange(r[k].date, start, end)
  {
    if |rows| == 0 then []
    else
      var init := FilterRange(rows[..|rows| - 1], start, end);
      if InRange(rows[|rows| - 1].date, start, end) then init + [rows[|rows| - 1]] else init
  }

  /** The filter keeps exactly the rows within the bounds. */
  lemma {:induction false} FilterRangeMembers(rows: seq<HistoryRow>, start: Option<string>, end: Option<string>, x: HistoryRow)
    ensures x in FilterRange(rows, start, end) <==> x in rows && InRange(x.date, start, end)
  {
    if |rows| > 0 {
      var init := rows[..|rows| - 1];
      FilterRangeMembers(init, start, end, x);
      assert rows == init + [rows[|rows| - 1]];
    }
  }

  /** The filter keeps the rows' order: a sorted series stays sorted. */
  lemma {:induction false} FilterRangeSorted(rows: seq<HistoryRow>, start: Option<string>, end: Option<string>)
    requires forall a, b :: 0 <= a < b < |rows| ==> LexLe(rows[a].date, rows[b].date)
    ensures var r := FilterRange(rows, start, end);
            forall a, b :: 0 <= a < b < |r| ==> LexLe(r[a].date, r[b].date)
  {
    if |rows| > 0 {
      var init := rows[..|rows| - 1];
      FilterRangeSorted(init, start, end);
      var fi := FilterRange(init, start, end);
      var last := rows[|rows| - 1];
      forall a | 0 <= a < |fi|
        ensures LexLe(fi[a].date, last.date)
      {
        FilterRangeMembers(init, start, end, fi[a]);
        var j :| 0 <= j < |init| && init[j] == fi[a];
        assert rows[j] == fi[a];
      }
      var r := FilterRange(rows, start, end);
      if InRange(last.date, start, end) {
        assert r == fi + [last];
        forall a, b | 0 <= a < b < |r|
          ensures LexLe(r[a].date, r[b].date)
        {
          if b == |fi| {
            assert r[a] == fi[a] && r[b] == last;
          } else {
            assert r[a] == fi[a] && r[b] == fi[b];
          }
        }
      }
    }
  }

  /**
   * `fetch_fund_history` (data_fetcher.py:80-184) on the downloaded tables:
   * `dividendTable` is None when the dividend download failed or came back
   * empty. The rows are sorted by date, adjusted when there are dividends and
   * filtered by the date range.
   */
  method FetchFundHistory(nav: seq<NavRow>, dividendTable: Option<seq<DivRow>>,
                          start: Option<string>, end: Option<string>)
    returns (result: seq<HistoryRow>)
    ensures |nav| == 0 ==> result == []
    ensures var rows := SortBy(nav, NavDate);
            var dividends := if dividendTable.Some? then SortBy(KeptDividends(dividendTable.value), DividendDate) else [];
            result == FilterRange(Adjusted(rows, dividends), start, end)
  {
    if |nav| == 0 {
      return [];
    }
    var rows := SortBy(nav, NavDate);
    var adjusted: seq<HistoryRow>;
    if dividendTable.Some? {
      var collected := CollectDividends(dividendTable.value);
      var dividends := SortBy(collected, DividendDate);
      var factor := ComputeFactors(rows, dividends);
      var factors := factor[..];
      assert factors == Factors(rows, dividends);
      adjusted := Scaled(rows, factors);
    } else {
      adjusted := seq(|rows|, k requires 0 <= k < |rows| => HistoryRow(rows[k].date, rows[k].unitNav));
      NoDividendsUnadjusted(rows);
    }
    result := FilterRange(adjusted, start, end);
  }
}
