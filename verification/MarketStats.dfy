/** The drawdown, percentile and forecast-range arithmetic of the market overview, over exact reals. */
module MarketStats {
  import opened Trading

  function Return(closes: seq<real>, i: nat, j: nat): real
    requires i < |closes| && j < |closes| && closes[i] != 0.0
  {
    closes[j] / closes[i] - 1.0
  }

  ghost predicate Positive(values: seq<real>) { forall k :: 0 <= k < |values| ==> values[k] > 0.0 }

  /** `worst` is the least return over all pairs of a buy day and a later (or the same) sell day. */
  ghost predicate IsDrawdown(closes: seq<real>, worst: real)
    requires Positive(closes)
  {
    && (exists i, j :: 0 <= i <= j < |closes| && Return(closes, i, j) == worst)
    && (forall i, j :: 0 <= i <= j < |closes| ==> worst <= Return(closes, i, j))
  }

  lemma QuotientFalls(value: real, small: real, large: real)
    requires value > 0.0 && 0.0 < small <= large
    ensures value / large <= value / small
  {
    var less, more := value / large, value / small;
    assert less * large == value && more * small == value;
    Scale(small, large, more);
    CancelFactor(less, more, large);
  }

  lemma CancelFactor(a: real, b: real, factor: real)
    requires factor > 0.0 && a * factor <= b * factor
    ensures a <= b
  {
  }

  lemma SelfQuotient(value: real)
    requires value != 0.0
    ensures value / value == 1.0
  {
  }

  /** The least return of pairs ending at `k` starts at the peak of the prefix. */
  lemma PeakIsWorstStart(closes: seq<real>, k: nat, peak: nat)
    requires Positive(closes) && peak <= k < |closes|
    requires forall i :: 0 <= i <= k ==> closes[i] <= closes[peak]
    ensures forall i :: 0 <= i <= k ==> Return(closes, peak, k) <= Return(closes, i, k)
  {
    forall i | 0 <= i <= k
      ensures Return(closes, peak, k) <= Return(closes, i, k)
    {
      QuotientFalls(closes[k], closes[i], closes[peak]);
    }
  }

  /** `_max_drawdown`: one pass finds the minimum over all quadratically many pairs. */
  method MaxDrawdown(closes: seq<real>) returns (worst: real)
    requires closes != []
    ensures worst <= 0.0
    ensures Positive(closes) ==> IsDrawdown(closes, worst)
  {
    var peak := closes[0];
    worst := 0.0;
    ghost var at := 0;
    for k := 0 to |closes|
      invariant worst <= 0.0 && 0 <= at < |closes| && (k > 0 ==> at < k) && (k == 0 ==> at == 0 && worst == 0.0)
      invariant peak == closes[at]
      invariant forall i :: 0 <= i < k ==> closes[i] <= peak
      invariant Positive(closes) && k > 0 ==> exists i, j :: 0 <= i <= j < k && Return(closes, i, j) == worst
      invariant Positive(closes) ==> forall i, j :: 0 <= i <= j < k ==> worst <= Return(closes, i, j)
    {
      ghost var earlier := worst;
      if closes[k] > peak { at := k; }
      peak := Max(peak, closes[k]);
      if peak != 0.0 {
        worst := Min(worst, closes[k] / peak - 1.0);
      }
      if Positive(closes) {
        PeakIsWorstStart(closes, k, at);
        assert worst == earlier || worst == Return(closes, at, k);
        SelfQuotient(closes[0]);
        assert k == 0 ==> Return(closes, 0, 0) == worst;
      }
    }
  }

  ghost predicate Sorted(values: seq<real>) {
    forall i, j :: 0 <= i <= j < |values| ==> values[i] <= values[j]
  }

  function Insert(value: real, sorted: seq<real>): (r: seq<real>)
    ensures multiset(r) == multiset(sorted) + multiset{value}
  {
    if sorted == [] || value <= sorted[0] then
      assert multiset([value] + sorted) == multiset(sorted) + multiset{value};
      [value] + sorted
    else
      assert sorted == [sorted[0]] + sorted[1..];
      [sorted[0]] + Insert(value, sorted[1..])
  }

  lemma {:induction false} InsertKeepsSorted(value: real, sorted: seq<real>)
    requires Sorted(sorted)
    ensures Sorted(Insert(value, sorted))
  {
    if sorted != [] && value > sorted[0] {
      InsertKeepsSorted(value, sorted[1..]);
      assert sorted == [sorted[0]] + sorted[1..];
      PrependSorted(sorted[0], value, sorted[1..], Insert(value, sorted[1..]));
    }
  }

  lemma PrependSorted(first: real, value: real, tail: seq<real>, rest: seq<real>)
    requires Sorted([first] + tail) && first <= value && Sorted(rest)
    requires multiset(rest) == multiset(tail) + multiset{value}
    ensures Sorted([first] + rest)
  {
    var whole := [first] + tail;
    assert forall i :: 0 <= i < |tail| ==> whole[i + 1] == tail[i] && whole[0] <= whole[i + 1];
    forall k | 0 <= k < |rest|
      ensures first <= rest[k]
    {
      assert rest[k] in multiset(rest);
      if rest[k] != value {
        assert rest[k] in multiset(tail);
        var i :| 0 <= i < |tail| && tail[i] == rest[k];
        assert whole[0] <= whole[i + 1];
      }
    }
  }

  function Sort(values: seq<real>): (r: seq<real>)
    ensures Sorted(r) && multiset(r) == multiset(values) && |r| == |values|
  {
    if values == [] then []
    else
      assert values == values[..|values| - 1] + [values[|values| - 1]];
      var rest := Sort(values[..|values| - 1]);
      var r := Insert(values[|values| - 1], rest);
      InsertKeepsSorted(values[|values| - 1], rest);
      assert |multiset(r)| == |multiset(values)|;
      r
  }

  function Ceiling(x: real): int {
    if x == x.Floor as real then x.Floor else x.Floor + 1
  }

  /** The value at a fractional position of an ordered list. */
  function Interpolate(ordered: seq<real>, position: real): real
    requires ordered != [] && 0.0 <= position <= (|ordered| - 1) as real
  {
    var lower, upper := position.Floor, Ceiling(position);
    if lower == upper then ordered[lower]
    else
      var fraction := position - lower as real;
      ordered[lower] * (1.0 - fraction) + ordered[upper] * fraction
  }

  function Position(count: nat, quantile: real): (p: real)
    requires count > 0 && 0.0 <= quantile <= 1.0
    ensures 0.0 <= p <= (count - 1) as real
  {
    var p := (count - 1) as real * quantile;
    assert (count - 1) as real * quantile <= (count - 1) as real * 1.0 by {
      Scale(quantile, 1.0, (count - 1) as real);
    }
    assert 0.0 <= p by { Scale(0.0, quantile, (count - 1) as real); }
    p
  }

  /** `_percentile`. */
  function Percentile(values: seq<real>, quantile: real): real
    requires values != [] && 0.0 <= quantile <= 1.0
  {
    var ordered := Sort(values);
    if |ordered| == 1 then ordered[0] else Interpolate(ordered, Position(|ordered|, quantile))
  }

  /** A mix of two ordered values lies between them and grows with the weight of the larger. */
  lemma MixIsBetween(low: real, high: real, f: real, g: real)
    requires low <= high && 0.0 <= f <= g <= 1.0
    ensures low <= low * (1.0 - f) + high * f <= low * (1.0 - g) + high * g <= high
  {
    var gap := high - low;
    var less := MixIsSum(low, high, gap, f);
    var more := MixIsSum(low, high, gap, g);
    SharesInOrder(gap, f, g, less, more);
  }

  lemma SharesInOrder(gap: real, f: real, g: real, less: real, more: real)
    requires gap >= 0.0 && 0.0 <= f <= g <= 1.0 && less == f * gap && more == g * gap
    ensures 0.0 <= less <= more <= gap
  {
    assert 0.0 <= less by { ProductIsNotNegative(f, gap); }
    assert less <= more by { Scale(f, g, gap); }
    assert more <= gap by { PartOfWhole(g, gap); }
  }

  lemma ProductIsNotNegative(a: real, b: real)
    requires a >= 0.0 && b >= 0.0
    ensures a * b >= 0.0
  {
  }

  lemma PartOfWhole(part: real, whole: real)
    requires part <= 1.0 && whole >= 0.0
    ensures part * whole <= whole
  {
    var rest := 1.0 - part;
    ProductIsNotNegative(rest, whole);
    assert part * whole == whole - rest * whole;
  }

  lemma MixIsSum(low: real, high: real, gap: real, f: real) returns (share: real)
    requires high == low + gap
    ensures share == f * gap && low * (1.0 - f) + high * f == low + share
  {
    var part := low * f;
    share := f * gap;
    assert low * (1.0 - f) == low - part;
    assert high * f == part + share;
  }

  /** An interpolated value lies between its two neighbours. */
  lemma InterpolateIsBetween(ordered: seq<real>, position: real)
    requires Sorted(ordered) && ordered != [] && 0.0 <= position <= (|ordered| - 1) as real
    ensures 0 <= position.Floor <= Ceiling(position) < |ordered|
    ensures ordered[position.Floor] <= Interpolate(ordered, position) <= ordered[Ceiling(position)]
  {
    var lower := position.Floor;
    if lower != Ceiling(position) {
      assert Ceiling(position) == lower + 1 < |ordered|;
      var fraction := position - lower as real;
      MixIsBetween(ordered[lower], ordered[lower + 1], fraction, fraction);
      assert Interpolate(ordered, position) == ordered[lower] * (1.0 - fraction) + ordered[lower + 1] * fraction;
    }
  }

  lemma InterpolateIsMonotone(ordered: seq<real>, p: real, q: real)
    requires Sorted(ordered) && ordered != [] && 0.0 <= p <= q <= (|ordered| - 1) as real
    ensures Interpolate(ordered, p) <= Interpolate(ordered, q)
  {
    InterpolateIsBetween(ordered, p);
    InterpolateIsBetween(ordered, q);
    if p.Floor == q.Floor && Ceiling(p) != p.Floor && Ceiling(q) != q.Floor {
      MixIsBetween(ordered[p.Floor], ordered[p.Floor + 1], p - p.Floor as real, q - q.Floor as real);
    } else if p.Floor < q.Floor {
      assert Ceiling(p) <= q.Floor;
    } else {
      assert p.Floor == q.Floor;
    }
  }

  lemma PositionIsMonotone(count: nat, q: real, r: real)
    requires count > 0 && 0.0 <= q <= r <= 1.0
    ensures Position(count, q) <= Position(count, r)
  {
    Scale(q, r, (count - 1) as real);
  }

  /** The percentile never falls when the quantile rises. */
  lemma PercentileIsMonotone(values: seq<real>, q: real, r: real)
    requires values != [] && 0.0 <= q <= r <= 1.0
    ensures Percentile(values, q) <= Percentile(values, r)
  {
    var ordered := Sort(values);
    PositionIsMonotone(|ordered|, q, r);
    if |ordered| > 1 {
      InterpolateIsMonotone(ordered, Position(|ordered|, q), Position(|ordered|, r));
    }
  }

  /** The percentile lies between two of the values. */
  lemma PercentileIsWithin(values: seq<real>, q: real) returns (low: real, high: real)
    requires values != [] && 0.0 <= q <= 1.0
    ensures low in values && high in values && low <= Percentile(values, q) <= high
  {
    var ordered := Sort(values);
    var position := Position(|ordered|, q);
    InterpolateIsBetween(ordered, position);
    low, high := ordered[position.Floor], ordered[Ceiling(position)];
    assert low in multiset(ordered) && high in multiset(ordered);
    assert low in multiset(values) && high in multiset(values);
  }

  /** The quantile of a rank: as many steps of the whole as there are values below. */
  ghost function QuantileOf(rank: nat, count: nat): (q: real)
    requires rank < count && count > 1
    ensures 0.0 <= q <= 1.0 && q * (count - 1) as real == rank as real
  {
    ShareOfWhole(rank as real, (count - 1) as real);
    rank as real / (count - 1) as real
  }

  lemma ShareOfWhole(part: real, whole: real)
    requires 0.0 <= part <= whole && whole > 0.0
    ensures 0.0 <= part / whole <= 1.0 && part / whole * whole == part
  {
    QuotientGrows(0.0, part, whole);
    QuotientGrows(part, whole, whole);
  }

  /** At the quantile of a rank the percentile is the value of that rank. */
  lemma PercentileAtRank(values: seq<real>, rank: nat)
    requires rank < |values| && |values| > 1
    ensures Percentile(values, QuantileOf(rank, |values|)) == Sort(values)[rank]
  {
    SortKeepsLength(values);
    PositionOfRank(rank, |values|);
  }

  lemma PositionOfRank(rank: nat, count: nat)
    requires rank < count && count > 1
    ensures Position(count, QuantileOf(rank, count)) == rank as real
  {
    Commutes((count - 1) as real, QuantileOf(rank, count));
  }

  lemma Commutes(a: real, b: real)
    ensures a * b == b * a
  {
  }

  lemma SortKeepsLength(values: seq<real>)
    ensures |Sort(values)| == |values|
  {
    assert |multiset(Sort(values))| == |multiset(values)|;
  }

  /** Quantile 0 is the least of the values, and quantile 1 the greatest. */
  lemma PercentileExtremes(values: seq<real>)
    requires values != []
    ensures Percentile(values, 0.0) in values && Percentile(values, 1.0) in values
    ensures forall v :: v in values ==> Percentile(values, 0.0) <= v <= Percentile(values, 1.0)
  {
    var ordered := Sort(values);
    SortKeepsLength(values);
    assert Position(|values|, 0.0) == 0.0 && Position(|values|, 1.0) == (|values| - 1) as real;
    assert Sort(values)[0] in multiset(values) && Sort(values)[|values| - 1] in multiset(values);
    forall v | v in values
      ensures ordered[0] <= v <= ordered[|ordered| - 1]
    {
      assert v in multiset(ordered);
    }
  }

  // Display rounding

  /** The nearest whole number, the even one when two are equally near. */
  function Nearest(x: real): int {
    var down, rest := x.Floor, x - x.Floor as real;
    if rest < 0.5 || (rest == 0.5 && down % 2 == 0) then down else down + 1
  }

  /** `round` to a whole number of parts per unit. */
  function Rounded(x: real, parts: real): real
    requires parts > 0.0
  {
    Nearest(x * parts) as real / parts
  }

  lemma NearestIsNear(x: real)
    ensures x - 0.5 <= Nearest(x) as real <= x + 0.5
  {
  }

  lemma NearestIsMonotone(x: real, y: real)
    requires x <= y
    ensures Nearest(x) <= Nearest(y)
  {
    if x.Floor < y.Floor { assert Nearest(x) <= x.Floor + 1 <= y.Floor; }
  }

  lemma QuotientGrows(small: real, large: real, parts: real)
    requires parts > 0.0 && small <= large
    ensures small / parts <= large / parts
  {
    assert (small / parts) * parts == small && (large / parts) * parts == large;
    CancelFactor(small / parts, large / parts, parts);
  }

  /** Rounding keeps order and leaves numbers that are already displayable alone. */
  lemma RoundedIsMonotone(x: real, y: real, parts: real)
    requires parts > 0.0 && x <= y
    ensures Rounded(x, parts) <= Rounded(y, parts)
  {
    Scale(x, y, parts);
    NearestIsMonotone(x * parts, y * parts);
    QuotientGrows(Nearest(x * parts) as real, Nearest(y * parts) as real, parts);
  }

  // The forecast

  datatype Range = Range(downside: real, median: real, upside: real)

  predicate Ordered(range: Range) { range.downside <= range.median <= range.upside }

  datatype Odds = Odds(up: real, neutral: real, down: real)

  datatype Forecast = Forecast(odds: Odds, returnRange: Range, priceRange: Range, confidence: real, score: real)

  /** The walk-forward backtest: how many signals it tried and how often the direction was right. */
  datatype Backtest = Backtest(samples: int, hitRate: Option<real>)

  function Clamp(low: real, high: real, value: real): real { Max(low, Min(high, value)) }

  /** 20-day returns of the last 520 closes, or a single zero when there are none. */
  function ForwardReturns(closes: seq<real>): (r: seq<real>)
    requires Positive(closes)
    ensures r != []
  {
    var first := if |closes| > 520 then |closes| - 520 else 0;
    if first + 20 >= |closes| then [0.0]
    else seq(|closes| - 20 - first, k requires 0 <= k < |closes| - 20 - first => Return(closes, first + k, first + k + 20))
  }

  /** The three quantiles of the history, all moved by the same event shift. */
  function ReturnRange(forward: seq<real>, shift: real): Range
    requires forward != []
  {
    Range(Percentile(forward, 0.1) + shift, Percentile(forward, 0.5) + shift, Percentile(forward, 0.9) + shift)
  }

  function PriceRange(current: real, range: Range): Range {
    Range(current * (1.0 + range.downside), current * (1.0 + range.median), current * (1.0 + range.upside))
  }

  function Displayed(range: Range, parts: real): Range
    requires parts > 0.0
  {
    Range(Rounded(range.downside, parts), Rounded(range.median, parts), Rounded(range.upside, parts))
  }

  function Neutral(score: real): real { Clamp(0.2, 0.38, 0.32 - 0.1 * Abs(score)) }

  function UpShare(score: real): real { Clamp(0.12, 0.88, 0.5 + 0.38 * score) }

  function Split(whole: real, share: real): Odds {
    Odds(whole * share, 1.0 - whole, whole - whole * share)
  }

  function MakeOdds(score: real): Odds { Split(1.0 - Neutral(score), UpShare(score)) }

  /** Odds as they are shown, each rounded to four digits on its own. */
  function Shown(odds: Odds): Odds {
    Odds(Rounded(odds.up, 10000.0), Rounded(odds.neutral, 10000.0), Rounded(odds.down, 10000.0))
  }

  function DisplayedOdds(score: real): Odds { Shown(MakeOdds(score)) }

  predicate Calibrated(backtest: Backtest) { backtest.samples >= 25 && backtest.hitRate.Some? }

  function Reliability(backtest: Backtest): real {
    if Calibrated(backtest) then Min(1.0, Abs(backtest.hitRate.value - 0.5) * 2.0) else 0.25
  }

  /** The market signal, turned around when it was more often wrong than right, and shrunk. */
  function CalibratedMarket(market: real, backtest: Backtest): real {
    Shrunk(if Calibrated(backtest) && backtest.hitRate.value < 0.5 then -market else market, backtest)
  }

  function Shrunk(signal: real, backtest: Backtest): real { signal * Reliability(backtest) }

  function ForecastScore(market: real, event: real, backtest: Backtest): real {
    Clamp(-1.0, 1.0, 0.78 * CalibratedMarket(market, backtest) + 0.22 * event)
  }

  function Confidence(count: nat, market: real, event: real, backtest: Backtest): real {
    Min(0.85, 0.25 + 0.2 * Min(1.0, count as real / 300.0) + 0.25 * Reliability(backtest)
              + 0.1 * (1.0 - Min(1.0, Abs(market - event) / 2.0)))
  }

  /** `_forecast` without its texts. */
  function MakeForecast(closes: seq<real>, market: real, event: real, backtest: Backtest): Forecast
    requires closes != [] && Positive(closes)
  {
    var forward := ForwardReturns(closes);
    var range := ReturnRange(forward, Clamp(-0.025, 0.025, event * 0.025));
    var score := ForecastScore(market, event, backtest);
    Forecast(DisplayedOdds(score), Displayed(range, 10000.0), Displayed(PriceRange(closes[|closes| - 1], range), 100.0),
             Rounded(Confidence(|forward|, market, event, backtest), 1000.0), Rounded(score, 10000.0))
  }

  /** The history, counted back from the last close: each of the last five hundred that has a close twenty days later. */
  lemma ForwardReturnsFromTheEnd(closes: seq<real>, k: nat)
    requires Positive(closes) && |closes| > 20
    ensures |ForwardReturns(closes)| == (if |closes| < 520 then |closes| else 520) - 20
    ensures k < |ForwardReturns(closes)| ==>
              && k + 21 <= |closes|
              && var r := ForwardReturns(closes);
                 r[|r| - 1 - k] == closes[|closes| - 1 - k] / closes[|closes| - 21 - k] - 1.0
  {
    var r := ForwardReturns(closes);
    if k < |r| {
      var first := if |closes| > 520 then |closes| - 520 else 0;
      assert r[|r| - 1 - k] == Return(closes, first + (|r| - 1 - k), first + (|r| - 1 - k) + 20);
    }
  }

  /**
   * Turning the signal around and shrinking it together make it linear in the hit rate: a backtest that is always right
   * keeps it, one that is always wrong negates it, and one at a half leaves nothing. Without enough samples a quarter stays.
   */
  lemma CalibrationIsLinear(market: real, backtest: Backtest)
    requires backtest.hitRate.Some? ==> 0.0 <= backtest.hitRate.value <= 1.0
    ensures backtest.samples >= 25 && backtest.hitRate.Some? ==>
              CalibratedMarket(market, backtest) == market * (2.0 * backtest.hitRate.value - 1.0)
    ensures backtest.samples < 25 || backtest.hitRate.None? ==> CalibratedMarket(market, backtest) * 4.0 == market
  {
    if Calibrated(backtest) {
      var rate := backtest.hitRate.value;
      if rate < 0.5 {
        assert Reliability(backtest) == 1.0 - 2.0 * rate;
        assert -market * (1.0 - 2.0 * rate) == market * (2.0 * rate - 1.0);
      } else {
        assert Reliability(backtest) == 2.0 * rate - 1.0;
      }
    }
  }

  /** Signals between -1 and 1 need no clamp: the score is their weighted sum. */
  lemma ScoreNeedsNoClamp(market: real, event: real, backtest: Backtest)
    requires -1.0 <= market <= 1.0 && -1.0 <= event <= 1.0
    ensures Abs(CalibratedMarket(market, backtest)) <= 1.0
    ensures ForecastScore(market, event, backtest) == 0.78 * CalibratedMarket(market, backtest) + 0.22 * event
  {
    var oriented := if Calibrated(backtest) && backtest.hitRate.value < 0.5 then -market else market;
    assert 0.0 <= Reliability(backtest) <= 1.0;
    Between(oriented, Reliability(backtest));
  }

  lemma Between(signal: real, share: real)
    requires -1.0 <= signal <= 1.0 && 0.0 <= share <= 1.0
    ensures -1.0 <= signal * share <= 1.0
  {
    var product := signal * share;
    ProductsInOrder(signal, 1.0, share, product, share);
    ProductsInOrder(-1.0, signal, share, -share, product);
  }

  lemma ReturnRangeIsOrdered(forward: seq<real>, shift: real)
    requires forward != []
    ensures Ordered(ReturnRange(forward, shift))
  {
    PercentileIsMonotone(forward, 0.1, 0.5);
    PercentileIsMonotone(forward, 0.5, 0.9);
  }

  lemma PriceRangeIsOrdered(current: real, range: Range)
    requires current > 0.0 && Ordered(range)
    ensures Ordered(PriceRange(current, range))
  {
    var low := PriceGrows(current, range.downside, range.median);
    var middle := PriceGrows(current, range.median, range.upside);
    assert PriceRange(current, range).downside == low && PriceRange(current, range).median == middle;
  }

  lemma PriceGrows(current: real, less: real, more: real) returns (price: real)
    requires current > 0.0 && less <= more
    ensures price == current * (1.0 + less) && price <= current * (1.0 + more)
  {
    var low, high := 1.0 + less, 1.0 + more;
    price := current * low;
    Scale(low, high, current);
  }

  lemma DisplayedIsOrdered(range: Range, parts: real)
    requires parts > 0.0 && Ordered(range)
    ensures Ordered(Displayed(range, parts))
  {
    RoundedIsMonotone(range.downside, range.median, parts);
    RoundedIsMonotone(range.median, range.upside, parts);
  }

  /** Both ranges are shown in order, whatever the closes, the market signal, the events and the backtest. */
  lemma ForecastIsOrdered(closes: seq<real>, market: real, event: real, backtest: Backtest)
    requires closes != [] && Positive(closes)
    ensures Ordered(MakeForecast(closes, market, event, backtest).returnRange)
    ensures Ordered(MakeForecast(closes, market, event, backtest).priceRange)
  {
    var range := ReturnRange(ForwardReturns(closes), Clamp(-0.025, 0.025, event * 0.025));
    ReturnRangeIsOrdered(ForwardReturns(closes), Clamp(-0.025, 0.025, event * 0.025));
    PriceRangeIsOrdered(closes[|closes| - 1], range);
    DisplayedIsOrdered(range, 10000.0);
    DisplayedIsOrdered(PriceRange(closes[|closes| - 1], range), 100.0);
  }

  function Total(odds: Odds): real { odds.up + odds.neutral + odds.down }

  lemma SplitIsADistribution(whole: real, share: real)
    requires 0.62 <= whole <= 0.8 && 0.12 <= share <= 0.88
    ensures Split(whole, share).up > 0.07 && Split(whole, share).down > 0.07
    ensures Split(whole, share).up + Split(whole, share).neutral + Split(whole, share).down == 1.0
  {
    var up := whole * share;
    assert 0.12 * whole <= up by { Scale(0.12, share, whole); }
    assert up <= 0.88 * whole by { Scale(share, 0.88, whole); }
  }

  /** The three probabilities are a distribution, and each keeps at least seven percent. */
  lemma OddsAreADistribution(score: real)
    ensures Total(MakeOdds(score)) == 1.0
    ensures MakeOdds(score).up > 0.07 && 0.2 <= MakeOdds(score).neutral <= 0.38 && MakeOdds(score).down > 0.07
  {
    SplitIsADistribution(1.0 - Neutral(score), UpShare(score));
  }

  /** A higher score never makes a rise less likely, although it may widen the neutral share at its cost. */
  lemma UpGrowsWithScore(less: real, more: real)
    requires -1.0 <= less <= more <= 1.0
    ensures MakeOdds(less).up <= MakeOdds(more).up
  {
    if less < 0.0 < more {
      UpGrowsOnOneSide(less, 0.0);
      UpGrowsOnOneSide(0.0, more);
    } else {
      UpGrowsOnOneSide(less, more);
    }
  }

  lemma UpGrowsOnOneSide(less: real, more: real)
    requires -1.0 <= less <= more <= 1.0 && (more <= 0.0 || 0.0 <= less)
    ensures MakeOdds(less).up <= MakeOdds(more).up
  {
    var slope := if 0.0 <= less then 0.1 else -0.1;
    UpIsSquare(less, slope);
    UpIsSquare(more, slope);
    SquareStep(less, more, slope);
  }

  lemma SquareStep(less: real, more: real, slope: real)
    requires less <= more && ((slope == 0.1 && 0.0 <= less) || (slope == -0.1 && more <= 0.0))
    ensures slope * (less * less) <= slope * (more * more)
  {
    if 0.0 <= less { SquareGrows(less, more); } else { SquareFalls(less, more); }
    var one, two := less * less, more * more;
    assert slope * one <= slope * two;
  }

  lemma SquareGrows(less: real, more: real)
    requires 0.0 <= less <= more
    ensures less * less <= more * more
  {
    Scale(less, more, less);
    Scale(less, more, more);
    Commutes(less, more);
  }

  /** On each side of zero the probability of a rise is a quadratic function of the score. */
  lemma UpIsSquare(score: real, slope: real)
    requires -1.0 <= score <= 1.0 && slope * score == 0.1 * Abs(score) && (slope == 0.1 || slope == -0.1)
    ensures MakeOdds(score).up == 0.34 + (0.2584 + 0.5 * slope) * score + 0.38 * slope * (score * score)
  {
    var whole, share, square := 0.68 + slope * score, 0.5 + 0.38 * score, score * score;
    assert 1.0 - Neutral(score) == whole && UpShare(score) == share;
    assert whole * share == 0.68 * share + (slope * score) * share;
    if slope == 0.1 {
      assert (0.1 * score) * share == 0.05 * score + 0.038 * square;
    } else {
      assert (-0.1 * score) * share == -0.05 * score - 0.038 * square;
    }
  }

  lemma SquareFalls(less: real, more: real)
    requires less <= more <= 0.0
    ensures more * more <= less * less
  {
    var a, b := -less, -more;
    SquareGrows(b, a);
    SameSquare(less);
    SameSquare(more);
  }

  lemma SameSquare(a: real)
    ensures -a * -a == a * a
  {
  }

  /** Turning the score around exchanges rise and fall. */
  lemma OddsAreSymmetric(score: real)
    ensures MakeOdds(-score) == Odds(MakeOdds(score).down, MakeOdds(score).neutral, MakeOdds(score).up)
  {
    var whole, share := 1.0 - Neutral(score), UpShare(score);
    assert UpShare(-score) == 1.0 - share && 1.0 - Neutral(-score) == whole;
    assert whole * (1.0 - share) == whole - whole * share;
  }

  ghost predicate Dominates(low: Range, high: Range) {
    low.downside <= high.downside && low.median <= high.median && low.upside <= high.upside
  }

  /**
   * Better news, all else equal, never lowers what is shown: the score, the return range and the price range do not fall,
   * a rise becomes no less likely and a fall no more likely.
   */
  lemma ForecastRisesWithEvents(closes: seq<real>, market: real, event: real, better: real, backtest: Backtest)
    requires closes != [] && Positive(closes) && event <= better
    ensures var one, two := MakeForecast(closes, market, event, backtest), MakeForecast(closes, market, better, backtest);
            && one.score <= two.score && one.odds.up <= two.odds.up && two.odds.down <= one.odds.down
            && Dominates(one.returnRange, two.returnRange) && Dominates(one.priceRange, two.priceRange)
  {
    RangesRise(ForwardReturns(closes), closes[|closes| - 1],
               Clamp(-0.025, 0.025, event * 0.025), Clamp(-0.025, 0.025, better * 0.025));
    ShownScoreRises(ForecastScore(market, event, backtest), ForecastScore(market, better, backtest));
  }

  /** What a quantile of the history implies for the return, moved by a fortieth of the event signal. */
  ghost function Implied(closes: seq<real>, quantile: real, event: real): real
    requires closes != [] && Positive(closes) && 0.0 <= quantile <= 1.0
  {
    Percentile(ForwardReturns(closes), quantile) + event / 40.0
  }

  /** The shown return is that to half a ten-thousandth, and the shown price the last close grown by it, to half a cent. */
  ghost predicate Shows(closes: seq<real>, quantile: real, event: real, shownReturn: real, shownPrice: real)
    requires closes != [] && Positive(closes) && 0.0 <= quantile <= 1.0
  {
    && Abs(shownReturn - Implied(closes, quantile, event)) <= 0.00005
    && Abs(shownPrice - Grown(closes[|closes| - 1], Implied(closes, quantile, event))) <= 0.005
  }

  ghost function Grown(price: real, part: real): real { price + price * part }

  lemma ForecastShowsQuantiles(closes: seq<real>, market: real, event: real, backtest: Backtest)
    requires closes != [] && Positive(closes) && -1.0 <= event <= 1.0
    ensures var shown := MakeForecast(closes, market, event, backtest);
            && Shows(closes, 0.1, event, shown.returnRange.downside, shown.priceRange.downside)
            && Shows(closes, 0.5, event, shown.returnRange.median, shown.priceRange.median)
            && Shows(closes, 0.9, event, shown.returnRange.upside, shown.priceRange.upside)
  {
    assert Clamp(-0.025, 0.025, event * 0.025) == event / 40.0;
    RangesAreNear(closes[|closes| - 1],
                  Range(Implied(closes, 0.1, event), Implied(closes, 0.5, event), Implied(closes, 0.9, event)));
  }

  lemma RangesAreNear(current: real, range: Range)
    ensures var shares, prices := Displayed(range, 10000.0), Displayed(PriceRange(current, range), 100.0);
            && Abs(shares.downside - range.downside) <= 0.00005
            && Abs(shares.median - range.median) <= 0.00005
            && Abs(shares.upside - range.upside) <= 0.00005
            && Abs(prices.downside - Grown(current, range.downside)) <= 0.005
            && Abs(prices.median - Grown(current, range.median)) <= 0.005
            && Abs(prices.upside - Grown(current, range.upside)) <= 0.005
  {
    ShownIsNear(range, 10000.0);
    PricesAreGrown(current, range);
    ShownIsNear(Range(Grown(current, range.downside), Grown(current, range.median), Grown(current, range.upside)), 100.0);
  }

  lemma PricesAreGrown(current: real, range: Range)
    ensures PriceRange(current, range) ==
            Range(Grown(current, range.downside), Grown(current, range.median), Grown(current, range.upside))
  {
    GrownIsProduct(current, range.downside);
    GrownIsProduct(current, range.median);
    GrownIsProduct(current, range.upside);
  }

  lemma GrownIsProduct(price: real, part: real)
    ensures price * (1.0 + part) == Grown(price, part)
  {
  }

  lemma ShownIsNear(range: Range, parts: real)
    requires parts == 100.0 || parts == 10000.0
    ensures var shown := Displayed(range, parts);
            && Abs(shown.downside - range.downside) * parts <= 0.5
            && Abs(shown.median - range.median) * parts <= 0.5
            && Abs(shown.upside - range.upside) * parts <= 0.5
  {
    NearestIsNear(range.downside * parts);
    NearestIsNear(range.median * parts);
    NearestIsNear(range.upside * parts);
  }

  /**
   * A stronger market signal leaves the ranges alone. It moves score and odds upwards, or downwards exactly in the case in
   * which enough samples show that the signal was more often wrong than right.
   */
  lemma ForecastFollowsMarket(closes: seq<real>, market: real, stronger: real, event: real, backtest: Backtest)
    requires closes != [] && Positive(closes) && market <= stronger
    ensures var one, two := MakeForecast(closes, market, event, backtest), MakeForecast(closes, stronger, event, backtest);
            && one.returnRange == two.returnRange && one.priceRange == two.priceRange
            && if backtest.samples >= 25 && backtest.hitRate.Some? && backtest.hitRate.value < 0.5 then
                 two.score <= one.score && two.odds.up <= one.odds.up && one.odds.down <= two.odds.down
               else
                 one.score <= two.score && one.odds.up <= two.odds.up && two.odds.down <= one.odds.down
  {
    CalibratedFollows(market, stronger, backtest);
    var one, two := ForecastScore(market, event, backtest), ForecastScore(stronger, event, backtest);
    if Calibrated(backtest) && backtest.hitRate.value < 0.5 {
      ShownScoreRises(two, one);
    } else {
      ShownScoreRises(one, two);
    }
  }

  lemma CalibratedFollows(market: real, stronger: real, backtest: Backtest)
    requires market <= stronger
    ensures if Calibrated(backtest) && backtest.hitRate.value < 0.5 then
              CalibratedMarket(stronger, backtest) <= CalibratedMarket(market, backtest)
            else CalibratedMarket(market, backtest) <= CalibratedMarket(stronger, backtest)
  {
    if Calibrated(backtest) && backtest.hitRate.value < 0.5 {
      ScaledSignal(-stronger, -market, backtest);
    } else {
      ScaledSignal(market, stronger, backtest);
    }
  }

  lemma ScaledSignal(less: real, more: real, backtest: Backtest)
    requires less <= more
    ensures Shrunk(less, backtest) <= Shrunk(more, backtest)
  {
    ProductsInOrder(less, more, Reliability(backtest), Shrunk(less, backtest), Shrunk(more, backtest));
  }

  lemma ProductsInOrder(less: real, more: real, share: real, one: real, two: real)
    requires less <= more && share >= 0.0 && one == less * share && two == more * share
    ensures one <= two
  {
    Scale(less, more, share);
  }

  lemma RangesRise(forward: seq<real>, current: real, shift: real, more: real)
    requires forward != [] && current > 0.0 && shift <= more
    ensures var one, two := ReturnRange(forward, shift), ReturnRange(forward, more);
            && Dominates(Displayed(one, 10000.0), Displayed(two, 10000.0))
            && Dominates(Displayed(PriceRange(current, one), 100.0), Displayed(PriceRange(current, two), 100.0))
  {
    var one, two := ReturnRange(forward, shift), ReturnRange(forward, more);
    PricesRise(current, one, two);
    ShownRises(one, two, 10000.0);
    ShownRises(PriceRange(current, one), PriceRange(current, two), 100.0);
  }

  lemma PricesRise(current: real, one: Range, two: Range)
    requires current > 0.0 && Dominates(one, two)
    ensures Dominates(PriceRange(current, one), PriceRange(current, two))
  {
    var low := PriceGrows(current, one.downside, two.downside);
    var middle := PriceGrows(current, one.median, two.median);
    var high := PriceGrows(current, one.upside, two.upside);
    assert PriceRange(current, one) == Range(low, middle, high);
  }

  lemma ShownRises(one: Range, two: Range, parts: real)
    requires Dominates(one, two) && parts > 0.0
    ensures Dominates(Displayed(one, parts), Displayed(two, parts))
  {
    RoundedIsMonotone(one.downside, two.downside, parts);
    RoundedIsMonotone(one.median, two.median, parts);
    RoundedIsMonotone(one.upside, two.upside, parts);
  }

  lemma ShownScoreRises(less: real, more: real)
    requires -1.0 <= less <= more <= 1.0
    ensures Rounded(less, 10000.0) <= Rounded(more, 10000.0)
    ensures DisplayedOdds(less).up <= DisplayedOdds(more).up && DisplayedOdds(more).down <= DisplayedOdds(less).down
  {
    RoundedIsMonotone(less, more, 10000.0);
    UpGrowsWithScore(less, more);
    UpGrowsWithScore(-more, -less);
    OddsAreSymmetric(less);
    OddsAreSymmetric(more);
    RoundedIsMonotone(MakeOdds(less).up, MakeOdds(more).up, 10000.0);
    RoundedIsMonotone(MakeOdds(more).down, MakeOdds(less).down, 10000.0);
  }

  /** What a number has beyond its whole part, and whether it is rounded up. */
  function Rest(x: real): real { x - x.Floor as real }

  predicate RoundsUp(x: real) { Nearest(x) == x.Floor + 1 }

  function UpsAmong(a: real, b: real, c: real): nat {
    (if RoundsUp(a) then 1 else 0) + (if RoundsUp(b) then 1 else 0) + (if RoundsUp(c) then 1 else 0)
  }

  /** Three numbers with a whole sum leave a whole rest; rounding misses the sum by what it rounds up beyond that rest. */
  lemma RoundedSum(a: real, b: real, c: real, total: int)
    requires a + b + c == total as real
    ensures Nearest(a) + Nearest(b) + Nearest(c) - total == UpsAmong(a, b, c) - (Rest(a) + Rest(b) + Rest(c)).Floor
    ensures (Rest(a) + Rest(b) + Rest(c)).Floor as real == Rest(a) + Rest(b) + Rest(c) <= 2.0
    ensures -1 <= Nearest(a) + Nearest(b) + Nearest(c) - total <= 1
  {
    var rest := total - a.Floor - b.Floor - c.Floor;
    assert Rest(a) + Rest(b) + Rest(c) == rest as real;
    assert (rest as real).Floor == rest;
  }

  /** How many ten-thousandths the rests of the three odds make together: none, one or two. */
  function RestOf(odds: Odds): int {
    (Rest(odds.up * 10000.0) + Rest(odds.neutral * 10000.0) + Rest(odds.down * 10000.0)).Floor
  }

  /** How many of the three odds are shown greater than they are by rounding up. */
  function UpsOf(odds: Odds): nat { UpsAmong(odds.up * 10000.0, odds.neutral * 10000.0, odds.down * 10000.0) }

  /**
   * The shown probabilities sum to one exactly when as many of them are rounded up as their rests make ten-thousandths. They
   * sum to 0.9999 exactly when the rests make one and none is rounded up, and to 1.0001 exactly when one more is rounded up
   * than the rests make; there is no other sum.
   */
  lemma ShownOddsSumToOneIff(score: real)
    ensures Total(DisplayedOdds(score)) == 1.0 <==> UpsOf(MakeOdds(score)) == RestOf(MakeOdds(score))
    ensures Total(DisplayedOdds(score)) == 0.9999 <==> RestOf(MakeOdds(score)) == 1 && UpsOf(MakeOdds(score)) == 0
    ensures Total(DisplayedOdds(score)) == 1.0001 <==>
              RestOf(MakeOdds(score)) >= 1 && UpsOf(MakeOdds(score)) == RestOf(MakeOdds(score)) + 1
    ensures Total(DisplayedOdds(score)) in {0.9999, 1.0, 1.0001}
  {
    OddsAreADistribution(score);
    ShownTotal(MakeOdds(score));
  }

  /** The same for any three probabilities. */
  lemma ShownTotal(odds: Odds)
    requires Total(odds) == 1.0
    ensures Total(Shown(odds)) == 1.0 <==> UpsOf(odds) == RestOf(odds)
    ensures Total(Shown(odds)) == 0.9999 <==> RestOf(odds) == 1 && UpsOf(odds) == 0
    ensures Total(Shown(odds)) == 1.0001 <==> RestOf(odds) >= 1 && UpsOf(odds) == RestOf(odds) + 1
    ensures Total(Shown(odds)) in {0.9999, 1.0, 1.0001}
  {
    var a, b, c := odds.up * 10000.0, odds.neutral * 10000.0, odds.down * 10000.0;
    var rest := (Rest(a) + Rest(b) + Rest(c)).Floor;
    assert rest == RestOf(odds) && UpsAmong(a, b, c) == UpsOf(odds);
    RoundedSumIff(a, b, c, 10000);
    InTenThousandths(odds, Nearest(a), Nearest(b), Nearest(c));
  }

  lemma InTenThousandths(odds: Odds, a: int, b: int, c: int)
    requires a == Nearest(odds.up * 10000.0) && b == Nearest(odds.neutral * 10000.0) && c == Nearest(odds.down * 10000.0)
    ensures Total(Shown(odds)) == (a + b + c) as real / 10000.0
  {
  }

  lemma RoundedSumIff(a: real, b: real, c: real, total: int)
    requires a + b + c == total as real
    ensures var sum, rest := Nearest(a) + Nearest(b) + Nearest(c), (Rest(a) + Rest(b) + Rest(c)).Floor;
            && (sum == total <==> UpsAmong(a, b, c) == rest)
            && (sum == total - 1 <==> rest == 1 && UpsAmong(a, b, c) == 0)
            && (sum == total + 1 <==> rest >= 1 && UpsAmong(a, b, c) == rest + 1)
            && total - 1 <= sum <= total + 1
  {
    RoundedSum(a, b, c, total);
    TwoRestsRoundUp(a, b, c);
  }

  /** Rests that make two cannot come from fewer than two numbers rounded up, and no rest means nothing to round. */
  lemma TwoRestsRoundUp(a: real, b: real, c: real)
    ensures Rest(a) + Rest(b) + Rest(c) == 2.0 ==> UpsAmong(a, b, c) >= 2
    ensures Rest(a) + Rest(b) + Rest(c) == 0.0 ==> UpsAmong(a, b, c) == 0
  {
  }

  /** Scores for which they sum to 1.0001 and to 0.9999. */
  lemma ShownOddsMayMissOne()
    ensures DisplayedOdds(0.0002) == Odds(0.3401, 0.32, 0.34) && Total(DisplayedOdds(0.0002)) == 1.0001
    ensures DisplayedOdds(0.0008) == Odds(0.3402, 0.3199, 0.3398) && Total(DisplayedOdds(0.0008)) == 0.9999
  {
    assert MakeOdds(0.0002) == Odds(0.34006168152, 0.31998, 0.33995831848);
    assert MakeOdds(0.0008) == Odds(0.34024674432, 0.31992, 0.33983325568);
  }

  /** Each shown probability is at least seven percent, and the neutral one between twenty and thirty-eight. */
  lemma ShownOddsAreBounded(score: real)
    ensures DisplayedOdds(score).up >= 0.07 && 0.2 <= DisplayedOdds(score).neutral <= 0.38 && DisplayedOdds(score).down >= 0.07
  {
    var odds := MakeOdds(score);
    OddsAreADistribution(score);
    AtLeast(odds.up, 700);
    AtLeast(odds.down, 700);
    AtLeast(odds.neutral, 2000);
    NearestIsMonotone(odds.neutral * 10000.0, 3800.0);
  }

  lemma AtLeast(x: real, parts: int)
    requires parts as real <= x * 10000.0
    ensures Rounded(x, 10000.0) >= parts as real / 10000.0
  {
    NearestIsMonotone(parts as real, x * 10000.0);
  }

  /**
   * Confidence ends at four fifths, so the cap of 0.85 is never reached: it grows with the reliability of the backtest, falls
   * with the distance between the signals, and grows with the history up to three hundred returns.
   */
  lemma ConfidenceIsCapped(count: nat, market: real, event: real, backtest: Backtest)
    ensures 0.25 <= Confidence(count, market, event, backtest) <= 0.8
    ensures var rest := Confidence(count, market, event, backtest) - 0.25 * Reliability(backtest)
                        + 0.05 * Min(2.0, Abs(market - event));
            if count >= 300 then rest == 0.55 else (rest - 0.35) * 1500.0 == count as real
  {
    var length, agreement := Min(1.0, count as real / 300.0), 1.0 - Min(1.0, Abs(market - event) / 2.0);
    assert 0.0 <= length <= 1.0 && 0.0 <= agreement <= 1.0 && 0.0 <= Reliability(backtest) <= 1.0;
    assert 0.25 + 0.2 * length + 0.25 * Reliability(backtest) + 0.1 * agreement <= 0.8;
  }
}
