/** The asset dashboard's chart preparation: moving averages computed in the browser,
    the date axis, the zoomed price range over the last 60 closes, and the gamma
    regime shown under the flip level. */
module AssetDashboard {
  import opened Common
  import opened Series

  /** One entry of `chart_data`. */
  type Candle = DatedClose

  /** What `chartConfig` holds once history is present. */
  datatype ChartConfig = ChartConfig(
    dates: seq<string>,
    sma20: seq<Option<real>>,
    sma50: seq<Option<real>>,
    minPrice: real,
    maxPrice: real)

  datatype Regime = LongGamma | ShortGamma

  /** The y-range is zoomed on this many trailing closes, padded by 5% each way. */
  const ZoomWindow: nat := 60
  const ZoomLow: real := 0.95
  const ZoomHigh: real := 1.05

  /** `chart_data.map(d => d.Date)`. */
  function Dates(data: seq<Candle>): (ds: seq<string>)
    ensures |ds| == |data|
    ensures forall i :: 0 <= i < |data| ==> ds[i] == data[i].date
  {
    seq(|data|, i requires 0 <= i < |data| => data[i].date)
  }

  /** What `calculateSMA(data, period)` returns: nothing at all when the series is
      missing or shorter than the period, otherwise one entry per candle, null until
      the window is full and the mean of the window's closes from then on. */
  function SmaSeries(data: Option<seq<Candle>>, period: nat): (r: seq<Option<real>>)
    requires period >= 1
    ensures data.None? || |data.value| < period ==> r == []
    ensures data.Some? && |data.value| >= period ==> |r| == |data.value|
    ensures forall i :: 0 <= i < |r| ==> (r[i].None? <==> i < period - 1)
    ensures forall i :: 0 <= i < |r| && i >= period - 1 ==>
              r[i] == Some(Mean(Closes(data.value)[i + 1 - period..i + 1]))
  {
    if data.None? || |data.value| < period then []
    else seq(|data.value|, i requires 0 <= i < |data.value| => TrailingMean(Closes(data.value), i, period))
  }

  /** `calculateSMA`: the push loop over the candles. */
  method CalculateSMA(data: Option<seq<Candle>>, period: nat) returns (sma: seq<Option<real>>)
    requires period >= 1
    ensures sma == SmaSeries(data, period)
  {
    if data.None? || |data.value| < period {
      return [];
    }
    var candles := data.value;
    sma := [];
    for i := 0 to |candles|
      invariant |sma| == i
      invariant forall j :: 0 <= j < i ==> sma[j] == TrailingMean(Closes(candles), j, period)
    {
      if i < period - 1 {
        sma := sma + [None];
        continue;
      }
      var window := Closes(candles)[i - period + 1..i + 1];
      sma := sma + [Some(Sum(window) / period as real)];
    }
  }

  /** Every average the chart plots lies between the lowest and highest close of its window. */
  lemma SmaWithinWindow(data: Option<seq<Candle>>, period: nat, i: nat)
    requires period >= 1 && i < |SmaSeries(data, period)| && i >= period - 1
    ensures var w := Closes(data.value)[i + 1 - period..i + 1];
      SeqMin(w) <= SmaSeries(data, period)[i].value <= SeqMax(w)
  {
    MeanWithinWindow(Closes(data.value)[i + 1 - period..i + 1]);
  }

  /** `chartConfig`: None exactly when `chart_data` is missing or empty (the view then
      shows its missing-history message). */
  method ComputeChartConfig(chartData: Option<seq<Candle>>) returns (cfg: Option<ChartConfig>)
    ensures cfg.None? <==> chartData.None? || |chartData.value| == 0
    ensures cfg.Some? ==>
      && cfg.value.dates == Dates(chartData.value)
      && cfg.value.sma20 == SmaSeries(chartData, 20)
      && cfg.value.sma50 == SmaSeries(chartData, 50)
      && Range(cfg.value.minPrice, cfg.value.maxPrice)
         == PaddedRange(Last(Closes(chartData.value), ZoomWindow), ZoomLow, ZoomHigh)
  {
    if chartData.None? || |chartData.value| == 0 {
      return None;
    }
    var candles := chartData.value;
    var dates := Dates(candles);
    var sma20 := CalculateSMA(chartData, 20);
    var sma50 := CalculateSMA(chartData, 50);
    var range := PaddedRange(Last(Closes(candles), ZoomWindow), ZoomLow, ZoomHigh);
    cfg := Some(ChartConfig(dates, sma20, sma50, range.low, range.high));
  }

  /** With positive closes, each of the last 60 closes is inside the zoomed range. */
  lemma ZoomedRangeShowsRecentCloses(candles: seq<Candle>, k: nat)
    requires |candles| > 0
    requires forall i :: 0 <= i < |candles| ==> candles[i].close > 0.0
    requires k < |Last(Closes(candles), ZoomWindow)|
    ensures var recent := Last(Closes(candles), ZoomWindow);
      PaddedRange(recent, ZoomLow, ZoomHigh).low <= recent[k] <= PaddedRange(recent, ZoomLow, ZoomHigh).high
  {
    RecentClosesPositive(candles);
    PaddedRangeContains(Last(Closes(candles), ZoomWindow), ZoomLow, ZoomHigh, k);
  }

  lemma RecentClosesPositive(candles: seq<Candle>)
    requires forall i :: 0 <= i < |candles| ==> candles[i].close > 0.0
    ensures forall j :: 0 <= j < |Last(Closes(candles), ZoomWindow)| ==> Last(Closes(candles), ZoomWindow)[j] > 0.0
  {
    var closes := Closes(candles);
    var recent := Last(closes, ZoomWindow);
    forall j | 0 <= j < |recent|
      ensures recent[j] > 0.0
    {
      assert recent[j] == closes[|closes| - |recent| + j];
    }
  }

  /** The regime bar: long gamma strictly above the flip level, short gamma otherwise. */
  function GammaRegime(price: real, gammaFlip: real): (r: Regime)
    ensures r == LongGamma <==> price > gammaFlip
    ensures r == ShortGamma <==> price <= gammaFlip
  {
    if price > gammaFlip then LongGamma else ShortGamma
  }
}
