/** The dashboard's market overview: the SPY area chart fed by the asset endpoint,
    showing the last 90 closes on a y-domain padded by 1% each way. */
module MarketOverview {
  import opened Common
  import opened Series
  import opened AssetEndpoint
  import SingleAsset

  /** One point of the area chart. */
  type Point = DatedClose

  /** What the chart component renders. */
  datatype Screen =
    | Loading
    | Unavailable
    | Chart(points: seq<Point>, low: real, high: real)

  /** The overview keeps this many trailing points. */
  const Window: nat := 90
  const DomainLow: real := 0.99
  const DomainHigh: real := 1.01

  /** `res.history.map(d => ({date, close})).slice(-90)`: the last up-to-90 entries,
      in order. */
  function Recent(history: seq<HistoryPoint>): (points: seq<Point>)
    ensures |points| == if |history| < Window then |history| else Window
    ensures forall k :: 0 <= k < |points| ==>
      points[k] == DatedClose(history[|history| - |points| + k].date, history[|history| - |points| + k].close)
  {
    Last(seq(|history|, i requires 0 <= i < |history| => DatedClose(history[i].date, history[i].close)), Window)
  }

  /** The render branches: loading first, then the empty-data notice, then the chart
      with its domain [0.99 * min, 1.01 * max]. */
  function Render(loading: bool, data: seq<Point>): (s: Screen)
    ensures s.Loading? <==> loading
    ensures s.Unavailable? <==> !loading && |data| == 0
    ensures s.Chart? ==>
      && s.points == data && |data| > 0
      && Range(s.low, s.high) == PaddedRange(Closes(data), DomainLow, DomainHigh)
  {
    if loading then Loading
    else if |data| == 0 then Unavailable
    else
      var range := PaddedRange(Closes(data), DomainLow, DomainHigh);
      Chart(data, range.low, range.high)
  }

  /** `MarketOverviewChart`'s state cells. */
  class OverviewChart {
    var data: seq<Point>
    var loading: bool

    ghost predicate Valid()
      reads this
    {
      |data| <= Window
    }

    /** The first render: no data, loading. */
    constructor ()
      ensures data == [] && loading
      ensures Valid()
    {
      data := [];
      loading := true;
    }

    /** The request for SPY settles. A body with `history` (even an empty one, since
        an array is truthy) replaces the data by its last 90 points; a null body or a
        throw leaves the data as it was; `finally` ends loading. */
    method Settle(outcome: Fetch<Option<SingleAsset.AssetData>>)
      requires Valid() && loading
      modifies this
      ensures Valid()
      ensures !loading
      ensures outcome.Fetched? && outcome.value.Some? && outcome.value.value.history.Some? ==>
        data == Recent(outcome.value.value.history.value)
      ensures !(outcome.Fetched? && outcome.value.Some? && outcome.value.value.history.Some?) ==>
        data == old(data)
    {
      if outcome.Fetched? && outcome.value.Some? && outcome.value.value.history.Some? {
        data := Recent(outcome.value.value.history.value);
      }
      loading := false;
    }
  }

  /** Mounting the overview with the endpoint answering `call`: a failed request shows
      the notice, and so does an empty history; otherwise the chart shows
      min(|history|, 90) points ending with the latest one. */
  method Overview(call: Fetch<Result<AssetPayload, HttpError>>) returns (screen: Screen)
    ensures call.Raised? || call.value.Err? ==> screen == Unavailable
    ensures call.Fetched? && call.value.Ok? ==> var h := call.value.value.history;
      && (|h| == 0 ==> screen == Unavailable)
      && (|h| > 0 ==> screen.Chart? && screen.points == Recent(h))
    ensures screen.Chart? ==> 0 < |screen.points| <= Window
  {
    var chart := new OverviewChart();
    chart.Settle(SingleAsset.ApiGetAssetDetails(call));
    screen := Render(chart.loading, chart.data);
  }

  /** With positive closes, every plotted close lies inside the y-domain. */
  lemma DomainContainsCloses(data: seq<Point>, k: nat)
    requires |data| > 0 && k < |data|
    requires forall j :: 0 <= j < |data| ==> data[j].close > 0.0
    ensures var s := Render(false, data);
      s.Chart? && s.low <= data[k].close <= s.high
  {
    var closes := Closes(data);
    PaddedRangeContains(closes, DomainLow, DomainHigh, k);
  }
}
