/** The single-asset page: the client wrapper around the asset endpoint, the page's
    fetch state (`data`, `loading`, `error`), the choice of what to render, the points
    handed to the price chart and the wall reference lines. */
module SingleAsset {
  import opened Common
  import opened Series
  import opened AssetEndpoint

  /** What the browser holds after the request: the endpoint's body, whose `history`
      the page still checks for being present. */
  datatype AssetData = AssetData(
    ticker: string,
    price: real,
    callWall: real,
    putWall: real,
    gammaFlip: real,
    history: Option<seq<HistoryPoint>>)

  /** One point of `chartData`. */
  datatype ChartPoint = ChartPoint(date: string, price: real, sma20: Option<real>, sma50: Option<real>)

  /** The branch the component renders. */
  datatype Screen =
    | Prompt
    | Loading(ticker: string)
    | Failed(message: string)
    | Partial
    | Chart(points: seq<ChartPoint>, callLine: Option<real>, putLine: Option<real>)

  /** The text set in the `catch` of `fetchData`. */
  const LoadError: string := "Error cargando datos. Revisa la consola."

  /** The body the endpoint answers with, as the browser decodes it. */
  function Received(p: AssetPayload): (d: AssetData)
    ensures d.history == Some(p.history)
    ensures d.price == p.price && d.callWall == p.callWall && d.putWall == p.putWall
  {
    AssetData(p.ticker, p.price, p.callWall, p.putWall, p.gammaFlip, Some(p.history))
  }

  /** `getAssetDetails` of the client service: a network failure (`Raised`) and an
      error status both end in the `catch`, which returns null; the call itself never
      throws, so its outcome is always `Fetched`. */
  function ApiGetAssetDetails(call: Fetch<Result<AssetPayload, HttpError>>): (r: Fetch<Option<AssetData>>)
    ensures r.Fetched?
    ensures r.value.None? <==> call.Raised? || call.value.Err?
    ensures r.value.Some? ==> r.value.value == Received(call.value.value)
  {
    match call
    case Raised(_) => Fetched(None)
    case Fetched(Err(_)) => Fetched(None)
    case Fetched(Ok(p)) => Fetched(Some(Received(p)))
  }

  /** `chartData`: the history mapped point by point, `close` becoming `price`. */
  function ChartData(history: seq<HistoryPoint>): (points: seq<ChartPoint>)
    ensures |points| == |history|
    ensures forall i :: 0 <= i < |history| ==>
      points[i] == ChartPoint(history[i].date, history[i].close, history[i].sma20, history[i].sma50)
  {
    seq(|history|, i requires 0 <= i < |history| => ChartPoint(history[i].date, history[i].close, history[i].sma20, history[i].sma50))
  }

  /** A wall gets a reference line only when it is positive (`data.call_wall > 0 && …`). */
  function WallLine(wall: real): (line: Option<real>)
    ensures line.Some? <==> wall > 0.0
    ensures line.Some? ==> line.value == wall
  {
    if wall > 0.0 then Some(wall) else None
  }

  /** Whether the partial-data warning replaces the chart: no body, no history, or an
      empty one. */
  predicate MissingHistory(data: Option<AssetData>) {
    data.None? || data.value.history.None? || |data.value.history.value| == 0
  }

  /** The render branches, tried in the component's order. */
  function Render(ticker: string, loading: bool, error: Option<string>, data: Option<AssetData>): (s: Screen)
    ensures s.Prompt? <==> ticker == ""
    ensures s.Loading? <==> ticker != "" && loading
    ensures s.Failed? <==> ticker != "" && !loading && error.Some?
    ensures s.Partial? <==> ticker != "" && !loading && error.None? && MissingHistory(data)
    ensures s.Chart? ==> |s.points| == |data.value.history.value| > 0
    ensures s.Chart? ==> var d := data.value;
      s == Chart(ChartData(d.history.value), WallLine(d.callWall), WallLine(d.putWall))
  {
    if ticker == "" then Prompt
    else if loading then Loading(ticker)
    else if error.Some? then Failed(error.value)
    else if MissingHistory(data) then Partial
    else Chart(ChartData(data.value.history.value), WallLine(data.value.callWall), WallLine(data.value.putWall))
  }

  /** The component's state cells. */
  class SingleAssetView {
    var ticker: string
    var data: Option<AssetData>
    var loading: bool
    var error: Option<string>

    /** While a request is in flight no error is shown, and the only error text is
        the `catch`'s. */
    ghost predicate Valid()
      reads this
    {
      && (loading ==> error.None?)
      && (error.Some? ==> error.value == LoadError)
    }

    /** The first render, before the effect runs. */
    constructor (ticker: string)
      ensures this.ticker == ticker
      ensures data.None? && !loading && error.None?
      ensures Valid()
    {
      this.ticker := ticker;
      data := None;
      loading := false;
      error := None;
    }

    /** The effect on `[ticker]`: with an empty ticker it returns at once; otherwise
        `fetchData` sets loading and clears the error before awaiting the request. */
    method RunEffect() returns (requested: bool)
      requires Valid()
      modifies this
      ensures Valid()
      ensures requested <==> ticker != ""
      ensures ticker == old(ticker) && data == old(data)
      ensures requested ==> loading && error.None?
      ensures !requested ==> loading == old(loading) && error == old(error)
    {
      if ticker == "" {
        return false;
      }
      loading := true;
      error := None;
      requested := true;
    }

    /** A new `ticker` prop: the effect runs again; the previous data stays until the
        new request settles. */
    method ChangeTicker(t: string) returns (requested: bool)
      requires Valid()
      modifies this
      ensures Valid()
      ensures ticker == t && data == old(data)
      ensures requested <==> t != ""
      ensures requested ==> loading && error.None?
      ensures !requested ==> loading == old(loading) && error == old(error)
    {
      ticker := t;
      requested := RunEffect();
    }

    /** The awaited request settles: its value (possibly null) becomes `data`, a throw
        sets the error text instead, and `finally` ends loading either way. */
    method Settle(outcome: Fetch<Option<AssetData>>)
      requires Valid() && loading
      modifies this
      ensures Valid()
      ensures !loading && ticker == old(ticker)
      ensures outcome.Fetched? ==> data == outcome.value && error.None?
      ensures outcome.Raised? ==> data == old(data) && error == Some(LoadError)
    {
      if outcome.Fetched? {
        data := outcome.value;
      } else {
        error := Some(LoadError);
      }
      loading := false;
    }
  }

  /** Opening the page on `ticker` with the endpoint answering `call`. Since the client
      service never throws, a failed request never reaches the error branch: it ends in
      the partial-data warning, as does a body with an empty history. A successful body
      with history is charted point for point. */
  method OpenAsset(ticker: string, call: Fetch<Result<AssetPayload, HttpError>>) returns (screen: Screen)
    ensures ticker == "" ==> screen == Prompt
    ensures ticker != "" && (call.Raised? || call.value.Err?) ==> screen == Partial
    ensures ticker != "" && call.Fetched? && call.value.Ok? ==> var p := call.value.value;
      && (|p.history| == 0 ==> screen == Partial)
      && (|p.history| > 0 ==> screen == Chart(ChartData(p.history), WallLine(p.callWall), WallLine(p.putWall)))
    ensures !screen.Failed? && !screen.Loading?
  {
    var view := new SingleAssetView(ticker);
    var requested := view.RunEffect();
    if requested {
      view.Settle(ApiGetAssetDetails(call));
    }
    screen := Render(view.ticker, view.loading, view.error, view.data);
  }

  /** The chart plots the endpoint's closes and its rolling means: point `i` of a
      history built from `bars` carries close `i` and the 20- and 50-bar averages
      ending there. */
  lemma ChartPlotsBackendHistory(bars: seq<Bar>, history: seq<HistoryPoint>, i: nat)
    requires |history| == |bars|
    requires forall j :: 0 <= j < |bars| ==> history[j] == HistoryRow(bars, j)
    requires i < |bars|
    ensures var pt := ChartData(history)[i];
      && pt.date == bars[i].date
      && pt.price == bars[i].close
      && (pt.sma20.Some? <==> i >= 19)
      && (pt.sma20.Some? ==> pt.sma20.value == Mean(Closes(bars)[i - 19..i + 1]))
      && (pt.sma50.Some? <==> i >= 49)
  {
    assert history[i] == HistoryRow(bars, i);
  }

  /** The endpoint's price-not-found error, which `GetAssetDetails` answers for a zero
      spot price, reaches the page as null, so the page shows the partial-data warning
      rather than the error text. */
  lemma ZeroPriceShowsPartial(ticker: string)
    requires ticker != ""
    ensures Render(ticker, false, None,
                   ApiGetAssetDetails(Fetched(Err(HttpError(InternalError, PriceNotFound)))).value)
            == Partial
  {
  }

  /** Walls reported as 0, as the endpoint does when the option chain cannot be
      fetched, draw no reference line. */
  lemma NoChainNoWallLines(ticker: string, p: AssetPayload)
    requires ticker != ""
    requires p.callWall == 0.0 && p.putWall == 0.0
    requires |p.history| > 0
    ensures var s := Render(ticker, false, None, Some(Received(p)));
      s.Chart? && s.callLine.None? && s.putLine.None?
  {
  }

  /** The page opened on `ticker` against the endpoint itself, with the provider's
      answers for the spot price, the history and the option chain: a zero spot price
      ends in the partial-data warning, and a chart without an option chain draws no
      wall line. */
  method ViewAsset(ticker: string, spot: Fetch<SpotData>, history: Fetch<seq<Bar>>,
                   options: Fetch<seq<ListedContract>>)
    returns (screen: Screen)
    ensures ticker == "" ==> screen == Prompt
    ensures ticker != "" && spot.Fetched? && SpotPrice(spot.value) == Ok(0.0) ==> screen == Partial
    ensures ticker != "" && (spot.Raised? || SpotPrice(spot.value).Err? || history.Raised?) ==> screen == Partial
    ensures ticker != "" && spot.Fetched? && SpotPrice(spot.value).Ok? && SpotPrice(spot.value).value != 0.0
              && history.Fetched? && |history.value| > 0 && options.Raised?
            ==> screen.Chart? && screen.callLine.None? && screen.putLine.None?
    ensures ticker != "" && spot.Fetched? && SpotPrice(spot.value).Ok? && SpotPrice(spot.value).value != 0.0
              && history.Fetched? && |history.value| > 0
            ==> && screen.Chart? && |screen.points| == |history.value|
                && forall i :: 0 <= i < |history.value| ==>
                     screen.points[i].date == history.value[i].date && screen.points[i].price == history.value[i].close
  {
    var answer := GetAssetDetails(ticker, spot, history, options);
    screen := OpenAsset(ticker, Fetched(answer));
  }
}
