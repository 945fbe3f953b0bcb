# QuantDesk-Web: a Dafny model of the scanner, the asset endpoint and the views

QuantDesk-Web is an options-analytics dashboard with two parts:

- a FastAPI backend. `routes.py` keeps an in-memory table of scan jobs, starts market scans, reports their status and serves one asset's price history and gamma-exposure (GEX) profile. `services/screener.py` scans the S&P 500 universe and computes, for each ticker, distances to its moving averages, the variance risk premium (VRP) and the call and put walls.
- a React frontend. The screener page starts a scan and polls it. The playbook turns the scan's rows into long and short strategy cards. The single-asset page charts one ticker. The dashboard's market overview charts SPY. `AssetDashboard.jsx` computes moving averages, a zoomed price range and the gamma regime.

The model is split into one Dafny module per concern.

- `Common`: shared values. Optional and result values; IEEE floats as `Finite`/`NaN`/`±Inf`; JavaScript numbers with their `|| 0` truthiness; the screener row as the browser receives it; ASCII lowercasing; order-preserving filtering.
- `Series`: sums, means, trailing means (pandas `rolling(n).mean()` and the client's `calculateSMA`), minimum and maximum, `slice(-n)`, and the padded y-range of a chart.
- `Chain`: the wall of an option chain. This is the strike of the first contract with the largest open interest (`idxmax`).
- `JsonValues`: the JSON values the backend produces and `sanitize_json`.
- `TaskTable`: the `tasks` dictionary, `update_task_status` and the scanner start and status endpoints. `TaskStore` is a class whose methods update the table in place.
- `AssetEndpoint`: `get_asset_details`. It covers the spot price guard, the history with its 20- and 50-bar means, the strike grid (unique, within ±30% of spot, ascending, halved above 50 strikes), the per-strike net open interest and the walls.
- `ScanDriver`: `analyze_single_ticker` and `scan_market`. It covers candidate selection by sector, the `[:num_tickers]` prefix, the per-ticker analysis, the progress reports every fifth completion, results gathered in completion order, and the final or failed job entry.
- `AssetDashboard`: `calculateSMA` (a loop, modelled as a method), the chart configuration with its 60-bar zoom, and the gamma regime.
- `ScreenerView`: the screener page. `ScreenerPage` is a class whose fields are the page's state cells. Its methods are `handleScan`, one polling tick, the effect cleanup and the filter setters. The module also holds `parseInt` of the slider values and the table's colour and sign rules.
- `Playbook`: the strategy card's defaults and rules, and the two ranked columns. Each column is a stable sort by VRP, ascending for longs and descending for shorts, cut to six.
- `SingleAsset`: the client's `getAssetDetails`, the page's state cells, its render branches, the chart points and the wall reference lines.
- `MarketOverview`: the dashboard's SPY chart. It keeps the last 90 closes and pads the y-domain by 1%.

The data provider, the network, the clock, the thread pool and the realized-volatility computation are outside the model. Their results are parameters of the operations that use them. For example, `Fetch<T>` is either the value a call produced or the exception it raised. Completion order is the order of the sequence handed to `ScanMarket`.

Where the code and its documentation disagree, the model follows the code:

- a zero spot price does not answer 404. The `HTTPException(404)` raised inside the `try` is caught by the endpoint's own `except Exception` and re-raised as a 500;
- `calculateSMA` returns an empty array when there are fewer bars than the period, not an array of nulls;
- the screener's progress bar ignores the progress the server reports. Each answered poll adds 5 to it, capped at 95;
- the single-asset page's error branch is unreachable for a failed request, because the client service catches the failure and returns null. The page shows the partial-data warning instead.

## Model

| member | source | states |
|---|---|---|
| Common.Filter | backend/app/services/screener.py:109-112 | The result counts each item exactly as often as the input does when `keep` accepts it, and never otherwise. A one-item input is kept exactly when accepted. |
| Common.FilterAppend | frontend/src/components/Playbook.jsx:105 | Filtering a concatenation is the concatenation of the filtered parts, so the input's order is kept. |
| JsonValues.Sanitize | backend/app/routes.py:13-21 | Lists and dicts keep their length, order and keys, and each item or value is itself sanitized, so a NaN nested anywhere becomes 0.0. Finite floats are unchanged. NaN and ±Inf become 0.0. numpy ints become ints and timestamps become date strings. Everything else is unchanged. |
| JsonValues.SanitizeIsClean | backend/app/routes.py:13-21 | The output of `sanitize_json` has no NaN or infinite float, no numpy int and no timestamp. |
| JsonValues.SanitizeKeepsClean | backend/app/routes.py:13-21 | A value that is already clean passes through `sanitize_json` unchanged. |
| JsonValues.SanitizeIdempotent | backend/app/routes.py:13-21 | Sanitizing twice is the same as sanitizing once. |
| TaskTable.Updated | backend/app/routes.py:31-36 | The job exists afterwards with the new status. Each given progress, data (sanitized) or error replaces the old field. Each omitted one keeps the old value, or is absent for a new job. Every other job is unchanged. |
| TaskTable.UpdateTwiceIsOnce | backend/app/routes.py:31-36 | Repeating the same status update changes nothing more. |
| TaskTable.UpdatesOfDistinctJobsCommute | backend/app/routes.py:31-36 | Status updates of two different jobs can be applied in either order with the same table. |
| TaskTable.TaskStore.UpdateTaskStatus | backend/app/routes.py:31-36 | The table becomes `Updated` of the old table. |
| TaskTable.TaskStore.StartScanner | backend/app/routes.py:38-45 | The job is registered as pending with progress 0 and empty data, and its id is returned. A fresh id adds exactly one job. |
| TaskTable.TaskStore.GetScannerStatus | backend/app/routes.py:47-50 | 404 exactly when the id is unknown. Otherwise the stored entry is returned. |
| TaskTable.StartThenPoll | backend/app/routes.py:38-50 | Polling a just-started job answers the pending entry. Other jobs answer as before. |
| Chain.FirstMaxIndex | backend/app/services/screener.py:59-67 | The index holds the largest value, and every earlier value is strictly smaller (`idxmax` takes the first maximum). |
| AssetEndpoint.OfSide | backend/app/routes.py:81-82 | The contracts of one side are exactly those the chain lists with that type. The selection is the chain filtered by the side's mask (`Filter`). |
| AssetEndpoint.OfSideCounts | backend/app/routes.py:81-82 | Each contract appears on its side as often as the chain lists it there. |
| AssetEndpoint.OfSideKeepsOrder | backend/app/routes.py:81-84 | Selecting a side keeps the chain's order, on which the first-maximum tie-break of the wall depends. |
| Chain.Wall | backend/app/routes.py:83-84 | 0 for an empty side. Otherwise the strike of the first contract whose open interest is maximal. |
| Chain.WallStableUnderSmallerAppend | backend/app/services/screener.py:59-67 | Appending contracts whose open interest stays below the current maximum leaves the wall unchanged. |
| AssetEndpoint.SpotPrice | backend/app/routes.py:55-57 | A dict gives its `price` or 0.0. A scalar gives itself. A value `float()` rejects is an error. |
| AssetEndpoint.HistoryRow | backend/app/routes.py:61-74 | Each history row carries the bar's date and close. `sma20` is present exactly from bar 19 on and equals the mean of the last 20 closes. `sma50` is likewise present from bar 49 and is the mean of the last 50. |
| AssetEndpoint.BuildHistory | backend/app/routes.py:67-74 | The loop returns one row per bar, each equal to `HistoryRow`. |
| AssetEndpoint.Unique | backend/app/routes.py:86 | No duplicates, and the same members as the input. |
| AssetEndpoint.KeepInBand | backend/app/routes.py:87 | Exactly the strikes within 0.7 to 1.3 times spot, and duplicates stay excluded. |
| AssetEndpoint.SortAscending | backend/app/routes.py:88 | A permutation of its input, in ascending order. |
| AssetEndpoint.SortedDistinctIncreasing | backend/app/routes.py:86-88 | Sorting distinct strikes yields a strictly increasing grid. |
| AssetEndpoint.Decimate | backend/app/routes.py:89 | Up to 50 strikes are kept as they are. Above that, every other strike is kept, starting with the first. |
| AssetEndpoint.ProfileStrikesShape | backend/app/routes.py:86-89 | The GEX strike grid is strictly increasing. Every grid strike is a listed strike within the band. When at most 50 strikes are in the band, the grid is exactly those strikes. |
| AssetEndpoint.UnlistedStrikeIsFlat | backend/app/routes.py:90-93 | A strike with no listed contract has zero open interest on either side. |
| AssetEndpoint.BuildGexProfile | backend/app/routes.py:90-93 | One point per grid strike, carrying call open interest minus put open interest at that strike. |
| AssetEndpoint.OptionsSummary | backend/app/routes.py:77-94 | With no chain, both walls are 0 and the profile is empty. Otherwise the walls are the per-side `Wall`s and the profile covers the grid point by point. |
| AssetEndpoint.GetAssetDetails | backend/app/routes.py:52-103 | Every failure answers 500 with the exception text, including a zero price ("404: Price not found"). The endpoint succeeds exactly when the spot is usable and non-zero and the history was fetched. On success it returns the price, the history rows, the walls, the profile point by point (grid strike and net open interest) and a gamma flip equal to the price. |
| AssetEndpoint.PayloadSurvivesSanitize | backend/app/routes.py:96-100 | The endpoint's response body is already clean, so the final `sanitize_json` returns it unchanged. |
| ScanDriver.Target | backend/app/services/screener.py:107 | An empty sector targets "todos". Otherwise the target is the sector in lower case. |
| ScanDriver.Matching | backend/app/services/screener.py:109-112 | The kept items are exactly the universe's items whose lowercased sector equals the target, or all items when the target is "todos" or "all", each kept as often as it is listed. |
| ScanDriver.MatchingKeepsOrder | backend/app/services/screener.py:109-112 | The filter keeps listing order: filtering a split listing gives the kept items of the first part, then those of the second. A single item is kept exactly when the filter accepts it. |
| ScanDriver.NoSectorKeepsAll | backend/app/services/screener.py:111 | The targets "todos" and "all" keep the whole universe in order. |
| ScanDriver.SectorCaseInsensitive | backend/app/services/screener.py:107-112 | Candidate selection does not depend on the case of the requested sector. |
| ScanDriver.SelectCandidates | backend/app/services/screener.py:109-112 | The filtering loop computes `Matching` of the target. |
| ScanDriver.PyPrefix | backend/app/services/screener.py:114 | Python's `[:n]`: the first n items, or all but the last -n items for a negative n. |
| ScanDriver.CandidatesBounded | backend/app/services/screener.py:107-115 | At most `num_tickers` candidates, each from the universe and matching the sector. |
| ScanDriver.AtmCalls | backend/app/services/screener.py:48-49 | The calls strictly within 5% of spot, each as often as the chain lists it. |
| ScanDriver.ImpliedVol | backend/app/services/screener.py:48-54 | The mean IV (times 100) of the calls within 5% of spot. Without such calls, the mean over all calls. NaN exactly when the chain has no calls. |
| ScanDriver.OptionFields | backend/app/services/screener.py:38-71 | Without a chain the option fields are zero. Otherwise IV, VRP = IV − RV, the walls and the percentage distances to them (0 at a zero price). |
| ScanDriver.DistanceSign | backend/app/services/screener.py:83-84 | With a positive SMA, the distance is positive, negative or zero exactly as the price is above, below or at the SMA. |
| ScanDriver.AnalyzeSingleTicker | backend/app/services/screener.py:9-96 | None exactly when the history fails or has fewer than 50 closes. Otherwise the row holds the last close, the 20- and 50-close means, the distances and the option fields. |
| ScanDriver.AnalysisAveragesInRange | backend/app/services/screener.py:25-27 | Both moving averages of a row lie between the lowest and highest of their closes. |
| ScanDriver.ResultsJson | backend/app/services/screener.py:142 | A list whose item i is the JSON dict of result i. |
| ScanDriver.ScrubAnalysis | backend/app/routes.py:35 | Storing a result row leaves every entry as is, except that a non-finite IV, VRP or RV becomes 0.0. |
| ScanDriver.ProgressAt | backend/app/services/screener.py:128-129 | The reported progress lies in 0..90, and it is 90 when every candidate has completed. |
| ScanDriver.ProgressMonotone | backend/app/services/screener.py:128-129 | Progress never decreases as completions grow. |
| ScanDriver.NothingReportedEarly | backend/app/services/screener.py:127-130 | Before the fifth completion the job table is untouched. |
| ScanDriver.ReportsTouchOnlyTheJob | backend/app/services/screener.py:127-130 | Progress reports change only the scan's own job entry. |
| ScanDriver.ReportedEntry | backend/app/services/screener.py:127-130 | From the fifth completion on, the job is "running" with progress `int(completed/total*90)` at the last multiple of 5 reached, with its data and error kept. |
| ScanDriver.PresentCounts | backend/app/services/screener.py:131 | Every analysis occurs among the kept results as often as it was returned. |
| ScanDriver.ResultsIndependentOfOrder | backend/app/services/screener.py:124-132 | Any two completion orders of the same analyses give the same multiset of results. |
| ScanDriver.ScanMarket | backend/app/services/screener.py:98-148 | If the universe cannot be fetched, the job is marked failed with the exception text. Otherwise the results are the non-empty analyses in completion order, form the same multiset as the analyses, and the job is "completed" with those results after the progress reports. |
| ScanDriver.CompletedEntry | backend/app/services/screener.py:142 | A finished scan's entry has status "completed", the sanitized results and no error, and progress 0 (still the pending value) with fewer than 5 candidates or 90 when the count is a multiple of 5. |
| AssetDashboard.SmaSeries | frontend/src/components/AssetDashboard.jsx:7-20 | Empty when there are fewer bars than the period. Otherwise one entry per bar: null for the first period−1 bars, then the mean of the last `period` closes. |
| AssetDashboard.CalculateSMA | frontend/src/components/AssetDashboard.jsx:7-20 | The loop returns `SmaSeries`. |
| AssetDashboard.SmaWithinWindow | frontend/src/components/AssetDashboard.jsx:7-20 | Every moving-average value lies between the lowest and highest close of its window. |
| AssetDashboard.ComputeChartConfig | frontend/src/components/AssetDashboard.jsx:26-40 | No configuration exactly when the data is missing or empty. Otherwise it holds the dates, both moving averages and the range 0.95 × min to 1.05 × max of the last 60 closes. |
| AssetDashboard.RecentClosesPositive | frontend/src/components/AssetDashboard.jsx:35-37 | With positive prices, the last 60 closes that the zoom uses are positive. |
| AssetDashboard.ZoomedRangeShowsRecentCloses | frontend/src/components/AssetDashboard.jsx:35-37 | With positive prices, every one of the last 60 closes lies inside the zoomed range. |
| AssetDashboard.GammaRegime | frontend/src/components/AssetDashboard.jsx:114-119 | Long gamma exactly when the price is above the flip; short gamma otherwise. |
| ScreenerView.ParseInt | frontend/src/components/Screener.jsx:41-42 | A number slider value parses to itself. A text value fails exactly when it does not start with a digit. |
| ScreenerView.ShowNatValue | frontend/src/components/Screener.jsx:41-42 | Reading back the decimal text of n gives n. |
| ScreenerView.ParseIntReadsSlider | frontend/src/components/Screener.jsx:41-42 | `parseInt` recovers the slider's number, whether the slider hands over the number or its text. |
| ScreenerView.NextProgress | frontend/src/components/Screener.jsx:60 | One answered poll adds 5, capped at 95, and never lowers a value at or below 95. |
| ScreenerView.ProgressAfterClosedForm | frontend/src/components/Screener.jsx:60 | After k answered polls, the bar shows min(start + 5k, 95). |
| ScreenerView.ScreenerPage.constructor | frontend/src/components/Screener.jsx:20-30 | The initial state: not loading, no job, the given initial results or none, progress 0, sector "Todos", DTE 45, lookback 30. |
| ScreenerView.ScreenerPage.SetFilters | frontend/src/components/Screener.jsx:27-29 | Changing the filters changes nothing else. |
| ScreenerView.ScreenerPage.HandleScan | frontend/src/components/Screener.jsx:32-52 | Sends the sector, 50 tickers and the parsed sliders. Clears the results and shows 5%. A throw stops loading. An answer with a task id starts polling that job; an answer without one leaves the page loading. |
| ScreenerView.ScreenerPage.Tick | frontend/src/components/Screener.jsx:54-80 | A failed or empty poll changes nothing. A completed job delivers its data to the page and the parent and stops at 100%. A failed job stops polling. Any other status advances the bar. |
| ScreenerView.ScreenerPage.Unmount | frontend/src/components/Screener.jsx:82 | The cleanup clears the interval and changes no other state. |
| ScreenerView.ScanToCompletion | frontend/src/components/Screener.jsx:54-80 | Polling a started job until it completes shows its data at 100%, no longer loading, and hands the data to the parent once. |
| ScreenerView.GetColorClass | frontend/src/components/Screener.jsx:86-91 | Green exactly for a positive number, red exactly for a negative one, gray for a missing value or zero. |
| ScreenerView.SignAgreesWithColor | frontend/src/components/Screener.jsx:218-223 | The "+" sign appears exactly on green cells. A missing value shows 0 in gray without a sign. |
| ScreenerView.VrpBadge | frontend/src/components/Screener.jsx:228-232 | The VRP badge is green exactly for a negative VRP and red otherwise, even when the VRP is missing. |
| ScreenerView.DefaultScanTakesFirstFifty | frontend/src/components/Screener.jsx:27-43 | A scan with the default filters analyses the first 50 tickers of the universe. |
| Playbook.ImpliedSma | frontend/src/components/Playbook.jsx:7-8 | A missing or zero distance gives the price itself. A distance of −100% divides by zero. Any other distance d gives price / (1 + d/100). |
| Playbook.ImpliedSmaInvertsDistance | frontend/src/components/Playbook.jsx:7-8 | Reconstructing the SMA from the distance the scanner reported gives back the SMA. |
| Playbook.Defaults | frontend/src/components/Playbook.jsx:6-14 | Every card input is the row's value or 0. The SMAs are reconstructed from the distances. |
| Playbook.LongSpot | frontend/src/components/Playbook.jsx:21-36 | Each long spot strategy is chosen exactly under its own condition: breakout near the call wall, momentum above SMA20, dip above SMA50, or value watch. |
| Playbook.ShortSpot | frontend/src/components/Playbook.jsx:37-49 | Each short spot strategy is chosen exactly under its own condition: breakdown within 2% of the put wall, otherwise mean reversion when the price is extended above 1.05 × SMA20, otherwise fade the rally. |
| Playbook.Options | frontend/src/components/Playbook.jsx:21-49 | Long side: straddle exactly when VRP < −5, otherwise a bull call spread. Short side: iron condor exactly when VRP > 5, otherwise a put debit spread. |
| Playbook.StrategyCard | frontend/src/components/Playbook.jsx:4-50 | A card uses the row's defaults. Its spot strategy is `LongSpot` (long) or `ShortSpot` (short) of those defaults, and its option strategy is `Options` of its side and VRP, so each is exactly the one the conditions select. It watches the call wall (long) or the put wall (short). |
| Playbook.FlatRowIsNoTrend | frontend/src/components/Playbook.jsx:6-36 | A row without SMA distances never yields momentum or dip buying. |
| Playbook.ValidData | frontend/src/components/Playbook.jsx:105 | Exactly the rows with a VRP, each kept as often as given. |
| Playbook.ValidDataKeepsOrder | frontend/src/components/Playbook.jsx:105 | The filter keeps the scan's order, on which the stable sort's ties depend: filtering two batches gives the valid rows of the first, then those of the second. |
| Playbook.InsertAfterEqual | frontend/src/components/Playbook.jsx:106-107 | Inserting adds exactly the new row. |
| Playbook.InsertKeepsSorted | frontend/src/components/Playbook.jsx:106-107 | Inserting into a sorted column keeps it sorted. |
| Playbook.InsertIsStable | frontend/src/components/Playbook.jsx:106-107 | The new row goes after every row with an equal key. |
| Playbook.SortBy | frontend/src/components/Playbook.jsx:106-107 | A permutation, sorted by VRP (missing counting as 0), ascending or descending. |
| Playbook.SortIsStable | frontend/src/components/Playbook.jsx:106-107 | Rows with equal keys keep their input order (`Array.prototype.sort` is stable). |
| Playbook.Take | frontend/src/components/Playbook.jsx:106-107 | `slice(0, n)`: the first min(n, length) rows. |
| Playbook.Playbook | frontend/src/components/Playbook.jsx:94-107 | The placeholder shows exactly when there is no data or it is empty. Otherwise the columns are the top six longs and shorts of the valid rows. |
| Playbook.ColumnComesFromValidData | frontend/src/components/Playbook.jsx:105-107 | Every card in a column is a distinct row with a VRP. |
| Playbook.ColumnIsTopSix | frontend/src/components/Playbook.jsx:105-107 | A valid row ranked strictly better than some card of its column is itself in that column. |
| SingleAsset.ApiGetAssetDetails | frontend/src/services/api.js:8-16 | The client call never throws. It returns null exactly when the request failed or answered an error, and otherwise the decoded body. |
| SingleAsset.ChartData | frontend/src/components/SingleAsset.jsx:51-56 | One chart point per history row: the same date, close as price, and the same moving averages. |
| SingleAsset.WallLine | frontend/src/components/SingleAsset.jsx:87-92 | A wall gets a reference line exactly when it is positive. |
| SingleAsset.Render | frontend/src/components/SingleAsset.jsx:33-48 | The prompt shows exactly without a ticker. Then, in order: loading, the error, the partial-data warning for a missing or empty history, and the chart of that history with its positive walls as reference lines. |
| SingleAsset.SingleAssetView.constructor | frontend/src/components/SingleAsset.jsx:6-9 | The page starts with no data, not loading and no error. |
| SingleAsset.SingleAssetView.RunEffect | frontend/src/components/SingleAsset.jsx:11-16 | A request is made exactly when there is a ticker. It sets loading and clears the error. |
| SingleAsset.SingleAssetView.ChangeTicker | frontend/src/components/SingleAsset.jsx:11-31 | A new ticker re-runs the effect and keeps the old data until the request settles. |
| SingleAsset.SingleAssetView.Settle | frontend/src/components/SingleAsset.jsx:17-27 | The answer (even null) becomes the data. A throw sets the fixed error text instead. Loading ends either way. |
| SingleAsset.OpenAsset | frontend/src/components/SingleAsset.jsx:11-56 | Without a ticker the page shows the prompt. A failed request or an empty history shows the partial-data warning, and never the error text. Otherwise the page charts the history point for point with the positive walls. |
| SingleAsset.ChartPlotsBackendHistory | frontend/src/components/SingleAsset.jsx:51-56 | Point i of the chart carries bar i's date and close. Its SMA20 is present from bar 19 on and equals the mean of the last 20 closes. |
| SingleAsset.ZeroPriceShowsPartial | frontend/src/components/SingleAsset.jsx:42-48 | The endpoint's price-not-found 500, the answer for a zero spot price, reaches the page as null and shows the partial-data warning. |
| SingleAsset.NoChainNoWallLines | frontend/src/components/SingleAsset.jsx:87-92 | Walls reported as 0 (no option chain) draw no reference lines. |
| SingleAsset.ViewAsset | frontend/src/components/SingleAsset.jsx:11-56 | The page opened against `GetAssetDetails` itself. A zero spot price, a spot lookup that fails or a history that cannot be fetched shows the partial-data warning. A chart without an option chain draws no wall line. Otherwise every history bar is plotted with its date and close. |
| MarketOverview.Recent | frontend/src/components/Dashboard.jsx:26-30 | The last min(n, 90) history entries in order, each reduced to its date and close. |
| MarketOverview.Render | frontend/src/components/Dashboard.jsx:38-42 | Loading exactly while loading. Then the notice exactly for empty data. Otherwise the chart of the data with the domain 0.99 × min to 1.01 × max. |
| MarketOverview.OverviewChart.Settle | frontend/src/components/Dashboard.jsx:22-36 | A body with a history replaces the data by its last 90 points. A null body or a throw keeps the data. Loading ends either way. |
| MarketOverview.Overview | frontend/src/components/Dashboard.jsx:18-42 | A failed request or an empty history shows the notice. Otherwise the chart shows the last up-to-90 points. |
| MarketOverview.DomainContainsCloses | frontend/src/components/Dashboard.jsx:41-42 | With positive closes, every plotted close lies inside the y-domain. |

## Left out

- Floating point: prices and means are exact reals. Rounding, `toFixed(2)` formatting and NaN closes from the provider are not modelled. Only NaN and ±Inf from empty means, a zero division or the realized volatility are kept (`Float`).
- ScanDriver.ProgressAt: uses exact rational division where Python computes `int(completed/total*90)` in binary floating point; the two can differ by one at exact multiples.
- The realized volatility (`np.log`, standard deviation, `sqrt(252)`) is a parameter of the scan, not computed.
- Date formatting (`strftime`, `toLocaleDateString`): dates are the strings the provider gives.
- The data provider (yfinance), the S&P 500 list, the option-chain download and HTTP transport are parameters (`Fetch` outcomes). A falsy but non-empty `get_options_chain` result is treated like an empty one.
- Concurrency: the thread pool is modelled by the completion order of the analyses. The polling interval's timing, stale in-flight polls after unmount and overlapping requests on the single-asset page are not modelled. Each polling tick is taken as atomic: two overlapping in-flight polls that both saw "completed" would each call `onScanComplete`, which `ScanToCompletion`'s single delivery does not cover.
- `console.log`, `print`, `traceback` and `alert` are side effects without state and are dropped.
- ScreenerView.ParseInt: reads a decimal prefix without leading whitespace or a sign, since the sliders only produce non-negative integers.
- Common.Lower: lowercases ASCII letters only; Python's `str.lower` also folds non-ASCII letters.
- A universe item whose `Sector` key holds `None` (Python's `str(None)`) is not distinguished from a missing sector.
- AssetDashboard.CalculateSMA: requires a period of at least 1; the code is only called with 20 and 50.
- The page markup, icons, Tailwind classes and chart styling (JSX) are not modelled; only the data each branch shows is.
- `AssetDashboard.jsx` is not rendered by the application's `App.jsx`. It is modelled as written.
- The `task_id` is a parameter, not a generated UUID. Ids are assumed fresh when a scan starts.
- `main.py`, `engine.py`, `quant_engine.py`, `schemas.py` and the data-provider implementation are not part of this model.
