/** The background scan: choosing the candidates of a sector, analysing each ticker
    (trend, volatility premium, walls) and reporting progress and results into the
    task table. The market-data provider is a parameter; what is done with what it
    returns is modelled. */
module ScanDriver {
  import opened Common
  import opened Series
  import opened Chain
  import opened JsonValues
  import opened TaskTable

  /** One entry of the index listing. `sector` is None when the record has no
      "Sector" key. */
  datatype Item = Item(ticker: string, sector: Option<string>)

  /** The request body of the start endpoint. */
  datatype ScanConfig = ScanConfig(sector: string, numTickers: int, maxDte: int, lookback: int)

  /** A first-expiry chain: its calls and its puts. */
  datatype OptionChain = OptionChain(calls: seq<Contract>, puts: seq<Contract>)

  /** What the provider gives for one ticker: the closes of six months of history
      (or the exception it raised) and the chain (None when falsy). */
  datatype Quotes = Quotes(closes: Fetch<seq<real>>, chain: Option<OptionChain>)

  /** One analysed ticker, as `analyze_single_ticker` returns it. */
  datatype Analysis = Analysis(
    ticker: string,
    sector: Option<string>,
    price: real,
    sma20: real,
    sma50: real,
    distSma20: real,
    distSma50: real,
    vrp: Float,
    iv: Float,
    rv: Float,
    callWall: real,
    putWall: real,
    distCallWall: real,
    distPutWall: real)

  /** A ticker needs this many closes to be analysed. */
  const MinCloses: nat := 50

  /** Progress is reported after every fifth completion, scaled to at most 90. */
  const ReportEvery: nat := 5
  const ProgressScale: nat := 90

  /** A call is at the money when its strike lies strictly inside (0.95 * price, 1.05 * price). */
  const AtmLow: real := 0.95
  const AtmHigh: real := 1.05

  // ---------------------------------------------------------------- candidates

  /** The sector filter: "todos" when no sector is given, else the sector in lower case. */
  function Target(sector: string): (t: string)
    ensures sector == "" ==> t == "todos"
    ensures sector != "" ==> t == Lower(sector)
  {
    if sector == "" then "todos" else Lower(sector)
  }

  predicate Keeps(target: string, item: Item) {
    target == "todos" || target == "all" || Lower(item.sector.GetOr("Unknown")) == target
  }

  /** The filter as a function value, for `Filter`. */
  function Kept(target: string): Item -> bool {
    x => Keeps(target, x)
  }

  /** The listing restricted to the items the filter keeps, each as often as listed. */
  function Matching(target: string, items: seq<Item>): (r: seq<Item>)
    ensures |r| <= |items|
    ensures forall x :: multiset(r)[x] == if Keeps(target, x) then multiset(items)[x] else 0
    ensures forall x :: x in r <==> x in items && Keeps(target, x)
  {
    Filter(Kept(target), items)
  }

  /** The filter keeps listing order: a listing split in two gives the kept items of
      the first part followed by those of the second, and a single item is kept
      exactly when the filter accepts it. */
  lemma MatchingKeepsOrder(target: string, a: seq<Item>, b: seq<Item>)
    ensures Matching(target, a + b) == Matching(target, a) + Matching(target, b)
    ensures |b| == 1 ==> Matching(target, b) == if Keeps(target, b[0]) then b else []
  {
    FilterAppend(Kept(target), a, b);
  }

  /** "todos" and "all" keep the whole listing, in order. */
  lemma {:induction false} NoSectorKeepsAll(target: string, items: seq<Item>)
    requires target == "todos" || target == "all"
    ensures Matching(target, items) == items
  {
    if |items| > 0 {
      var init := items[..|items| - 1];
      NoSectorKeepsAll(target, init);
      assert items == init + [items[|items| - 1]];
      MatchingKeepsOrder(target, init, [items[|items| - 1]]);
    }
  }

  /** The sector is matched without regard to case. */
  lemma SectorCaseInsensitive(sector: string, items: seq<Item>)
    ensures Matching(Target(Lower(sector)), items) == Matching(Target(sector), items)
  {
    LowerIdempotent(sector);
    if sector != "" {
      assert Lower(sector)[0] == LowerChar(sector[0]);
    }
  }

  /** One more step of the listing adds the next item exactly when the filter keeps it. */
  lemma KeptItems(target: string, items: seq<Item>, i: nat, keep: bool)
    requires i < |items|
    requires keep == Keeps(target, items[i])
    ensures Matching(target, items[..i + 1]) == Matching(target, items[..i]) + (if keep then [items[i]] else [])
  {
    assert items[..i + 1] == items[..i] + [items[i]];
    MatchingKeepsOrder(target, items[..i], [items[i]]);
  }

  /** The `for i in sp500` loop that builds `candidates`. */
  method SelectCandidates(items: seq<Item>, sector: string) returns (candidates: seq<Item>)
    ensures candidates == Matching(Target(sector), items)
  {
    var tgt := if sector != "" then Lower(sector) else "todos";
    candidates := [];
    for i := 0 to |items|
      invariant candidates == Matching(tgt, items[..i])
    {
      var keep := tgt == "todos" || tgt == "all" || Lower(items[i].sector.GetOr("Unknown")) == tgt;
      KeptItems(tgt, items, i, keep);
      if keep {
        candidates := candidates + [items[i]];
      }
    }
    assert items[..|items|] == items;
  }

  /** Python's `s[:n]`, where a negative `n` drops that many items from the end. */
  function PyPrefix<T>(s: seq<T>, n: int): (r: seq<T>)
    ensures |r| == if n >= 0 then (if n < |s| then n else |s|) else (if -n < |s| then |s| + n else 0)
    ensures r == s[..|r|]
  {
    if n >= 0 then (if n < |s| then s[..n] else s)
    else (if -n < |s| then s[..|s| + n] else [])
  }

  function Candidates(items: seq<Item>, config: ScanConfig): seq<Item> {
    PyPrefix(Matching(Target(config.sector), items), config.numTickers)
  }

  /** A scan never analyses more tickers than requested, nor any the filter rejects. */
  lemma CandidatesBounded(items: seq<Item>, config: ScanConfig)
    ensures config.numTickers >= 0 ==> |Candidates(items, config)| <= config.numTickers
    ensures forall x :: x in Candidates(items, config) ==> x in items && Keeps(Target(config.sector), x)
  {
    var m := Matching(Target(config.sector), items);
    var c := Candidates(items, config);
    forall x | x in c ensures x in m {
      var i :| 0 <= i < |c| && c[i] == x;
      assert c[i] == m[i];
    }
  }

  // ---------------------------------------------------------------- one ticker

  function Mean100(ivs: seq<real>): (r: Float)
    ensures |ivs| > 0 ==> r == Finite(Mean(ivs) * 100.0)
    ensures |ivs| == 0 ==> r.NaN?
  {
    if |ivs| == 0 then NaN else Finite(Mean(ivs) * 100.0)
  }

  function Vols(rows: seq<Contract>): (r: seq<real>)
    ensures |r| == |rows|
    ensures forall i :: 0 <= i < |rows| ==> r[i] == rows[i].impliedVol
  {
    seq(|rows|, i requires 0 <= i < |rows| => rows[i].impliedVol)
  }

  predicate AtTheMoney(c: Contract, price: real) {
    price * AtmLow < c.strike < price * AtmHigh
  }

  /** `calls[mask]`: the calls within 5% of spot, in chain order and with repeats, so
      each one weighs in the mean as often as it is listed. */
  function AtmCalls(calls: seq<Contract>, price: real): (r: seq<Contract>)
    ensures |r| <= |calls|
    ensures forall c :: multiset(r)[c] == if AtTheMoney(c, price) then multiset(calls)[c] else 0
    ensures forall c :: c in r <==> c in calls && AtTheMoney(c, price)
  {
    Filter(c => AtTheMoney(c, price), calls)
  }

  /** The implied volatility in percent: the mean over the at-the-money calls, or over
      all calls when none is at the money (NaN when there are no calls at all). */
  function ImpliedVol(calls: seq<Contract>, price: real): (iv: Float)
    ensures |AtmCalls(calls, price)| > 0 ==> iv == Finite(Mean(Vols(AtmCalls(calls, price))) * 100.0)
    ensures |AtmCalls(calls, price)| == 0 ==> iv == Mean100(Vols(calls))
    ensures iv.NaN? <==> |calls| == 0
  {
    var atm := AtmCalls(calls, price);
    if |atm| > 0 then Mean100(Vols(atm)) else Mean100(Vols(calls))
  }

  /** The option-derived fields: (iv, vrp, call wall, put wall, distance to the call
      wall, distance to the put wall). A zero price makes the first distance raise;
      the handler keeps what was assigned before the raise. */
  function OptionFields(chain: Option<OptionChain>, price: real, rv: Float)
    : (r: (Float, Float, real, real, real, real))
    ensures chain.None? ==> r == (Finite(0.0), Finite(0.0), 0.0, 0.0, 0.0, 0.0)
    ensures chain.Some? ==> r.0 == ImpliedVol(chain.value.calls, price) && r.1 == FSub(r.0, rv)
    ensures chain.Some? ==> r.2 == Wall(chain.value.calls)
    ensures chain.Some? && price != 0.0 ==>
              && r.3 == Wall(chain.value.puts)
              && r.4 == (if |chain.value.calls| > 0 then (r.2 - price) / price * 100.0 else 0.0)
              && r.5 == (if |chain.value.puts| > 0 then (r.3 - price) / price * 100.0 else 0.0)
    ensures chain.Some? && price == 0.0 ==>
              r.4 == 0.0 && r.5 == 0.0 && r.3 == (if |chain.value.calls| > 0 then 0.0 else Wall(chain.value.puts))
  {
    match chain
    case None => (Finite(0.0), Finite(0.0), 0.0, 0.0, 0.0, 0.0)
    case Some(OptionChain(calls, puts)) =>
      var iv := ImpliedVol(calls, price);
      var vrp := FSub(iv, rv);
      var callWall := Wall(calls);
      if price == 0.0 then
        (iv, vrp, callWall, if |calls| > 0 then 0.0 else Wall(puts), 0.0, 0.0)
      else
        var distCall := if |calls| > 0 then (callWall - price) / price * 100.0 else 0.0;
        var putWall := Wall(puts);
        var distPut := if |puts| > 0 then (putWall - price) / price * 100.0 else 0.0;
        (iv, vrp, callWall, putWall, distCall, distPut)
  }

  /** Distance in percent from a moving average, 0 when the average is 0. */
  function DistancePct(price: real, sma: real): (d: real)
    ensures sma == 0.0 ==> d == 0.0
  {
    if sma != 0.0 then (price - sma) / sma * 100.0 else 0.0
  }

  /** A positive distance means the price is above a positive average, a negative one
      that it is below. */
  lemma DistanceSign(price: real, sma: real)
    requires sma > 0.0
    ensures DistancePct(price, sma) > 0.0 <==> price > sma
    ensures DistancePct(price, sma) < 0.0 <==> price < sma
    ensures DistancePct(price, sma) == 0.0 <==> price == sma
  {
    var q := (price - sma) / sma;
    assert q * sma == price - sma;
    if price > sma { assert q > 0.0; }
    if price < sma { assert q < 0.0; }
  }

  /** `analyze_single_ticker` for one listing item, given what the provider returns
      for it and the realized volatility of its closes over the lookback. */
  function AnalyzeSingleTicker(item: Item, quotes: Quotes, rv: Float): (r: Option<Analysis>)
    ensures r.None? <==> quotes.closes.Raised? || |quotes.closes.value| < MinCloses
    ensures r.Some? ==> var closes := quotes.closes.value; var a := r.value;
      && a.ticker == item.ticker && a.sector == item.sector
      && a.price == closes[|closes| - 1]
      && a.sma20 == Mean(closes[|closes| - 20..])
      && a.sma50 == Mean(closes[|closes| - 50..])
      && a.distSma20 == DistancePct(a.price, a.sma20)
      && a.distSma50 == DistancePct(a.price, a.sma50)
      && a.rv == rv
      && (a.iv, a.vrp, a.callWall, a.putWall, a.distCallWall, a.distPutWall)
         == OptionFields(quotes.chain, a.price, rv)
  {
    match quotes.closes
    case Raised(_) => None
    case Fetched(closes) =>
      if |closes| == 0 then None
      else if |closes| < MinCloses then None
      else
        var price := closes[|closes| - 1];
        var sma20 := Sum(closes[|closes| - 20..]) / 20.0;
        var sma50 := Sum(closes[|closes| - 50..]) / 50.0;
        var (iv, vrp, callWall, putWall, distCall, distPut) := OptionFields(quotes.chain, price, rv);
        Some(Analysis(item.ticker, item.sector, price, sma20, sma50,
                      DistancePct(price, sma20), DistancePct(price, sma50),
                      vrp, iv, rv, callWall, putWall, distCall, distPut))
  }

  /** The averages of an analysis lie within the range of the closes they average. */
  lemma AnalysisAveragesInRange(item: Item, quotes: Quotes, rv: Float)
    requires AnalyzeSingleTicker(item, quotes, rv).Some?
    ensures var closes := quotes.closes.value; var a := AnalyzeSingleTicker(item, quotes, rv).value;
      && SeqMin(closes[|closes| - 20..]) <= a.sma20 <= SeqMax(closes[|closes| - 20..])
      && SeqMin(closes[|closes| - 50..]) <= a.sma50 <= SeqMax(closes[|closes| - 50..])
  {
    var closes := quotes.closes.value;
    MeanWithinWindow(closes[|closes| - 20..]);
    MeanWithinWindow(closes[|closes| - 50..]);
  }

  // ---------------------------------------------------------------- the stored row

  function FloatJson(x: Float): Json { JFloat(x) }

  function Number(x: real): Json { JFloat(Finite(x)) }

  function OptionalText(s: Option<string>): Json {
    match s
    case Some(t) => JStr(t)
    case None => JNull
  }

  /** The dict `analyze_single_ticker` returns. */
  function AnalysisJson(a: Analysis): Json {
    JDict([
      ("Ticker", JStr(a.ticker)),
      ("Sector", OptionalText(a.sector)),
      ("Price", Number(a.price)),
      ("SMA20_val", Number(a.sma20)),
      ("SMA50_val", Number(a.sma50)),
      ("Dist SMA20 %", Number(a.distSma20)),
      ("Dist SMA50 %", Number(a.distSma50)),
      ("VRP", FloatJson(a.vrp)),
      ("IV", FloatJson(a.iv)),
      ("RV", FloatJson(a.rv)),
      ("Call Wall", Number(a.callWall)),
      ("Put Wall", Number(a.putWall)),
      ("Dist Call Wall %", Number(a.distCallWall)),
      ("Dist Put Wall %", Number(a.distPutWall))])
  }

  function ResultsJson(results: seq<Analysis>): (j: Json)
    ensures j.JList? && |j.items| == |results|
    ensures forall i :: 0 <= i < |results| ==> j.items[i] == AnalysisJson(results[i])
  {
    JList(seq(|results|, i requires 0 <= i < |results| => AnalysisJson(results[i])))
  }

  /** A float as the scrub leaves it. */
  function Scrubbed(x: Float): (r: Float)
    ensures r.Finite?
    ensures x.Finite? ==> r == x
  {
    if x.Finite? then x else Finite(0.0)
  }

  /** Scrubbing an analysis row zeroes its non-finite volatilities and changes nothing
      else, so every stored row carries a number in "VRP" and "IV" (a NaN premium
      arrives in the browser as 0, never as null). */
  lemma ScrubAnalysis(a: Analysis)
    ensures var src := AnalysisJson(a).entries; var e := Sanitize(AnalysisJson(a)).entries;
      && |e| == |src| == 14
      && e[7] == ("VRP", JFloat(Scrubbed(a.vrp)))
      && e[8] == ("IV", JFloat(Scrubbed(a.iv)))
      && e[9] == ("RV", JFloat(Scrubbed(a.rv)))
      && forall i :: 0 <= i < 14 && (i < 7 || 9 < i) ==> e[i] == src[i]
  {
    var src := AnalysisJson(a).entries;
    var e := Sanitize(AnalysisJson(a)).entries;
    assert forall i :: 0 <= i < |e| ==> e[i] == (src[i].0, Sanitize(src[i].1));
    ScrubKeepsPlainEntries(src, e);
  }

  /** The entries other than the volatilities hold text, null or finite numbers,
      which the scrub leaves as they are. */
  lemma ScrubKeepsPlainEntries(src: seq<(string, Json)>, e: seq<(string, Json)>)
    requires |src| == |e| == 14
    requires forall i :: 0 <= i < 14 ==> e[i] == (src[i].0, Sanitize(src[i].1))
    requires forall i :: 0 <= i < 14 && (i < 7 || 9 < i) ==>
      src[i].1.JStr? || src[i].1.JNull? || (src[i].1.JFloat? && src[i].1.f.Finite?)
    ensures forall i :: 0 <= i < 14 && (i < 7 || 9 < i) ==> e[i] == src[i]
  {
  }

  // ---------------------------------------------------------------- the scan

  /** `int(completed / total * 90)`, with the exact quotient. */
  function ProgressAt(completed: nat, total: nat): (p: int)
    requires 0 < total && completed <= total
    ensures 0 <= p <= ProgressScale as int
    ensures completed == total ==> p == ProgressScale as int
  {
    MulMono(completed, total, ProgressScale);
    DivAtMost(completed * ProgressScale, total, ProgressScale);
    DivExact(total, ProgressScale);
    completed * ProgressScale / total
  }

  lemma MulMono(c: nat, d: nat, k: nat)
    requires c <= d
    ensures c * k <= d * k
  {
  }

  lemma DivAtMost(a: nat, t: nat, k: nat)
    requires 0 < t && a <= t * k
    ensures a / t <= k
  {
  }

  lemma DivExact(t: nat, k: nat)
    requires 0 < t
    ensures t * k / t == k
  {
    var q, r := t * k / t, t * k % t;
    assert (k - q) * t == r;
    PositiveFactor(q - k + 1, t, t - r);
    PositiveFactor(k - q + 1, t, t + r);
  }

  lemma DivMono(a: nat, b: nat, t: nat)
    requires 0 < t && a <= b
    ensures a / t <= b / t
  {
    var qa, qb := a / t, b / t;
    assert (qb + 1 - qa) * t == (b - b % t) + t - (a - a % t);
    PositiveFactor(qb + 1 - qa, t, (b - b % t) + t - (a - a % t));
  }

  /** A product with a positive factor is positive only if the other factor is. */
  lemma PositiveFactor(z: int, t: int, p: int)
    requires 0 < t && z * t == p && 0 < p
    ensures 0 < z
  {
  }

  /** Later reports never show less progress. */
  lemma ProgressMonotone(c1: nat, c2: nat, total: nat)
    requires 0 < total && c1 <= c2 <= total
    ensures ProgressAt(c1, total) <= ProgressAt(c2, total)
  {
    MulMono(c1, c2, ProgressScale);
    DivMono(c1 * ProgressScale, c2 * ProgressScale, total);
  }

  /** The table after `completed` completions out of `total`: a "running" report with
      the current progress after every fifth one. */
  function Reported(m: map<string, Task>, id: string, total: nat, completed: nat): map<string, Task>
    requires completed <= total
  {
    if completed == 0 then m
    else
      var m' := Reported(m, id, total, completed - 1);
      if completed % ReportEvery == 0 then Updated(m', id, "running", Some(ProgressAt(completed, total)), None, None)
      else m'
  }

  /** Before the fifth completion nothing has been reported. */
  lemma {:induction false} NothingReportedEarly(m: map<string, Task>, id: string, total: nat, completed: nat)
    requires completed <= total && completed < ReportEvery
    ensures Reported(m, id, total, completed) == m
  {
    if completed > 0 {
      NothingReportedEarly(m, id, total, completed - 1);
    }
  }

  /** Reports touch the job's own entry only. */
  lemma {:induction false} ReportsTouchOnlyTheJob(m: map<string, Task>, id: string, total: nat, completed: nat)
    requires completed <= total
    ensures m.Keys <= Reported(m, id, total, completed).Keys <= m.Keys + {id}
    ensures forall k :: k in m && k != id ==> Reported(m, id, total, completed)[k] == m[k]
  {
    if completed > 0 {
      ReportsTouchOnlyTheJob(m, id, total, completed - 1);
    }
  }

  /** From the fifth completion on, the job's entry is "running" at the progress of the
      last multiple of five reached, with its data and error as they were. */
  lemma {:induction false} ReportedEntry(m: map<string, Task>, id: string, total: nat, completed: nat)
    requires completed <= total && completed >= ReportEvery
    ensures id in Reported(m, id, total, completed)
    ensures Reported(m, id, total, completed)[id]
         == Task("running", Some(ProgressAt(completed - completed % ReportEvery, total)),
                 if id in m then m[id].data else None,
                 if id in m then m[id].error else None)
  {
    var m' := Reported(m, id, total, completed - 1);
    if completed % ReportEvery == 0 {
      if completed - 1 < ReportEvery {
        NothingReportedEarly(m, id, total, completed - 1);
      } else {
        ReportedEntry(m, id, total, completed - 1);
      }
    } else {
      assert (completed - 1) % ReportEvery == completed % ReportEvery - 1;
      ReportedEntry(m, id, total, completed - 1);
    }
  }

  function Present<T>(xs: seq<Option<T>>): (r: seq<T>)
    ensures |r| <= |xs|
  {
    if |xs| == 0 then []
    else
      var rest := Present(xs[..|xs| - 1]);
      if xs[|xs| - 1].Some? then rest + [xs[|xs| - 1].value] else rest
  }

  /** Each analysis is kept as often as it was produced. */
  lemma {:induction false} PresentCounts(xs: seq<Option<Analysis>>, a: Analysis)
    ensures multiset(Present(xs))[a] == multiset(xs)[Some(a)]
  {
    if |xs| > 0 {
      var p := xs[..|xs| - 1];
      assert xs == p + [xs[|xs| - 1]];
      PresentCounts(p, a);
    }
  }

  /** Whatever order the analyses finish in, the same results are collected. */
  lemma ResultsIndependentOfOrder(xs: seq<Option<Analysis>>, ys: seq<Option<Analysis>>)
    requires multiset(xs) == multiset(ys)
    ensures multiset(Present(xs)) == multiset(Present(ys))
  {
    forall a ensures multiset(Present(xs))[a] == multiset(Present(ys))[a] {
      PresentCounts(xs, a);
      PresentCounts(ys, a);
    }
    assert multiset(Present(xs)) == multiset(Present(ys));
  }

  /** The per-candidate outcomes, in candidate order. */
  function Outcomes(candidates: seq<Item>, market: string -> Quotes, realizedVol: (seq<real>, int) -> Float,
                    lookback: int): (r: seq<Option<Analysis>>)
    ensures |r| == |candidates|
  {
    seq(|candidates|, i requires 0 <= i < |candidates| =>
      var q := market(candidates[i].ticker);
      AnalyzeSingleTicker(candidates[i], q,
        if q.closes.Fetched? then realizedVol(q.closes.value, lookback) else NaN))
  }

  /** `scan_market(config, task_id)`. The provider is `market` (per ticker) and
      `universe` (the listing); `completions` is the order in which the worker pool
      hands back the candidates' outcomes, any permutation of them. */
  method ScanMarket(store: TaskStore, taskId: string, config: ScanConfig, universe: Fetch<seq<Item>>,
                    market: string -> Quotes, realizedVol: (seq<real>, int) -> Float,
                    completions: seq<Option<Analysis>>)
    returns (results: seq<Analysis>)
    requires universe.Fetched? ==>
      multiset(completions) == multiset(Outcomes(Candidates(universe.value, config), market, realizedVol, config.lookback))
    modifies store
    ensures universe.Raised? ==>
      store.tasks == Updated(old(store.tasks), taskId, "failed", None, None, Some(universe.message))
    ensures universe.Fetched? ==>
      && results == Present(completions)
      && multiset(results) == multiset(Present(Outcomes(Candidates(universe.value, config), market, realizedVol, config.lookback)))
      && store.tasks == Updated(Reported(old(store.tasks), taskId, |completions|, |completions|),
                                taskId, "completed", None, Some(ResultsJson(results)), None)
  {
    results := [];
    if universe.Raised? {
      store.UpdateTaskStatus(taskId, "failed", None, None, Some(universe.message));
      return;
    }
    var candidates := SelectCandidates(universe.value, config.sector);
    candidates := PyPrefix(candidates, config.numTickers);
    ghost var outcomes := Outcomes(candidates, market, realizedVol, config.lookback);
    assert |completions| == |multiset(completions)| == |outcomes|;
    var total := |candidates|;
    var completed := 0;
    while completed < total
      invariant completed <= total
      invariant results == Present(completions[..completed])
      invariant store.tasks == Reported(old(store.tasks), taskId, total, completed)
    {
      var res := completions[completed];
      completed := completed + 1;
      if completed % ReportEvery == 0 {
        store.UpdateTaskStatus(taskId, "running", Some(completed * ProgressScale / total), None, None);
      }
      assert completions[..completed][..completed - 1] == completions[..completed - 1];
      if res.Some? {
        results := results + [res.value];
      }
    }
    assert completions[..total] == completions;
    ResultsIndependentOfOrder(completions, outcomes);
    store.UpdateTaskStatus(taskId, "completed", None, Some(ResultsJson(results)), None);
  }

  /** After a started scan completes, polling shows "completed", the scrubbed results,
      and the last reported progress: 90 when the candidate count is a multiple of five,
      still the initial 0 when there were fewer than five. */
  lemma CompletedEntry(m: map<string, Task>, id: string, total: nat, results: seq<Analysis>)
    requires id in m && m[id] == PendingTask
    ensures var e := Updated(Reported(m, id, total, total), id, "completed", None, Some(ResultsJson(results)), None)[id];
      && e.status == "completed"
      && e.data == Some(Sanitize(ResultsJson(results)))
      && e.error == None
      && (total < ReportEvery ==> e.progress == Some(0))
      && (total >= ReportEvery && total % ReportEvery == 0 ==> e.progress == Some(ProgressScale as int))
  {
    if total < ReportEvery {
      NothingReportedEarly(m, id, total, total);
    } else {
      ReportedEntry(m, id, total, total);
    }
  }
}
