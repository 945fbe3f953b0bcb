/** The asset-detail endpoint (`GET /asset/{ticker}`): spot price guard, price history
    with 20/50-day moving averages, call/put walls, and the net open-interest profile
    by strike. The provider calls are inputs; everything done with their results is
    modelled. */
module AssetEndpoint {
  import opened Common
  import opened Series
  import opened Chain
  import opened JsonValues

  /** What `get_spot_price` returned: a dict (with or without "price"), a bare
      number, or something `float()` rejects (with the message it raises). */
  datatype SpotData = SpotDict(price: Option<real>) | SpotScalar(x: real) | SpotUnconvertible(message: string)

  /** One row of `get_history` (its index after `reset_index` and its close). */
  type Bar = DatedClose

  /** The `type` column of the aggregated chain. */
  datatype Side = CallSide | PutSide

  datatype ListedContract = ListedContract(side: Side, contract: Contract)

  datatype HistoryPoint = HistoryPoint(date: string, close: real, sma20: Option<real>, sma50: Option<real>)

  datatype GexPoint = GexPoint(strike: real, gex: real)

  datatype AssetPayload = AssetPayload(
    ticker: string,
    price: real,
    callWall: real,
    putWall: real,
    gammaFlip: real,
    history: seq<HistoryPoint>,
    gexProfile: seq<GexPoint>)

  datatype HttpError = HttpError(status: int, detail: string)

  const InternalError: int := 500

  /** `str()` of the `HTTPException(404, "Price not found")` that the outer handler catches. */
  const PriceNotFound: string := "404: Price not found"

  /** Strikes kept by the profile lie strictly inside (0.7 * price, 1.3 * price). */
  const BandLow: real := 0.7
  const BandHigh: real := 1.3

  /** Above this many strikes, every other one is kept. */
  const MaxStrikes: nat := 50

  // ---------------------------------------------------------------- spot price

  /** `spot.get('price', 0.0)` for a dict, `float(spot)` otherwise. */
  function SpotPrice(spot: SpotData): (r: Result<real, string>)
    ensures spot.SpotDict? ==> r == Ok(spot.price.GetOr(0.0))
    ensures spot.SpotScalar? ==> r == Ok(spot.x)
    ensures spot.SpotUnconvertible? ==> r == Err(spot.message)
  {
    match spot
    case SpotDict(p) => Ok(p.GetOr(0.0))
    case SpotScalar(x) => Ok(x)
    case SpotUnconvertible(msg) => Err(msg)
  }

  // ---------------------------------------------------------------- history

  /** Row `i` of the history: its date and close, and the 20- and 50-row rolling means
      (None while the window is not yet full). */
  function HistoryRow(bars: seq<Bar>, i: nat): (h: HistoryPoint)
    requires i < |bars|
    ensures h.date == bars[i].date && h.close == bars[i].close
    ensures h.sma20.None? <==> i < 19
    ensures h.sma50.None? <==> i < 49
    ensures h.sma20.Some? ==> h.sma20.value == Mean(Closes(bars)[i - 19..i + 1])
    ensures h.sma50.Some? ==> h.sma50.value == Mean(Closes(bars)[i - 49..i + 1])
  {
    HistoryPoint(bars[i].date, bars[i].close, TrailingMean(Closes(bars), i, 20), TrailingMean(Closes(bars), i, 50))
  }

  /** The append loop over `df_hist.iterrows()`: one point per bar, in order. */
  method BuildHistory(bars: seq<Bar>) returns (points: seq<HistoryPoint>)
    ensures |points| == |bars|
    ensures forall i :: 0 <= i < |bars| ==> points[i] == HistoryRow(bars, i)
  {
    points := [];
    var closes := Closes(bars);
    for i := 0 to |bars|
      invariant |points| == i
      invariant forall j :: 0 <= j < i ==> points[j] == HistoryRow(bars, j)
    {
      var sma20 := if i + 1 < 20 then None else Some(Sum(closes[i + 1 - 20..i + 1]) / 20.0);
      var sma50 := if i + 1 < 50 then None else Some(Sum(closes[i + 1 - 50..i + 1]) / 50.0);
      var point := HistoryPoint(bars[i].date, bars[i].close, sma20, sma50);
      assert point == HistoryRow(bars, i);
      points := points + [point];
    }
  }

  // ---------------------------------------------------------------- walls

  /** The mask `df_opts['type'] == side`. */
  function OnSide(side: Side): ListedContract -> bool {
    (row: ListedContract) => row.side == side
  }

  /** The column of contracts of some listed rows, in order. */
  function ContractsOf(rows: seq<ListedContract>): (r: seq<Contract>)
    ensures |r| == |rows|
    ensures forall i :: 0 <= i < |rows| ==> r[i] == rows[i].contract
  {
    seq(|rows|, i requires 0 <= i < |rows| => rows[i].contract)
  }

  /** The rows of one side (`df_opts[df_opts['type'] == side]`), in order: the chain
      filtered by the side's mask, without the now constant type column. */
  function OfSide(rows: seq<ListedContract>, side: Side): (r: seq<Contract>)
    ensures |r| <= |rows|
    ensures forall c :: c in r <==> ListedContract(side, c) in rows
  {
    var kept := Filter(OnSide(side), rows);
    assert forall c :: c in ContractsOf(kept) ==> ListedContract(side, c) in kept by {
      forall c | c in ContractsOf(kept) ensures ListedContract(side, c) in kept {
        var i :| 0 <= i < |kept| && ContractsOf(kept)[i] == c;
        assert kept[i] in kept;
      }
    }
    assert forall c :: ListedContract(side, c) in kept ==> c in ContractsOf(kept) by {
      forall c | ListedContract(side, c) in kept ensures c in ContractsOf(kept) {
        var i :| 0 <= i < |kept| && kept[i] == ListedContract(side, c);
        assert ContractsOf(kept)[i] == c;
      }
    }
    ContractsOf(kept)
  }

  /** Dropping the type column of rows all on one side loses no count. */
  lemma {:induction false} ContractsOfCounts(rows: seq<ListedContract>, side: Side, c: Contract)
    requires forall row :: row in rows ==> row.side == side
    ensures multiset(ContractsOf(rows))[c] == multiset(rows)[ListedContract(side, c)]
  {
    if |rows| > 0 {
      var init, last := rows[..|rows| - 1], rows[|rows| - 1];
      assert rows == init + [last];
      assert ContractsOf(rows) == ContractsOf(init) + [last.contract];
      assert last in rows;
      ContractsOfCounts(init, side, c);
    }
  }

  lemma ContractsOfAppend(a: seq<ListedContract>, b: seq<ListedContract>)
    ensures ContractsOf(a + b) == ContractsOf(a) + ContractsOf(b)
  {
    assert |ContractsOf(a + b)| == |ContractsOf(a) + ContractsOf(b)|;
  }

  /** Each contract of the side appears as often as the chain lists it on that side. */
  lemma OfSideCounts(rows: seq<ListedContract>, side: Side, c: Contract)
    ensures multiset(OfSide(rows, side))[c] == multiset(rows)[ListedContract(side, c)]
  {
    ContractsOfCounts(Filter(OnSide(side), rows), side, c);
  }

  /** The side's rows keep the chain's order, on which `idxmax`'s tie-break depends:
      the rows of two parts of the chain are those of the first followed by those of
      the second. */
  lemma OfSideKeepsOrder(a: seq<ListedContract>, b: seq<ListedContract>, side: Side)
    ensures OfSide(a + b, side) == OfSide(a, side) + OfSide(b, side)
    ensures |b| == 1 ==> OfSide(b, side) == if b[0].side == side then [b[0].contract] else []
  {
    var fa, fb := Filter(OnSide(side), a), Filter(OnSide(side), b);
    FilterAppend(OnSide(side), a, b);
    ContractsOfAppend(fa, fb);
    if |b| == 1 {
      assert fb == if b[0].side == side then b else [];
    }
  }

  // ---------------------------------------------------------------- gamma-exposure profile

  predicate Distinct(s: seq<real>) {
    forall i, j :: 0 <= i < j < |s| ==> s[i] != s[j]
  }

  predicate StrictlyIncreasing(s: seq<real>) {
    forall i, j :: 0 <= i < j < |s| ==> s[i] < s[j]
  }

  predicate Ascending(s: seq<real>) {
    forall i, j :: 0 <= i < j < |s| ==> s[i] <= s[j]
  }

  function Strikes(rows: seq<ListedContract>): (r: seq<real>)
    ensures |r| == |rows|
    ensures forall i :: 0 <= i < |rows| ==> r[i] == rows[i].contract.strike
  {
    seq(|rows|, i requires 0 <= i < |rows| => rows[i].contract.strike)
  }

  /** `Series.unique()`: each value once, in order of first appearance. */
  function Unique(s: seq<real>): (r: seq<real>)
    ensures Distinct(r)
    ensures forall x :: x in r <==> x in s
  {
    if |s| == 0 then []
    else
      var r' := Unique(s[..|s| - 1]);
      assert forall x :: x in s <==> x in s[..|s| - 1] || x == s[|s| - 1];
      if s[|s| - 1] in r' then r' else r' + [s[|s| - 1]]
  }

  predicate InBand(k: real, price: real) {
    price * BandLow < k < price * BandHigh
  }

  /** The list comprehension keeping strikes strictly inside the band, in order. */
  function KeepInBand(s: seq<real>, price: real): (r: seq<real>)
    ensures forall x :: x in r <==> x in s && InBand(x, price)
    ensures Distinct(s) ==> Distinct(r)
  {
    if |s| == 0 then []
    else
      var r' := KeepInBand(s[..|s| - 1], price);
      var x := s[|s| - 1];
      assert forall y :: y in s <==> y in s[..|s| - 1] || y == x;
      assert Distinct(s) ==> x !in s[..|s| - 1];
      if InBand(x, price) then r' + [x] else r'
  }

  /** Inserts `x` into an ascending sequence. */
  function Insert(x: real, s: seq<real>): (r: seq<real>)
    ensures multiset(r) == multiset(s) + multiset{x}
  {
    if |s| == 0 || x <= s[0] then [x] + s
    else
      assert s == [s[0]] + s[1..];
      [s[0]] + Insert(x, s[1..])
  }

  lemma {:induction false} InsertAscending(x: real, s: seq<real>)
    requires Ascending(s)
    ensures Ascending(Insert(x, s))
  {
    if |s| > 0 && x > s[0] {
      var t := s[1..];
      var r' := Insert(x, t);
      InsertAscending(x, t);
      forall i | 0 <= i < |r'| ensures s[0] <= r'[i] {
        assert r'[i] in multiset(r');
        assert r'[i] in multiset(t) || r'[i] == x;
        if r'[i] != x {
          assert r'[i] in t;
          var j :| 0 <= j < |t| && t[j] == r'[i];
          assert t[j] == s[j + 1];
        }
      }
    }
  }

  /** `list.sort()` on the strikes. */
  function SortAscending(s: seq<real>): (r: seq<real>)
    ensures multiset(r) == multiset(s)
    ensures Ascending(r)
  {
    if |s| == 0 then []
    else
      assert s == [s[0]] + s[1..];
      InsertAscending(s[0], SortAscending(s[1..]));
      Insert(s[0], SortAscending(s[1..]))
  }

  /** A sorted sequence with no repeated value is strictly increasing. */
  lemma SortedDistinctIncreasing(s: seq<real>, r: seq<real>)
    requires Distinct(s) && multiset(r) == multiset(s) && Ascending(r)
    ensures StrictlyIncreasing(r)
  {
    forall i, j | 0 <= i < j < |r| ensures r[i] < r[j] {
      if r[i] == r[j] {
        var v := r[i];
        assert multiset(r)[v] >= 2 by {
          assert r == r[..i] + [r[i]] + r[i + 1..j] + [r[j]] + r[j + 1..];
        }
        DistinctCountsOnce(s, v);
        assert false;
      }
    }
  }

  lemma {:induction false} DistinctCountsOnce(s: seq<real>, v: real)
    requires Distinct(s)
    ensures multiset(s)[v] <= 1
  {
    if |s| > 0 {
      var p := s[..|s| - 1];
      assert s == p + [s[|s| - 1]];
      assert Distinct(p);
      DistinctCountsOnce(p, v);
      if s[|s| - 1] == v {
        assert v !in p;
      }
    }
  }

  /** `strikes[::2]`. */
  function EveryOther(s: seq<real>): (r: seq<real>)
    ensures |r| == (|s| + 1) / 2
    ensures forall i :: 0 <= i < |r| ==> r[i] == s[2 * i]
  {
    seq((|s| + 1) / 2, i requires 0 <= i < (|s| + 1) / 2 => s[2 * i])
  }

  function Decimate(s: seq<real>): (r: seq<real>)
    ensures |s| <= MaxStrikes ==> r == s
    ensures |s| > MaxStrikes ==> r == EveryOther(s)
  {
    if |s| > MaxStrikes then EveryOther(s) else s
  }

  /** The strikes the profile is built on. */
  function ProfileStrikes(rows: seq<ListedContract>, price: real): seq<real> {
    Decimate(SortAscending(KeepInBand(Unique(Strikes(rows)), price)))
  }

  /** Profile strikes are listed strikes inside the band, strictly increasing; when at
      most 50 strikes are in the band, every one of them is there. */
  lemma ProfileStrikesShape(rows: seq<ListedContract>, price: real)
    ensures StrictlyIncreasing(ProfileStrikes(rows, price))
    ensures forall k :: k in ProfileStrikes(rows, price) ==> k in Strikes(rows) && InBand(k, price)
    ensures |KeepInBand(Unique(Strikes(rows)), price)| <= MaxStrikes ==>
              forall k :: k in Strikes(rows) && InBand(k, price) ==> k in ProfileStrikes(rows, price)
  {
    var band := KeepInBand(Unique(Strikes(rows)), price);
    var sorted := SortAscending(band);
    SortedDistinctIncreasing(band, sorted);
    assert forall k :: k in sorted <==> k in band by {
      forall k ensures k in sorted <==> k in band {
        assert k in sorted <==> k in multiset(sorted);
        assert k in band <==> k in multiset(band);
      }
    }
    var out := ProfileStrikes(rows, price);
    if |sorted| > MaxStrikes {
      assert forall i :: 0 <= i < |out| ==> out[i] == sorted[2 * i];
      forall k | k in out ensures k in sorted {
        var i :| 0 <= i < |out| && out[i] == k;
      }
    }
  }

  /** Total open interest of one side at strike `k`. */
  function SideInterestAt(rows: seq<ListedContract>, side: Side, k: real): real {
    if |rows| == 0 then 0.0
    else
      var last := rows[|rows| - 1];
      SideInterestAt(rows[..|rows| - 1], side, k)
        + (if last.side == side && last.contract.strike == k then last.contract.openInterest else 0.0)
  }

  /** Call open interest minus put open interest at `k`. */
  function NetInterestAt(rows: seq<ListedContract>, k: real): real {
    SideInterestAt(rows, CallSide, k) - SideInterestAt(rows, PutSide, k)
  }

  /** Net open interest vanishes at a strike nobody lists. */
  lemma {:induction false} UnlistedStrikeIsFlat(rows: seq<ListedContract>, side: Side, k: real)
    requires k !in Strikes(rows)
    ensures SideInterestAt(rows, side, k) == 0.0
  {
    if |rows| > 0 {
      var p := rows[..|rows| - 1];
      assert forall i :: 0 <= i < |p| ==> Strikes(p)[i] == Strikes(rows)[i];
      assert k !in Strikes(p);
      assert Strikes(rows)[|rows| - 1] == rows[|rows| - 1].contract.strike;
      UnlistedStrikeIsFlat(p, side, k);
    }
  }

  /** The append loop over the kept strikes. */
  method BuildGexProfile(rows: seq<ListedContract>, strikes: seq<real>) returns (gex: seq<GexPoint>)
    ensures |gex| == |strikes|
    ensures forall j :: 0 <= j < |strikes| ==> gex[j] == GexPoint(strikes[j], NetInterestAt(rows, strikes[j]))
  {
    gex := [];
    for j := 0 to |strikes|
      invariant |gex| == j
      invariant forall i :: 0 <= i < j ==> gex[i] == GexPoint(strikes[i], NetInterestAt(rows, strikes[i]))
    {
      var k := strikes[j];
      var c := SideInterestAt(rows, CallSide, k);
      var p := SideInterestAt(rows, PutSide, k);
      gex := gex + [GexPoint(k, c - p)];
    }
  }

  // ---------------------------------------------------------------- the endpoint

  /** The options part: walls and profile, or zeros and no profile when the fetch
      raised or returned nothing. */
  method OptionsSummary(options: Fetch<seq<ListedContract>>, price: real)
    returns (callWall: real, putWall: real, gex: seq<GexPoint>)
    ensures options.Raised? || options.value == [] ==> callWall == 0.0 && putWall == 0.0 && gex == []
    ensures options.Fetched? ==> callWall == Wall(OfSide(options.value, CallSide))
    ensures options.Fetched? ==> putWall == Wall(OfSide(options.value, PutSide))
    ensures options.Fetched? ==> |gex| == |ProfileStrikes(options.value, price)|
    ensures options.Fetched? ==> forall j :: 0 <= j < |gex| ==>
              gex[j] == GexPoint(ProfileStrikes(options.value, price)[j],
                                 NetInterestAt(options.value, ProfileStrikes(options.value, price)[j]))
  {
    callWall, putWall, gex := 0.0, 0.0, [];
    if options.Fetched? && options.value != [] {
      var rows := options.value;
      var calls := OfSide(rows, CallSide);
      var puts := OfSide(rows, PutSide);
      if calls != [] { callWall := Wall(calls); }
      if puts != [] { putWall := Wall(puts); }
      gex := BuildGexProfile(rows, ProfileStrikes(rows, price));
    }
  }

  /** `get_asset_details`. Every failure, including the 404 for a zero price, leaves
      through the outer handler as a 500 carrying the exception's text. */
  method GetAssetDetails(ticker: string, spot: Fetch<SpotData>, history: Fetch<seq<Bar>>,
                         options: Fetch<seq<ListedContract>>)
    returns (r: Result<AssetPayload, HttpError>)
    ensures spot.Raised? ==> r == Err(HttpError(InternalError, spot.message))
    ensures spot.Fetched? && SpotPrice(spot.value).Err? ==> r == Err(HttpError(InternalError, SpotPrice(spot.value).error))
    ensures spot.Fetched? && SpotPrice(spot.value) == Ok(0.0) ==> r == Err(HttpError(InternalError, PriceNotFound))
    ensures r.Err? ==> r.error.status == InternalError
    ensures r.Ok? <==> spot.Fetched? && SpotPrice(spot.value).Ok? && SpotPrice(spot.value).value != 0.0 && history.Fetched?
    ensures r.Ok? ==> var p := r.value;
      && p.ticker == ticker
      && p.price == SpotPrice(spot.value).value
      && p.gammaFlip == p.price
      && |p.history| == |history.value|
      && (forall i :: 0 <= i < |history.value| ==> p.history[i] == HistoryRow(history.value, i))
      && (options.Raised? ==> p.callWall == 0.0 && p.putWall == 0.0 && p.gexProfile == [])
      && (options.Fetched? ==> p.callWall == Wall(OfSide(options.value, CallSide)))
      && (options.Fetched? ==> p.putWall == Wall(OfSide(options.value, PutSide)))
      && (options.Fetched? ==> |p.gexProfile| == |ProfileStrikes(options.value, p.price)|)
      && (options.Fetched? ==> forall j :: 0 <= j < |p.gexProfile| ==>
            p.gexProfile[j] == GexPoint(ProfileStrikes(options.value, p.price)[j],
                                        NetInterestAt(options.value, ProfileStrikes(options.value, p.price)[j])))
  {
    if spot.Raised? {
      return Err(HttpError(InternalError, spot.message));
    }
    var price := SpotPrice(spot.value);
    if price.Err? {
      return Err(HttpError(InternalError, price.error));
    }
    if price.value == 0.0 {
      return Err(HttpError(InternalError, PriceNotFound));
    }
    if history.Raised? {
      return Err(HttpError(InternalError, history.message));
    }
    var points := BuildHistory(history.value);
    var callWall, putWall, gex := OptionsSummary(options, price.value);
    r := Ok(AssetPayload(ticker, price.value, callWall, putWall, price.value, points, gex));
  }

  // ---------------------------------------------------------------- the response body

  function OptionalNumber(x: Option<real>): Json {
    match x
    case Some(v) => JFloat(Finite(v))
    case None => JNull
  }

  function HistoryJson(h: HistoryPoint): Json {
    JDict([("date", JStr(h.date)), ("close", JFloat(Finite(h.close))),
           ("sma20", OptionalNumber(h.sma20)), ("sma50", OptionalNumber(h.sma50))])
  }

  function GexJson(g: GexPoint): Json {
    JDict([("strike", JFloat(Finite(g.strike))), ("gex", JFloat(Finite(g.gex)))])
  }

  /** The dict handed to `sanitize_json` at the end of the endpoint. */
  function PayloadJson(p: AssetPayload): Json {
    JDict([
      ("ticker", JStr(p.ticker)),
      ("price", JFloat(Finite(p.price))),
      ("call_wall", JFloat(Finite(p.callWall))),
      ("put_wall", JFloat(Finite(p.putWall))),
      ("gamma_flip", JFloat(Finite(p.gammaFlip))),
      ("history", JList(seq(|p.history|, i requires 0 <= i < |p.history| => HistoryJson(p.history[i])))),
      ("gex_profile", JList(seq(|p.gexProfile|, i requires 0 <= i < |p.gexProfile| => GexJson(p.gexProfile[i]))))])
  }

  /** Built from finite prices, the body already is what the final scrub returns. */
  lemma PayloadSurvivesSanitize(p: AssetPayload)
    ensures Sanitize(PayloadJson(p)) == PayloadJson(p)
  {
    var j := PayloadJson(p);
    forall i | 0 <= i < |p.history| ensures Clean(HistoryJson(p.history[i])) {
      var h := p.history[i];
      assert Clean(OptionalNumber(h.sma20)) && Clean(OptionalNumber(h.sma50));
    }
    assert Clean(j.entries[5].1);
    assert Clean(j.entries[6].1);
    SanitizeKeepsClean(j);
  }
}
