/** The playbook page: the rows with a volatility premium ranked into the six cheapest
    (long candidates) and the six richest (short candidates), and the decision tree
    that gives each card its spot and options strategy. */
module Playbook {
  import opened Common
  import ScanDriver

  /** At most this many cards per column. */
  const CardsPerColumn: nat := 6

  /** Spot within this many percent of the watched wall triggers the wall strategy. */
  const WallProximity: real := 2.0
  /** Premium thresholds, in volatility points. */
  const CheapVol: real := -5.0
  const RichVol: real := 5.0
  /** A short is extended when the price is above 1.05 times the 20-day average. */
  const Extension: real := 1.05

  datatype Side = Long | Short

  datatype SpotStrategy =
    | AccumulateGammaBreakout
    | MomentumBuy
    | BuyTheDip
    | ValueReversalWatch
    | BreakdownWatch
    | MeanReversionShort
    | FadeTheRally

  datatype OptionStrategy = LongCallStraddle | BullCallSpread | IronCondorCreditSpread | PutDebitSpread

  /** The numbers a card works with after its defaults are applied. */
  datatype CardInputs = CardInputs(
    price: real,
    sma20: Float,
    sma50: Float,
    vrp: real,
    iv: real,
    callWall: real,
    putWall: real,
    distCall: real,
    distPut: real)

  datatype Card = Card(side: Side, inputs: CardInputs, spot: SpotStrategy, options: OptionStrategy, watchedWall: real)

  datatype View = Placeholder | Columns(longs: seq<Row>, shorts: seq<Row>)

  // ---------------------------------------------------------------- one card

  /** The moving average implied by a price and its distance in percent:
      `price / (1 + dist / 100)` when the distance is truthy, the price itself otherwise.
      A distance of exactly -100 divides by zero (an infinity, or NaN at price 0). */
  function ImpliedSma(price: real, dist: JsNum): (s: Float)
    ensures !Truthy(dist) ==> s == Finite(price)
    ensures Truthy(dist) && dist.n != -100.0 ==> s == Finite(price / (1.0 + dist.n / 100.0))
    ensures Truthy(dist) && dist.n == -100.0 ==> !s.Finite?
  {
    if Truthy(dist) then JsDiv(price, 1.0 + dist.n / 100.0) else Finite(price)
  }

  lemma MulCancel(x: real, y: real, s: real)
    requires s != 0.0 && x * s == y * s
    ensures x == y
  {
    assert x == (x * s) / s;
    assert y == (y * s) / s;
  }

  lemma RatioStep(p: real, s: real)
    requires s != 0.0 && p != 0.0
    ensures 1.0 + ScanDriver.DistancePct(p, s) / 100.0 == p / s
    ensures p / (p / s) == s
  {
    var q := p / s;
    assert q * s == p;
    assert ((p - s) / s) * s == p - s;
    assert (q - 1.0) * s == p - s;
    MulCancel((p - s) / s, q - 1.0, s);
    assert q != 0.0;
    assert (p / q) * q == p;
    assert s * q == p;
    MulCancel(p / q, s, q);
  }

  /** Reading back the average from the distance the scan computed gives the average the
      scan used, for a nonzero price and average. */
  lemma ImpliedSmaInvertsDistance(price: real, sma: real)
    requires price != 0.0 && sma != 0.0
    ensures ImpliedSma(price, Num(ScanDriver.DistancePct(price, sma))) == Finite(sma)
  {
    var d := ScanDriver.DistancePct(price, sma);
    if d == 0.0 {
      var q := (price - sma) / sma;
      assert q * 100.0 == 0.0;
      assert q * sma == price - sma;
    } else {
      RatioStep(price, sma);
      assert p_over_s_nonzero: price / sma != 0.0 by {
        assert (price / sma) * sma == price;
      }
    }
  }

  /** The card's defaults: each missing or zero field reads as 0; the averages are
      implied from the price and the distances. */
  function Defaults(row: Row): (c: CardInputs)
    ensures c.price == OrZero(row.price)
    ensures c.sma20 == ImpliedSma(c.price, row.distSma20) && c.sma50 == ImpliedSma(c.price, row.distSma50)
    ensures c.vrp == OrZero(row.vrp) && c.iv == OrZero(row.iv)
    ensures c.callWall == OrZero(row.callWall) && c.putWall == OrZero(row.putWall)
    ensures c.distCall == OrZero(row.distCallWall) && c.distPut == OrZero(row.distPutWall)
  {
    var price := OrZero(row.price);
    CardInputs(price, ImpliedSma(price, row.distSma20), ImpliedSma(price, row.distSma50),
               OrZero(row.vrp), OrZero(row.iv), OrZero(row.callWall), OrZero(row.putWall),
               OrZero(row.distCallWall), OrZero(row.distPutWall))
  }

  function Abs(x: real): real { if x < 0.0 then -x else x }

  /** The long card's spot strategy: near the call wall, above the 20-day average,
      between the averages, or below them. */
  function LongSpot(c: CardInputs): (s: SpotStrategy)
    ensures s == AccumulateGammaBreakout <==> Abs(c.distCall) < WallProximity
    ensures s == MomentumBuy <==> Abs(c.distCall) >= WallProximity && FLess(c.sma20, Finite(c.price))
    ensures s == BuyTheDip <==>
              && Abs(c.distCall) >= WallProximity && !FLess(c.sma20, Finite(c.price))
              && FLess(Finite(c.price), c.sma20) && FLess(c.sma50, Finite(c.price))
    ensures s == ValueReversalWatch <==>
              && Abs(c.distCall) >= WallProximity && !FLess(c.sma20, Finite(c.price))
              && !(FLess(Finite(c.price), c.sma20) && FLess(c.sma50, Finite(c.price)))
  {
    if Abs(c.distCall) < WallProximity then AccumulateGammaBreakout
    else if FLess(c.sma20, Finite(c.price)) then MomentumBuy
    else if FLess(Finite(c.price), c.sma20) && FLess(c.sma50, Finite(c.price)) then BuyTheDip
    else ValueReversalWatch
  }

  /** The short card's spot strategy: near the put wall, extended above the 20-day
      average, or otherwise fading. */
  function ShortSpot(c: CardInputs): (s: SpotStrategy)
    ensures s == BreakdownWatch <==> Abs(c.distPut) < WallProximity
    ensures s == MeanReversionShort <==>
              Abs(c.distPut) >= WallProximity && FLess(FScale(c.sma20, Extension), Finite(c.price))
    ensures s == FadeTheRally <==>
              Abs(c.distPut) >= WallProximity && !FLess(FScale(c.sma20, Extension), Finite(c.price))
  {
    if Abs(c.distPut) < WallProximity then BreakdownWatch
    else if FLess(FScale(c.sma20, Extension), Finite(c.price)) then MeanReversionShort
    else FadeTheRally
  }

  function Options(side: Side, vrp: real): (o: OptionStrategy)
    ensures side == Long ==> (o == LongCallStraddle <==> vrp < CheapVol)
    ensures side == Long ==> (o == BullCallSpread <==> vrp >= CheapVol)
    ensures side == Short ==> (o == IronCondorCreditSpread <==> vrp > RichVol)
    ensures side == Short ==> (o == PutDebitSpread <==> vrp <= RichVol)
  {
    match side
    case Long => if vrp < CheapVol then LongCallStraddle else BullCallSpread
    case Short => if vrp > RichVol then IronCondorCreditSpread else PutDebitSpread
  }

  /** `StrategyCard`: the card computes its defaults from the row, picks the spot
      strategy by its side's rules and the option strategy by the VRP thresholds, so a
      long card only ever carries a long strategy and watches the call wall, a short
      card a short strategy and the put wall. */
  function StrategyCard(row: Row, side: Side): (card: Card)
    ensures card.inputs == Defaults(row) && card.side == side
    ensures card.spot == if side == Long then LongSpot(card.inputs) else ShortSpot(card.inputs)
    ensures card.options == Options(side, card.inputs.vrp)
    ensures side == Long ==> card.spot in {AccumulateGammaBreakout, MomentumBuy, BuyTheDip, ValueReversalWatch}
    ensures side == Long ==> card.options in {LongCallStraddle, BullCallSpread}
    ensures side == Short ==> card.spot in {BreakdownWatch, MeanReversionShort, FadeTheRally}
    ensures side == Short ==> card.options in {IronCondorCreditSpread, PutDebitSpread}
    ensures card.watchedWall == if side == Long then card.inputs.callWall else card.inputs.putWall
  {
    var c := Defaults(row);
    match side
    case Long => Card(Long, c, LongSpot(c), Options(Long, c.vrp), c.callWall)
    case Short => Card(Short, c, ShortSpot(c), Options(Short, c.vrp), c.putWall)
  }

  /** A row whose distance to its 20-day average is missing or zero sits on that average,
      so a long card never calls it momentum or a dip. */
  lemma FlatRowIsNoTrend(row: Row)
    requires !Truthy(row.distSma20)
    ensures StrategyCard(row, Long).spot !in {MomentumBuy, BuyTheDip}
  {
  }

  // ---------------------------------------------------------------- ranking

  /** `r.VRP !== undefined && r.VRP !== null`. */
  predicate HasVrp(r: Row) { r.vrp.Num? }

  /** `data.filter(...)`: the rows with a premium, each as often as given. */
  function ValidData(rows: seq<Row>): (r: seq<Row>)
    ensures |r| <= |rows|
    ensures forall x :: multiset(r)[x] == if HasVrp(x) then multiset(rows)[x] else 0
    ensures forall x :: x in r <==> x in rows && HasVrp(x)
  {
    Filter(HasVrp, rows)
  }

  /** The filter keeps the scan's order, on which the stable sort's ties depend: the
      valid rows of two batches are those of the first followed by those of the
      second, and a single row survives exactly when it has a premium. */
  lemma ValidDataKeepsOrder(a: seq<Row>, b: seq<Row>)
    ensures ValidData(a + b) == ValidData(a) + ValidData(b)
    ensures |b| == 1 ==> ValidData(b) == if HasVrp(b[0]) then b else []
  {
    FilterAppend(HasVrp, a, b);
  }

  /** The sort key: `VRP || 0`, negated for the descending column. */
  function Key(r: Row, desc: bool): real {
    if desc then -OrZero(r.vrp) else OrZero(r.vrp)
  }

  predicate SortedBy(s: seq<Row>, desc: bool) {
    forall i, j :: 0 <= i < j < |s| ==> Key(s[i], desc) <= Key(s[j], desc)
  }

  /** The rows with key `v`, in order. */
  function WithKey(s: seq<Row>, desc: bool, v: real): seq<Row> {
    if |s| == 0 then []
    else
      var rest := WithKey(s[..|s| - 1], desc, v);
      if Key(s[|s| - 1], desc) == v then rest + [s[|s| - 1]] else rest
  }

  lemma {:induction false} WithKeyAppendOne(s: seq<Row>, x: Row, desc: bool, v: real)
    ensures WithKey(s + [x], desc, v) == WithKey(s, desc, v) + (if Key(x, desc) == v then [x] else [])
  {
    assert (s + [x])[..|s|] == s;
  }

  /** Puts `x` after every row whose key does not exceed its own. */
  function InsertAfterEqual(t: seq<Row>, x: Row, desc: bool): (r: seq<Row>)
    ensures multiset(r) == multiset(t) + multiset{x}
  {
    if |t| == 0 then [x]
    else if Key(t[|t| - 1], desc) <= Key(x, desc) then t + [x]
    else
      assert t == t[..|t| - 1] + [t[|t| - 1]];
      InsertAfterEqual(t[..|t| - 1], x, desc) + [t[|t| - 1]]
  }

  lemma {:induction false} InsertKeepsSorted(t: seq<Row>, x: Row, desc: bool)
    requires SortedBy(t, desc)
    ensures SortedBy(InsertAfterEqual(t, x, desc), desc)
  {
    if |t| > 0 && Key(t[|t| - 1], desc) > Key(x, desc) {
      var p := t[..|t| - 1];
      var last := t[|t| - 1];
      var r' := InsertAfterEqual(p, x, desc);
      InsertKeepsSorted(p, x, desc);
      forall i | 0 <= i < |r'| ensures Key(r'[i], desc) <= Key(last, desc) {
        assert r'[i] in multiset(r');
        if r'[i] != x {
          assert r'[i] in multiset(p);
          var j :| 0 <= j < |p| && p[j] == r'[i];
          assert p[j] == t[j];
        }
      }
    }
  }

  lemma {:induction false} InsertIsStable(t: seq<Row>, x: Row, desc: bool, v: real)
    ensures WithKey(InsertAfterEqual(t, x, desc), desc, v)
         == WithKey(t, desc, v) + (if Key(x, desc) == v then [x] else [])
  {
    if |t| == 0 {
      WithKeyAppendOne([], x, desc, v);
    } else if Key(t[|t| - 1], desc) <= Key(x, desc) {
      WithKeyAppendOne(t, x, desc, v);
    } else {
      var p := t[..|t| - 1];
      var last := t[|t| - 1];
      InsertIsStable(p, x, desc, v);
      WithKeyAppendOne(InsertAfterEqual(p, x, desc), last, desc, v);
      WithKeyAppendOne(p, last, desc, v);
      assert t == p + [last];
    }
  }

  /** The stable sort `[...rows].sort(cmp)`. */
  function SortBy(s: seq<Row>, desc: bool): (r: seq<Row>)
    ensures multiset(r) == multiset(s)
    ensures SortedBy(r, desc)
  {
    if |s| == 0 then []
    else
      assert s == s[..|s| - 1] + [s[|s| - 1]];
      InsertKeepsSorted(SortBy(s[..|s| - 1], desc), s[|s| - 1], desc);
      InsertAfterEqual(SortBy(s[..|s| - 1], desc), s[|s| - 1], desc)
  }

  /** Rows with equal premiums keep their input order. */
  lemma {:induction false} SortIsStable(s: seq<Row>, desc: bool, v: real)
    ensures WithKey(SortBy(s, desc), desc, v) == WithKey(s, desc, v)
  {
    if |s| > 0 {
      SortIsStable(s[..|s| - 1], desc, v);
      InsertIsStable(SortBy(s[..|s| - 1], desc), s[|s| - 1], desc, v);
    }
  }

  function Take(s: seq<Row>, n: nat): (r: seq<Row>)
    ensures |r| == if |s| < n then |s| else n
    ensures r == s[..|r|]
  {
    if |s| < n then s else s[..n]
  }

  /** `Playbook`: the placeholder for missing or empty data, otherwise the two columns. */
  function Playbook(data: Option<seq<Row>>): (v: View)
    ensures v.Placeholder? <==> data.None? || |data.value| == 0
    ensures v.Columns? ==>
      && v.longs == Take(SortBy(ValidData(data.value), false), CardsPerColumn)
      && v.shorts == Take(SortBy(ValidData(data.value), true), CardsPerColumn)
  {
    if data.None? || |data.value| == 0 then Placeholder
    else
      var valid := ValidData(data.value);
      Columns(Take(SortBy(valid, false), CardsPerColumn), Take(SortBy(valid, true), CardsPerColumn))
  }

  /** Every row of a column comes from the data and has a premium. */
  lemma ColumnComesFromValidData(rows: seq<Row>, desc: bool)
    ensures var col := Take(SortBy(ValidData(rows), desc), CardsPerColumn);
      |col| <= CardsPerColumn && forall x :: x in col ==> x in rows && HasVrp(x)
  {
    var sorted := SortBy(ValidData(rows), desc);
    var col := Take(sorted, CardsPerColumn);
    forall x | x in col ensures x in multiset(sorted) {
      var i :| 0 <= i < |col| && col[i] == x;
      assert sorted[i] == x;
    }
  }

  /** In a sorted sequence, a row that ranks strictly before the row at `i` sits
      before `i`. */
  lemma SmallerKeyComesFirst(sorted: seq<Row>, desc: bool, x: Row, i: nat)
    requires SortedBy(sorted, desc) && x in sorted && i < |sorted|
    requires Key(x, desc) < Key(sorted[i], desc)
    ensures x in sorted[..i]
  {
    var j :| 0 <= j < |sorted| && sorted[j] == x;
    assert sorted[..i][j] == x;
  }

  /** A column is in key order, and no row with a premium that ranks strictly before a
      shown row is left out. */
  lemma ColumnIsTopSix(rows: seq<Row>, desc: bool)
    ensures var col := Take(SortBy(ValidData(rows), desc), CardsPerColumn);
      && SortedBy(col, desc)
      && forall x, i :: x in ValidData(rows) && 0 <= i < |col| && Key(x, desc) < Key(col[i], desc) ==> x in col
  {
    var valid := ValidData(rows);
    var sorted := SortBy(valid, desc);
    var col := Take(sorted, CardsPerColumn);
    forall x, i | x in valid && 0 <= i < |col| && Key(x, desc) < Key(col[i], desc) ensures x in col {
      assert x in multiset(valid);
      SmallerKeyComesFirst(sorted, desc, x, i);
      assert sorted[..i] == col[..i];
    }
  }
}
