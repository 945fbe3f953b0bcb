/** Values shared by the backend and the browser side of the screening dashboard. */
module Common {

  datatype Option<+T> = None | Some(value: T) {
    function GetOr(default: T): T {
      match this
      case Some(v) => v
      case None => default
    }
  }

  datatype Result<+T, +E> = Ok(value: T) | Err(error: E)

  /** The outcome of a call into code outside the model (a provider, the network):
      either it produced a value or it raised an exception with this message. */
  datatype Fetch<+T> = Fetched(value: T) | Raised(message: string)

  /** A binary64 float, seen only through the cases that the code distinguishes. */
  datatype Float = Finite(v: real) | NaN | PosInf | NegInf

  /** IEEE subtraction restricted to these cases. */
  function FSub(a: Float, b: Float): (r: Float)
    ensures a.Finite? && b.Finite? ==> r == Finite(a.v - b.v)
    ensures a.NaN? || b.NaN? ==> r.NaN?
  {
    match (a, b)
    case (NaN, _) => NaN
    case (_, NaN) => NaN
    case (Finite(x), Finite(y)) => Finite(x - y)
    case (PosInf, PosInf) => NaN
    case (NegInf, NegInf) => NaN
    case (PosInf, _) => PosInf
    case (NegInf, _) => NegInf
    case (Finite(_), PosInf) => NegInf
    case (Finite(_), NegInf) => PosInf
  }

  /** JavaScript `x / y` on finite operands: a zero divisor gives an infinity or NaN, never an error. */
  function JsDiv(x: real, y: real): (r: Float)
    ensures y != 0.0 ==> r == Finite(x / y)
    ensures y == 0.0 ==> (r.NaN? <==> x == 0.0)
  {
    if y != 0.0 then Finite(x / y)
    else if x > 0.0 then PosInf
    else if x < 0.0 then NegInf
    else NaN
  }

  /** Multiplication by a positive finite constant. */
  function FScale(a: Float, c: real): (r: Float)
    requires c > 0.0
    ensures a.Finite? <==> r.Finite?
  {
    match a
    case Finite(x) => Finite(x * c)
    case _ => a
  }

  /** JavaScript `a < b`: false whenever either side is NaN. */
  predicate FLess(a: Float, b: Float) {
    match (a, b)
    case (NaN, _) => false
    case (_, NaN) => false
    case (Finite(x), Finite(y)) => x < y
    case (NegInf, NegInf) => false
    case (NegInf, _) => true
    case (_, PosInf) => !a.PosInf?
    case (_, _) => false
  }

  lemma {:induction false} FLessIrreflexiveAsymmetric(a: Float, b: Float)
    ensures !FLess(a, a)
    ensures FLess(a, b) ==> !FLess(b, a)
    ensures FLess(a, b) ==> !a.NaN? && !b.NaN?
  {
    match (a, b)
    case (Finite(x), Finite(y)) =>
    case _ =>
  }

  /** A numeric field of a row as the browser sees it: absent, null, or a number
      (JSON cannot carry NaN or the infinities, so no other number reaches the browser). */
  datatype JsNum = Undefined | Null | Num(n: real)

  /** JavaScript truthiness of such a field: 0, null and undefined are falsy. */
  predicate Truthy(x: JsNum) {
    x.Num? && x.n != 0.0
  }

  /** `x || 0`: the value of a truthy field, 0 otherwise. */
  function OrZero(x: JsNum): (r: real)
    ensures Truthy(x) ==> r == x.n
    ensures !Truthy(x) ==> r == 0.0
    ensures x.Num? ==> r == x.n
  {
    if Truthy(x) then x.n else 0.0
  }

  /** One result row of a scan as the browser holds it (the keys the views read). */
  datatype Row = Row(
    ticker: string,
    sector: string,
    price: JsNum,
    distSma20: JsNum,
    distSma50: JsNum,
    vrp: JsNum,
    iv: JsNum,
    callWall: JsNum,
    putWall: JsNum,
    distCallWall: JsNum,
    distPutWall: JsNum)

  /** ASCII lower-casing of one character. */
  function LowerChar(c: char): (r: char)
    ensures 'A' <= c <= 'Z' ==> 'a' <= r <= 'z'
    ensures !('A' <= c <= 'Z') ==> r == c
  {
    if 'A' <= c <= 'Z' then (c as int - 'A' as int + 'a' as int) as char else c
  }

  /** `str.lower()` on ASCII text. */
  function Lower(s: string): (r: string)
    ensures |r| == |s|
    ensures forall i :: 0 <= i < |s| ==> r[i] == LowerChar(s[i])
  {
    seq(|s|, i requires 0 <= i < |s| => LowerChar(s[i]))
  }

  lemma {:induction false} LowerIdempotent(s: string)
    ensures Lower(Lower(s)) == Lower(s)
  {
    assert forall i :: 0 <= i < |s| ==> LowerChar(LowerChar(s[i])) == LowerChar(s[i]);
  }

  // ---------------------------------------------------------------- filtering

  /** The items of `s` that `keep` accepts, in their order and with their repeats:
      Python's filtering comprehension and JavaScript's `Array.prototype.filter`. */
  function Filter<T(!new)>(keep: T -> bool, s: seq<T>): (r: seq<T>)
    ensures |r| <= |s|
    ensures forall x :: multiset(r)[x] == if keep(x) then multiset(s)[x] else 0
    ensures forall x :: x in r <==> x in s && keep(x)
    ensures |s| == 1 ==> r == if keep(s[0]) then s else []
  {
    if |s| == 0 then []
    else
      var rest := Filter(keep, s[..|s| - 1]);
      assert s == s[..|s| - 1] + [s[|s| - 1]];
      if keep(s[|s| - 1]) then rest + [s[|s| - 1]] else rest
  }

  /** Filtering a concatenation filters each part and keeps the parts in order; with
      the one-item case above this fixes the result as the ordered subsequence of the
      accepted items. */
  lemma {:induction false} FilterAppend<T(!new)>(keep: T -> bool, a: seq<T>, b: seq<T>)
    ensures Filter(keep, a + b) == Filter(keep, a) + Filter(keep, b)
  {
    if |b| == 0 {
      assert a + b == a;
    } else {
      var b' := b[..|b| - 1];
      assert (a + b)[..|a + b| - 1] == a + b';
      assert (a + b)[|a + b| - 1] == b[|b| - 1];
      FilterAppend(keep, a, b');
    }
  }
}
