/** Option-chain rows and the "wall" rule shared by the asset endpoint and the scan:
    a wall is the strike of the first row whose open interest is maximal
    (pandas `idxmax`, which returns the first label holding the maximum). */
module Chain {

  /** One listed contract: its strike, open interest and implied volatility. */
  datatype Contract = Contract(strike: real, openInterest: real, impliedVol: real)

  /** Index of the first maximal value. */
  function FirstMaxIndex(s: seq<real>): (k: nat)
    requires |s| > 0
    ensures k < |s|
    ensures forall j :: 0 <= j < |s| ==> s[j] <= s[k]
    ensures forall j :: 0 <= j < k ==> s[j] < s[k]
  {
    if |s| == 1 then 0
    else
      var k' := FirstMaxIndex(s[..|s| - 1]);
      if s[|s| - 1] > s[k'] then |s| - 1 else k'
  }

  function OpenInterests(rows: seq<Contract>): (r: seq<real>)
    ensures |r| == |rows|
    ensures forall i :: 0 <= i < |rows| ==> r[i] == rows[i].openInterest
  {
    seq(|rows|, i requires 0 <= i < |rows| => rows[i].openInterest)
  }

  /** Strike of the first row with maximal open interest; 0 when there are no rows. */
  function Wall(rows: seq<Contract>): (w: real)
    ensures |rows| == 0 ==> w == 0.0
    ensures |rows| > 0 ==> exists k :: 0 <= k < |rows| && w == rows[k].strike && IsFirstMax(rows, k)
  {
    if |rows| == 0 then 0.0 else rows[FirstMaxIndex(OpenInterests(rows))].strike
  }

  /** Row `k` has the largest open interest and no earlier row ties with it. */
  ghost predicate IsFirstMax(rows: seq<Contract>, k: nat)
    requires k < |rows|
  {
    && (forall j :: 0 <= j < |rows| ==> rows[j].openInterest <= rows[k].openInterest)
    && (forall j :: 0 <= j < k ==> rows[j].openInterest < rows[k].openInterest)
  }

  /** Putting rows after the wall row that do not exceed its open interest leaves the wall in place. */
  lemma {:induction false} WallStableUnderSmallerAppend(rows: seq<Contract>, extra: seq<Contract>)
    requires |rows| > 0
    requires forall j :: 0 <= j < |extra| ==>
               extra[j].openInterest <= rows[FirstMaxIndex(OpenInterests(rows))].openInterest
    ensures Wall(rows + extra) == Wall(rows)
  {
    var all := rows + extra;
    var k := FirstMaxIndex(OpenInterests(rows));
    var k' := FirstMaxIndex(OpenInterests(all));
    assert IsFirstMax(all, k) by {
      forall j | 0 <= j < |all| ensures all[j].openInterest <= all[k].openInterest {
        if j >= |rows| { assert all[j] == extra[j - |rows|]; }
      }
    }
    assert IsFirstMax(all, k');
    assert all[k] == rows[k];
  }
}
