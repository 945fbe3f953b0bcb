/** The values the backend hands to its JSON encoder, and `sanitize_json`, the
    recursive scrub that replaces NaN and the infinities by 0.0 before encoding. */
module JsonValues {
  import opened Common

  /** A Python value as `sanitize_json` distinguishes it. Dicts keep insertion order,
      so a dict is its sequence of (key, value) entries. `NumpyInt` stands for
      `np.int64`/`np.int32`; `Timestamp` for a `pd.Timestamp`, carried as the day it
      formats to. */
  datatype Json =
    | JNull
    | JBool(b: bool)
    | JInt(i: int)
    | JFloat(f: Float)
    | JStr(s: string)
    | NumpyInt(n: int)
    | Timestamp(day: string)
    | JList(items: seq<Json>)
    | JDict(entries: seq<(string, Json)>)

  function Keys(entries: seq<(string, Json)>): (ks: seq<string>)
    ensures |ks| == |entries|
    ensures forall i :: 0 <= i < |entries| ==> ks[i] == entries[i].0
  {
    seq(|entries|, i requires 0 <= i < |entries| => entries[i].0)
  }

  /** `sanitize_json`: dicts and lists are rebuilt entry by entry, NaN and ±Inf become
      0.0, numpy integers become plain ints, timestamps become their day string,
      everything else is returned as it is. */
  function Sanitize(j: Json): (r: Json)
    decreases j
    ensures j.JList? ==> r.JList? && |r.items| == |j.items|
    ensures j.JList? ==> forall i :: 0 <= i < |j.items| ==> r.items[i] == Sanitize(j.items[i])
    ensures j.JDict? ==> r.JDict? && |r.entries| == |j.entries| && Keys(r.entries) == Keys(j.entries)
    ensures j.JDict? ==> forall i :: 0 <= i < |j.entries| ==> r.entries[i].1 == Sanitize(j.entries[i].1)
    ensures j.JFloat? && j.f.Finite? ==> r == j
    ensures j.JFloat? && !j.f.Finite? ==> r == JFloat(Finite(0.0))
    ensures j.NumpyInt? ==> r == JInt(j.n)
    ensures j.Timestamp? ==> r == JStr(j.day)
    ensures j.JNull? || j.JBool? || j.JInt? || j.JStr? ==> r == j
  {
    match j
    case JList(items) =>
      JList(seq(|items|, i requires 0 <= i < |items| => Sanitize(items[i])))
    case JDict(entries) =>
      JDict(seq(|entries|, i requires 0 <= i < |entries| => (entries[i].0, Sanitize(entries[i].1))))
    case JFloat(f) => if f.Finite? then j else JFloat(Finite(0.0))
    case NumpyInt(n) => JInt(n)
    case Timestamp(day) => JStr(day)
    case _ => j
  }

  /** Ready for a strict JSON encoder: only finite floats, no numpy or pandas scalars. */
  predicate Clean(j: Json)
    decreases j
  {
    match j
    case JList(items) => forall i :: 0 <= i < |items| ==> Clean(items[i])
    case JDict(entries) => forall i :: 0 <= i < |entries| ==> Clean(entries[i].1)
    case JFloat(f) => f.Finite?
    case NumpyInt(_) => false
    case Timestamp(_) => false
    case _ => true
  }

  /** Whatever goes in, the output can be encoded. */
  lemma {:induction false} SanitizeIsClean(j: Json)
    decreases j
    ensures Clean(Sanitize(j))
  {
    match j
    case JList(items) =>
      forall i | 0 <= i < |items| ensures Clean(Sanitize(items[i])) {
        SanitizeIsClean(items[i]);
      }
    case JDict(entries) =>
      forall i | 0 <= i < |entries| ensures Clean(Sanitize(entries[i].1)) {
        SanitizeIsClean(entries[i].1);
      }
    case _ =>
  }

  /** A value that is already clean passes through unchanged. */
  lemma {:induction false} SanitizeKeepsClean(j: Json)
    decreases j
    requires Clean(j)
    ensures Sanitize(j) == j
  {
    match j
    case JList(items) =>
      forall i | 0 <= i < |items| ensures Sanitize(items[i]) == items[i] {
        SanitizeKeepsClean(items[i]);
      }
      assert Sanitize(j).items == items;
    case JDict(entries) =>
      forall i | 0 <= i < |entries| ensures Sanitize(entries[i].1) == entries[i].1 {
        SanitizeKeepsClean(entries[i].1);
      }
      assert Sanitize(j).entries == entries;
    case _ =>
  }

  /** Scrubbing twice is scrubbing once. */
  lemma SanitizeIdempotent(j: Json)
    ensures Sanitize(Sanitize(j)) == Sanitize(j)
  {
    SanitizeIsClean(j);
    SanitizeKeepsClean(Sanitize(j));
  }
}
