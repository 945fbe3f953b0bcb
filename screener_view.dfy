/** The screener page in the browser: the scan button, the interval that polls the
    job, and the results table's cell formatting. Each poll tick is one event whose
    reply is a parameter. */
module ScreenerView {
  import opened Common
  import ScanDriver

  /** The sector list's first entry, selected initially. */
  const DefaultSector: string := "Todos"
  /** `numTickers` starts at 50 and no control changes it. */
  const DefaultNumTickers: int := 50
  const DefaultMaxDte: int := 45
  const DefaultLookback: int := 30

  /** Progress shown right after the button is pressed, the cap while polling, and the
      value shown once the job completes. */
  const StartProgress: int := 5
  const ProgressStep: int := 5
  const PollingCap: int := 95
  const DoneProgress: int := 100

  // ---------------------------------------------------------------- parseInt

  /** A slider state: the initial number, or the string an `input` event stores. */
  datatype SliderValue = Number(n: nat) | Text(s: string)

  predicate IsDigit(c: char) { '0' <= c <= '9' }

  function DigitValue(c: char): nat
    requires IsDigit(c)
  {
    (c as int - '0' as int) as nat
  }

  function DigitChar(d: nat): (c: char)
    requires d < 10
    ensures IsDigit(c) && DigitValue(c) == d
  {
    ('0' as int + d) as char
  }

  /** The longest prefix made of decimal digits. */
  function LeadingDigits(s: string): (r: string)
    ensures |r| <= |s| && r == s[..|r|]
    ensures forall i :: 0 <= i < |r| ==> IsDigit(r[i])
    ensures |r| < |s| ==> !IsDigit(s[|r|])
  {
    if |s| == 0 || !IsDigit(s[0]) then []
    else [s[0]] + LeadingDigits(s[1..])
  }

  /** The value of a string of digits, read left to right. */
  function DigitsValue(s: string): nat
    requires forall i :: 0 <= i < |s| ==> IsDigit(s[i])
  {
    if |s| == 0 then 0 else DigitsValue(s[..|s| - 1]) * 10 + DigitValue(s[|s| - 1])
  }

  /** `parseInt(x)` on a slider value: the number itself, or the value of the leading
      digits of the string; None (NaN) when the string does not start with a digit. */
  function ParseInt(x: SliderValue): (r: Option<int>)
    ensures x.Number? ==> r == Some(x.n)
    ensures x.Text? ==> (r.None? <==> x.s == [] || !IsDigit(x.s[0]))
  {
    match x
    case Number(n) => Some(n)
    case Text(s) =>
      var digits := LeadingDigits(s);
      if |digits| == 0 then None else Some(DigitsValue(digits))
  }

  /** The decimal text a range input reports for `n`. */
  function ShowNat(n: nat): (s: string)
    ensures |s| > 0
    ensures forall i :: 0 <= i < |s| ==> IsDigit(s[i])
  {
    if n < 10 then [DigitChar(n)] else ShowNat(n / 10) + [DigitChar(n % 10)]
  }

  lemma {:induction false} ShowNatValue(n: nat)
    ensures DigitsValue(ShowNat(n)) == n
  {
    if n >= 10 {
      var s := ShowNat(n);
      assert s[..|s| - 1] == ShowNat(n / 10);
      ShowNatValue(n / 10);
    } else {
      assert ShowNat(n)[..0] == [];
    }
  }

  lemma {:induction false} AllDigitsLead(s: string)
    requires forall i :: 0 <= i < |s| ==> IsDigit(s[i])
    ensures LeadingDigits(s) == s
  {
    if |s| > 0 {
      AllDigitsLead(s[1..]);
    }
  }

  /** Whatever the slider has been moved to, `parseInt` sends that number. */
  lemma ParseIntReadsSlider(n: nat)
    ensures ParseInt(Text(ShowNat(n))) == Some(n)
    ensures ParseInt(Number(n)) == Some(n)
  {
    AllDigitsLead(ShowNat(n));
    ShowNatValue(n);
  }

  // ---------------------------------------------------------------- the page state

  /** The body `handleScan` posts; NaN `parseInt` results are None. */
  datatype ClientConfig = ClientConfig(sector: string, numTickers: int, maxDte: Option<int>, lookback: Option<int>)

  /** How the start request ended: it threw, or it answered with or without a `task_id`. */
  datatype StartOutcome = StartThrew | StartAnswered(taskId: Option<string>)

  /** How one poll ended: the request threw, it answered with no body, or it answered
      with the job's status, data and error. */
  datatype PollReply = PollThrew | NoBody | Status(status: string, data: seq<Row>, error: string)

  /** `Math.min(prev + 5, 95)`. */
  function NextProgress(prev: int): (p: int)
    ensures p == if prev + ProgressStep < PollingCap then prev + ProgressStep else PollingCap
    ensures prev <= PollingCap ==> prev <= p <= PollingCap
  {
    if prev + ProgressStep < PollingCap then prev + ProgressStep else PollingCap
  }

  /** Progress after `k` polls that neither complete nor fail. */
  function ProgressAfter(p: int, k: nat): int {
    if k == 0 then p else NextProgress(ProgressAfter(p, k - 1))
  }

  /** From at most 95, each running poll adds 5 until the bar sits at 95. */
  lemma {:induction false} ProgressAfterClosedForm(p: int, k: nat)
    requires p <= PollingCap
    ensures ProgressAfter(p, k) == if p + ProgressStep * k < PollingCap then p + ProgressStep * k else PollingCap
  {
    if k > 0 {
      ProgressAfterClosedForm(p, k - 1);
    }
  }

  class ScreenerPage {
    /** Whether the parent passed `onScanComplete`. */
    const hasScanHandler: bool
    var loading: bool
    var taskId: Option<string>
    var results: seq<Row>
    var progress: int
    var sector: string
    var maxDte: SliderValue
    var lookback: SliderValue
    /** The id the live interval polls; None when no interval is set. */
    var polling: Option<string>
    var mounted: bool
    /** Every array handed to `onScanComplete`, in order. */
    var delivered: seq<seq<Row>>

    /** The page's standing invariant: the interval follows `taskId` while mounted, a
        job is only polled while loading, and results are empty while loading. */
    ghost predicate Valid()
      reads this
    {
      && polling == (if mounted then taskId else None)
      && (taskId.Some? ==> loading && taskId.value != "" && StartProgress <= progress <= PollingCap)
      && (loading ==> results == [])
      && 0 <= progress <= DoneProgress
    }

    constructor (initialResults: Option<seq<Row>>, hasScanHandler: bool)
      ensures Valid()
      ensures this.hasScanHandler == hasScanHandler
      ensures !loading && taskId == None && progress == 0 && delivered == []
      ensures results == initialResults.GetOr([])
      ensures sector == DefaultSector && maxDte == Number(DefaultMaxDte) && lookback == Number(DefaultLookback)
      ensures mounted
    {
      this.hasScanHandler := hasScanHandler;
      loading := false;
      taskId := None;
      results := initialResults.GetOr([]);
      progress := 0;
      sector := DefaultSector;
      maxDte := Number(DefaultMaxDte);
      lookback := Number(DefaultLookback);
      polling := None;
      mounted := true;
      delivered := [];
    }

    /** A filter control changed. */
    method SetFilters(sector: string, maxDte: SliderValue, lookback: SliderValue)
      modifies this
      requires Valid()
      ensures Valid()
      ensures this.sector == sector && this.maxDte == maxDte && this.lookback == lookback
      ensures loading == old(loading) && taskId == old(taskId) && results == old(results)
      ensures progress == old(progress) && polling == old(polling) && delivered == old(delivered)
      ensures mounted == old(mounted)
    {
      this.sector := sector;
      this.maxDte := maxDte;
      this.lookback := lookback;
    }

    /** `handleScan`, pressed while idle (the button only renders when not loading).
        Returns the body it posts. A `task_id` in the answer starts polling; a throw
        ends loading; an answer without `task_id` leaves the page loading with
        nothing to poll. */
    method HandleScan(outcome: StartOutcome) returns (config: ClientConfig)
      modifies this
      requires Valid() && mounted && !loading
      ensures Valid()
      ensures config == ClientConfig(sector, DefaultNumTickers, ParseInt(maxDte), ParseInt(lookback))
      ensures results == [] && progress == StartProgress
      ensures outcome.StartThrew? ==> !loading && taskId == None
      ensures outcome.StartAnswered? && outcome.taskId.Some? && outcome.taskId.value != "" ==>
                loading && taskId == outcome.taskId && polling == outcome.taskId
      ensures outcome.StartAnswered? && (outcome.taskId.None? || outcome.taskId.value == "") ==>
                loading && taskId == None && polling == None
      ensures delivered == old(delivered) && mounted && sector == old(sector)
      ensures maxDte == old(maxDte) && lookback == old(lookback)
    {
      loading := true;
      results := [];
      progress := StartProgress;
      config := ClientConfig(sector, DefaultNumTickers, ParseInt(maxDte), ParseInt(lookback));
      match outcome
      case StartThrew =>
        loading := false;
      case StartAnswered(id) =>
        if id.Some? && id.value != "" {
          taskId := id;
          polling := id;
        }
    }

    /** One firing of the interval. */
    method Tick(reply: PollReply)
      modifies this
      requires Valid() && polling.Some?
      ensures Valid()
      ensures reply.PollThrew? || reply.NoBody? ==>
                && loading == old(loading) && taskId == old(taskId) && results == old(results)
                && progress == old(progress) && delivered == old(delivered) && polling == old(polling)
      ensures reply.Status? && reply.status == "completed" ==>
                && results == reply.data && !loading && taskId == None && polling == None
                && progress == DoneProgress
                && delivered == old(delivered) + (if hasScanHandler then [reply.data] else [])
      ensures reply.Status? && reply.status == "failed" ==>
                && results == old(results) == [] && !loading && taskId == None && polling == None
                && progress == NextProgress(old(progress)) && delivered == old(delivered)
      ensures reply.Status? && reply.status != "completed" && reply.status != "failed" ==>
                && loading && taskId == old(taskId) && polling == old(polling) && results == old(results)
                && progress == NextProgress(old(progress)) && delivered == old(delivered)
      ensures mounted == old(mounted) && sector == old(sector)
      ensures maxDte == old(maxDte) && lookback == old(lookback)
    {
      match reply
      case PollThrew =>
      case NoBody =>
      case Status(status, data, error) =>
        progress := NextProgress(progress);
        if status == "completed" {
          results := data;
          if hasScanHandler {
            delivered := delivered + [data];
          }
          loading := false;
          taskId := None;
          polling := None;
          progress := DoneProgress;
        } else if status == "failed" {
          loading := false;
          taskId := None;
          polling := None;
        }
    }

    /** The page unmounts: the effect's cleanup clears the interval. */
    method Unmount()
      modifies this
      requires Valid()
      ensures Valid()
      ensures !mounted && polling == None
      ensures loading == old(loading) && taskId == old(taskId) && results == old(results)
      ensures progress == old(progress) && delivered == old(delivered)
      ensures sector == old(sector) && maxDte == old(maxDte) && lookback == old(lookback)
    {
      mounted := false;
      polling := None;
    }
  }

  /** A scan that is polled through `k` running replies and then a completion: the
      bar climbs by fives, the results are handed to the parent exactly once, and the
      page ends idle at 100. */
  method ScanToCompletion(page: ScreenerPage, id: string, running: nat, data: seq<Row>)
    modifies page
    requires page.Valid() && page.mounted && !page.loading && id != ""
    ensures page.Valid()
    ensures page.results == data && !page.loading && page.taskId == None && page.progress == DoneProgress
    ensures page.delivered == old(page.delivered) + (if page.hasScanHandler then [data] else [])
  {
    var config := page.HandleScan(StartAnswered(Some(id)));
    var k := 0;
    while k < running
      invariant page.Valid() && page.loading && page.taskId == Some(id) && page.polling == Some(id)
      invariant page.delivered == old(page.delivered)
      invariant 0 <= k <= running
      invariant page.progress == ProgressAfter(StartProgress, k)
    {
      page.Tick(Status("running", [], ""));
      k := k + 1;
    }
    page.Tick(Status("completed", data, ""));
  }

  // ---------------------------------------------------------------- cells

  datatype Tone = Gray | Green | Red

  /** `getColorClass`: gray for a falsy value, green above 0, red below. */
  function GetColorClass(x: JsNum): (t: Tone)
    ensures t == Green <==> x.Num? && x.n > 0.0
    ensures t == Red <==> x.Num? && x.n < 0.0
    ensures t == Gray <==> !Truthy(x)
  {
    if !Truthy(x) then Gray
    else if x.n > 0.0 then Green
    else if x.n < 0.0 then Red
    else Gray
  }

  /** The "+" shown before a distance. */
  function SignPrefix(x: JsNum): string {
    if OrZero(x) > 0.0 then "+" else ""
  }

  /** A distance cell shows "+" exactly when it is coloured green, and a missing value
      shows as 0 in gray. */
  lemma SignAgreesWithColor(x: JsNum)
    ensures SignPrefix(x) == "+" <==> GetColorClass(x) == Green
    ensures !x.Num? ==> OrZero(x) == 0.0 && GetColorClass(x) == Gray && SignPrefix(x) == ""
  {
  }

  /** The VRP badge is green for a negative premium and red otherwise, a missing one included. */
  function VrpBadge(vrp: JsNum): (t: Tone)
    ensures t == Green <==> vrp.Num? && vrp.n < 0.0
    ensures t != Gray
  {
    if OrZero(vrp) < 0.0 then Green else Red
  }

  /** With the page's initial filters, the backend scans the first 50 listed tickers,
      whatever their sectors. */
  lemma DefaultScanTakesFirstFifty(items: seq<ScanDriver.Item>)
    ensures ScanDriver.Candidates(items, ScanDriver.ScanConfig(DefaultSector, DefaultNumTickers, DefaultMaxDte, DefaultLookback))
         == ScanDriver.PyPrefix(items, DefaultNumTickers)
  {
    assert Lower(DefaultSector) == "todos";
    ScanDriver.NoSectorKeepsAll("todos", items);
  }
}
