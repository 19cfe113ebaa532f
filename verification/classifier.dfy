/** Classification of the page the portal shows after the challan form is
    submitted (app.py, `process_challan_submission`): three probes run in a
    fixed order and the first that matches decides the result. */
module Classifier {
  import opened Wrappers
  import opened Text
  import opened Scraper

  /** The `rtable` results table: its first row, the rows holding the
      `manualErr` checkbox in document order, and the first row whose `strong`
      text contains "Grand Total" (as its cells) when there is one. */
  datatype Table = Table(firstRow: FirstRow, challanRows: seq<ChallanRow>, grandTotalRow: Option<seq<Cell>>)

  /** The page after submission: the first text node of every element (what
      XPath's `contains(text(), ...)` inspects) and the `rtable` table when it
      is present. */
  datatype Page = Page(texts: seq<string>, table: Option<Table>)

  const CaptchaErrorText := "Please Enter Correct Captcha"
  const NoPendingText := "No Pending"
  const ChallansText := "Challans"

  /** Some element's text contains `needle`. */
  predicate AnyTextContains(texts: seq<string>, needle: string) {
    exists i | 0 <= i < |texts| :: Contains(texts[i], needle)
  }

  /** Some single element's text contains both "No Pending" and "Challans". */
  predicate AnyNoPendingText(texts: seq<string>) {
    exists i | 0 <= i < |texts| :: Contains(texts[i], NoPendingText) && Contains(texts[i], ChallansText)
  }

  /** The three outcomes a probe can recognise, and the fallback. */
  datatype Verdict = InvalidCaptcha | NoPendingChallans | ChallansFound | Undetermined

  /** Whether the probe for verdict `v` matches the page. */
  predicate Probe(v: Verdict, p: Page) {
    match v
    case InvalidCaptcha => AnyTextContains(p.texts, CaptchaErrorText)
    case NoPendingChallans => AnyNoPendingText(p.texts)
    case ChallansFound => p.table.Some?
    case Undetermined => false
  }

  /** The order the probes run in. */
  const ProbeOrder: seq<Verdict> := [InvalidCaptcha, NoPendingChallans, ChallansFound]

  /** Runs `probes` in order: the index of the first that matches, or
      `|probes|` when none does. */
  function FirstMatch(probes: seq<Verdict>, p: Page): (i: nat)
    ensures i <= |probes|
    ensures forall j | 0 <= j < i :: !Probe(probes[j], p)
    ensures i < |probes| ==> Probe(probes[i], p)
    decreases |probes|
  {
    if probes == [] then 0
    else if Probe(probes[0], p) then 0
    else
      var k := FirstMatch(probes[1..], p);
      assert forall j | 1 <= j < k + 1 :: probes[j] == probes[1..][j - 1];
      k + 1
  }

  /** The classification of a page: the first matching probe, or
      `Undetermined`. */
  function Classify(p: Page): (v: Verdict)
    ensures v == Undetermined || (v in ProbeOrder && Probe(v, p))
  {
    var i := FirstMatch(ProbeOrder, p);
    if i < |ProbeOrder| then ProbeOrder[i] else Undetermined
  }

  /** Each verdict is chosen exactly when its probe matches and every earlier
      probe does not; `Undetermined` exactly when no probe matches. */
  lemma ClassifyFirstMatchWins(p: Page)
    ensures Classify(p) == InvalidCaptcha <==> Probe(InvalidCaptcha, p)
    ensures Classify(p) == NoPendingChallans <==> !Probe(InvalidCaptcha, p) && Probe(NoPendingChallans, p)
    ensures Classify(p) == ChallansFound
        <==> !Probe(InvalidCaptcha, p) && !Probe(NoPendingChallans, p) && Probe(ChallansFound, p)
    ensures Classify(p) == Undetermined
        <==> !Probe(InvalidCaptcha, p) && !Probe(NoPendingChallans, p) && !Probe(ChallansFound, p)
  {
    var i := FirstMatch(ProbeOrder, p);
    assert ProbeOrder[0] == InvalidCaptcha && ProbeOrder[1] == NoPendingChallans && ProbeOrder[2] == ChallansFound;
    if i == 0 {
    } else if i == 1 {
    } else if i == 2 {
    } else {
    }
  }

  // ---------------------------------------------------------------------
  // The result returned to the caller
  // ---------------------------------------------------------------------

  datatype Status = Success | Error

  /** The `grand_total` key of the result data: absent, or present with a
      total or with `None`. */
  datatype GrandTotalKey = Omitted | Present(total: Option<GrandTotal>)

  /** The `data` part of a result. */
  datatype ChallanData = ChallanData(vehicleInfo: VehicleInfo, challans: seq<Challan>, grandTotal: GrandTotalKey)

  /** The `{status, message, data}` dictionary of a submission. */
  datatype SubmissionResult = SubmissionResult(status: Status, message: string, data: Option<ChallanData>)

  const InvalidCaptchaMessage := "Invalid captcha entered. Please try again."
  const NoPendingMessage := "No pending challans found for this vehicle."
  const ChallansFoundMessage := "Challans found."
  const UndeterminedMessage := "Could not determine challan status. Please try again."

  /** The data returned when a table is found: vehicle information from its
      first row, the kept challan rows and the grand total. */
  function TableData(t: Table, submitted: string): (d: ChallanData)
    ensures d.challans == ExtractChallans(t.challanRows)
    ensures d.grandTotal.Present?
  {
    ChallanData(VehicleInfoOf(t.firstRow, submitted), ExtractChallans(t.challanRows), Present(GrandTotalOf(t.grandTotalRow)))
  }

  /** The result of a submission for vehicle number `submitted` that led to
      page `p`. */
  function Outcome(p: Page, submitted: string): (r: SubmissionResult)
    ensures r.status == Success <==> r.data.Some?
    ensures r.data.Some? ==> |r.data.value.challans| <= (if p.table.Some? then |p.table.value.challanRows| else 0)
  {
    match Classify(p)
    case InvalidCaptcha => SubmissionResult(Error, InvalidCaptchaMessage, None)
    case NoPendingChallans =>
      SubmissionResult(Success, NoPendingMessage, Some(ChallanData(VehicleInfo(Some(submitted), None), [], Omitted)))
    case ChallansFound => SubmissionResult(Success, ChallansFoundMessage, Some(TableData(p.table.value, submitted)))
    case Undetermined => SubmissionResult(Error, UndeterminedMessage, None)
  }

  /** The captcha error text wins over everything else on the page, a
      challan table included. */
  lemma CaptchaErrorWins(p: Page)
    requires AnyTextContains(p.texts, CaptchaErrorText)
    ensures Outcome(p, "") == Outcome(p.(table := None), "")
    ensures forall v :: Outcome(p, v) == SubmissionResult(Error, InvalidCaptchaMessage, None)
  {
    ClassifyFirstMatchWins(p);
    ClassifyFirstMatchWins(p.(table := None));
  }

  /** The no-challans result: success, the submitted number as the only
      vehicle information, no challans and no `grand_total` key. */
  lemma NoPendingShape(p: Page, submitted: string)
    requires !AnyTextContains(p.texts, CaptchaErrorText) && AnyNoPendingText(p.texts)
    ensures var r := Outcome(p, submitted);
      && r.status == Success && r.message == NoPendingMessage && r.data.Some?
      && r.data.value.challans == []
      && r.data.value.vehicleInfo == VehicleInfo(Some(submitted), None)
      && r.data.value.grandTotal == Omitted
  {
    ClassifyFirstMatchWins(p);
  }

  /** With neither status text, a table always gives "Challans found." with a
      `grand_total` key, even when no row qualifies. */
  lemma TableShape(p: Page, submitted: string)
    requires !AnyTextContains(p.texts, CaptchaErrorText) && !AnyNoPendingText(p.texts) && p.table.Some?
    ensures var r := Outcome(p, submitted);
      && r.status == Success && r.message == ChallansFoundMessage && r.data.Some?
      && r.data.value.challans == ExtractChallans(p.table.value.challanRows)
      && r.data.value.grandTotal == Present(GrandTotalOf(p.table.value.grandTotalRow))
      && r.data.value.vehicleInfo == VehicleInfoOf(p.table.value.firstRow, submitted)
  {
    ClassifyFirstMatchWins(p);
  }

  /** Without status text and without a table the status is undetermined. */
  lemma UndeterminedShape(p: Page, submitted: string)
    requires !AnyTextContains(p.texts, CaptchaErrorText) && !AnyNoPendingText(p.texts) && p.table.None?
    ensures Outcome(p, submitted) == SubmissionResult(Error, UndeterminedMessage, None)
  {
    ClassifyFirstMatchWins(p);
  }

  /** A `grand_total` key appears only in the "Challans found." result, and
      challans are listed only there. */
  lemma GrandTotalOnlyWithTable(p: Page, submitted: string)
    ensures var r := Outcome(p, submitted);
      (r.data.Some? && r.data.value.grandTotal.Present?) <==> r.message == ChallansFoundMessage
    ensures var r := Outcome(p, submitted);
      r.data.Some? && r.data.value.challans != [] ==> r.message == ChallansFoundMessage
  {
  }
}
