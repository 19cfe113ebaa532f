/** Concrete end-to-end runs of the session operations, on a store with one
    session, for the scenarios the system is expected to handle. */
module Scenarios {
  import opened Wrappers
  import opened Text
  import opened Scraper
  import opened Classifier
  import opened SessionStore
  import opened Endpoints

  /** A store holding one fresh session `id` with driver `d`. */
  function OneSession(id: Id, d: Driver): (store: Store)
    ensures Live(store, id) && store[id].vehicleNumberInput.None?
  {
    map[id := NewSession(d)]
  }

  /** Start a session, then process the typed number "AB12CD3456": the
      response echoes it with the captcha, and it is the number stored for
      the submission. */
  lemma DirectNumberScenario(id: Id, d: Driver, captcha: Bytes, recognize: Bytes -> string)
    ensures var started := StartSession(map[], id, Launched(d));
      && started.outcome == Ok(id)
      && var r := ProcessVehicle(started.store, id, VehicleForm(NoImage, Some("AB12CD3456")), recognize,
                                 Loaded(captcha, [], NoForm));
      && r.outcome == Ok(Processed("AB12CD3456", captcha))
      && r.store[id].vehicleNumberInput == Some("AB12CD3456")
  {
    assert IsNormal("AB12CD3456");
    NormalizeFixesNormal("AB12CD3456");
    var store := StartSession(map[], id, Launched(d)).store;
    assert Live(store, id);
  }

  /** A result table with two valid challan rows, one too narrow, and one
      whose cells could not be read: exactly the records of the two valid
      rows are returned, in order, with a `grand_total` key set to `None`. */
  lemma TwoChallansScenario(a: ChallanRow, b: ChallanRow, vehicle: string)
    requires Keeps(a) && Keeps(b)
    ensures var page := Page([], Some(Table(NoFirstRow, [a, Cells([]), b, Unreadable], None)));
      var r := Outcome(page, vehicle);
      && r.status == Success && r.message == ChallansFoundMessage
      && r.data.value.challans == [ExtractRow(a).value, ExtractRow(b).value]
      && r.data.value.grandTotal == Present(None)
  {
    var rows := [a, Cells([]), b, Unreadable];
    TableShape(Page([], Some(Table(NoFirstRow, rows, None))), vehicle);
    MixedRows(a, b);
  }

  lemma MixedRows(a: ChallanRow, b: ChallanRow)
    requires Keeps(a) && Keeps(b)
    ensures ExtractChallans([a, Cells([]), b, Unreadable]) == [ExtractRow(a).value, ExtractRow(b).value]
  {
    var front := [a, Cells([])];
    var back := [b, Unreadable];
    assert [a, Cells([]), b, Unreadable] == front + back;
    ExtractChallansAppend(front, back);
    assert front == [a] + [Cells([])];
    ExtractChallansAppend([a], [Cells([])]);
    assert back == [b] + [Unreadable];
    ExtractChallansAppend([b], [Unreadable]);
    ExtractChallansSingle(a);
    ExtractChallansSingle(Cells([]));
    ExtractChallansSingle(b);
    ExtractChallansSingle(Unreadable);
  }

  /** Submitting with a wrong captcha answer on a processed session yields the
      invalid-captcha error; ending the session afterwards succeeds once and
      then reports 404. */
  lemma InvalidCaptchaThenEndScenario(id: Id, d: Driver, answer: string, page: Page)
    requires answer != "" && AnyTextContains(page.texts, CaptchaErrorText)
    ensures var store := OneSession(id, d)[id := NewSession(d).(vehicleNumberInput := Some("AB12CD3456"))];
      var r := SubmitChallan(store, id, Some(answer), Submitted(page));
      && r.outcome == Ok(SubmissionResult(Error, InvalidCaptchaMessage, None))
      && EndSession(r.store, id).outcome == Ok(id)
      && EndSession(EndSession(r.store, id).store, id).outcome == Err(HttpError(404, SessionNotFound))
  {
    CaptchaErrorWins(page);
  }
}
