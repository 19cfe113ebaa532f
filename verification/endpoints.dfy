/** The session-scoped operations of app.py: `get_captcha`,
    `refresh_captcha`, `process_vehicle`, `process_challan_submission` and
    `submit_challan`. Each takes the session dictionary and what the browser
    (or the recognition service) would report, and returns the dictionary
    after the call with the response or the HTTP error raised. */
module Endpoints {
  import opened Wrappers
  import opened Text
  import opened Scraper
  import opened Classifier
  import opened SessionStore

  newtype Byte = x: int | 0 <= x < 256

  type Bytes = seq<Byte>

  // ---------------------------------------------------------------------
  // get_captcha and refresh_captcha
  // ---------------------------------------------------------------------

  /** The lookup of the page's first `form`: it raised, or it found a form
      whose `action` attribute is absent or some text. */
  datatype FormProbe = NoForm | Form(action: Option<string>)

  /** Loading the portal page: the body or the `captchaDivtab1` element did
      not appear in time, or the page loaded with a captcha image, its hidden
      inputs and its form. */
  datatype CaptchaPage = LoadFailed(cause: string) | Loaded(captcha: Bytes, hiddenInputs: seq<HiddenInput>, form: FormProbe)

  const CaptchaFailedPrefix := "Failed to retrieve captcha: "

  /** The `form_action` key after a page load: `None` when there is no form,
      the action when it is non-empty, and otherwise whatever it was before. */
  function NextFormAction(current: FormAction, probe: FormProbe): (r: FormAction)
    ensures probe.NoForm? ==> r.NoAction?
    ensures probe.Form? ==> r == current || (r.Action? && probe.action == Some(r.url) && r.url != "")
    ensures probe.Form? && probe.action.Some? && probe.action.value != "" ==> r == Action(probe.action.value)
  {
    match probe
    case NoForm => NoAction
    case Form(a) => if a.Some? && a.value != "" then Action(a.value) else current
  }

  /** `get_captcha`: on a live session, loads the portal page and records its
      hidden fields and form action; returns the captcha image. */
  function GetCaptcha(store: Store, id: Id, page: CaptchaPage): (r: Reply<Bytes>)
    ensures OnlyTouches(store, r.store, id)
    ensures r.outcome.Ok? <==> Live(store, id) && page.Loaded?
    ensures !Live(store, id) ==> r == Reply(store, Err(HttpError(404, SessionOrDriverNotFound)))
    ensures Live(store, id) && page.LoadFailed? ==>
              r == Reply(store, Err(HttpError(500, CaptchaFailedPrefix + page.cause)))
    ensures r.outcome.Ok? ==>
              && r.outcome.value == page.captcha
              && r.store[id].hiddenFields == Some(CollectHiddenFields(page.hiddenInputs))
              && r.store[id].vehicleNumberInput == store[id].vehicleNumberInput
              && r.store[id].submittedNumber == store[id].submittedNumber
  {
    match LookupLive(store, id)
    case Err(e) => Reply(store, Err(e))
    case Ok(s) =>
      match page
      case LoadFailed(cause) => Reply(store, Err(HttpError(500, CaptchaFailedPrefix + cause)))
      case Loaded(captcha, hidden, form) =>
        var s' := s.(hiddenFields := Some(CollectHiddenFields(hidden)),
                     formAction := NextFormAction(s.formAction, form));
        Reply(store[id := s'], Ok(captcha))
  }

  /** The form action recorded by a successful load: `None` without a form,
      the action when the form has a non-empty one, the previous value
      otherwise. */
  lemma GetCaptchaFormAction(store: Store, id: Id, captcha: Bytes, hidden: seq<HiddenInput>, form: FormProbe)
    requires Live(store, id)
    ensures var s := GetCaptcha(store, id, Loaded(captcha, hidden, form)).store[id];
      && (form.NoForm? ==> s.formAction == NoAction)
      && (form.Form? && form.action.Some? && form.action.value != "" ==> s.formAction == Action(form.action.value))
      && (form.Form? && (form.action.None? || form.action.value == "") ==> s.formAction == store[id].formAction)
  {
  }

  /** `refresh_captcha`: 404 for an unknown session, otherwise `get_captcha`
      with its errors passed through unchanged. */
  function RefreshCaptcha(store: Store, id: Id, page: CaptchaPage): (r: Reply<Bytes>)
    ensures id !in store ==> r == Reply(store, Err(HttpError(404, SessionNotFound)))
    ensures id in store ==> r == GetCaptcha(store, id, page)
    ensures (r.outcome.Err? && r.outcome.error.status == 404) <==> !Live(store, id)
    ensures OnlyTouches(store, r.store, id)
  {
    if id !in store then Reply(store, Err(HttpError(404, SessionNotFound)))
    else GetCaptcha(store, id, page)
  }

  // ---------------------------------------------------------------------
  // process_vehicle
  // ---------------------------------------------------------------------

  /** The `image` form field: absent, an uploaded file, or a plain text value
      (which has no `file` attribute). */
  datatype ImageField = NoImage | Upload(bytes: Bytes) | NotAFile(text: string)

  /** The `image` and `vehicle_number` fields of the request form. */
  datatype VehicleForm = VehicleForm(image: ImageField, vehicleNumber: Option<string>)

  /** Python truthiness of the `image` field: an uploaded file always counts,
      a text value only when non-empty. */
  predicate ImageGiven(f: ImageField) {
    f.Upload? || (f.NotAFile? && f.text != "")
  }

  const ExtractFailed := "Could not extract vehicle number from image."
  const InvalidImage := "Invalid image file."
  const NoInput := "No image or vehicle number provided."
  const CaptchaAfterVehiclePrefix := "Vehicle number processed but failed to get captcha: "

  /** The vehicle number a request supplies: read off the uploaded image by
      `recognize` (empty text meaning failure), or typed directly and
      normalised with `strip().upper()`. */
  function VehicleNumberOf(form: VehicleForm, recognize: Bytes -> string): (r: Result<string, HttpError>)
    ensures r.Err? ==> r.error.status == 400
    ensures form.image.Upload? ==>
              && (r.Ok? <==> recognize(form.image.bytes) != "")
              && (r.Ok? ==> r.value == recognize(form.image.bytes))
              && (r.Err? ==> r.error.detail == ExtractFailed)
    ensures form.image.NotAFile? && form.image.text != "" ==> r == Err(HttpError(400, InvalidImage))
    ensures !ImageGiven(form.image) ==>
              && (r.Ok? <==> form.vehicleNumber.Some? && form.vehicleNumber.value != "")
              && (r.Ok? ==> r.value == Normalize(form.vehicleNumber.value) && IsNormal(r.value))
              && (r.Err? ==> r.error.detail == NoInput)
  {
    if ImageGiven(form.image) then
      match form.image
      case Upload(bytes) =>
        var text := recognize(bytes);
        if text == "" then Err(HttpError(400, ExtractFailed)) else Ok(text)
      case _ => Err(HttpError(400, InvalidImage))
    else if form.vehicleNumber.Some? && form.vehicleNumber.value != "" then
      Ok(Normalize(form.vehicleNumber.value))
    else
      Err(HttpError(400, NoInput))
  }

  /** The response of `process_vehicle`: the number used and the captcha. */
  datatype Processed = Processed(vehicleNumber: string, captcha: Bytes)

  /** `process_vehicle`: 404 for an unknown session, 400 when the form gives
      no usable number; otherwise stores the number in the session and then
      fetches the captcha, turning any failure of that fetch into a 500 that
      leaves the stored number in place. */
  function ProcessVehicle(store: Store, id: Id, form: VehicleForm, recognize: Bytes -> string, page: CaptchaPage)
    : (r: Reply<Processed>)
    ensures OnlyTouches(store, r.store, id)
    ensures id !in store ==> r == Reply(store, Err(HttpError(404, SessionNotFound)))
    ensures id in store && VehicleNumberOf(form, recognize).Err? ==>
              r == Reply(store, Err(VehicleNumberOf(form, recognize).error))
    ensures id in store && VehicleNumberOf(form, recognize).Ok? ==>
              && r.store[id].vehicleNumberInput == Some(VehicleNumberOf(form, recognize).value)
              && (r.outcome.Ok? <==> Live(store, id) && page.Loaded?)
              && (r.outcome.Ok? ==> r.outcome.value == Processed(VehicleNumberOf(form, recognize).value, page.captcha))
              && (r.outcome.Err? ==> r.outcome.error.status == 500)
    ensures id in store && VehicleNumberOf(form, recognize).Ok? ==>
              r.store == GetCaptcha(store[id := store[id].(vehicleNumberInput := Some(VehicleNumberOf(form, recognize).value))], id, page).store
    ensures id in store && VehicleNumberOf(form, recognize).Ok? && r.outcome.Ok? ==>
              && r.store[id].hiddenFields == Some(CollectHiddenFields(page.hiddenInputs))
              && r.store[id].formAction == NextFormAction(store[id].formAction, page.form)
  {
    if id !in store then Reply(store, Err(HttpError(404, SessionNotFound)))
    else
      match VehicleNumberOf(form, recognize)
      case Err(e) => Reply(store, Err(e))
      case Ok(number) =>
        var stored := store[id := store[id].(vehicleNumberInput := Some(number))];
        var fetched := GetCaptcha(stored, id, page);
        match fetched.outcome
        case Ok(captcha) => Reply(fetched.store, Ok(Processed(number, captcha)))
        case Err(e) => Reply(fetched.store, Err(HttpError(500, CaptchaAfterVehiclePrefix + e.detail)))
  }

  // ---------------------------------------------------------------------
  // process_challan_submission and submit_challan
  // ---------------------------------------------------------------------

  /** Driving the form: a driver call (finding `REG_NO`, `captchatab1` or
      `tab1btn`, typing, clicking) raised, or the form was submitted and led
      to a result page. */
  datatype SubmitRun = DriverFault(cause: string) | Submitted(page: Page)

  const SubmissionFailedPrefix := "Failed during challan submission: "
  const NotProcessedYet := "Vehicle number not processed yet for this session."
  const CaptchaRequired := "Captcha solution is required."

  /** `process_challan_submission`: on a live session, records the number
      being submitted, then either fails with 500 on a driver error or
      classifies the result page. */
  function ProcessSubmission(store: Store, id: Id, submitted: string, run: SubmitRun): (r: Reply<SubmissionResult>)
    ensures !Live(store, id) ==> r == Reply(store, Err(HttpError(404, SessionOrDriverNotFound)))
    ensures Live(store, id) ==>
              && r.store == store[id := store[id].(submittedNumber := Some(submitted))]
              && (run.DriverFault? ==> r.outcome == Err(HttpError(500, SubmissionFailedPrefix + run.cause)))
              && (run.Submitted? ==> r.outcome == Ok(Outcome(run.page, submitted)))
    ensures OnlyTouches(store, r.store, id)
  {
    match LookupLive(store, id)
    case Err(e) => Reply(store, Err(e))
    case Ok(s) =>
      var store' := store[id := s.(submittedNumber := Some(submitted))];
      match run
      case DriverFault(cause) => Reply(store', Err(HttpError(500, SubmissionFailedPrefix + cause)))
      case Submitted(page) => Reply(store', Ok(Outcome(page, submitted)))
  }

  /** `submit_challan`: 404 for an unknown session, then 400 when no vehicle
      number has been processed, then 400 for a missing or empty captcha
      answer; only then submits, with the stored vehicle number. */
  function SubmitChallan(store: Store, id: Id, captcha: Option<string>, run: SubmitRun): (r: Reply<SubmissionResult>)
    ensures OnlyTouches(store, r.store, id)
    ensures id !in store ==> r == Reply(store, Err(HttpError(404, SessionNotFound)))
    ensures id in store && store[id].vehicleNumberInput.None? ==>
              r == Reply(store, Err(HttpError(400, NotProcessedYet)))
    ensures id in store && store[id].vehicleNumberInput.Some? && (captcha.None? || captcha.value == "") ==>
              r == Reply(store, Err(HttpError(400, CaptchaRequired)))
    ensures r.store != store || r.outcome.Ok? ==>
              && Live(store, id) && store[id].vehicleNumberInput.Some?
              && captcha.Some? && captcha.value != ""
              && r.store[id].submittedNumber == store[id].vehicleNumberInput
    ensures id in store && store[id].vehicleNumberInput.Some? && captcha.Some? && captcha.value != "" ==>
              r == ProcessSubmission(store, id, store[id].vehicleNumberInput.value, run)
  {
    if id !in store then Reply(store, Err(HttpError(404, SessionNotFound)))
    else if store[id].vehicleNumberInput.None? then Reply(store, Err(HttpError(400, NotProcessedYet)))
    else if captcha.None? || captcha.value == "" then Reply(store, Err(HttpError(400, CaptchaRequired)))
    else ProcessSubmission(store, id, store[id].vehicleNumberInput.value, run)
  }

  /** When every check passes, the page is classified for the number stored
      by `process_vehicle`, whatever the captcha answer was. */
  lemma SubmitUsesStoredNumber(store: Store, id: Id, answer: string, page: Page)
    requires Live(store, id) && store[id].vehicleNumberInput.Some? && answer != ""
    ensures SubmitChallan(store, id, Some(answer), Submitted(page)).outcome
         == Ok(Outcome(page, store[id].vehicleNumberInput.value))
  {
  }

  // ---------------------------------------------------------------------
  // Properties across endpoints
  // ---------------------------------------------------------------------

  /** A session id that is not in the store (never created, or removed) gets
      404 from every endpoint, and no endpoint changes the store. */
  lemma UnknownSessionNotFound(store: Store, id: Id, page: CaptchaPage, form: VehicleForm,
                               recognize: Bytes -> string, captcha: Option<string>,
                               submitted: string, run: SubmitRun)
    requires id !in store
    ensures GetCaptcha(store, id, page) == Reply(store, Err(HttpError(404, SessionOrDriverNotFound)))
    ensures ProcessSubmission(store, id, submitted, run) == Reply(store, Err(HttpError(404, SessionOrDriverNotFound)))
    ensures RefreshCaptcha(store, id, page) == Reply(store, Err(HttpError(404, SessionNotFound)))
    ensures ProcessVehicle(store, id, form, recognize, page) == Reply(store, Err(HttpError(404, SessionNotFound)))
    ensures SubmitChallan(store, id, captcha, run) == Reply(store, Err(HttpError(404, SessionNotFound)))
    ensures EndSession(store, id) == Reply(store, Err(HttpError(404, SessionNotFound)))
  {
  }

  /** After `end_session`, the ended id is unknown to every endpoint, while
      every other session is exactly as it was. */
  lemma EndedSessionNotFound(store: Store, id: Id, other: Id, page: CaptchaPage, captcha: Option<string>, run: SubmitRun)
    requires id in store && other != id
    ensures var ended := EndSession(store, id).store;
      && GetCaptcha(ended, id, page).outcome == Err(HttpError(404, SessionOrDriverNotFound))
      && SubmitChallan(ended, id, captcha, run).outcome == Err(HttpError(404, SessionNotFound))
      && EndSession(ended, id).outcome == Err(HttpError(404, SessionNotFound))
      && (other in ended <==> other in store)
      && (other in store ==> ended[other] == store[other] && (Live(ended, other) <==> Live(store, other)))
  {
    var ended := EndSession(store, id).store;
    assert id !in ended;
  }

  /** No endpoint adds or removes a session or changes a driver, so the
      store stays well formed. */
  lemma EndpointsKeepWellformed(store: Store, id: Id, page: CaptchaPage, form: VehicleForm,
                                recognize: Bytes -> string, captcha: Option<string>, run: SubmitRun)
    requires Wellformed(store)
    ensures Wellformed(GetCaptcha(store, id, page).store)
    ensures Wellformed(RefreshCaptcha(store, id, page).store)
    ensures Wellformed(ProcessVehicle(store, id, form, recognize, page).store)
    ensures Wellformed(SubmitChallan(store, id, captcha, run).store)
  {
    OnlyTouchesKeepsWellformed(store, GetCaptcha(store, id, page).store, id);
    OnlyTouchesKeepsWellformed(store, RefreshCaptcha(store, id, page).store, id);
    OnlyTouchesKeepsWellformed(store, ProcessVehicle(store, id, form, recognize, page).store, id);
    OnlyTouchesKeepsWellformed(store, SubmitChallan(store, id, captcha, run).store, id);
  }

  /** After an invalid captcha the session is still live and keeps its
      vehicle number, so the caller can refresh the captcha and submit again. */
  lemma InvalidCaptchaAllowsRetry(store: Store, id: Id, answer: string, page: Page)
    requires Live(store, id) && store[id].vehicleNumberInput.Some? && answer != ""
    requires AnyTextContains(page.texts, CaptchaErrorText)
    ensures var r := SubmitChallan(store, id, Some(answer), Submitted(page));
      && r.outcome == Ok(SubmissionResult(Error, InvalidCaptchaMessage, None))
      && Live(r.store, id)
      && r.store[id].vehicleNumberInput == store[id].vehicleNumberInput
  {
    CaptchaErrorWins(page);
  }

  /** A direct number of only whitespace is truthy in the form, so it passes
      the 400 check, is stored as the empty string, and later satisfies the
      "vehicle number processed" check of `submit_challan`; an image the
      recognition service cannot read is refused instead. */
  lemma BlankDirectNumberIsStored(store: Store, id: Id, blank: string, recognize: Bytes -> string, page: CaptchaPage)
    requires id in store && blank != "" && AllSpace(blank)
    ensures var r := ProcessVehicle(store, id, VehicleForm(NoImage, Some(blank)), recognize, page);
      && r.store[id].vehicleNumberInput == Some("")
      && (Live(store, id) && page.Loaded? ==> r.outcome == Ok(Processed("", page.captcha)))
  {
  }

  /** A typed number is stored upper-cased and without surrounding
      whitespace. */
  lemma DirectNumberNormalized(store: Store, id: Id, typed: string, recognize: Bytes -> string, page: CaptchaPage)
    requires id in store && typed != ""
    ensures var r := ProcessVehicle(store, id, VehicleForm(NoImage, Some(typed)), recognize, page);
      && r.store[id].vehicleNumberInput == Some(Normalize(typed))
      && IsNormal(r.store[id].vehicleNumberInput.value)
  {
  }
}
