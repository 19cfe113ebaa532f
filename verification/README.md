# Challan lookup service: a verified model of its decision logic

The service (`app.py`) looks up traffic-violation challans for a vehicle on
the Telangana e-challan portal. A caller starts a session, which opens a
headless browser. The caller then hands in a vehicle number, either typed or
read from a photo. The service loads the portal and returns the portal's
captcha. The caller solves it and submits. The service fills the portal's
form, submits it, and turns the result page into a structured answer.

Underneath the Selenium and FastAPI plumbing there are four decision
procedures. This project models them as pure Dafny functions over abstract
observations of the browser:

- **Session store** (`session_store.dfy`, module `SessionStore`). The
  `active_sessions` dictionary is a `map<Id, Session>`.
  `start_session`, `close_session_sync` and `end_session` are functions on
  that map. The well-formedness invariant says every session owns a driver
  and no two sessions share one.
- **Endpoints** (`endpoints.dfy`, module `Endpoints`). These are
  `get_captcha`, `refresh_captcha`, `process_vehicle`,
  `process_challan_submission` and `submit_challan`. Each one takes the store
  plus what the browser or the recognition service would report. It returns a
  `Reply`: the store after the call, and either the response or the HTTP
  error raised. This covers the fixed order of 404 and 400 checks, the
  normalisation of typed numbers, and the collection of hidden fields and
  the form action.
- **Outcome classification** (`classifier.dfy`, module `Classifier`). The
  page after submission is a list of element texts plus an optional `rtable`
  table. Three probes run in a fixed order and the first match wins:
  invalid captcha, then no pending challans, then challans found. If none
  matches, the status is undetermined.
- **Table extraction** (`scraper.dfy`, module `Scraper`). Challan rows are
  filtered and mapped to the twelve-field record one row at a time. The
  grand total is read from fixed negative indices. Vehicle information falls
  back to the submitted number when the first row cannot be read.

`text.dfy` (module `Text`) models `strip()`, `upper()` and substring search
on ASCII. `wrappers.dfy` holds `Option` and `Result`. `scenarios.dfy` runs a
few end-to-end sequences on concrete stores.

Browser behaviour is an input. A page load, a form submission, a driver
launch and the recognition service each become a parameter that describes
what happened. A lookup that would raise becomes `None` or `Unreadable`.

## Model

| member | source | states |
|---|---|---|
| Text.Strip | app.py:429 | `strip()` leaves a result with no whitespace at either end, no longer than its input |
| Text.StripSplits | app.py:429 | the input is whitespace, then the stripped result, then whitespace: stripping removes nothing but surrounding whitespace |
| Text.StripOfPadded | app.py:429 | stripping any whitespace padding around a trimmed string gives back exactly that string, so `strip()` is uniquely determined |
| Text.StripEmptyIffBlank | app.py:429 | stripping gives the empty string exactly when the input is all whitespace |
| Text.StripIdempotent | app.py:429 | stripping twice is the same as stripping once |
| Text.StripIgnoresPadding | app.py:429 | extra whitespace around the input does not change what stripping returns |
| Text.Upper | app.py:429 | `upper()` keeps the length and maps each character on its own: each lower-case ASCII letter to the upper-case letter at the same place in the alphabet, every other character unchanged |
| Text.Normalize | app.py:428-429 | `strip().upper()` gives a normal number: no surrounding whitespace and no lower-case letter. It is empty exactly when the input is all whitespace |
| Text.NormalizeFixesNormal | app.py:428-429 | normalisation leaves an already-normal number unchanged |
| Text.NormalizeIdempotent | app.py:428-429 | normalising twice is the same as normalising once |
| Text.NormalizeIgnoresPadding | app.py:428-429 | whitespace around a typed number does not change its normal form |
| Text.Contains | app.py:332 | the recursive search `needle in text` is true exactly when the needle occurs at some position of the text |
| Scraper.CollectHiddenFields | app.py:186-192 | the dictionary has one key per hidden input with a non-empty name, and no other keys |
| Scraper.HiddenFieldLastWins | app.py:188-192 | the value stored under a name is the value of the last input with that name, or "" when that value is missing or empty |
| Scraper.ExtractRow | app.py:313-334 | a row gives a record exactly when its cells can be listed, it has at least 16 cells, and the lookups in cells 6, 7 and 8 succeed. `has_image` holds exactly when "Click For Image" occurs in cell 15 |
| Scraper.ExtractRowFields | app.py:320-333 | each record field is the stripped text of its cell (0, 2, 3, 4, 5, 6's div, 7's div, 8's nested cell, 12, 13, 14), and every text field is trimmed |
| Scraper.ExtractRowReadsOnlyNamedCells | app.py:320-333 | cells 1, 9, 10, 11 and any cell after 15 have no influence on the record |
| Scraper.ExtractChallans | app.py:309-337 | the list of records is never longer than the list of checkbox rows |
| Scraper.ExtractChallansSingle | app.py:313-337 | a single row yields its own record when it is kept, and nothing otherwise |
| Scraper.ExtractChallansAppend | app.py:312-337 | extraction is local: the records of two concatenated row lists are the records of each list, concatenated |
| Scraper.ExtractChallansSkip | app.py:335-337 | inserting a row that is not kept leaves the records of all other rows unchanged |
| Scraper.ExtractChallansKeeps | app.py:312-334 | a kept row's record appears between the records of the rows before it and the records of the rows after it, so row order is preserved |
| Scraper.ExtractChallansCount | app.py:312-334 | there is exactly one record per kept row |
| Scraper.ParseChallanRows | app.py:309-337 | the row loop, which appends the record of each kept row, computes the record list of the whole table |
| Scraper.GrandTotalOf | app.py:340-350 | the grand total is `None` exactly when there is no "Grand Total" row or that row has fewer than 4 cells. Otherwise its three fields are the stripped texts of the 4th, 3rd and 2nd cells counted from the end |
| Scraper.GrandTotalReadsTail | app.py:343-347 | the grand total depends only on the last four cells of its row |
| Scraper.GrandTotalIgnoresLastCell | app.py:343-347 | the very last cell of the grand-total row is never read |
| Scraper.VehicleInfoOf | app.py:295-306 | vehicle information is empty when the table has no first row. It holds both stripped texts when both lookups succeed, and only the submitted number when either lookup fails |
| Classifier.FirstMatch | app.py:262-291 | running the probes in order returns the first probe that matches: every earlier probe fails and the returned one matches |
| Classifier.Classify | app.py:262-366 | the verdict is either undetermined or one of the three probes, and a probe that is chosen matches the page |
| Classifier.ClassifyFirstMatchWins | app.py:262-366 | each verdict is chosen exactly when its own probe matches and every earlier probe fails. The status is undetermined exactly when no probe matches |
| Classifier.TableData | app.py:352-358 | the data of a found table lists the extracted records and always has a `grand_total` key |
| Classifier.Outcome | app.py:260-366 | the status is "success" exactly when data is returned, and the data never lists more challans than the table has checkbox rows |
| Classifier.CaptchaErrorWins | app.py:262-271 | the captcha-error text gives the fixed invalid-captcha error with no data, whatever else the page shows, a table included |
| Classifier.NoPendingShape | app.py:273-284 | the no-challans result is a success with an empty challan list, the submitted number as the only vehicle information, and no `grand_total` key |
| Classifier.TableShape | app.py:288-359 | with neither status text present, a table gives "Challans found." with the extracted records, the vehicle information and the grand-total key, even when no row qualifies |
| Classifier.UndeterminedShape | app.py:361-366 | with no status text and no table the result is the fixed "Could not determine challan status" error |
| Classifier.GrandTotalOnlyWithTable | app.py:278-284 | a `grand_total` key appears exactly in the "Challans found." result, and only that result lists challans |
| SessionStore.NewSession | app.py:394 | a new session holds its driver and no other key |
| SessionStore.LookupLive | app.py:150-151 | the guard succeeds exactly when the session exists and has a driver, and otherwise raises 404 |
| SessionStore.OnlyTouchesKeepsWellformed | app.py:42 | changing one entry without changing its driver keeps every driver owned and unshared |
| SessionStore.CloseSession | app.py:374-384 | returns true exactly when the id was present. Afterwards the id is absent, every other entry is unchanged, and the session's driver is the one released |
| SessionStore.CloseTwice | app.py:374-384 | a second close finds nothing and releases nothing, so a driver is released at most once |
| SessionStore.EndSession | app.py:493-499 | ends a present session and returns its id. An unknown id raises 404 and leaves the store alone. No other entry changes |
| SessionStore.StartSession | app.py:389-406 | a launched driver is stored under the new id as a session with no other keys; exactly one entry is added and the others stay as they were. A failed launch leaves the store unchanged and raises 500 |
| SessionStore.StartKeepsWellformed | app.py:391-394 | starting a session with a driver no session owns keeps the store well formed |
| SessionStore.EndKeepsWellformed | app.py:374-384 | ending a session keeps the store well formed |
| SessionStore.StartThenEnd | app.py:389-406 | ending a session that was just started restores the original store and releases the launched driver |
| Endpoints.GetCaptcha | app.py:148-209 | without a live session it raises 404. A failed load raises 500 and leaves the store alone. A successful load returns the captcha, records the hidden fields, and touches only this session |
| Endpoints.NextFormAction | app.py:194-201 | no form sets the action to `None`. A form either keeps the previous value or sets its own non-empty action, and a non-empty action is always recorded |
| Endpoints.GetCaptchaFormAction | app.py:194-201 | the recorded form action is `None` when there is no form, the action when it is non-empty, and the previous value otherwise |
| Endpoints.RefreshCaptcha | app.py:475-490 | it raises 404 exactly when the session is unknown or has no driver. Otherwise it behaves as `get_captcha` |
| Endpoints.VehicleNumberOf | app.py:415-431 | an upload gives the recognised text, or 400 when that text is empty. A non-file image value gives 400. Otherwise a non-empty typed number is normalised, and anything else gives 400 |
| Endpoints.ProcessVehicle | app.py:409-446 | checks in order: 404 for an unknown session, then 400 for unusable input. Only then is the number stored, and it stays stored even when the captcha fetch then fails with 500. The store afterwards is what `get_captcha` leaves on the session holding the new number, so a successful fetch also records the page's hidden fields and form action |
| Endpoints.ProcessSubmission | app.py:212-370 | without a live session it raises 404. Otherwise it records the submitted number. A driver error then raises 500, and a result page is classified |
| Endpoints.SubmitChallan | app.py:449-472 | checks in order: 404 for an unknown session, then 400 when no number has been processed, then 400 for a missing or empty captcha. The store changes or a result comes back only when all checks pass, and then the call is exactly the submission of the stored number. That submission passes through a 404 for a session without a driver, records the number, and raises 500 on a driver fault |
| Endpoints.SubmitUsesStoredNumber | app.py:462-465 | when all checks pass, the page is classified for the stored vehicle number |
| Endpoints.UnknownSessionNotFound | app.py:150-151 | an id that was never created or was removed gets 404 from every endpoint, and no endpoint changes the store |
| Endpoints.EndedSessionNotFound | app.py:493-499 | after `end_session`, the ended id gets 404 everywhere, and every other session is unchanged and keeps its liveness |
| Endpoints.EndpointsKeepWellformed | app.py:148-209 | captcha, vehicle and submission calls keep every driver owned and unshared |
| Endpoints.InvalidCaptchaAllowsRetry | app.py:262-269 | after an invalid captcha the session is still live and keeps its vehicle number |
| Endpoints.BlankDirectNumberIsStored | app.py:428-433 | a whitespace-only typed number passes the input check and is stored as the empty string |
| Endpoints.DirectNumberNormalized | app.py:428-433 | a typed number is stored in normal form |
| Scenarios.DirectNumberScenario | app.py:409-443 | after start-session, processing the typed number "AB12CD3456" echoes it with the captcha and stores it |
| Scenarios.MixedRows | app.py:312-337 | in the rows [valid, too narrow, valid, unreadable], only the records of the two valid rows survive, in order |
| Scenarios.TwoChallansScenario | app.py:309-359 | a table with two valid rows and two bad ones gives "Challans found." with exactly the two records and a `None` grand total |
| Scenarios.InvalidCaptchaThenEndScenario | app.py:262-269 | a wrong captcha gives the invalid-captcha error. Ending the session then succeeds once, and a second end gets 404 |

## Behaviour of the code worth noting

These are facts about `app.py` that a reader might not expect. The model follows the code in each case.

- The grand total is read from the 4th, 3rd and 2nd cells counted from the end of its row (`total_cells[-4]` to `[-2]`). The last cell of that row is never read.
- `process_vehicle` catches every exception from `get_captcha`, including its 404 for a session without a driver. It re-raises all of them as 500. `refresh_captcha` and `submit_challan` pass a 404 through unchanged.
- `start_session` stores a session only after the driver has launched. A failed launch therefore has nothing to roll back.
- The frame re-entry step never runs, because `frame_index` is always `None`.
- A table without a first row gives empty vehicle information (`{}`). The fallback to the submitted number applies only when a lookup in the first row fails.
- A whitespace-only typed number is truthy, so it passes the input check. It is then stored as the empty string. An image whose recognised text is empty is refused with 400 instead.

## Left out

- Browser driver mechanics: `create_driver`, its options, and page-load timeouts. A launch is a `Launch` input, either a driver or a failure.
- Explicit waits, clicks, `send_keys` and `execute_script` in the submit flow. Their only effect is modelled: either a `DriverFault` (500) or a result `Page`.
- The best-effort loading-spinner wait (app.py:253-258), because it has no effect on the result.
- The frame-switching branch (app.py:224-230), which is dead code because `frame_index` is set to `None` at app.py:183. `frame_index` is not stored.
- The recognition call in `extract_text_from_image` (app.py:109-145). It is a foreign network service, so it is the function parameter `recognize`, where an empty result means failure.
- Base64 encoding of the captcha PNG, which is a library wrapper. The captcha is returned as bytes.
- Cookie and `base_url` capture (app.py:166-171), which are library wrappers with no influence on any decision.
- Element lookups by XPath: the owner-name heuristic, the `Grand Total` row, and the checkbox-row filter. Their results are inputs: the first-row `div` texts, the grand-total row, and the list of checkbox rows. Each element text is its first text node, which is what XPath `contains(text(), …)` inspects.
- A table whose row listing itself raises counts as an absent table. The code also reports the undetermined status in that case.
- Endpoints.GetCaptcha: a failure after the captcha element was found, such as listing the hidden inputs raising, is not separated from a failed load. The code has already reset `hidden_fields` to `{}` at that point (app.py:186), and may have partly filled it, before raising 500. The model instead leaves every key unchanged on any failed load.
- Endpoints.ProcessVehicle: the 500 detail appends the inner error's detail, not Python's full rendering of the exception text. Likewise, every exception message (`{e}`) is an opaque `cause` string.
- The JSON response envelopes (`session_id`, `"session_started"`, `"vehicle_processed"`, `"session_closed"`), which are presentation. Each endpoint returns only the data it computes.
- FastAPI routing, CORS, the HTML root page and its templates, the Mangum handler, `dotenv`, and the `uvicorn`/`atexit` block, which are hosting and presentation.
- Concurrency between requests, which the code does not defend against.
- UUID generation. The new id is an argument that must not already be a key of the store.
- Endpoints.VehicleNumberOf: the `vehicle_number` field is text or absent. A file sent under that name is truthy, so `.strip()` at app.py:429 raises outside any handler, giving a bare 500 with the store unchanged. The model does not represent that input.
- Unicode whitespace and letter case. `strip()` and `upper()` are modelled on ASCII only.
