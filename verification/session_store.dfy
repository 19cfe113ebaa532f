/** The process-wide session dictionary of app.py (`active_sessions`) and
    the operations that create and remove its entries: `start_session`,
    `close_session_sync` and `end_session`. */
module SessionStore {
  import opened Wrappers

  /** A session identifier (the text of a UUID in app.py). */
  type Id = string

  /** A browser automation handle, identified by the browser process it
      controls. */
  datatype Driver = Driver(handle: nat)

  /** The `form_action` key of a session: never set, set to `None` because no
      form was found, or set to an action URL. */
  datatype FormAction = Unset | NoAction | Action(url: string)

  /** One entry of the session dictionary. Every key but `driver` is
      optional: `vehicleNumberInput` is the number stored by
      `process_vehicle`, `hiddenFields` and `formAction` are captured by
      `get_captcha`, `submittedNumber` is recorded by
      `process_challan_submission`. */
  datatype Session = Session(
    driver: Option<Driver>,
    vehicleNumberInput: Option<string>,
    hiddenFields: Option<map<string, string>>,
    formAction: FormAction,
    submittedNumber: Option<string>)

  type Store = map<Id, Session>

  /** An HTTP error raised to the caller. */
  datatype HttpError = HttpError(status: int, detail: string)

  /** What an endpoint leaves behind: the session dictionary after the call,
      and either its response or the error it raised. */
  datatype Reply<T> = Reply(store: Store, outcome: Result<T, HttpError>)

  const SessionNotFound := "Session not found"
  const SessionOrDriverNotFound := "Session not found or driver not initialized"
  const StartFailedPrefix := "Failed to start session: "

  /** The freshly created session: a driver and nothing else. */
  function NewSession(d: Driver): (s: Session)
    ensures s.driver == Some(d)
    ensures s.vehicleNumberInput.None? && s.hiddenFields.None? && s.formAction.Unset? && s.submittedNumber.None?
  {
    Session(Some(d), None, None, Unset, None)
  }

  /** The guard of `get_captcha` and `process_challan_submission`: the
      session exists and has a driver. */
  predicate Live(store: Store, id: Id) {
    id in store && store[id].driver.Some?
  }

  /** That guard as a lookup: the session, or a 404. */
  function LookupLive(store: Store, id: Id): (r: Result<Session, HttpError>)
    ensures r.Ok? <==> Live(store, id)
    ensures r.Ok? ==> r.value == store[id]
    ensures r.Err? ==> r.error == HttpError(404, SessionOrDriverNotFound)
  {
    if Live(store, id) then Ok(store[id]) else Err(HttpError(404, SessionOrDriverNotFound))
  }

  /** `store'` differs from `store` at most in the entry for `id`, which
      keeps its driver, and no entry is added or removed. */
  ghost predicate OnlyTouches(store: Store, store': Store, id: Id) {
    && store'.Keys == store.Keys
    && (forall k | k in store && k != id :: store'[k] == store[k])
    && (id in store ==> store'[id].driver == store[id].driver)
  }

  /** Every session owns a driver, and no two sessions share one. */
  ghost predicate Wellformed(store: Store) {
    && (forall id | id in store :: store[id].driver.Some?)
    && (forall a, b | a in store && b in store && a != b :: store[a].driver != store[b].driver)
  }

  /** `d` is owned by no session of `store`. */
  ghost predicate Unowned(store: Store, d: Driver) {
    forall id | id in store :: store[id].driver != Some(d)
  }

  /** Changing one session without touching its driver keeps the store well
      formed. */
  lemma OnlyTouchesKeepsWellformed(store: Store, store': Store, id: Id)
    requires Wellformed(store) && OnlyTouches(store, store', id)
    ensures Wellformed(store')
  {
    forall a, b | a in store' && b in store' && a != b
      ensures store'[a].driver != store'[b].driver
    {
      assert store'[a].driver == store[a].driver;
      assert store'[b].driver == store[b].driver;
    }
  }

  // ---------------------------------------------------------------------
  // close_session_sync and end_session
  // ---------------------------------------------------------------------

  /** The effect of `close_session_sync`: the store without `id`, whether
      there was an entry, and the driver that was quit (if any). */
  datatype Closed = Closed(store: Store, existed: bool, released: Option<Driver>)

  /** `close_session_sync`: pops the entry and quits its driver. A failing
      `quit()` is only logged, so the entry is gone either way. */
  function CloseSession(store: Store, id: Id): (c: Closed)
    ensures c.existed <==> id in store
    ensures id !in c.store
    ensures forall k | k != id :: (k in c.store <==> k in store)
    ensures forall k | k in c.store :: c.store[k] == store[k]
    ensures c.released == (if id in store then store[id].driver else None)
  {
    if id in store then Closed(store - {id}, true, store[id].driver)
    else Closed(store, false, None)
  }

  /** Closing a second time finds nothing and quits nothing: a driver is
      released at most once. */
  lemma CloseTwice(store: Store, id: Id)
    ensures var c := CloseSession(CloseSession(store, id).store, id);
      !c.existed && c.released.None? && c.store == CloseSession(store, id).store
  {
  }

  /** `end_session`: closes the session, or raises 404 when there is none. */
  function EndSession(store: Store, id: Id): (r: Reply<Id>)
    ensures r.outcome.Ok? <==> id in store
    ensures r.outcome.Ok? ==> r.outcome.value == id
    ensures r.outcome.Err? ==> r.outcome.error == HttpError(404, SessionNotFound) && r.store == store
    ensures id !in r.store && r.store.Keys == store.Keys - {id}
    ensures forall k | k in r.store :: r.store[k] == store[k]
  {
    var c := CloseSession(store, id);
    if c.existed then Reply(c.store, Ok(id))
    else Reply(c.store, Err(HttpError(404, SessionNotFound)))
  }

  // ---------------------------------------------------------------------
  // start_session
  // ---------------------------------------------------------------------

  /** The outcome of `create_driver`: a new driver, or the failure text. */
  datatype Launch = Launched(driver: Driver) | LaunchFailed(cause: string)

  /** `start_session` with `newId` as the generated UUID: on a successful
      launch stores a new session holding only the driver; on a failed one
      leaves the store alone and raises 500. */
  function StartSession(store: Store, newId: Id, launch: Launch): (r: Reply<Id>)
    requires newId !in store
    ensures r.outcome.Ok? <==> launch.Launched?
    ensures r.outcome.Ok? ==>
              && r.outcome.value == newId
              && r.store.Keys == store.Keys + {newId} && |r.store| == |store| + 1
              && r.store[newId] == NewSession(launch.driver)
              && forall k | k in store :: r.store[k] == store[k]
    ensures r.outcome.Err? ==> r.store == store && r.outcome.error.status == 500
  {
    match launch
    case Launched(d) => Reply(store[newId := NewSession(d)], Ok(newId))
    case LaunchFailed(cause) => Reply(store, Err(HttpError(500, StartFailedPrefix + cause)))
  }

  /** Starting a session with a driver no session owns keeps the store well
      formed. */
  lemma StartKeepsWellformed(store: Store, newId: Id, launch: Launch)
    requires newId !in store && Wellformed(store)
    requires launch.Launched? ==> Unowned(store, launch.driver)
    ensures Wellformed(StartSession(store, newId, launch).store)
  {
  }

  /** Ending a session keeps the store well formed. */
  lemma EndKeepsWellformed(store: Store, id: Id)
    requires Wellformed(store)
    ensures Wellformed(EndSession(store, id).store)
  {
  }

  /** Ending a session just started gives back the store as it was, and
      releases the driver that was launched for it. */
  lemma StartThenEnd(store: Store, newId: Id, d: Driver)
    requires newId !in store
    ensures var started := StartSession(store, newId, Launched(d));
      && EndSession(started.store, newId).store == store
      && CloseSession(started.store, newId).released == Some(d)
  {
    var s' := StartSession(store, newId, Launched(d)).store;
    assert s' - {newId} == store;
  }
}
