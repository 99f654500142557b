/**
 * app/api/missionary/appointments/delete/route.ts: a session gate on the
 * 7-day set of app/utils/session.ts followed by a constant success. The
 * `localStorage` branch only runs in a browser, so on the server the event id
 * is neither checked nor used and nothing changes.
 */
module MissionaryDelete {
  import opened Wrappers
  import opened Sessions

  /** The status of the `POST` handler for a request at `now`; `store` is the utility session set. */
  function Post(store: SessionStore, sessionToken: Option<string>, eventId: Option<string>, now: int): (status: int)
    reads store
    ensures status == 200 <==> sessionToken.Some? && store.IsValid(sessionToken.value, now)
    ensures status == 200 || status == 401
  {
    if sessionToken.Some? && store.IsValid(sessionToken.value, now) then 200 else 401
  }
}
