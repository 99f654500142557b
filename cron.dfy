/**
 * app/api/cron/route.ts: the scheduled polling endpoint. A bearer secret
 * guards it; each run looks back a fixed five minutes from the clock and keeps
 * no checkpoint of its own.
 */
module Cron {
  import opened Wrappers
  import opened Provider
  import opened Calendly

  const LookbackMs: int := 5 * 60 * 1000

  /** The header must equal `Bearer ${CRON_SECRET}` exactly; an unset secret renders as `undefined`. */
  predicate Authorized(header: Option<string>, secret: Option<string>)
  {
    header == Some("Bearer " + Render(secret))
  }

  /** With `CRON_SECRET` unset, the literal header `Bearer undefined` is accepted. */
  lemma UnsetSecretAdmitsLiteral(secret: Option<string>)
    requires secret.None?
    ensures Authorized(Some("Bearer undefined"), secret)
    ensures !Authorized(None, secret)
  {
    assert "Bearer " + Render(secret) == "Bearer undefined";
  }

  /** `{success, result, checkTime, lookbackTime}`, or the 401. */
  datatype CronResponse = Unauthorized | Ran(result: ProcessResult, checkTime: int, lookbackTime: int)

  /**
   * `GET`: `now` is the clock when the run starts and `checkTime` the clock
   * after the batch. An unauthorised call runs nothing; otherwise the batch
   * covers events from `now - LookbackMs` on and its result is returned as is.
   */
  method Get(tracker: AppointmentTracker, header: Option<string>, secret: Option<string>, now: int, checkTime: int,
             listEvents: Query -> EventsResponse, inviteesOf: string -> InviteeResponse, sendOutcome: nat -> bool)
    returns (status: int, response: CronResponse)
    requires tracker.Valid()
    modifies tracker
    ensures tracker.Valid()
    ensures !Authorized(header, secret) ==> status == 401 && response == Unauthorized
                                            && tracker.processed == old(tracker.processed)
    ensures Authorized(header, secret) ==>
              var o := Process(old(tracker.processed), listEvents(Query(now - LookbackMs, None)), inviteesOf, sendOutcome);
              && status == 200 && response == Ran(o.result, checkTime, now - LookbackMs)
              && tracker.processed == o.tracked
  {
    if !Authorized(header, secret) {
      return 401, Unauthorized;
    }
    var lookback := now - LookbackMs;
    var result, _, _ := tracker.ProcessNewAppointments(lookback, listEvents, inviteesOf, sendOutcome);
    status, response := 200, Ran(result, checkTime, lookback);
  }
}
