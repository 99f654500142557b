/**
 * app/api/missionary/appointments/route.ts: the missionaries' appointment list.
 * A session gate on the route's own 24-hour token set, a query for the next
 * thirty days, a projection of each event through its first invitee, and a
 * sort by start time.
 */
module MissionaryAppointments {
  import opened Wrappers
  import opened Provider
  import opened Sessions
  import opened Sorting

  /** The span queried ahead of the request time: 30 days. */
  const LookaheadMs: int := 30 * MsPerDay

  /** One element of the `appointments` array. */
  datatype Appointment = Appointment(eventId: string, inviteeName: string, email: Option<string>,
                                     phoneNumber: Option<string>, startTime: int, address: Option<string>)

  const NoInvitee: Invitee := Invitee(None, None, None, None)

  /** `inviteesResponse?.collection?.[0] || {}`. */
  function FirstInvitee(response: InviteeResponse): (inv: Invitee)
    requires !response.InviteesThrew?
    ensures response.Invitees? && |response.entries| > 0 && response.entries[0].Some? ==> inv == response.entries[0].value
    ensures !(response.Invitees? && |response.entries| > 0 && response.entries[0].Some?) ==> inv == NoInvitee
  {
    match response
    case Invitees(entries) => if |entries| > 0 && entries[0].Some? then entries[0].value else NoInvitee
    case _ => NoInvitee
  }

  /**
   * The async callback of the `map`: `None` stands for the `null` returned when
   * the event is unusable or its invitee lookup throws.
   */
  function Project(entry: Option<Event>, inviteesOf: string -> InviteeResponse): (r: Option<Appointment>)
    ensures r.Some? ==> entry.Some? && r.value.eventId == entry.value.uri && r.value.startTime == entry.value.startTime
  {
    match entry
    case None => None
    case Some(e) =>
      var response := inviteesOf(e.uri);
      if response.InviteesThrew? then None
      else
        var inv := FirstInvitee(response);
        Some(Appointment(e.uri, OrElse(inv.name, "Unknown"), inv.email, inv.textReminderNumber, e.startTime,
                         AddressAnswer(inv.questionsAndAnswers)))
  }

  /** The appointment an event projects to: its own URI and start time, and the first invitee's details. */
  lemma ProjectFields(entry: Option<Event>, inviteesOf: string -> InviteeResponse)
    ensures var r := Project(entry, inviteesOf);
            && (r.Some? <==> entry.Some? && !inviteesOf(entry.value.uri).InviteesThrew?)
            && (r.Some? ==>
                  var inv := FirstInvitee(inviteesOf(entry.value.uri));
                  && r.value.eventId == entry.value.uri && r.value.startTime == entry.value.startTime
                  && (Truthy(inv.name) ==> r.value.inviteeName == inv.name.value)
                  && (!Truthy(inv.name) ==> r.value.inviteeName == "Unknown")
                  && r.value.email == inv.email && r.value.phoneNumber == inv.textReminderNumber
                  && r.value.address == AddressAnswer(inv.questionsAndAnswers))
  {
  }

  /** `appointments.filter(Boolean)` after the `map`: the non-null projections, in provider order. */
  function Projections(entries: seq<Option<Event>>, inviteesOf: string -> InviteeResponse): (r: seq<Appointment>)
    ensures |r| <= |entries|
    ensures forall a :: a in r <==> exists i :: 0 <= i < |entries| && Project(entries[i], inviteesOf) == Some(a)
  {
    if entries == [] then []
    else
      var rest := Projections(entries[..|entries| - 1], inviteesOf);
      var last := Project(entries[|entries| - 1], inviteesOf);
      assert forall i :: 0 <= i < |entries| - 1 ==> entries[..|entries| - 1][i] == entries[i];
      rest + (if last.Some? then [last.value] else [])
  }

  function StartTimeOf(a: Appointment): int
  {
    a.startTime
  }

  /**
   * The `POST` handler. `sessionToken` is `None` when the body has no such
   * field; `listEvents` answers the provider query the handler issues, which is
   * returned in `query`. Status 200 carries `appointments`.
   */
  method Post(store: SessionStore, sessionToken: Option<string>, now: int,
              listEvents: Query -> EventsResponse, inviteesOf: string -> InviteeResponse)
    returns (status: int, appointments: seq<Appointment>, query: Option<Query>)
    ensures !(sessionToken.Some? && store.IsValid(sessionToken.value, now)) ==> status == 401 && query.None? && appointments == []
    ensures sessionToken.Some? && store.IsValid(sessionToken.value, now) ==>
              && query == Some(Query(now, Some(now + LookaheadMs)))
              && match listEvents(query.value)
                 case ListThrew(_) => status == 500 && appointments == []
                 case NoCollection => status == 200 && appointments == []
                 case Collection(entries) =>
                   && status == 200
                   && SortedBy(appointments, StartTimeOf)
                   && multiset(appointments) == multiset(Projections(entries, inviteesOf))
  {
    if !(sessionToken.Some? && store.IsValid(sessionToken.value, now)) {
      return 401, [], None;
    }
    query := Some(Query(now, Some(now + LookaheadMs)));
    match listEvents(query.value)
    case ListThrew(_) =>
      status, appointments := 500, [];
    case NoCollection =>
      status, appointments := 200, [];
    case Collection(entries) =>
      var valid := Projections(entries, inviteesOf);
      var a := new Appointment[|valid|](i requires 0 <= i < |valid| => valid[i]);
      assert a[..] == valid;
      SortByKey(a, StartTimeOf);
      status, appointments := 200, a[..];
  }
}
