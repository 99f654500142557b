/**
 * The server's module-level state wired together: the polling set shared by
 * the two polling endpoints, the checkpoint of the key-protected one, and the
 * two session sets. Only the login flow issues tokens, and it issues them into
 * the appointments route's set; the set of app/utils/session.ts, which the
 * delete route consults, is never added to by any handler.
 */
module Server {
  import opened Wrappers
  import opened Provider
  import opened Sessions
  import opened Calendly
  import CheckAppointments
  import Middleware
  import MissionaryVerify
  import MissionaryAppointments
  import MissionaryDelete

  class Server {
    const tracker: AppointmentTracker
    const checkRoute: CheckAppointments.CheckpointRoute
    /** `validSessions` of app/api/missionary/appointments/route.ts. */
    const loginSessions: SessionStore
    /** `validSessions` of app/utils/session.ts. */
    const utilitySessions: SessionStore

    ghost predicate Valid()
      reads this, tracker, checkRoute, loginSessions, utilitySessions
    {
      && checkRoute.tracker == tracker && tracker.Valid()
      && loginSessions != utilitySessions
      && loginSessions.ttl == MissionarySessionTtl && utilitySessions.ttl == UtilitySessionTtl
      && utilitySessions.tokens == {} && utilitySessions.timers == []
    }

    constructor(startup: int)
      ensures Valid() && fresh(loginSessions) && fresh(utilitySessions) && fresh(tracker) && fresh(checkRoute)
      ensures checkRoute.lastCheckTime == startup && tracker.processed == []
      ensures loginSessions.State() == SessionState({}, [])
    {
      var t := new AppointmentTracker();
      tracker := t;
      checkRoute := new CheckAppointments.CheckpointRoute(startup, t);
      loginSessions := new SessionStore(MissionarySessionTtl);
      utilitySessions := new SessionStore(UtilitySessionTtl);
    }

    /** `POST /api/missionary/verify`. */
    method Login(password: Option<string>, accessCode: Option<string>, freshToken: string, now: int)
      returns (status: int, sessionToken: Option<string>)
      requires Valid()
      modifies loginSessions
      ensures Valid()
      ensures status == MissionaryVerify.StatusOf(MissionaryVerify.Authenticate(password, accessCode))
      ensures status == 200 ==> sessionToken == Some(freshToken) && loginSessions.IsValid(freshToken, now)
                                && loginSessions.State() == AddAt(MissionarySessionTtl, old(loginSessions.State()), freshToken, now)
      ensures status != 200 ==> loginSessions.State() == old(loginSessions.State())
    {
      status, sessionToken := MissionaryVerify.Post(loginSessions, password, accessCode, freshToken, now);
    }

    /** `POST /api/missionary/appointments`. */
    method ListAppointments(sessionToken: Option<string>, now: int, listEvents: Query -> EventsResponse,
                            inviteesOf: string -> InviteeResponse)
      returns (status: int, appointments: seq<MissionaryAppointments.Appointment>)
      requires Valid()
      ensures status == 401 <==> !(sessionToken.Some? && loginSessions.IsValid(sessionToken.value, now))
    {
      var query;
      status, appointments, query := MissionaryAppointments.Post(loginSessions, sessionToken, now, listEvents, inviteesOf);
    }

    /** `POST /api/missionary/appointments/delete`: no handler ever adds to its set, so every token is refused. */
    method DeleteAppointment(sessionToken: Option<string>, eventId: Option<string>, now: int) returns (status: int)
      requires Valid()
      ensures status == 401
    {
      status := MissionaryDelete.Post(utilitySessions, sessionToken, eventId, now);
    }

    /** A logged-in missionary can list the appointments but never delete one. */
    method LoginThenUse(password: Option<string>, accessCode: Option<string>, freshToken: string, now: int,
                        listEvents: Query -> EventsResponse, inviteesOf: string -> InviteeResponse, eventId: Option<string>)
      returns (loginStatus: int, listStatus: int, deleteStatus: int)
      requires Valid()
      modifies loginSessions
      ensures Valid()
      ensures loginStatus == 200 ==> listStatus != 401
      ensures deleteStatus == 401
    {
      var token;
      loginStatus, token := Login(password, accessCode, freshToken, now);
      var appointments;
      listStatus, appointments := ListAppointments(token, now, listEvents, inviteesOf);
      deleteStatus := DeleteAppointment(token, eventId, now);
    }

    /** A login token is refused once its 24 hours are over, even if no timer was run in between. */
    method LoginExpires(password: Option<string>, accessCode: Option<string>, freshToken: string, now: int, later: int,
                        listEvents: Query -> EventsResponse, inviteesOf: string -> InviteeResponse)
      returns (loginStatus: int, listStatus: int)
      requires Valid()
      requires later >= now + MissionarySessionTtl
      modifies loginSessions
      ensures Valid()
      ensures loginStatus == 200 ==> listStatus == 401
    {
      ghost var before := loginSessions.State();
      var token;
      loginStatus, token := Login(password, accessCode, freshToken, now);
      if loginStatus == 200 {
        SessionEndsAfterTtl(MissionarySessionTtl, before, freshToken, now, later);
      }
      var appointments;
      listStatus, appointments := ListAppointments(token, later, listEvents, inviteesOf);
    }

    /** The clock reaches `now`: the due session timers of both sets fire. */
    method Tick(now: int)
      requires Valid()
      modifies loginSessions, utilitySessions
      ensures Valid()
      ensures loginSessions.State() == Apply(MissionarySessionTtl, old(loginSessions.State()), Ticked(now))
    {
      loginSessions.Tick(now);
      utilitySessions.Tick(now);
    }

    /**
     * `GET /api/check-appointments` behind the middleware: a request the gate
     * stops changes neither the checkpoint nor the polling set.
     */
    method GuardedCheck(header: Option<string>, apiKey: Option<string>, env: map<string, string>, now: int,
                             listEvents: Query -> EventsResponse, inviteesOf: string -> InviteeResponse,
                             sendOutcome: nat -> bool)
      returns (status: int)
      requires Valid()
      modifies checkRoute, tracker
      ensures Valid()
      ensures Middleware.Decide(Middleware.GuardedPath, header, apiKey) != Middleware.Next ==>
                && status == Middleware.StatusOf(Middleware.Decide(Middleware.GuardedPath, header, apiKey))
                && checkRoute.lastCheckTime == old(checkRoute.lastCheckTime) && tracker.processed == old(tracker.processed)
      ensures Middleware.Decide(Middleware.GuardedPath, header, apiKey) == Middleware.Next ==>
                (status == 200 <==> CheckAppointments.CheckEnvironment(env).None?)
    {
      var decision := Middleware.Decide(Middleware.GuardedPath, header, apiKey);
      if decision != Middleware.Next {
        return Middleware.StatusOf(decision);
      }
      var response;
      status, response := checkRoute.Get(env, now, listEvents, inviteesOf, sendOutcome);
    }
  }
}
