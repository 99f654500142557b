/**
 * app/api/missionary/verify/route.ts: the missionary login. The access code
 * comes from the environment; on a match a fresh random token (an input here)
 * is added to the appointments route's session set and returned.
 */
module MissionaryVerify {
  import opened Wrappers
  import opened Sessions

  datatype LoginOutcome = ConfigError | Unauthorized | Authorized

  /**
   * The guard chain: an unset or empty `MISSIONARY_ACCESS_CODE` is a server
   * error whatever the password; otherwise only a password exactly equal to the
   * code is accepted (a missing password never is).
   */
  function Authenticate(password: Option<string>, accessCode: Option<string>): (r: LoginOutcome)
    ensures r == ConfigError <==> !Truthy(accessCode)
    ensures r == Authorized <==> Truthy(accessCode) && password == accessCode
    ensures r == Unauthorized <==> Truthy(accessCode) && password != accessCode
  {
    if !Truthy(accessCode) then ConfigError
    else if password != accessCode then Unauthorized
    else Authorized
  }

  function StatusOf(outcome: LoginOutcome): int
  {
    match outcome
    case ConfigError => 500
    case Unauthorized => 401
    case Authorized => 200
  }

  /**
   * The `POST` handler at `now`: `store` is the appointments route's set. Only
   * a successful login changes it, by adding exactly the token it returns.
   */
  method Post(store: SessionStore, password: Option<string>, accessCode: Option<string>, freshToken: string, now: int)
    returns (status: int, sessionToken: Option<string>)
    requires store.ttl == MissionarySessionTtl
    modifies store
    ensures status == StatusOf(Authenticate(password, accessCode))
    ensures status == 200 ==> sessionToken == Some(freshToken) && store.IsValid(freshToken, now)
                              && store.State() == AddAt(store.ttl, old(store.State()), freshToken, now)
    ensures status != 200 ==> sessionToken.None? && store.State() == old(store.State())
  {
    var outcome := Authenticate(password, accessCode);
    status := StatusOf(outcome);
    if outcome != Authorized {
      return status, None;
    }
    store.Add(freshToken, now);
    sessionToken := Some(freshToken);
  }
}
