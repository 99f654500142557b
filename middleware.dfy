/** middleware.ts: the bearer-key gate in front of the polling endpoint. */
module Middleware {
  import opened Wrappers

  const GuardedPath: string := "/api/check-appointments"

  datatype Decision = Next | ConfigError | Unauthorized

  function StatusOf(d: Decision): int
  {
    match d
    case Next => 200
    case ConfigError => 500
    case Unauthorized => 401
  }

  /**
   * Other paths pass; on the guarded path a missing or empty `API_SECRET_KEY`
   * is a server error whatever the header, and otherwise only the exact
   * header `Bearer <key>` passes.
   */
  function Decide(path: string, header: Option<string>, apiKey: Option<string>): (d: Decision)
    ensures d == Next <==> path != GuardedPath || (Truthy(apiKey) && header == Some("Bearer " + apiKey.value))
    ensures d == ConfigError <==> path == GuardedPath && !Truthy(apiKey)
    ensures d == Unauthorized <==> path == GuardedPath && Truthy(apiKey) && header != Some("Bearer " + apiKey.value)
  {
    if path != GuardedPath then Next
    else if !Truthy(apiKey) then ConfigError
    else if header != Some("Bearer " + apiKey.value) then Unauthorized
    else Next
  }
}
