/** Option and Result, the failure-carrying values used throughout the model. */
module Wrappers {

  /** A value that may be absent: JavaScript's `undefined`/`null` for a field or variable. */
  datatype Option<+T> = None | Some(value: T)

  /** The outcome of an operation that can throw: the thrown message on failure. */
  datatype Result<+T> = Ok(value: T) | Err(message: string)

  /** JavaScript truthiness of an optional string: present and not empty. */
  predicate Truthy(s: Option<string>)
  {
    s.Some? && s.value != ""
  }

  /** `s || fallback` for an optional string. */
  function OrElse(s: Option<string>, fallback: string): string
  {
    if Truthy(s) then s.value else fallback
  }

  /** How a template literal renders an optional string: `undefined` when absent. */
  function Render(s: Option<string>): string
  {
    match s
    case Some(v) => v
    case None => "undefined"
  }
}
