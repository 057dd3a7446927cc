/** The few JavaScript value rules the blog's server code relies on. */
module Js {
  import opened Wrappers

  /** A thrown value: an instance of `Error` carries a message, anything else does not. */
  datatype Thrown = ErrorInstance(message: string) | NonError

  /** The text every error response uses as `details` when the thrown value is not an `Error`. */
  const UnknownError: string := "Unknown error"

  /** `error instanceof Error ? error.message : 'Unknown error'` */
  function Details(e: Thrown): string
  {
    match e
    case ErrorInstance(message) => message
    case NonError => UnknownError
  }

  /** JavaScript truthiness of a value that is a string when present: only a non-empty string is truthy. */
  predicate Truthy(v: Option<string>)
  {
    v.Some? && v.value != ""
  }
}
