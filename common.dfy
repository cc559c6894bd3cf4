// Values shared by every part of the model: optional values, the HTTP
// exceptions the services raise, and JavaScript truthiness of strings.
module Common {

  datatype Option<T> = None | Some(value: T)

  /** The NestJS exceptions the core raises, each with its message. */
  datatype Error =
    | NotFound(message: string)
    | Forbidden(message: string)
    | BadRequest(message: string)
    | Conflict(message: string)
    | Unauthorized(message: string)

  /** A value, or the exception an async service method would reject with. */
  datatype Result<T> = Ok(value: T) | Err(error: Error)

  /** A check that returns normally or throws. */
  datatype Outcome = Pass | Fail(error: Error)

  /** Identifiers (UUIDs in the database) are plain strings. */
  type Id = string

  /** JavaScript truthiness of an optional string: present and non-empty. */
  predicate Truthy(s: Option<string>) {
    s.Some? && s.value != ""
  }
}
