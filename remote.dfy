/**
 * Results of calls this model does not perform. A remote call either
 * resolves to a response envelope or rejects with some thrown value.
 */
module Remote {
  import opened Wrappers
  import opened AuthSchema

  /**
   * A thrown value: an `Error` instance, which always has a message, or any
   * other value (a response body, say), whose `message` property may be
   * missing.
   */
  datatype Thrown = ErrorInstance(message: string) | NonError(messageProperty: Option<string>)

  /** What `error.message` reads. */
  function MessageOf(t: Thrown): (m: Option<string>)
    ensures t.ErrorInstance? ==> m == Some(t.message)
  {
    match t
    case ErrorInstance(msg) => Some(msg)
    case NonError(msg) => msg
  }

  datatype Outcome<T> = Returned(response: ApiResponse<T>) | Threw(thrown: Thrown)

  /** The payload of `/auth/me`. */
  datatype MeData = MeData(user: User)
}
