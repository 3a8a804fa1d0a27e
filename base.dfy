/** Option, Result and the abstraction of one network request. */
module Base {

  datatype Option<+T> = None | Some(value: T)

  /** Outcome of a client-side check: a value, or the message shown inline. */
  datatype Result<+T> = Ok(value: T) | Err(message: string)

  /**
   * What a `fetch` call ends in, seen from the component that issued it.
   * - `Success(body)`: the response was ok and its JSON body decoded to `body`.
   * - `HttpFailure(errorField)`: the response was not ok; `errorField` is the
   *   `error` member of its JSON body, "" when the body has none.
   * - `Thrown(message)`: the request or the decoding of the body threw; `message`
   *   is the exception's message.
   */
  datatype Reply<+T> = Success(body: T) | HttpFailure(errorField: string) | Thrown(message: string)

  /** The message a form shows for a failed request when it reads the server's
      `error` field (`errorData.error || fallback`). */
  function ServerMessage<T>(reply: Reply<T>, fallback: string): (m: string)
    requires !reply.Success?
    ensures reply.HttpFailure? && reply.errorField != "" ==> m == reply.errorField
    ensures reply.HttpFailure? && reply.errorField == "" ==> m == fallback
    ensures reply.Thrown? ==> m == reply.message
  {
    match reply
    case HttpFailure(e) => if e != "" then e else fallback
    case Thrown(m) => m
  }

  /** The message a view shows when it throws a fixed message on a non-ok
      response (`if (!response.ok) throw new Error(fixed)`). */
  function FixedMessage<T>(reply: Reply<T>, fixed: string): (m: string)
    requires !reply.Success?
    ensures reply.HttpFailure? ==> m == fixed
    ensures reply.Thrown? ==> m == reply.message
  {
    match reply
    case HttpFailure(_) => fixed
    case Thrown(m) => m
  }

  function Min(a: int, b: int): int { if a <= b then a else b }
}
