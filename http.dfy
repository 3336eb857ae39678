/**
 * The envelope of a backend call as the views see it.
 *
 * Every endpoint answers `{ success, data?, message? }`. A call either throws before a
 * body is read (network failure, or a body that is not JSON: `reason` is the thrown
 * error's message) or yields the HTTP `ok` flag together with the decoded envelope.
 * A missing `message` is the empty string: JavaScript's `message || fallback` treats
 * both alike.
 */
module Http {

  datatype Option<T> = None | Some(value: T)

  datatype Reply<T> =
    | Thrown(reason: string)
    | Replied(ok: bool, success: bool, data: T, message: string)

  /** The test every view applies before it uses a body: `response.ok && result.success`. */
  predicate Accepted<T>(r: Reply<T>)
  {
    r.Replied? && r.ok && r.success
  }

  /** The test on a call whose body is not read: `response.ok`. */
  predicate IsOk<T>(r: Reply<T>)
  {
    r.Replied? && r.ok
  }

  /** The test on a call whose HTTP status is not read: `result.success`. */
  predicate DeclaresSuccess<T>(r: Reply<T>)
  {
    r.Replied? && r.success
  }

  /**
   * The text that ends up in a view's `error` field when a call that throws
   * `new Error(result.message || fallback)` fails: the thrown reason, the
   * envelope's message, or the fallback when the message is empty.
   */
  function ErrorText<T>(r: Reply<T>, fallback: string): (t: string)
    ensures r.Thrown? ==> t == r.reason
    ensures r.Replied? ==> t == r.message || (t == fallback && r.message == "")
    ensures r.Replied? && fallback != "" ==> t != ""
  {
    match r
    case Thrown(reason) => reason
    case Replied(_, _, _, message) => if message != "" then message else fallback
  }
}
