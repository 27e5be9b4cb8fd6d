/**
 * Thrown errors. A collaborator's failure and every `throw` in the handlers is
 * modelled as a value: its `message` and its `code` property.
 */
module JsErrors {
  import opened JsValues

  /** An error object; `code` is None when the property is undefined. */
  datatype JsError = JsError(message: string, code: Option<Json>)

  /** What an awaited call or a throwing step produced: its value, or the error it threw. */
  datatype Outcome<+T> = Ok(value: T) | Err(error: JsError)

  /** `new Error(message)`: a fresh error carries no code. */
  function NewError(message: string): JsError {
    JsError(message, None)
  }

  /** `catch (e) { throw new Error(prefix + e.message) }` around a step. */
  function Rewrap<T>(o: Outcome<T>, prefix: string): Outcome<T> {
    match o
    case Ok(_) => o
    case Err(e) => Err(NewError(prefix + e.message))
  }

  /** The TypeError V8 throws on reading property k of null. */
  function NullPropertyRead(k: string): JsError {
    NewError("Cannot read properties of null (reading '" + k + "')")
  }
}
