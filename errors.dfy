/** Error values shared by every adapter, and the failure-compatible Result and
    Option types the model threads them through. */
module Errors {

  /** A Go runtime panic: not an error value, it unwinds through every caller. */
  datatype Panic =
    | IndexOutOfRange   // a slice or index expression outside its operand
    | MustFailed        // `Must` on a failed `strconv.ParseUint`

  /** The kinds of error the adapters return. The message texts of the source are
      not modelled; the wrappers that add context keep the wrapped cause. */
  datatype Error =
    | TransportFailed              // the request could not be built or sent, or no reply came
    | BadStatus(code: int)         // a reply whose status code the caller did not accept
    | NeedAuth                     // the stat page says the session is no longer valid
    | InvalidBody                  // no line of the page has what the scan looks for
    | TokenFailed(cause: Error)    // "can't get token: ..." around a token fetch error
    | AuthFailed(cause: Error)     // "auth error: ..." around a login error
    | Panicked(panic: Panic)

  /** `fmt.Errorf("can't get token: %w", e)`; a panic passes through unwrapped. */
  function TokenError(e: Error): Error
  {
    if e.Panicked? then e else TokenFailed(e)
  }

  /** `fmt.Errorf("auth error: %w", e)`; a panic passes through unwrapped. */
  function AuthError(e: Error): Error
  {
    if e.Panicked? then e else AuthFailed(e)
  }

  datatype Result<+T> = Ok(value: T) | Err(error: Error) {
    predicate IsFailure() { Err? }

    function PropagateFailure<U>(): Result<U>
      requires Err?
    {
      Err(error)
    }

    function Extract(): T
      requires Ok?
    {
      value
    }
  }

  datatype Option<+T> = None | Some(value: T)
}
