/** Go's `error` values as far as the throttler produces and inspects them. */
module Errors {

  /**
   * An error value.
   * - TooManyActionsExecuted is the package's sentinel `ErrToManyActionsExecuted`;
   *   as a constructor of its own it has the identity `errors.New` gives it.
   * - Plain is any other error created by a collaborator (`errors.New(text)`).
   * - Wrapped is what `fmt.Errorf(context + ": %w", inner)` returns.
   */
  datatype Error =
    | TooManyActionsExecuted
    | Plain(text: string)
    | Wrapped(context: string, inner: Error)

  /** The text `err.Error()` returns; wrapping keeps the inner text as a suffix. */
  function Message(e: Error): (m: string)
    ensures e.Wrapped? ==> |Message(e.inner)| <= |m| && m[|m| - |Message(e.inner)|..] == Message(e.inner)
    ensures e.Wrapped? ==> |e.context| <= |m| && m[..|e.context|] == e.context
  {
    match e
    case TooManyActionsExecuted => "too many actions executed"
    case Plain(text) => text
    case Wrapped(context, inner) => context + ": " + Message(inner)
  }

  /** `errors.Is(e, target)`: target is e or somewhere down its chain of wrapped errors. */
  predicate Is(e: Error, target: Error)
  {
    e == target || (e.Wrapped? && Is(e.inner, target))
  }
}
