/**
 * Go error values as they occur in golog: a leaf error made by errors.New or
 * fmt.Errorf without %w, or an error wrapped with fmt.Errorf("<context>: %w", cause).
 */
module Errors {

  datatype Error =
    | Failure(text: string)
    | Wrapped(context: string, cause: Error)

  /** The text Error() returns; a %w wrap renders as "<context>: <cause>". */
  function Message(e: Error): string
  {
    match e
    case Failure(text) => text
    case Wrapped(context, cause) => context + ": " + Message(cause)
  }

  /** errors.Is over the chain that Unwrap walks (comparison by value). */
  predicate Is(e: Error, target: Error)
  {
    e == target || (e.Wrapped? && Is(e.cause, target))
  }

  /** The message of an error wrapping `target` somewhere in its chain ends with `target`'s message. */
  lemma {:induction false} WrappedMessageEndsWithCause(e: Error, target: Error)
    requires Is(e, target)
    ensures |Message(target)| <= |Message(e)|
    ensures Message(e)[|Message(e)| - |Message(target)|..] == Message(target)
  {
    if e != target {
      WrappedMessageEndsWithCause(e.cause, target);
      var m := Message(e.cause);
      assert Message(e) == e.context + ": " + m;
      assert Message(e)[|Message(e)| - |m|..] == m;
    }
  }
}
