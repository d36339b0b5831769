/**
 * Values shared by every part of the model: an optional value (TypeScript's `T | null`)
 * and the settled outcome of one awaited call into the Puter platform. The platform
 * itself is not modelled; each call is given its outcome as a parameter.
 */
module Remote {

  /** `T | null` (and `T | undefined`, which the modelled code treats the same way). */
  datatype Option<+T> = None | Some(value: T)

  /**
   * What a rejected promise or a `throw` carries: an `Error` with its message, another object
   * with a `message` property, or any other value (whose `message` is `undefined`).
   */
  datatype Thrown = ErrorObject(message: string) | MessageObject(message: string) | OtherValue

  /** How one awaited call settles. */
  datatype Outcome<+T> = Resolved(value: T) | Rejected(reason: Thrown)

  /** Outcome of a call whose resolved value the caller ignores (`kv.set`, `fs.delete`, `kv.flush`). */
  type Ack = Outcome<()>

  /** `err instanceof Error ? err.message : fallback`, the message a catch block of the store keeps. */
  function MessageOf(reason: Thrown, fallback: string): (m: string)
    // only a real `Error` passes `instanceof Error`
    ensures !reason.ErrorObject? ==> m == fallback
    // an Error's message is kept even when it is empty
    ensures reason.ErrorObject? ==> m == reason.message
  {
    match reason
    case ErrorObject(m) => m
    case MessageObject(_) => fallback
    case OtherValue => fallback
  }

  /** `err.message || fallback`: a missing or empty message falls back. */
  function MessageOrElse(reason: Thrown, fallback: string): (m: string)
    requires fallback != ""
    ensures m != ""
    // any thrown object's non-empty `message` is shown, whether or not it is an `Error`
    ensures !reason.OtherValue? && reason.message != "" ==> m == reason.message
    ensures reason.OtherValue? || reason.message == "" ==> m == fallback
  {
    match reason
    case ErrorObject(m) => if m != "" then m else fallback
    case MessageObject(m) => if m != "" then m else fallback
    case OtherValue => fallback
  }

  /**
   * The store's `instanceof Error` test and the upload page's `||` test give the same message
   * except in two cases: an `Error` whose message is empty, which only the upload page replaces,
   * and a non-`Error` object with a non-empty message, which only the upload page shows (unless
   * that message happens to equal the fallback).
   */
  lemma MessageOfAgreesWithMessageOrElse(reason: Thrown, fallback: string)
    requires fallback != ""
    ensures MessageOf(reason, fallback) == MessageOrElse(reason, fallback) <==>
      && !(reason.ErrorObject? && reason.message == "")
      && !(reason.MessageObject? && reason.message != "" && reason.message != fallback)
  {
  }
}
