/** What can happen to one awaited call on a remote store. */
module Faults {

  /** Lost: the call failed before it had any effect. Unacknowledged: it had its effect, but the reply
      never came, so the caller sees an error. */
  datatype Outcome = Done | Lost | Unacknowledged {
    /** Whether the remote effect took place. */
    predicate Applied() { this != Lost }
  }
}
