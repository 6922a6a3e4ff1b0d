/**
 * A `setTimeout`/`setInterval` handle as seen by the code that holds it:
 * null (never set or cleared), or pending with the instant it is due, in
 * milliseconds. The event loop runs a pending timer only once it is due.
 */
module Timers {
  datatype Timer = Disarmed | Armed(due: int)
}
