/**
 * Stand-ins for what the host runtime supplies to a job: the wall clock
 * (`Date.now()`) and the handles returned by `setInterval`.
 */
module Host {

  /** A reading of `Date.now()`: milliseconds since the epoch, always positive. */
  type Millis = t: int | t > 0 witness 1

  /** The handle `setInterval` returns and `clearInterval` takes. */
  type Handle = nat
}
