/**
 * The outside of a job that the variants share: the error every
 * constructor throws without a callback, and, for the two older variants
 * (index.ts and src/timerjobs.ts), the options object their constructors
 * read and what `findTimers(property, match)` compares — the public
 * properties of a job and JavaScript's strict equality on the values they
 * hold.
 */
module JobProperties {
  import opened Helpers

  /**
   * The options object handed to the constructor. A string option that is
   * absent is the empty string (both are falsy, and both give the default);
   * an absent countdown is 0 for the same reason.
   */
  datatype RawOptions = RawOptions(
    autoStart: JsValue,
    blocking: JsValue,
    countdown: real,
    delimiter: string,
    emitLevel: JsValue,
    ignoreErrors: JsValue,
    immediate: JsValue,
    interval: JsValue,
    infinite: JsValue,
    namespace: string,
    reference: string,
    restartOn: string,
    startOn: string,
    stopOn: string)

  /** `{}`: every option absent, as in `new TimerJobs(callback)`. */
  const NoOptions := RawOptions(Undefined, Undefined, 0.0, "", Undefined, Undefined, Undefined,
                                Undefined, Undefined, "", "", "", "", "")

  const CallbackError := "TimerJobs Error: a callback must be provided"

  /** The properties `findTimers` can match on, with the values `timer[property]` yields. */
  datatype Property =
    | AutoStart | Blocking | Busy | Delimiter | Executions | IgnoreErrors | Immediate | Interval
    | Infinite | Namespace | Reference | RestartOn | StartOn | StopOn | Countdown | EmitLevelProperty

  /** An event option that is `null` when unset. */
  function NullableString(s: string): JsValue
  {
    if s == "" then Null else Str(s)
  }

  /** `===` on the modelled values: NaN is the one value unequal to itself. */
  predicate StrictEquals(a: JsValue, b: JsValue)
  {
    a == b && a != Num(NaN)
  }
}
