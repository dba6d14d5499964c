/**
 * The arithmetic the job variants share: the countdown setter's
 * normalisation (lib/index.ts and index.ts use the same expression) and the
 * wait-time computation (the same in all three variants).
 */
module JobRules {

  /**
   * `value && value > 1 ? Math.floor(value) : 1`: a countdown is a whole
   * number of runs, at least one.
   */
  function NormalizeCountdown(value: real): (c: int)
    ensures c >= 1
    ensures value >= 1.0 ==> c as real <= value < c as real + 1.0
    ensures value < 1.0 ==> c == 1
  {
    if value > 1.0 then value.Floor else 1
  }

  /** Normalising an already normalised countdown changes nothing. */
  lemma NormalizeCountdownIdempotent(value: real)
    ensures NormalizeCountdown(NormalizeCountdown(value) as real) == NormalizeCountdown(value)
  {
  }

  /** The values the countdown tests assign: 2.2 runs twice, -20 and 0 run once, 30 runs 30 times. */
  lemma NormalizeCountdownExamples()
    ensures NormalizeCountdown(2.2) == 2 && NormalizeCountdown(-20.0) == 1
    ensures NormalizeCountdown(0.0) == 1 && NormalizeCountdown(30.0) == 30
  {
  }

  /**
   * `waitTime()` given the last start timestamp (0 while stopped), the
   * interval and the current time; it is not clamped.
   */
  function WaitTimeAt(startWait: int, interval: int, now: int): int
  {
    if startWait == 0 then 0 else startWait + interval - now
  }

  /**
   * A stopped job waits 0; a started job's wait lies strictly between 0 and
   * its interval while the interval has not yet elapsed, and is negative
   * once the next run is overdue.
   */
  lemma WaitTimeBounds(startWait: int, interval: int, now: int)
    ensures startWait == 0 ==> WaitTimeAt(startWait, interval, now) == 0
    ensures startWait != 0 && startWait < now < startWait + interval
            ==> 0 < WaitTimeAt(startWait, interval, now) < interval
    ensures startWait != 0 && now > startWait + interval ==> WaitTimeAt(startWait, interval, now) < 0
  {
  }
}
