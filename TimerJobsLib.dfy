/**
 * The current job class (lib/index.ts) and the start, stop and restart
 * listeners its emitter installs (lib/emitter.ts).
 *
 * The state of a job is first described as a value, `Job`, with one step
 * function per entry point; the class `TimerJobs` then updates its fields in
 * place and each of its methods is proved to move the fields exactly as the
 * step function moves the value. The lemmas about the lifecycle (countdown
 * exhaustion, stop on error, restart never starting a fresh job) are stated
 * on the step functions.
 *
 * `Date.now()` is the parameter `now`; the handle `setInterval` returns is
 * the parameter `handle`. The user callback is the pair of entry points `Go`
 * (a tick of the interval, or the immediate run) and `Done` (the callback
 * calling its `done` argument).
 */
module TimerJobsLib {
  import opened Helpers
  import opened Wrappers
  import opened Host
  import opened Emitter
  import opened JobRules
  import Registry
  import opened JobProperties

  /**
   * The job options after the defaults have been merged in (lib/options.ts).
   * An unset `startOn`, `stopOn` or `restartOn` is the empty string: the
   * emitter only tests them for truthiness.
   */
  datatype Options = Options(
    autoStart: bool,
    blocking: bool,
    countdown: real,
    delimiter: string,
    emitLevel: EmitLevel,
    ignoreErrors: bool,
    immediate: bool,
    interval: int,
    infinite: bool,
    namespace: string,
    reference: string,
    startOn: string,
    stopOn: string,
    restartOn: string)

  /** The defaults of lib/options.ts. */
  const DefaultOptions := Options(
    autoStart := false, blocking := true, countdown := 1.0, delimiter := "::", emitLevel := 1,
    ignoreErrors := false, immediate := false, interval := 3000, infinite := true,
    namespace := "", reference := "timer", startOn := "", stopOn := "", restartOn := "")

  /**
   * The state of one job: the public fields, the private `_countdown`
   * (`countdown`) and `start_wait` (`startWait`), the options object it
   * owns, and the events it has handed to the bus so far.
   */
  datatype Job = Job(
    busy: bool,
    errors: seq<JsValue>,
    executions: nat,
    hasStarted: bool,
    options: Options,
    timer: Option<Handle>,
    countdown: int,
    startWait: int,
    emitted: seq<Event>)

  /**
   * What every entry point preserves: an armed job has started, has a
   * positive start time and at least one run left; the countdown option is
   * always a normalised countdown, since only the setter writes it.
   */
  predicate Inv(j: Job)
  {
    && (j.timer.Some? ==> j.hasStarted && j.startWait > 0 && j.countdown >= 1)
    && j.options.countdown == NormalizeCountdown(j.options.countdown) as real
  }

  function EmitOpts(o: Options): EmitOptions
  {
    EmitOptions(o.emitLevel, o.delimiter, o.namespace, o.reference)
  }

  /** `this.emit(action, error, ...args)`: the events the emitter hands to the bus. */
  function Emitted(j: Job, action: string, error: JsValue, args: seq<Arg>): seq<Event>
  {
    j.emitted + Emission(EmitOpts(j.options), action, error, args)
  }

  /** The state right after construction, before `autoStart` is honoured. */
  function Fresh(o: Options): (j: Job)
    ensures Inv(j) && j.timer.None? && !j.hasStarted && !j.busy
    ensures j.executions == 0 && j.errors == [] && j.emitted == [] && j.startWait == 0
    ensures j.countdown == NormalizeCountdown(o.countdown) && j.options.countdown == j.countdown as real
  {
    SetCountdownStep(Job.Job(false, [], 0, false, o, None, 0, 0, []), o.countdown)
  }

  /**
   * `new TimerJobs(callback, options)`: refuses a callback that is not a
   * function; otherwise the fresh job, started if `autoStart` is set.
   */
  function Construct(callback: JsValue, o: Options, now: Millis, handle: Handle): (r: Result<Job, string>)
    ensures r.Failure? <==> !IsFunction(callback)
    ensures r.Failure? ==> r.error == CallbackError
    ensures r.Success? ==> Inv(r.value) && r.value.executions <= 1 && r.value.errors == []
    ensures r.Success? ==> (r.value.timer.Some? <==> o.autoStart) && (r.value.hasStarted <==> o.autoStart)
  {
    if Not(Bool(IsFunction(callback))) then Failure(CallbackError)
    else if o.autoStart then Success(StartStep(Fresh(o), now, handle))
    else Success(Fresh(o))
  }

  /** The `countdown` setter writes the normalised value to `_countdown` and to the options. */
  function SetCountdownStep(j: Job, value: real): (r: Job)
    ensures r.countdown >= 1 && r.countdown == NormalizeCountdown(value)
    ensures r.options.countdown == r.countdown as real
    ensures r == j.(countdown := r.countdown, options := j.options.(countdown := r.countdown as real))
    ensures Inv(j) ==> Inv(r)
  {
    var c := NormalizeCountdown(value);
    NormalizeCountdownIdempotent(value);
    j.(countdown := c, options := j.options.(countdown := c as real))
  }

  /** `go` runs the callback unless the job is busy and blocking. */
  predicate Admitted(j: Job)
  {
    !j.busy || !j.options.blocking
  }

  /**
   * `go()`: an admitted tick marks the job busy, counts one more execution,
   * records the start time and publishes `jobBegin`; any other tick changes
   * nothing.
   */
  function GoStep(j: Job, now: Millis): (r: Job)
    ensures Admitted(j) ==> r.busy && r.executions == j.executions + 1 && r.startWait == now
    ensures !Admitted(j) ==> r == j
    ensures r.timer == j.timer && r.countdown == j.countdown && r.errors == j.errors
    ensures r.options == j.options && r.hasStarted == j.hasStarted
    ensures Admitted(j) ==> r.emitted == Emitted(j, "jobBegin", Null, [ThisJob])
    ensures Inv(j) ==> Inv(r)
  {
    if Admitted(j) then
      j.(busy := true, emitted := Emitted(j, "jobBegin", Null, [ThisJob]),
         executions := j.executions + 1, startWait := now)
    else
      j
  }

  /**
   * `start()`: a job that is already armed is left alone. Otherwise it is
   * armed with the new interval handle, marked started, its start time
   * recorded, an exhausted countdown restored from the options, `jobStart`
   * published, and with `immediate` the first tick runs at once.
   */
  function StartStep(j: Job, now: Millis, handle: Handle): (r: Job)
    ensures j.timer.Some? ==> r == j
    ensures j.timer.None? ==> r.timer == Some(handle) && r.hasStarted && r.startWait == now
    ensures j.timer.None? ==> r.countdown == if j.countdown < 1 then NormalizeCountdown(j.options.countdown) else j.countdown
    ensures j.timer.None? ==> r.executions == j.executions + (if j.options.immediate && Admitted(j) then 1 else 0)
    ensures j.timer.None? ==> Emitted(j, "jobStart", Null, [ThisJob]) <= r.emitted
    ensures j.timer.None? && !j.options.immediate ==> r.emitted == Emitted(j, "jobStart", Null, [ThisJob])
    ensures r.errors == j.errors && r.options.interval == j.options.interval
    ensures Inv(j) ==> Inv(r)
  {
    if j.timer.None? then
      var j1 := j.(startWait := now, hasStarted := true);
      var j2 := if j1.countdown < 1 then SetCountdownStep(j1, j1.options.countdown) else j1;
      var j3 := j2.(timer := Some(handle));
      var j4 := j3.(emitted := Emitted(j3, "jobStart", Null, [ThisJob]));
      if j4.options.immediate then GoStep(j4, now) else j4
    else
      j
  }

  /** `stop()`: an armed job is disarmed, its start time cleared and `jobStop` published. */
  function StopStep(j: Job): (r: Job)
    ensures r.timer.None?
    ensures j.timer.None? ==> r == j
    ensures j.timer.Some? ==> r.startWait == 0 && r.emitted == Emitted(j, "jobStop", Null, [ThisJob])
    ensures r == j.(timer := None, startWait := r.startWait, emitted := r.emitted)
    ensures Inv(j) ==> Inv(r)
  {
    if j.timer.Some? then
      j.(emitted := Emitted(j, "jobStop", Null, [ThisJob]), timer := None, startWait := 0)
    else
      j
  }

  /** `restart(interval)` adopts the new interval only when it is an integer above 1. */
  function RestartInterval(current: int, interval: JsValue): (r: int)
    ensures IsInteger(interval) && IntegerValue(interval) > 1 ==> r == IntegerValue(interval)
    ensures !(IsInteger(interval) && IntegerValue(interval) > 1) ==> r == current
  {
    if IsInteger(interval) && IntegerValue(interval) > 1 then IntegerValue(interval) else current
  }

  /**
   * `restart(interval)`: possibly a new interval; then, for a job that has
   * started at some point, a stop followed by a start. A job that never
   * started stays stopped.
   */
  function RestartStep(j: Job, interval: JsValue, now: Millis, handle: Handle): (r: Job)
    ensures r.options.interval == RestartInterval(j.options.interval, interval)
    ensures !j.hasStarted || Inv(j) ==> r.options == j.options.(interval := RestartInterval(j.options.interval, interval))
    ensures !j.hasStarted ==> r == j.(options := r.options)
    ensures Inv(j) && !j.hasStarted ==> r.timer.None?
    ensures j.hasStarted ==> r == StartStep(StopStep(j.(options := j.options.(interval := RestartInterval(j.options.interval, interval)))), now, handle)
    ensures j.hasStarted ==> r.timer == Some(handle) && r.startWait == now
    ensures j.hasStarted ==> r.countdown == if j.countdown < 1 then NormalizeCountdown(j.options.countdown) else j.countdown
    ensures j.hasStarted ==> Emitted(StopStep(j), "jobStart", Null, [ThisJob]) <= r.emitted
    ensures r.errors == j.errors
    ensures Inv(j) ==> Inv(r)
  {
    var adopted := RestartInterval(j.options.interval, interval);
    var j1 := j.(options := j.options.(interval := adopted));
    if j.hasStarted then
      StopThenStart(j, adopted, now, handle);
      StartStep(StopStep(j1), now, handle)
    else
      j1
  }

  /** A stop followed by a start, with the interval replaced in between, seen from the state before the stop. */
  lemma StopThenStart(j: Job, interval: int, now: Millis, handle: Handle)
    ensures var r := StartStep(StopStep(j.(options := j.options.(interval := interval))), now, handle);
      && r.timer == Some(handle) && r.startWait == now
      && r.countdown == (if j.countdown < 1 then NormalizeCountdown(j.options.countdown) else j.countdown)
      && Emitted(StopStep(j), "jobStart", Null, [ThisJob]) <= r.emitted
      && (Inv(j) ==> r.options == j.options.(interval := interval))
  {
    var stopped := StopStep(j.(options := j.options.(interval := interval)));
    assert EmitOpts(stopped.options) == EmitOpts(StopStep(j).options);
    assert stopped.emitted == StopStep(j).emitted && stopped.countdown == j.countdown;
  }

  /**
   * The error half of `done`: a truthy error is recorded, published as
   * `jobError` with the job and the error history, and stops the job unless
   * errors are ignored.
   */
  function ReportStep(j: Job, err: JsValue): (r: Job)
    ensures !Truthy(err) ==> r == j
    ensures r.errors == j.errors + (if Truthy(err) then [err] else [])
    ensures Truthy(err) ==> j.emitted + Emission(EmitOpts(j.options), "jobError", err, [ThisJob, ErrorHistory(r.errors)]) <= r.emitted
    ensures Truthy(err) && !j.options.ignoreErrors ==> r.timer.None?
    ensures r.timer.Some? ==> r.timer == j.timer
    ensures r == j.(errors := r.errors, emitted := r.emitted, timer := r.timer, startWait := r.startWait)
    ensures j.emitted <= r.emitted
    ensures Inv(j) ==> Inv(r)
  {
    if Truthy(err) then
      var e1 := j.(errors := j.errors + [err]);
      var e2 := e1.(emitted := Emitted(e1, "jobError", err, [ThisJob, ErrorHistory(e1.errors)]));
      if Not(Bool(e2.options.ignoreErrors)) then StopStep(e2) else e2
    else
      j
  }

  /** The countdown half of `done`: a finite job spends one run, and with none left publishes `jobComplete` and stops. */
  function SpendStep(j: Job): (r: Job)
    ensures j.options.infinite ==> r == j
    ensures !j.options.infinite ==> r.countdown == j.countdown - 1 && (r.countdown < 1 ==> r.timer.None?)
    ensures !j.options.infinite && j.countdown < 2 ==> Emitted(j, "jobComplete", Null, [ThisJob]) <= r.emitted
    ensures !j.options.infinite && j.countdown >= 2 ==> r.emitted == j.emitted
    ensures r.timer.Some? ==> r.timer == j.timer
    ensures r == j.(countdown := r.countdown, emitted := r.emitted, timer := r.timer, startWait := r.startWait)
    ensures j.emitted <= r.emitted
    ensures Inv(j) ==> Inv(r)
  {
    if Not(Bool(j.options.infinite)) then
      var d := j.(countdown := j.countdown - 1);
      if d.countdown < 1 then StopStep(d.(emitted := Emitted(d, "jobComplete", Null, [ThisJob]))) else d
    else
      j
  }

  /**
   * `done(err, ...args)`: publishes `jobEnd`, then accounts for the error
   * and the countdown; the job is no longer busy.
   */
  function DoneStep(j: Job, err: JsValue, args: seq<JsValue>): (r: Job)
    ensures !r.busy
    ensures r.errors == j.errors + (if Truthy(err) then [err] else [])
    ensures j.timer.None? ==> r.timer.None?
    ensures r.timer.Some? ==> r.timer == j.timer
    ensures Truthy(err) && !j.options.ignoreErrors ==> r.timer.None?
    ensures !j.options.infinite ==> r.countdown == j.countdown - 1 && (r.countdown < 1 ==> r.timer.None?)
    ensures j.options.infinite ==> r.countdown == j.countdown
    ensures !Truthy(err) && j.options.infinite ==> r.timer == j.timer
    ensures r.executions == j.executions && r.hasStarted == j.hasStarted && r.options == j.options
    ensures Emitted(j, "jobEnd", Null, [ThisJob] + Values(args)) <= r.emitted
    ensures Truthy(err) ==>
      Emitted(j, "jobEnd", Null, [ThisJob] + Values(args))
        + Emission(EmitOpts(j.options), "jobError", err, [ThisJob, ErrorHistory(r.errors)]) <= r.emitted
    ensures !j.options.infinite && j.countdown < 2 ==>
      multiset(Emitted(j, "jobEnd", Null, [ThisJob] + Values(args)))
        + multiset(Emission(EmitOpts(j.options), "jobComplete", Null, [ThisJob])) <= multiset(r.emitted)
    ensures Inv(j) ==> Inv(r)
  {
    var j1 := j.(emitted := Emitted(j, "jobEnd", Null, [ThisJob] + Values(args)));
    var j2 := ReportStep(j1, err);
    DoneEvents(j1, err);
    SpendStep(j2).(busy := false)
  }

  /**
   * What `done` publishes after `jobEnd`: the error report first, and then a
   * new `jobComplete`, counted on top of every event published before.
   */
  lemma DoneEvents(j: Job, err: JsValue)
    ensures var r := SpendStep(ReportStep(j, err));
      && (Truthy(err) ==> j.emitted + Emission(EmitOpts(j.options), "jobError", err, [ThisJob, ErrorHistory(r.errors)]) <= r.emitted)
      && (!j.options.infinite && j.countdown < 2 ==>
            multiset(j.emitted) + multiset(Emission(EmitOpts(j.options), "jobComplete", Null, [ThisJob])) <= multiset(r.emitted))
  {
    var j2 := ReportStep(j, err);
    var r := SpendStep(j2);
    assert j2.options == j.options && j2.countdown == j.countdown && r.errors == j2.errors;
    LaterEventsKept(j.emitted, j2.emitted[|j.emitted|..], j2.emitted);
    LaterEventsKept(j2.emitted, Emission(EmitOpts(j.options), "jobComplete", Null, [ThisJob]), r.emitted);
  }

  /**
   * One run driven by the interval: a tick followed by the callback
   * finishing without error.
   */
  function Round(j: Job, now: Millis): Job
  {
    DoneStep(GoStep(j, now), Undefined, [])
  }

  function Rounds(j: Job, now: Millis, n: nat): Job
    decreases n
  {
    if n == 0 then j else Rounds(Round(j, now), now, n - 1)
  }

  /**
   * A finite, idle, armed job with `n` runs left runs exactly `n` times and
   * is then stopped with its countdown spent; before that it stays armed.
   */
  lemma {:induction false} CountdownRunsExactly(j: Job, now: Millis, n: nat, k: nat)
    requires Inv(j) && j.timer.Some? && !j.busy && !j.options.infinite && j.countdown == n
    requires k <= n
    ensures Rounds(j, now, k).executions == j.executions + k
    ensures Rounds(j, now, k).countdown == n - k
    ensures k < n ==> Rounds(j, now, k).timer == j.timer && !Rounds(j, now, k).busy
    ensures k == n ==> Rounds(j, now, k).timer.None?
    ensures Rounds(j, now, k).errors == j.errors
    decreases k
  {
    if k > 0 {
      var j1 := Round(j, now);
      assert j1.executions == j.executions + 1 && j1.countdown == n - 1 && !j1.busy;
      if n - 1 == 0 {
        assert k == 1;
        assert Rounds(j1, now, 0) == j1;
      } else {
        CountdownRunsExactly(j1, now, n - 1, k - 1);
      }
    }
  }

  /** Ticks whose callback never calls `done`. */
  function Ticks(j: Job, now: Millis, n: nat): Job
    decreases n
  {
    if n == 0 then j else Ticks(GoStep(j, now), now, n - 1)
  }

  /**
   * A non-blocking job runs on every tick even while earlier runs are
   * unfinished, and its countdown is untouched; a blocking job that is busy
   * runs on none of them.
   */
  lemma {:induction false} TicksWhileBusy(j: Job, now: Millis, n: nat)
    ensures !j.options.blocking ==> Ticks(j, now, n).executions == j.executions + n
    ensures j.options.blocking && j.busy ==> Ticks(j, now, n) == j
    ensures Ticks(j, now, n).countdown == j.countdown && Ticks(j, now, n).timer == j.timer
    decreases n
  {
    if n > 0 {
      TicksWhileBusy(GoStep(j, now), now, n - 1);
    }
  }

  /** Calling `start` twice arms the job once: the second call changes nothing. */
  lemma StartTwice(j: Job, now: Millis, later: Millis, h1: Handle, h2: Handle)
    ensures StartStep(StartStep(j, now, h1), later, h2) == StartStep(j, now, h1)
  {
  }

  /**
   * After a countdown was spent, starting again restores the value the
   * countdown was last set to.
   */
  lemma RestartAfterCountdownRestores(j: Job, now: Millis, handle: Handle)
    requires Inv(j) && j.timer.None? && j.countdown < 1
    ensures StartStep(j, now, handle).countdown as real == j.options.countdown
  {
  }

  /**
   * With errors not ignored, a run that fails stops the job after recording
   * exactly that error; with errors ignored, an infinite job stays armed and
   * the error history grows by one per failed run.
   */
  lemma FailedRun(j: Job, now: Millis, err: JsValue)
    requires Truthy(err)
    ensures var r := DoneStep(GoStep(j, now), err, []);
      && r.errors == j.errors + [err]
      && (!j.options.ignoreErrors ==> r.timer.None?)
      && (j.options.ignoreErrors && j.options.infinite ==> r.timer == j.timer)
  {
  }

  /** A restart never starts a job that has never started, whatever interval it is given. */
  lemma RestartNeverStarts(j: Job, interval: JsValue, now: Millis, handle: Handle)
    requires Inv(j) && !j.hasStarted
    ensures RestartStep(j, interval, now, handle).timer.None?
  {
  }

  /**
   * The value a listener reads from the job for `this.timer.isStopped`:
   * lib/index.ts defines no such property, so the lookup yields `undefined`.
   */
  function IsStoppedProperty(j: Job): JsValue
  {
    Undefined
  }

  /**
   * The start listener: with `startOn` set and its guard true, the job is
   * started (and `startCallback` is called, which is not modelled).
   */
  function StartListenerStep(j: Job, guard: bool, now: Millis, handle: Handle): (r: Job)
    ensures !(Truthy(Str(j.options.startOn)) && guard) ==> r == j
    ensures Truthy(Str(j.options.startOn)) && guard ==> r == StartStep(j, now, handle)
  {
    if Truthy(Str(j.options.startOn)) && guard then StartStep(j, now, handle) else j
  }

  /**
   * As written, the start listener's guard is never true, so the event
   * named by `startOn` never starts a stopped job; with the guard the
   * documentation describes (`stopped()`) it does.
   */
  lemma StartListenerGuardFinding(j: Job, now: Millis, handle: Handle)
    requires j.timer.None? && j.options.startOn != ""
    ensures StartListenerStep(j, Truthy(IsStoppedProperty(j)), now, handle) == j
    ensures StartListenerStep(j, j.timer.None?, now, handle).timer == Some(handle)
  {
  }

  /**
   * The restart listener: with `restartOn` set, a job that has started is
   * restarted with its current interval; a job that never started is not
   * touched.
   */
  function RestartListenerStep(j: Job, now: Millis, handle: Handle): (r: Job)
    ensures !(Truthy(Str(j.options.restartOn)) && j.hasStarted) ==> r == j
    ensures Truthy(Str(j.options.restartOn)) && j.hasStarted ==> r == RestartStep(j, Undefined, now, handle)
    ensures Truthy(Str(j.options.restartOn)) && j.hasStarted ==> r.timer == Some(handle)
    ensures r.options.interval == j.options.interval
  {
    if Truthy(Str(j.options.restartOn)) && j.hasStarted then RestartStep(j, Undefined, now, handle) else j
  }

  /** The stop listener: with `stopOn` set, the job is stopped, whatever its state. */
  function StopListenerStep(j: Job): (r: Job)
    ensures Truthy(Str(j.options.stopOn)) ==> r == StopStep(j) && r.timer.None?
    ensures !Truthy(Str(j.options.stopOn)) ==> r == j
  {
    if Truthy(Str(j.options.stopOn)) then StopStep(j) else j
  }

  /** A job of the current version, updated in place. */
  class TimerJobs {
    var busy: bool
    var errors: seq<JsValue>
    var executions: nat
    var hasStarted: bool
    var options: Options
    var timer: Option<Handle>
    var countdown: int
    var startWait: int
    var emitted: seq<Event>

    function State(): Job
      reads this
    {
      Job.Job(busy, errors, executions, hasStarted, options, timer, countdown, startWait, emitted)
    }

    predicate Valid()
      reads this
    {
      Inv(State())
    }

    /** The part of the constructor after the callback check. */
    constructor (o: Options)
      ensures State() == Fresh(o) && Valid()
    {
      busy, errors, executions, hasStarted := false, [], 0, false;
      options, timer, startWait, emitted := o, None, 0, [];
      var c := NormalizeCountdown(o.countdown);
      NormalizeCountdownIdempotent(o.countdown);
      countdown, options := c, o.(countdown := c as real);
    }

    /**
     * `new TimerJobs(callback, options)`: throws unless the callback is a
     * function; otherwise the job, started when `autoStart` is set, is
     * appended to the registry.
     */
    static method Create(callback: JsValue, o: Options, registry: Registry.Registry<TimerJobs>, now: Millis, handle: Handle)
      returns (r: Result<TimerJobs, string>)
      modifies registry
      ensures r.Failure? <==> !IsFunction(callback)
      ensures r.Failure? ==> r.error == CallbackError && registry.timers == old(registry.timers)
      ensures r.Success? ==> fresh(r.value) && r.value.Valid()
      ensures r.Success? ==> Construct(callback, o, now, handle) == Success(r.value.State())
      ensures r.Success? ==> registry.timers == old(registry.timers) + [r.value]
    {
      if Not(Bool(IsFunction(callback))) {
        return Failure(CallbackError);
      }
      var job := new TimerJobs(o);
      if o.autoStart {
        job.Start(now, handle);
      }
      registry.Add(job);
      r := Success(job);
    }

    method Emit(action: string, error: JsValue, args: seq<Arg>)
      modifies this
      ensures State() == old(State()).(emitted := Emitted(old(State()), action, error, args))
    {
      emitted := emitted + Emission(EmitOpts(options), action, error, args);
    }

    /** `stopped()` */
    function Stopped(): (r: bool)
      reads this
      ensures r <==> timer.None?
    {
      timer == None
    }

    /** `started()` */
    function Started(): (r: bool)
      reads this
      ensures r <==> !Stopped()
    {
      timer.Some?
    }

    /** `waitTime()` */
    function WaitTime(now: Millis): (w: int)
      reads this
      ensures startWait == 0 ==> w == 0
      ensures startWait != 0 ==> w == startWait + options.interval - now
    {
      WaitTimeAt(startWait, options.interval, now)
    }

    /** The `countdown` setter. */
    method SetCountdown(value: real)
      requires Valid()
      modifies this
      ensures Valid() && State() == SetCountdownStep(old(State()), value)
    {
      countdown := NormalizeCountdown(value);
      options := options.(countdown := countdown as real);
    }

    /** The `emitLevel` setter. */
    method SetEmitLevel(value: EmitLevel)
      requires Valid()
      modifies this
      ensures Valid() && State() == old(State()).(options := old(options).(emitLevel := value))
    {
      options := options.(emitLevel := value);
    }

    /** The `infinite` setter. */
    method SetInfinite(value: bool)
      requires Valid()
      modifies this
      ensures Valid() && State() == old(State()).(options := old(options).(infinite := value))
    {
      options := options.(infinite := value);
    }

    /** The `interval` setter: no check at all. */
    method SetInterval(value: int)
      requires Valid()
      modifies this
      ensures Valid() && State() == old(State()).(options := old(options).(interval := value))
    {
      options := options.(interval := value);
    }

    method Go(now: Millis)
      requires Valid()
      modifies this
      ensures Valid() && State() == GoStep(old(State()), now)
    {
      if !busy || !options.blocking {
        busy := true;
        Emit("jobBegin", Null, [ThisJob]);
        executions := executions + 1;
        startWait := now;
      }
    }

    method Start(now: Millis, handle: Handle)
      requires Valid()
      modifies this
      ensures Valid() && State() == StartStep(old(State()), now, handle)
    {
      if timer.None? {
        startWait := now;
        hasStarted := true;
        if countdown < 1 {
          SetCountdown(options.countdown);
        }
        timer := Some(handle);
        Emit("jobStart", Null, [ThisJob]);
        if options.immediate {
          Go(now);
        }
      }
    }

    method Stop()
      modifies this
      ensures State() == StopStep(old(State()))
      ensures old(Valid()) ==> Valid()
    {
      if timer.Some? {
        Emit("jobStop", Null, [ThisJob]);
        timer := None;
        startWait := 0;
      }
    }

    method Restart(interval: JsValue, now: Millis, handle: Handle)
      requires Valid()
      modifies this
      ensures Valid() && State() == RestartStep(old(State()), interval, now, handle)
    {
      options := options.(interval := RestartInterval(options.interval, interval));
      ghost var adopted := State();
      assert adopted == old(State()).(options := old(options).(interval := options.interval));
      if hasStarted {
        Stop();
        assert State() == StopStep(adopted);
        Start(now, handle);
      }
    }

    method Done(err: JsValue, args: seq<JsValue>)
      requires Valid()
      modifies this
      ensures Valid() && State() == DoneStep(old(State()), err, args)
    {
      Emit("jobEnd", Null, [ThisJob] + Values(args));
      Report(err);
      Spend();
      busy := false;
    }

    method Report(err: JsValue)
      requires Valid()
      modifies this
      ensures Valid() && State() == ReportStep(old(State()), err)
    {
      if Truthy(err) {
        errors := errors + [err];
        Emit("jobError", err, [ThisJob, ErrorHistory(errors)]);
        if Not(Bool(options.ignoreErrors)) {
          Stop();
        }
      }
    }

    method Spend()
      requires Valid()
      modifies this
      ensures Valid() && State() == SpendStep(old(State()))
    {
      if Not(Bool(options.infinite)) {
        countdown := countdown - 1;
        if countdown < 1 {
          Emit("jobComplete", Null, [ThisJob]);
          Stop();
        }
      }
    }

    /** The start listener as written: its guard reads a property the job does not have. */
    method OnStartEventAsWritten(now: Millis, handle: Handle)
      requires Valid()
      modifies this
      ensures Valid() && State() == StartListenerStep(old(State()), Truthy(IsStoppedProperty(old(State()))), now, handle)
      ensures State() == old(State())
    {
      StartListener(Truthy(IsStoppedProperty(State())), now, handle);
    }

    /** The start listener with the guard its documentation describes: only a stopped job starts. */
    method OnStartEvent(now: Millis, handle: Handle)
      requires Valid()
      modifies this
      ensures Valid() && State() == StartListenerStep(old(State()), old(Stopped()), now, handle)
    {
      StartListener(Stopped(), now, handle);
    }

    method StartListener(guard: bool, now: Millis, handle: Handle)
      requires Valid()
      modifies this
      ensures Valid() && State() == StartListenerStep(old(State()), guard, now, handle)
    {
      if Truthy(Str(options.startOn)) && guard {
        Start(now, handle);
      }
    }

    method OnRestartEvent(now: Millis, handle: Handle)
      requires Valid()
      modifies this
      ensures Valid() && State() == RestartListenerStep(old(State()), now, handle)
    {
      if Truthy(Str(options.restartOn)) && hasStarted {
        Restart(Undefined, now, handle);
      }
    }

    method OnStopEvent()
      requires Valid()
      modifies this
      ensures Valid() && State() == StopListenerStep(old(State()))
    {
      if Truthy(Str(options.stopOn)) {
        Stop();
      }
    }

    /** `dispose()`: the job leaves the registry; it is not stopped. */
    method Dispose(registry: Registry.Registry<TimerJobs>)
      modifies registry
      ensures registry.timers == Registry.Without(old(registry.timers), [this])
      ensures this !in registry.timers
    {
      registry.RemoveTimer(this);
    }
  }
}
