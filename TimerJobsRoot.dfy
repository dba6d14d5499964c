/**
 * The root job class (index.ts). It parses its own options in the
 * constructor, names its events from the `LEVEL` table of `LevelTable`,
 * keeps the last countdown set in `__countdown` (`countdownOriginal`), and
 * installs its start, stop and restart listeners itself.
 *
 * As for the current version, the state of a job is described as a value
 * (`Job`) with one step function per entry point, and the class `TimerJobs`
 * is proved to update its fields as those functions do. The registry with
 * its splice loop is the class `Registry`.
 */
module TimerJobsRoot {
  import opened Helpers
  import opened Wrappers
  import opened Host
  import opened Emitter
  import opened JobRules
  import opened LevelTable
  import R = Registry
  import opened JobProperties

  /**
   * The settings fixed at construction. An event option that is `null` is
   * the empty string; `levels` is the `LEVEL` table.
   */
  datatype Config = Config(
    autoStart: bool,
    blocking: bool,
    delimiter: string,
    ignoreErrors: bool,
    immediate: bool,
    namespace: string,
    reference: string,
    restartOn: string,
    startOn: string,
    stopOn: string,
    levels: map<int, string>)

  /** A restart event name counts only if it is not blank. */
  function RestartOnOption(v: string): (r: string)
    ensures r == "" <==> AllWhitespace(v)
    ensures r != "" ==> r == v
  {
    TrimEmptyIffAllWhitespace(v);
    if v != "" && |Trim(v)| > 0 then v else ""
  }

  /** The constructor's reading of the options object. */
  function ParseConfig(o: RawOptions): (c: Config)
    ensures c.blocking == (o.blocking == Undefined || Truthy(o.blocking))
    ensures c.autoStart == Truthy(o.autoStart) && c.immediate == Truthy(o.immediate)
    ensures c.ignoreErrors == Truthy(o.ignoreErrors)
    ensures c.reference == (if o.reference == "" then "timer" else o.reference)
    ensures c.delimiter == (if o.delimiter == "" then "::" else o.delimiter)
    ensures c.namespace == o.namespace && c.stopOn == o.stopOn && c.startOn == o.startOn
    ensures c.restartOn == RestartOnOption(o.restartOn)
    ensures c.levels == Table(c.delimiter, c.namespace, c.reference)
  {
    var blocking := if o.blocking == Undefined then true else Truthy(o.blocking);
    var reference := if Truthy(Str(o.reference)) then o.reference else "timer";
    var namespace := if IsString(Str(o.namespace)) then o.namespace else "";
    var delimiter := if Truthy(Str(o.delimiter)) then o.delimiter else "::";
    Config(Truthy(o.autoStart), blocking, delimiter, Truthy(o.ignoreErrors), Truthy(o.immediate),
           namespace, reference, RestartOnOption(o.restartOn), o.startOn, o.stopOn,
           Table(delimiter, namespace, reference))
  }

  /** `isInteger(options.interval) ? options.interval : 3000` */
  function IntervalOption(v: JsValue): (r: int)
    ensures IsInteger(v) ==> r == IntegerValue(v)
    ensures !IsInteger(v) ==> r == 3000
  {
    if IsInteger(v) then IntegerValue(v) else 3000
  }

  /**
   * The state of one job: its fixed settings, the fields its methods
   * change, and the events it has handed to the bus so far.
   */
  datatype Job = Job(
    config: Config,
    busy: bool,
    errors: seq<JsValue>,
    executions: nat,
    interval: int,
    infinite: bool,
    timer: Option<Handle>,
    countdown: int,
    countdownOriginal: int,
    startWait: int,
    hasStarted: bool,
    emitLevel: EmitLevel,
    emitted: seq<Event>)

  /**
   * What every entry point preserves: an armed job has started, has a
   * positive start time and at least one run left; the remembered
   * countdown is at least 1.
   */
  predicate Inv(j: Job)
  {
    && (j.timer.Some? ==> j.hasStarted && j.startWait > 0 && j.countdown >= 1)
    && j.countdownOriginal >= 1
  }

  /** `if (this.emitLevel) this.emitter.emit(action + LEVEL[emitLevel], ...args)` */
  function Emitted(j: Job, action: string, args: seq<Arg>): (r: seq<Event>)
    ensures j.emitted <= r && |r| <= |j.emitted| + 1
    ensures |r| == |j.emitted| + 1 <==> j.emitLevel != 0
    ensures j.emitLevel != 0 ==> action <= r[|j.emitted|].name && r[|j.emitted|].args == args
  {
    if j.emitLevel != 0 then j.emitted + [Event(EventName(j.config.levels, action, j.emitLevel), args)]
    else j.emitted
  }

  /** The name of a `jobError` event: the configured level's, or level 1's when events are off. */
  function ErrorName(j: Job): string
  {
    EventName(j.config.levels, "jobError", if j.emitLevel != 0 then j.emitLevel else 1)
  }

  /** The state right after the constructor, before `autoStart` is honoured. */
  function Fresh(o: RawOptions): (j: Job)
    ensures Inv(j) && j.timer.None? && !j.hasStarted && !j.busy
    ensures j.executions == 0 && j.errors == [] && j.emitted == [] && j.startWait == 0
    ensures j.countdown == j.countdownOriginal == NormalizeCountdown(o.countdown)
    ensures j.emitLevel == ProtectLevel(NormalizeEmitLevel(o.emitLevel), o.namespace)
    ensures j.interval == IntervalOption(o.interval)
    ensures j.infinite == (o.infinite == Undefined || Truthy(o.infinite))
  {
    var c := ParseConfig(o);
    var infinite := if o.infinite == Undefined then true else Truthy(o.infinite);
    var countdown := NormalizeCountdown(o.countdown);
    Job(c, false, [], 0, IntervalOption(o.interval), infinite, None, countdown, countdown, 0, false,
        ProtectLevel(NormalizeEmitLevel(o.emitLevel), c.namespace), [])
  }

  /**
   * `new TimerJobs(options, callback)`: refuses a callback that is not a
   * function; otherwise the fresh job, started if `autoStart` is set.
   * `new TimerJobs(callback)` is the same with `NoOptions`.
   */
  function Construct(o: RawOptions, callback: JsValue, now: Millis, handle: Handle): (r: Result<Job, string>)
    ensures r.Failure? <==> !IsFunction(callback)
    ensures r.Failure? ==> r.error == CallbackError
    ensures r.Success? ==> Inv(r.value) && r.value.errors == []
    ensures r.Success? ==> (r.value.timer.Some? <==> Truthy(o.autoStart)) && (r.value.hasStarted <==> Truthy(o.autoStart))
  {
    if Not(Bool(IsFunction(callback))) then Failure(CallbackError)
    else if Truthy(o.autoStart) then Success(StartStep(Fresh(o), now, handle))
    else Success(Fresh(o))
  }

  /** The `countdown` setter: the normalised value goes to `_countdown` and `__countdown`. */
  function SetCountdownStep(j: Job, value: real): (r: Job)
    ensures r.countdown == r.countdownOriginal == NormalizeCountdown(value) >= 1
    ensures r == j.(countdown := r.countdown, countdownOriginal := r.countdown)
    ensures Inv(j) ==> Inv(r)
  {
    var c := NormalizeCountdown(value);
    j.(countdown := c, countdownOriginal := c)
  }

  /** The `emitLevel` setter: an integer in [0, 5) is kept, anything else is 1; no demotion here. */
  function SetEmitLevelStep(j: Job, value: JsValue): (r: Job)
    ensures r == j.(emitLevel := r.emitLevel)
    ensures IsInteger(value) && 0 <= IntegerValue(value) <= 4 ==> r.emitLevel == IntegerValue(value)
    ensures !(IsInteger(value) && 0 <= IntegerValue(value) <= 4) ==> r.emitLevel == 1
  {
    j.(emitLevel := NormalizeEmitLevel(value))
  }

  predicate Admitted(j: Job)
  {
    !j.busy || !j.config.blocking
  }

  /** `go()`: as in the current version, a skipped tick changes nothing. */
  function GoStep(j: Job, now: Millis): (r: Job)
    ensures Admitted(j) ==> r.busy && r.executions == j.executions + 1 && r.startWait == now
    ensures !Admitted(j) ==> r == j
    ensures r.timer == j.timer && r.countdown == j.countdown && r.errors == j.errors
    ensures r.config == j.config && r.infinite == j.infinite && r.hasStarted == j.hasStarted
    ensures Admitted(j) ==> r.emitted == Emitted(j, "jobBegin", [ThisJob])
    ensures Inv(j) ==> Inv(r)
  {
    if Admitted(j) then
      j.(busy := true, emitted := Emitted(j, "jobBegin", [ThisJob]),
         executions := j.executions + 1, startWait := now)
    else
      j
  }

  /**
   * `start()`: an armed job is left alone; otherwise it is armed, marked
   * started, an exhausted countdown is restored from `__countdown`,
   * `jobStart` is published when events are on, and with `immediate` the
   * first tick runs at once.
   */
  function StartStep(j: Job, now: Millis, handle: Handle): (r: Job)
    ensures j.timer.Some? ==> r == j
    ensures j.timer.None? ==> r.timer == Some(handle) && r.hasStarted && r.startWait == now
    ensures Inv(j) && j.timer.None? ==> r.countdown == if j.countdown < 1 then j.countdownOriginal else j.countdown
    ensures j.timer.None? ==> r.executions == j.executions + (if j.config.immediate && Admitted(j) then 1 else 0)
    ensures j.timer.None? ==> Emitted(j, "jobStart", [ThisJob]) <= r.emitted
    ensures j.timer.None? && !j.config.immediate ==> r.emitted == Emitted(j, "jobStart", [ThisJob])
    ensures r.errors == j.errors && r.interval == j.interval && r.config == j.config
    ensures Inv(j) ==> Inv(r)
  {
    if j.timer.None? then
      var j1 := j.(startWait := now, hasStarted := true);
      var j2 := if j1.countdown < 1 then SetCountdownStep(j1, j1.countdownOriginal as real) else j1;
      var j3 := j2.(timer := Some(handle));
      var j4 := j3.(emitted := Emitted(j3, "jobStart", [ThisJob]));
      if j4.config.immediate then GoStep(j4, now) else j4
    else
      j
  }

  /** `stop()`: an armed job is disarmed, its start time cleared, and `jobStop` published when events are on. */
  function StopStep(j: Job): (r: Job)
    ensures r.timer.None?
    ensures j.timer.None? ==> r == j
    ensures j.timer.Some? ==> r.startWait == 0 && r.emitted == Emitted(j, "jobStop", [ThisJob])
    ensures r == j.(timer := None, startWait := r.startWait, emitted := r.emitted)
    ensures Inv(j) ==> Inv(r)
  {
    if j.timer.Some? then
      j.(emitted := Emitted(j, "jobStop", [ThisJob]), timer := None, startWait := 0)
    else
      j
  }

  /** `restart(interval)` keeps the current interval unless given an integer of at least 1. */
  function RestartInterval(current: int, interval: JsValue): (r: int)
    ensures IsInteger(interval) && IntegerValue(interval) >= 1 ==> r == IntegerValue(interval)
    ensures !(IsInteger(interval) && IntegerValue(interval) >= 1) ==> r == current
  {
    if Not(Bool(IsInteger(interval))) || IntegerValue(interval) < 1 then current else IntegerValue(interval)
  }

  /** `restart(interval)`: a job that has never started stays stopped. */
  function RestartStep(j: Job, interval: JsValue, now: Millis, handle: Handle): (r: Job)
    ensures r.interval == RestartInterval(j.interval, interval)
    ensures !j.hasStarted ==> r == j.(interval := r.interval)
    ensures j.hasStarted ==> r == StartStep(StopStep(j.(interval := r.interval)), now, handle)
    ensures j.hasStarted ==> r.timer == Some(handle) && r.startWait == now
    ensures Inv(j) && j.hasStarted ==> r.countdown == if j.countdown < 1 then j.countdownOriginal else j.countdown
    ensures j.hasStarted ==> Emitted(StopStep(j), "jobStart", [ThisJob]) <= r.emitted
    ensures r.errors == j.errors
    ensures Inv(j) ==> Inv(r)
  {
    var j1 := j.(interval := RestartInterval(j.interval, interval));
    if j1.hasStarted then StartStep(StopStep(j1), now, handle) else j1
  }

  /**
   * The error half of `done`: a truthy error is recorded and ALWAYS
   * published as `jobError` (named at level 1 when events are off), and it
   * stops the job unless errors are ignored.
   */
  function ReportStep(j: Job, err: JsValue): (r: Job)
    ensures !Truthy(err) ==> r == j
    ensures r.errors == j.errors + (if Truthy(err) then [err] else [])
    ensures Truthy(err) ==> Event(ErrorName(j), [Value(err), ThisJob, ErrorHistory(r.errors)]) in r.emitted
    ensures Truthy(err) ==> j.emitted + [Event(ErrorName(j), [Value(err), ThisJob, ErrorHistory(r.errors)])] <= r.emitted
    ensures Truthy(err) && !j.config.ignoreErrors ==> r.timer.None?
    ensures r.timer.Some? ==> r.timer == j.timer
    ensures r == j.(errors := r.errors, emitted := r.emitted, timer := r.timer, startWait := r.startWait)
    ensures j.emitted <= r.emitted
    ensures Inv(j) ==> Inv(r)
  {
    if Truthy(err) then
      var e1 := j.(errors := j.errors + [err]);
      var e2 := e1.(emitted := e1.emitted + [Event(ErrorName(e1), [Value(err), ThisJob, ErrorHistory(e1.errors)])]);
      if !e2.config.ignoreErrors then StopStep(e2) else e2
    else
      j
  }

  /** The countdown half of `done`: a finite job spends one run, and with none left publishes `jobComplete` and stops. */
  function SpendStep(j: Job): (r: Job)
    ensures j.infinite ==> r == j
    ensures !j.infinite ==> r.countdown == j.countdown - 1 && (r.countdown < 1 ==> r.timer.None?)
    ensures !j.infinite && j.countdown < 2 ==> Emitted(j, "jobComplete", [ThisJob]) <= r.emitted
    ensures !j.infinite && j.countdown >= 2 ==> r.emitted == j.emitted
    ensures r.timer.Some? ==> r.timer == j.timer
    ensures r == j.(countdown := r.countdown, emitted := r.emitted, timer := r.timer, startWait := r.startWait)
    ensures j.emitted <= r.emitted
    ensures Inv(j) ==> Inv(r)
  {
    if !j.infinite then
      var d := j.(countdown := j.countdown - 1);
      if d.countdown < 1 then StopStep(d.(emitted := Emitted(d, "jobComplete", [ThisJob]))) else d
    else
      j
  }

  /**
   * `done(err, ...args)`: `jobEnd` when events are on, then the error and
   * the countdown are accounted for; the job is no longer busy.
   */
  function DoneStep(j: Job, err: JsValue, args: seq<JsValue>): (r: Job)
    ensures !r.busy
    ensures r.errors == j.errors + (if Truthy(err) then [err] else [])
    ensures j.timer.None? ==> r.timer.None?
    ensures r.timer.Some? ==> r.timer == j.timer
    ensures Truthy(err) && !j.config.ignoreErrors ==> r.timer.None?
    ensures !j.infinite ==> r.countdown == j.countdown - 1 && (r.countdown < 1 ==> r.timer.None?)
    ensures j.infinite ==> r.countdown == j.countdown
    ensures !Truthy(err) && j.infinite ==> r.timer == j.timer
    ensures r.executions == j.executions && r.hasStarted == j.hasStarted && r.config == j.config
    ensures Truthy(err) ==> Event(ErrorName(j), [Value(err), ThisJob, ErrorHistory(r.errors)]) in r.emitted
    ensures Truthy(err) ==>
      Emitted(j, "jobEnd", [ThisJob] + Values(args)) + [Event(ErrorName(j), [Value(err), ThisJob, ErrorHistory(r.errors)])] <= r.emitted
    ensures !Truthy(err) ==> Emitted(j, "jobEnd", [ThisJob] + Values(args)) <= r.emitted
    ensures !j.infinite && j.countdown < 2 && j.emitLevel != 0 ==>
      multiset(Emitted(j, "jobEnd", [ThisJob] + Values(args)))
        + multiset{Event(EventName(j.config.levels, "jobComplete", j.emitLevel), [ThisJob])} <= multiset(r.emitted)
    ensures Inv(j) ==> Inv(r)
  {
    var j1 := j.(emitted := Emitted(j, "jobEnd", [ThisJob] + Values(args)));
    DoneErrorEvents(j1, err);
    if !j.infinite && j.countdown < 2 && j.emitLevel != 0 then
      DoneCompleteEvent(j1, err);
      SpendStep(ReportStep(j1, err)).(busy := false)
    else
      SpendStep(ReportStep(j1, err)).(busy := false)
  }

  /** What `done` publishes after `jobEnd`: the error report comes first. */
  lemma DoneErrorEvents(j: Job, err: JsValue)
    ensures var r := SpendStep(ReportStep(j, err));
      && (Truthy(err) ==> j.emitted + [Event(ErrorName(j), [Value(err), ThisJob, ErrorHistory(r.errors)])] <= r.emitted)
      && (!Truthy(err) ==> j.emitted <= r.emitted)
  {
    var j2 := ReportStep(j, err);
    assert SpendStep(j2).errors == j2.errors;
  }

  /**
   * What `done` publishes after the error report, when events are on: a new
   * `jobComplete`, counted on top of every event published before.
   */
  lemma DoneCompleteEvent(j: Job, err: JsValue)
    requires !j.infinite && j.countdown < 2 && j.emitLevel != 0
    ensures multiset(j.emitted) + multiset{Event(EventName(j.config.levels, "jobComplete", j.emitLevel), [ThisJob])}
            <= multiset(SpendStep(ReportStep(j, err)).emitted)
  {
    var j2 := ReportStep(j, err);
    var done := Event(EventName(j.config.levels, "jobComplete", j.emitLevel), [ThisJob]);
    assert j2.infinite == j.infinite && j2.countdown == j.countdown && j2.emitLevel == j.emitLevel;
    assert Emitted(j2, "jobComplete", [ThisJob]) == j2.emitted + [done];
    LaterEventsKept(j.emitted, j2.emitted[|j.emitted|..], j2.emitted);
    LaterEventsKept(j2.emitted, [done], SpendStep(j2).emitted);
  }

  /** The stop listener: with `stopOn` set, the job is stopped. */
  function StopListenerStep(j: Job): (r: Job)
    ensures j.config.stopOn != "" ==> r == StopStep(j) && r.timer.None?
    ensures j.config.stopOn == "" ==> r == j
  {
    if Truthy(Str(j.config.stopOn)) then StopStep(j) else j
  }

  /** The start listener: with `startOn` set, a stopped job is started; a running one is left alone. */
  function StartListenerStep(j: Job, now: Millis, handle: Handle): (r: Job)
    ensures j.config.startOn != "" && j.timer.None? ==> r == StartStep(j, now, handle) && r.timer == Some(handle)
    ensures j.config.startOn == "" || j.timer.Some? ==> r == j
  {
    if Truthy(Str(j.config.startOn)) && j.timer.None? then StartStep(j, now, handle) else j
  }

  /** The restart listener: with `restartOn` set, a job that has started is restarted; others are left alone. */
  function RestartListenerStep(j: Job, now: Millis, handle: Handle): (r: Job)
    ensures j.config.restartOn != "" && j.hasStarted ==> r == RestartStep(j, Undefined, now, handle) && r.timer == Some(handle)
    ensures j.config.restartOn == "" || !j.hasStarted ==> r == j
    ensures r.interval == j.interval
  {
    if Truthy(Str(j.config.restartOn)) && j.hasStarted then RestartStep(j, Undefined, now, handle) else j
  }

  /** One run driven by the interval: a tick followed by the callback finishing without error. */
  function Round(j: Job, now: Millis): Job
  {
    DoneStep(GoStep(j, now), Undefined, [])
  }

  function Rounds(j: Job, now: Millis, n: nat): Job
    decreases n
  {
    if n == 0 then j else Rounds(Round(j, now), now, n - 1)
  }

  /** A finite, idle, armed job with `n` runs left runs exactly `n` times and then stops. */
  lemma {:induction false} CountdownRunsExactly(j: Job, now: Millis, n: nat, k: nat)
    requires Inv(j) && j.timer.Some? && !j.busy && !j.infinite && j.countdown == n
    requires k <= n
    ensures Rounds(j, now, k).executions == j.executions + k
    ensures Rounds(j, now, k).countdown == n - k
    ensures k < n ==> Rounds(j, now, k).timer == j.timer && !Rounds(j, now, k).busy
    ensures k == n ==> Rounds(j, now, k).timer.None?
    decreases k
  {
    if k > 0 {
      var j1 := Round(j, now);
      if n - 1 == 0 {
        assert Rounds(j1, now, 0) == j1;
      } else {
        CountdownRunsExactly(j1, now, n - 1, k - 1);
      }
    }
  }

  /**
   * Starting after a spent countdown restores the value last given to the
   * setter; this is the `__countdown` field's purpose.
   */
  lemma RestartAfterCountdownRestores(j: Job, value: real, now: Millis, handle: Handle)
    requires Inv(j)
    ensures var s := SetCountdownStep(j, value).(countdown := 0, timer := None);
      StartStep(s, now, handle).countdown == NormalizeCountdown(value)
  {
  }

  /** With events off, errors are still published, under the bare `jobError` name. */
  lemma ErrorPublishedAtLevelZero(j: Job, err: JsValue)
    requires Truthy(err) && j.emitLevel == 0 && j.config.levels == Table(j.config.delimiter, j.config.namespace, j.config.reference)
    ensures Event("jobError", [Value(err), ThisJob, ErrorHistory(j.errors + [err])]) in DoneStep(j, err, []).emitted
  {
    assert "jobError" + "" == "jobError";
  }

  /** The option tests: defaults, and a blank restart event is no event. */
  lemma ParseConfigExamples()
    ensures ParseConfig(NoOptions).blocking && ParseConfig(NoOptions).reference == "timer"
    ensures ParseConfig(NoOptions).delimiter == "::" && ParseConfig(NoOptions).restartOn == ""
    ensures Fresh(NoOptions).interval == 3000 && Fresh(NoOptions).infinite && Fresh(NoOptions).emitLevel == 1
    ensures ParseConfig(NoOptions.(restartOn := "   ")).restartOn == ""
  {
    assert AllWhitespace("   ") by { assert forall i :: 0 <= i < 3 ==> "   "[i] == ' '; }
  }

  /** What `removeTimers` leaves of a job that was in state `before`: stopped when asked and registered, else untouched. */
  ghost predicate RemovedAs(t: TimerJobs, before: Job, stopping: bool)
    reads t
  {
    t.State() == if stopping then StopStep(before) else before
  }

  /** A job of the root version, updated in place. */
  class TimerJobs {
    const config: Config
    var busy: bool
    var errors: seq<JsValue>
    var executions: nat
    var interval: int
    var infinite: bool
    var timer: Option<Handle>
    var countdown: int
    var countdownOriginal: int
    var startWait: int
    var hasStarted: bool
    var emitLevel: EmitLevel
    var emitted: seq<Event>

    function State(): Job
      reads this
    {
      Job.Job(config, busy, errors, executions, interval, infinite, timer, countdown, countdownOriginal,
              startWait, hasStarted, emitLevel, emitted)
    }

    predicate Valid()
      reads this
    {
      Inv(State())
    }

    /** `timer[property]` */
    function Get(property: Property): (r: JsValue)
      reads this
      ensures property in {Executions, Interval, Countdown, EmitLevelProperty} ==> IsInteger(r)
      ensures property == Executions ==> IsInteger(r) && IntegerValue(r) == executions
      ensures property == Countdown ==> IsInteger(r) && IntegerValue(r) == countdown
      ensures property in {AutoStart, Blocking, Busy, IgnoreErrors, Immediate, Property.Infinite} ==> r.Bool?
      ensures property == Busy ==> (Truthy(r) <==> busy)
      ensures property in {Delimiter, Namespace, Reference} ==> r.Str?
      ensures property in {RestartOn, StartOn, StopOn} ==> r.Null? || r.Str?
    {
      match property
      case AutoStart => Bool(config.autoStart)
      case Blocking => Bool(config.blocking)
      case Busy => Bool(busy)
      case Delimiter => Str(config.delimiter)
      case Executions => IntegerNumber(executions)
      case IgnoreErrors => Bool(config.ignoreErrors)
      case Immediate => Bool(config.immediate)
      case Interval => IntegerNumber(interval)
      case Infinite => Bool(infinite)
      case Namespace => Str(config.namespace)
      case Reference => Str(config.reference)
      case RestartOn => NullableString(config.restartOn)
      case StartOn => NullableString(config.startOn)
      case StopOn => NullableString(config.stopOn)
      case Countdown => IntegerNumber(countdown)
      case EmitLevelProperty => IntegerNumber(emitLevel)
    }

    /** The constructor after the callback check. */
    constructor (o: RawOptions)
      ensures State() == Fresh(o) && Valid()
    {
      config := ParseConfig(o);
      busy, errors, executions, hasStarted := false, [], 0, false;
      interval := IntervalOption(o.interval);
      infinite := if o.infinite == Undefined then true else Truthy(o.infinite);
      var c := NormalizeCountdown(o.countdown);
      countdown, countdownOriginal := c, c;
      timer, startWait, emitted := None, 0, [];
      var level := NormalizeEmitLevel(o.emitLevel);
      if |ParseConfig(o).namespace| == 0 {
        if level == 2 {
          level := 1;
        } else if level == 3 {
          level := 4;
        }
      }
      emitLevel := level;
    }

    /**
     * `new TimerJobs(options, callback)`: throws unless the callback is a
     * function; otherwise the job, started when `autoStart` is set, is
     * appended to the registry.
     */
    static method Create(o: RawOptions, callback: JsValue, registry: Registry, now: Millis, handle: Handle)
      returns (r: Result<TimerJobs, string>)
      modifies registry
      ensures r.Failure? <==> !IsFunction(callback)
      ensures r.Failure? ==> r.error == CallbackError && registry.timers == old(registry.timers)
      ensures r.Success? ==> fresh(r.value) && r.value.Valid()
      ensures r.Success? ==> Construct(o, callback, now, handle) == Success(r.value.State())
      ensures r.Success? ==> registry.timers == old(registry.timers) + [r.value]
    {
      if Not(Bool(IsFunction(callback))) {
        return Failure(CallbackError);
      }
      var job := new TimerJobs(o);
      if job.config.autoStart {
        job.Start(now, handle);
      }
      registry.Add(job);
      r := Success(job);
    }

    method Emit(action: string, args: seq<Arg>)
      modifies this
      ensures State() == old(State()).(emitted := Emitted(old(State()), action, args))
    {
      if emitLevel != 0 {
        emitted := emitted + [Event(EventName(config.levels, action, emitLevel), args)];
      }
    }

    /** `stopped()` */
    function Stopped(): (r: bool)
      reads this
      ensures r <==> timer.None?
    {
      timer == None
    }

    /** `started()` */
    function Started(): (r: bool)
      reads this
      ensures r <==> !Stopped()
    {
      timer.Some?
    }

    /** `waitTime()` */
    function WaitTime(now: Millis): (w: int)
      reads this
      ensures startWait == 0 ==> w == 0
      ensures startWait != 0 ==> w == startWait + interval - now
    {
      WaitTimeAt(startWait, interval, now)
    }

    method SetCountdown(value: real)
      requires Valid()
      modifies this
      ensures Valid() && State() == SetCountdownStep(old(State()), value)
    {
      countdown := NormalizeCountdown(value);
      countdownOriginal := countdown;
    }

    method SetEmitLevel(value: JsValue)
      requires Valid()
      modifies this
      ensures Valid() && State() == SetEmitLevelStep(old(State()), value)
    {
      emitLevel := NormalizeEmitLevel(value);
    }

    method Go(now: Millis)
      requires Valid()
      modifies this
      ensures Valid() && State() == GoStep(old(State()), now)
    {
      if !busy || !config.blocking {
        busy := true;
        Emit("jobBegin", [ThisJob]);
        executions := executions + 1;
        startWait := now;
      }
    }

    method Start(now: Millis, handle: Handle)
      requires Valid()
      modifies this
      ensures Valid() && State() == StartStep(old(State()), now, handle)
    {
      if timer.None? {
        startWait := now;
        hasStarted := true;
        if countdown < 1 {
          SetCountdown(countdownOriginal as real);
        }
        timer := Some(handle);
        Emit("jobStart", [ThisJob]);
        if config.immediate {
          Go(now);
        }
      }
    }

    method Stop()
      modifies this
      ensures State() == StopStep(old(State()))
      ensures old(Valid()) ==> Valid()
    {
      if timer.Some? {
        Emit("jobStop", [ThisJob]);
        timer := None;
        startWait := 0;
      }
    }

    method Restart(interval': JsValue, now: Millis, handle: Handle)
      requires Valid()
      modifies this
      ensures Valid() && State() == RestartStep(old(State()), interval', now, handle)
    {
      interval := RestartInterval(interval, interval');
      ghost var adopted := State();
      if hasStarted {
        Stop();
        assert State() == StopStep(adopted);
        Start(now, handle);
      }
    }

    method Done(err: JsValue, args: seq<JsValue>)
      requires Valid()
      modifies this
      ensures Valid() && State() == DoneStep(old(State()), err, args)
    {
      Emit("jobEnd", [ThisJob] + Values(args));
      Report(err);
      Spend();
      busy := false;
    }

    method Report(err: JsValue)
      requires Valid()
      modifies this
      ensures Valid() && State() == ReportStep(old(State()), err)
    {
      if Truthy(err) {
        errors := errors + [err];
        var level := if emitLevel != 0 then emitLevel else 1;
        emitted := emitted + [Event(EventName(config.levels, "jobError", level), [Value(err), ThisJob, ErrorHistory(errors)])];
        if !config.ignoreErrors {
          Stop();
        }
      }
    }

    method Spend()
      requires Valid()
      modifies this
      ensures Valid() && State() == SpendStep(old(State()))
    {
      if !infinite {
        countdown := countdown - 1;
        if countdown < 1 {
          Emit("jobComplete", [ThisJob]);
          Stop();
        }
      }
    }

    method OnStopEvent()
      requires Valid()
      modifies this
      ensures Valid() && State() == StopListenerStep(old(State()))
    {
      if Truthy(Str(config.stopOn)) {
        Stop();
      }
    }

    method OnStartEvent(now: Millis, handle: Handle)
      requires Valid()
      modifies this
      ensures Valid() && State() == StartListenerStep(old(State()), now, handle)
    {
      if Truthy(Str(config.startOn)) && Stopped() {
        Start(now, handle);
      }
    }

    method OnRestartEvent(now: Millis, handle: Handle)
      requires Valid()
      modifies this
      ensures Valid() && State() == RestartListenerStep(old(State()), now, handle)
    {
      if Truthy(Str(config.restartOn)) && hasStarted {
        Restart(Undefined, now, handle);
      }
    }
  }

  /** The jobs of `ts` whose `property` is strictly equal to `target`, in order. */
  function Matching(ts: seq<TimerJobs>, property: Property, target: JsValue): (r: seq<TimerJobs>)
    reads ts
    ensures |r| <= |ts|
    ensures forall k :: 0 <= k < |r| ==> r[k] in ts && StrictEquals(r[k].Get(property), target)
  {
    if ts == [] then []
    else
      var last := ts[|ts| - 1];
      Matching(ts[..|ts| - 1], property, target) + (if StrictEquals(last.Get(property), target) then [last] else [])
  }

  /** A job is found exactly when it is registered and its property strictly equals the target. */
  lemma {:induction false} MatchingMembership(ts: seq<TimerJobs>, property: Property, target: JsValue, t: TimerJobs)
    ensures t in Matching(ts, property, target) <==> t in ts && StrictEquals(t.Get(property), target)
  {
    if ts != [] {
      MatchingMembership(ts[..|ts| - 1], property, target, t);
      assert ts == ts[..|ts| - 1] + [ts[|ts| - 1]];
    }
  }

  /** The static `timers` array of index.ts, owned by the caller. */
  class Registry {
    var timers: seq<TimerJobs>

    constructor ()
      ensures timers == []
    {
      timers := [];
    }

    method Add(t: TimerJobs)
      modifies this
      ensures timers == old(timers) + [t]
    {
      timers := timers + [t];
    }

    /** `findTimers(property, target)`: a `forEach` over the registry pushing each match. */
    method FindTimers(property: Property, target: JsValue) returns (found: seq<TimerJobs>)
      ensures found == Matching(timers, property, target)
    {
      found := [];
      var i := 0;
      while i < |timers|
        invariant 0 <= i <= |timers|
        invariant found == Matching(timers[..i], property, target)
      {
        var timer := timers[i];
        if StrictEquals(timer.Get(property), target) {
          found := found + [timer];
        }
        assert timers[..i + 1][..i] == timers[..i];
        i := i + 1;
      }
      assert timers[..i] == timers;
    }

    /** One step of `removeTimers`: splice the job's first occurrence out and stop it if asked. */
    method RemoveOne(timer: TimerJobs, stop: bool)
      modifies this, timer
      ensures timers == R.RemoveFirst(old(timers), timer)
      ensures RemovedAs(timer, old(timer.State()), stop && timer in old(timers))
    {
      ghost var before := timer.State();
      var index := R.IndexOf(timers, timer);
      if index >= 0 {
        timers := timers[..index] + timers[index + 1..];
        assert timer.State() == before;
        if stop {
          timer.Stop();
        }
      }
    }

    /**
     * `removeTimers(timers, stop)`: each given job's first occurrence is
     * spliced out of the registry and, when `stop` is set, the job is
     * stopped; a job that is not registered is ignored. A single job is
     * passed as a one-element sequence.
     */
    method RemoveTimers(ts: seq<TimerJobs>, stop: bool)
      modifies this, ts
      ensures timers == R.RemoveEach(old(timers), ts)
      ensures multiset(timers) == multiset(old(timers)) - multiset(ts)
      ensures forall t :: t in ts ==> RemovedAs(t, old(t.State()), stop && t in old(timers))
    {
      var i := 0;
      while i < |ts|
        invariant 0 <= i <= |ts|
        invariant timers == R.RemoveEach(old(timers), ts[..i])
        invariant forall t :: t in ts[..i] ==> RemovedAs(t, old(t.State()), stop && t in old(timers))
        invariant forall t :: t in ts && t !in ts[..i] ==> t.State() == old(t.State())
      {
        var timer := ts[i];
        assert ts[..i + 1] == ts[..i] + [timer];
        R.RemoveEachPresence(old(timers), ts[..i], timer);
        RemoveOne(timer, stop);
        forall t | t in ts[..i + 1]
          ensures RemovedAs(t, old(t.State()), stop && t in old(timers))
        {
          if t != timer {
            assert t in ts[..i];
          }
        }
        i := i + 1;
      }
      assert ts[..i] == ts;
      R.RemoveEachCount(old(timers), ts);
    }
  }
}
