/**
 * The first job class (src/timerjobs.ts). Its options are read as given
 * (`blocking` and `infinite` keep the value passed in and are tested for
 * truthiness), blank string options fall back to their defaults, events
 * carry no job argument, the countdown setter refuses non-integers, there
 * is no `restart`, and its restart listener starts a stopped job.
 *
 * As for the other variants, the state of a job is a value (`Job`) with a
 * step function per entry point, and the class `TimerJobs` is proved to
 * update its fields as those functions do.
 */
module TimerJobsLegacy {
  import opened Helpers
  import opened Wrappers
  import opened Host
  import opened Emitter
  import opened JobRules
  import opened LevelTable
  import opened JobProperties
  import R = Registry

  const CountdownError := "TimerJobs Error: countdown must be an integer value"

  /** `s && s.trim().length ? s : fallback`: a blank option counts as absent. */
  function OrIfBlank(s: string, fallback: string): (r: string)
    ensures AllWhitespace(s) ==> r == fallback
    ensures !AllWhitespace(s) ==> r == s
  {
    TrimEmptyIffAllWhitespace(s);
    if s != "" && |Trim(s)| > 0 then s else fallback
  }

  /**
   * The settings fixed at construction. `blocking` and `infinite` keep the
   * option's own value (`true` when absent); an event option that is `null`
   * is the empty string.
   */
  datatype Config = Config(
    autoStart: bool,
    blocking: JsValue,
    delimiter: string,
    emitLevel: EmitLevel,
    ignoreErrors: bool,
    immediate: bool,
    infinite: JsValue,
    interval: int,
    namespace: string,
    reference: string,
    restartOn: string,
    startOn: string,
    stopOn: string,
    levels: map<int, string>)

  /** The constructor's reading of the options object. */
  function ParseConfig(o: RawOptions): (c: Config)
    ensures c.blocking == (if o.blocking == Undefined then Bool(true) else o.blocking)
    ensures c.infinite == (if o.infinite == Undefined then Bool(true) else o.infinite)
    ensures c.autoStart == Truthy(o.autoStart) && c.immediate == Truthy(o.immediate)
    ensures c.ignoreErrors == Truthy(o.ignoreErrors)
    ensures c.interval == (if IsInteger(o.interval) then IntegerValue(o.interval) else 3000)
    ensures c.reference == OrIfBlank(o.reference, "timer") && c.namespace == OrIfBlank(o.namespace, "")
    ensures c.stopOn == OrIfBlank(o.stopOn, "") && c.startOn == OrIfBlank(o.startOn, "")
    ensures c.restartOn == OrIfBlank(o.restartOn, "")
    ensures c.delimiter == (if o.delimiter == "" then "::" else o.delimiter)
    ensures c.emitLevel == ProtectLevel(ClampEmitLevel(o.emitLevel), c.namespace)
    ensures c.levels == Table(c.delimiter, c.namespace, c.reference)
  {
    var namespace := OrIfBlank(o.namespace, "");
    var reference := OrIfBlank(o.reference, "timer");
    var delimiter := if Truthy(Str(o.delimiter)) then o.delimiter else "::";
    Config(
      Truthy(o.autoStart),
      if o.blocking == Undefined then Bool(true) else o.blocking,
      delimiter,
      ProtectLevel(ClampEmitLevel(o.emitLevel), namespace),
      Truthy(o.ignoreErrors),
      Truthy(o.immediate),
      if o.infinite == Undefined then Bool(true) else o.infinite,
      if IsInteger(o.interval) then IntegerValue(o.interval) else 3000,
      namespace,
      reference,
      OrIfBlank(o.restartOn, ""),
      OrIfBlank(o.startOn, ""),
      OrIfBlank(o.stopOn, ""),
      Table(delimiter, namespace, reference))
  }

  /** The state of one job: its fixed settings, the fields its methods change, and the events published so far. */
  datatype Job = Job(
    config: Config,
    busy: bool,
    errors: seq<JsValue>,
    executions: nat,
    timer: Option<Handle>,
    countdown: int,
    countdownOriginal: int,
    startWait: int,
    emitted: seq<Event>)

  /**
   * What every entry point preserves: an armed job has a positive start
   * time and at least one run left; the remembered countdown is at least 1.
   */
  predicate Inv(j: Job)
  {
    && (j.timer.Some? ==> j.startWait > 0 && j.countdown >= 1)
    && j.countdownOriginal >= 1
  }

  /** `if (this.emitLevel) this.emitter.emit(action + this.LEVEL[this.emitLevel], ...args)` */
  function Emitted(j: Job, action: string, args: seq<Arg>): (r: seq<Event>)
    ensures j.emitted <= r && |r| <= |j.emitted| + 1
    ensures |r| == |j.emitted| + 1 <==> j.config.emitLevel != 0
    ensures j.config.emitLevel != 0 ==> action <= r[|j.emitted|].name && r[|j.emitted|].args == args
  {
    if j.config.emitLevel != 0 then j.emitted + [Event(EventName(j.config.levels, action, j.config.emitLevel), args)]
    else j.emitted
  }

  /** The name of a `jobError` event: the configured level's, or level 1's when events are off. */
  function ErrorName(j: Job): string
  {
    EventName(j.config.levels, "jobError", if j.config.emitLevel != 0 then j.config.emitLevel else 1)
  }

  /** The state right after the constructor, before `autoStart` is honoured. */
  function Fresh(o: RawOptions): (j: Job)
    ensures Inv(j) && j.timer.None? && !j.busy
    ensures j.executions == 0 && j.errors == [] && j.emitted == [] && j.startWait == 0
    ensures j.countdown == j.countdownOriginal == NormalizeCountdown(o.countdown)
    ensures j.config == ParseConfig(o)
  {
    var countdown := NormalizeCountdown(o.countdown);
    Job(ParseConfig(o), false, [], 0, None, countdown, countdown, 0, [])
  }

  /** `new TimerJobs(options, callback)`: refuses a callback that is not a function; otherwise the fresh job, started if `autoStart` is set. */
  function Construct(o: RawOptions, callback: JsValue, now: Millis, handle: Handle): (r: Result<Job, string>)
    ensures r.Failure? <==> !IsFunction(callback)
    ensures r.Failure? ==> r.error == CallbackError
    ensures r.Success? ==> Inv(r.value) && r.value.errors == [] && r.value.config == ParseConfig(o)
    ensures r.Success? ==> (r.value.timer.Some? <==> Truthy(o.autoStart))
  {
    if !IsFunction(callback) then Failure(CallbackError)
    else if Truthy(o.autoStart) then Success(StartStep(Fresh(o), now, handle))
    else Success(Fresh(o))
  }

  /**
   * The `countdown` setter: a value that is not an integer is refused with
   * an error and changes nothing; an integer below 1 counts as 1; the
   * value goes to `_countdown` and `__countdown`.
   */
  function SetCountdownStep(j: Job, value: JsValue): (r: Result<Job, string>)
    ensures r.Failure? <==> !IsInteger(value)
    ensures r.Failure? ==> r.error == CountdownError
    ensures r.Success? ==> r.value.countdown == r.value.countdownOriginal >= 1
    ensures r.Success? && IntegerValue(value) >= 1 ==> r.value.countdown == IntegerValue(value)
    ensures r.Success? && IntegerValue(value) < 1 ==> r.value.countdown == 1
    ensures r.Success? ==> r.value == j.(countdown := r.value.countdown, countdownOriginal := r.value.countdown)
    ensures r.Success? && Inv(j) ==> Inv(r.value)
  {
    if !IsInteger(value) then Failure(CountdownError)
    else
      var c := if IntegerValue(value) < 1 then 1 else IntegerValue(value);
      Success(j.(countdown := c, countdownOriginal := c))
  }

  /** Storing the remembered countdown back through the setter, as `start()` does, is accepted and stores it unchanged. */
  lemma RestoreThroughSetter(j: Job)
    requires Inv(j)
    ensures SetCountdownStep(j, IntegerNumber(j.countdownOriginal)) == Success(j.(countdown := j.countdownOriginal))
  {
    assert IsInteger(IntegerNumber(j.countdownOriginal)) by {
      assert IntegerNumber(j.countdownOriginal) == IntegerNumber(j.countdownOriginal);
    }
  }

  /**
   * The `jobStart` publication as written: unlike every other event it is
   * not guarded by `emitLevel`, so at level 0 it is published under the
   * name "jobStartundefined".
   */
  function StartEmissionAsWritten(j: Job): (r: seq<Event>)
    ensures r == j.emitted + [Event(EventName(j.config.levels, "jobStart", j.config.emitLevel), [])]
  {
    j.emitted + [Event("jobStart" + (if j.config.emitLevel in j.config.levels then j.config.levels[j.config.emitLevel] else "undefined"), [])]
  }

  /** The `jobStart` publication guarded like the others: nothing at level 0. */
  function StartEmission(j: Job): (r: seq<Event>)
    ensures j.config.emitLevel == 0 ==> r == j.emitted
    ensures j.config.emitLevel != 0 ==> r == StartEmissionAsWritten(j)
  {
    Emitted(j, "jobStart", [])
  }

  /** The finding: at level 0 the job is meant to publish nothing, but as written it publishes "jobStartundefined". */
  lemma StartEmissionAtLevelZero(j: Job)
    requires j.config.emitLevel == 0 && j.config.levels == Table(j.config.delimiter, j.config.namespace, j.config.reference)
    ensures StartEmissionAsWritten(j) == j.emitted + [Event("jobStartundefined", [])]
    ensures StartEmission(j) == j.emitted
    ensures Emitted(j, "jobStop", []) == Emitted(j, "jobBegin", []) == j.emitted
  {
    assert 0 !in j.config.levels;
    assert "jobStart" + "undefined" == "jobStartundefined";
  }

  predicate Admitted(j: Job)
  {
    !j.busy || !Truthy(j.config.blocking)
  }

  /** The admitted half of `go()`: busy, `jobBegin` published, one more execution. */
  function BeginStep(j: Job): (r: Job)
    ensures r.busy && r.executions == j.executions + 1
    ensures r.emitted == Emitted(j, "jobBegin", [])
    ensures r == j.(busy := true, executions := r.executions, emitted := r.emitted)
  {
    j.(busy := true, emitted := Emitted(j, "jobBegin", []), executions := j.executions + 1)
  }

  /**
   * `go()` with a callback that finishes later: an admitted tick begins a
   * run; every tick, admitted or skipped, records the time.
   */
  function GoStep(j: Job, now: Millis): (r: Job)
    ensures Admitted(j) ==> r.busy && r.executions == j.executions + 1
    ensures !Admitted(j) ==> r == j.(startWait := now)
    ensures r.startWait == now && r.timer == j.timer && r.countdown == j.countdown && r.errors == j.errors
    ensures Inv(j) ==> Inv(r)
  {
    (if Admitted(j) then BeginStep(j) else j).(startWait := now)
  }

  /**
   * `start()`: an armed job is left alone; otherwise the start time is
   * recorded, an exhausted countdown is restored from `__countdown`, the
   * job is armed, `jobStart` is published, and with `immediate` the first
   * tick runs at once.
   */
  function StartStep(j: Job, now: Millis, handle: Handle): (r: Job)
    ensures j.timer.Some? ==> r == j
    ensures j.timer.None? ==> r.timer == Some(handle) && r.startWait == now
    ensures j.timer.None? ==> r.countdown == if j.countdown < 1 then j.countdownOriginal else j.countdown
    ensures j.timer.None? ==> r.executions == j.executions + (if j.config.immediate && Admitted(j) then 1 else 0)
    ensures j.timer.None? ==> StartEmission(j) <= r.emitted
    ensures j.timer.None? && !j.config.immediate ==> r.emitted == StartEmission(j)
    ensures r.errors == j.errors && r.config == j.config
    ensures Inv(j) ==> Inv(r)
  {
    if j.timer.None? then
      var j1 := j.(startWait := now);
      var j2 := if j1.countdown < 1 then j1.(countdown := j1.countdownOriginal) else j1;
      var j3 := j2.(timer := Some(handle));
      var j4 := j3.(emitted := StartEmission(j3));
      if j4.config.immediate then GoStep(j4, now) else j4
    else
      j
  }

  /** `stop()`: an armed job is disarmed, its start time cleared, and `jobStop` published when events are on. */
  function StopStep(j: Job): (r: Job)
    ensures r.timer.None?
    ensures j.timer.None? ==> r == j
    ensures j.timer.Some? ==> r.startWait == 0 && r.emitted == Emitted(j, "jobStop", [])
    ensures r == j.(timer := None, startWait := r.startWait, emitted := r.emitted)
    ensures Inv(j) ==> Inv(r)
  {
    if j.timer.Some? then
      j.(emitted := Emitted(j, "jobStop", []), timer := None, startWait := 0)
    else
      j
  }

  /**
   * The error half of `done`: a truthy error is recorded and always
   * published as `jobError` with the error list (named at level 1 when
   * events are off), and stops the job unless errors are ignored.
   */
  function ReportStep(j: Job, err: JsValue): (r: Job)
    ensures !Truthy(err) ==> r == j
    ensures r.errors == j.errors + (if Truthy(err) then [err] else [])
    ensures Truthy(err) ==> Event(ErrorName(j), [ErrorHistory(r.errors)]) in r.emitted
    ensures Truthy(err) ==> j.emitted + [Event(ErrorName(j), [ErrorHistory(r.errors)])] <= r.emitted
    ensures Truthy(err) && !j.config.ignoreErrors ==> r.timer.None?
    ensures r.timer.Some? ==> r.timer == j.timer
    ensures r == j.(errors := r.errors, emitted := r.emitted, timer := r.timer, startWait := r.startWait)
    ensures j.emitted <= r.emitted
    ensures Inv(j) ==> Inv(r)
  {
    if Truthy(err) then
      var e1 := j.(errors := j.errors + [err]);
      var e2 := e1.(emitted := e1.emitted + [Event(ErrorName(e1), [ErrorHistory(e1.errors)])]);
      if !e2.config.ignoreErrors then StopStep(e2) else e2
    else
      j
  }

  /** The countdown half of `done`: unless `infinite` is truthy the job spends one run, and with none left publishes `jobComplete` and stops. */
  function SpendStep(j: Job): (r: Job)
    ensures Truthy(j.config.infinite) ==> r == j
    ensures !Truthy(j.config.infinite) ==> r.countdown == j.countdown - 1 && (r.countdown < 1 ==> r.timer.None?)
    ensures !Truthy(j.config.infinite) && j.countdown < 2 ==> Emitted(j, "jobComplete", []) <= r.emitted
    ensures !Truthy(j.config.infinite) && j.countdown >= 2 ==> r.emitted == j.emitted
    ensures r.timer.Some? ==> r.timer == j.timer
    ensures r == j.(countdown := r.countdown, emitted := r.emitted, timer := r.timer, startWait := r.startWait)
    ensures j.emitted <= r.emitted
    ensures Inv(j) ==> Inv(r)
  {
    if !Truthy(j.config.infinite) then
      var d := j.(countdown := j.countdown - 1);
      if d.countdown < 1 then StopStep(d.(emitted := Emitted(d, "jobComplete", []))) else d
    else
      j
  }

  /** `done(err, ...args)`: `jobEnd` with the extra arguments when events are on, then the error and the countdown; the job is no longer busy. */
  function DoneStep(j: Job, err: JsValue, args: seq<JsValue>): (r: Job)
    ensures !r.busy
    ensures r.errors == j.errors + (if Truthy(err) then [err] else [])
    ensures j.timer.None? ==> r.timer.None?
    ensures r.timer.Some? ==> r.timer == j.timer
    ensures Truthy(err) && !j.config.ignoreErrors ==> r.timer.None?
    ensures !Truthy(j.config.infinite) ==> r.countdown == j.countdown - 1 && (r.countdown < 1 ==> r.timer.None?)
    ensures Truthy(j.config.infinite) ==> r.countdown == j.countdown
    ensures r.executions == j.executions && r.config == j.config
    ensures Truthy(err) ==> Event(ErrorName(j), [ErrorHistory(r.errors)]) in r.emitted
    ensures Truthy(err) ==> Emitted(j, "jobEnd", Values(args)) + [Event(ErrorName(j), [ErrorHistory(r.errors)])] <= r.emitted
    ensures !Truthy(err) ==> Emitted(j, "jobEnd", Values(args)) <= r.emitted
    ensures !Truthy(j.config.infinite) && j.countdown < 2 && j.config.emitLevel != 0 ==>
      multiset(Emitted(j, "jobEnd", Values(args)))
        + multiset{Event(EventName(j.config.levels, "jobComplete", j.config.emitLevel), [])} <= multiset(r.emitted)
    ensures r.timer.None? && j.timer.Some? ==> r.startWait == 0
    ensures r.timer.Some? ==> r.startWait == j.startWait
    ensures Inv(j) ==> Inv(r)
  {
    var j1 := j.(emitted := Emitted(j, "jobEnd", Values(args)));
    DoneErrorEvents(j1, err);
    DoneCompleteEvent(j1, err);
    SpendStep(ReportStep(j1, err)).(busy := false)
  }

  /** What `done` publishes after `jobEnd`: the error report comes first. */
  lemma DoneErrorEvents(j: Job, err: JsValue)
    ensures var r := SpendStep(ReportStep(j, err));
      && (Truthy(err) ==> j.emitted + [Event(ErrorName(j), [ErrorHistory(r.errors)])] <= r.emitted)
      && (Truthy(err) ==> Event(ErrorName(j), [ErrorHistory(r.errors)]) in r.emitted)
      && (!Truthy(err) ==> j.emitted <= r.emitted)
  {
    var j2 := ReportStep(j, err);
    assert SpendStep(j2).errors == j2.errors;
  }

  /**
   * What `done` publishes after the error report, when events are on: a new
   * `jobComplete`, counted on top of every event published before.
   */
  lemma DoneCompleteEvent(j: Job, err: JsValue)
    ensures !Truthy(j.config.infinite) && j.countdown < 2 && j.config.emitLevel != 0 ==>
      multiset(j.emitted) + multiset{Event(EventName(j.config.levels, "jobComplete", j.config.emitLevel), [])}
        <= multiset(SpendStep(ReportStep(j, err)).emitted)
  {
    if !Truthy(j.config.infinite) && j.countdown < 2 && j.config.emitLevel != 0 {
      var j2 := ReportStep(j, err);
      var done := Event(EventName(j.config.levels, "jobComplete", j.config.emitLevel), []);
      assert j2.config == j.config && j2.countdown == j.countdown;
      assert Emitted(j2, "jobComplete", []) == j2.emitted + [done];
      LaterEventsKept(j.emitted, j2.emitted[|j.emitted|..], j2.emitted);
      LaterEventsKept(j2.emitted, [done], SpendStep(j2).emitted);
    }
  }

  /**
   * A tick whose callback calls `done(err, ...args)` before returning, as
   * written: the start time is recorded after the callback, so a run that
   * finishes the job leaves a stopped job with a start time.
   */
  function GoSyncAsWritten(j: Job, now: Millis, err: JsValue, args: seq<JsValue>): (r: Job)
    ensures r.startWait == now
    ensures r.timer == (if Admitted(j) then DoneStep(BeginStep(j), err, args).timer else j.timer)
  {
    (if Admitted(j) then DoneStep(BeginStep(j), err, args) else j).(startWait := now)
  }

  /**
   * The same tick with the start time recorded before the callback runs,
   * as the later versions do: a job its own run stops waits 0, and a job
   * still armed counts from this tick.
   */
  function GoSync(j: Job, now: Millis, err: JsValue, args: seq<JsValue>): (r: Job)
    ensures j.timer.Some? && r.timer.None? ==> r.startWait == 0
    ensures r.timer.Some? ==> r.startWait == now
    ensures r.executions == j.executions + (if Admitted(j) then 1 else 0)
    ensures !r.busy || !Admitted(j)
    ensures Inv(j) ==> Inv(r)
  {
    if Admitted(j) then DoneStep(BeginStep(j).(startWait := now), err, args) else j.(startWait := now)
  }

  /** The finding: a finite job with one run left, finishing synchronously, is stopped yet reports a wait. */
  lemma SyncFinishKeepsWait(j: Job, now: Millis)
    requires j.timer.Some? && !j.busy && j.config.infinite == Bool(false) && j.countdown == 1
    ensures GoSyncAsWritten(j, now, Undefined, []).timer.None?
    ensures GoSyncAsWritten(j, now, Undefined, []).startWait == now != 0
    ensures GoSync(j, now, Undefined, []).timer.None?
    ensures GoSync(j, now, Undefined, []).startWait == 0
  {
  }

  /** The stop listener: with `stopOn` set, the job is stopped. */
  function StopListenerStep(j: Job): (r: Job)
    ensures j.config.stopOn != "" ==> r == StopStep(j) && r.timer.None?
    ensures j.config.stopOn == "" ==> r == j
  {
    if j.config.stopOn != "" then StopStep(j) else j
  }

  /** The start listener: with `startOn` set, a stopped job is started. */
  function StartListenerStep(j: Job, now: Millis, handle: Handle): (r: Job)
    ensures j.config.startOn != "" && j.timer.None? ==> r == StartStep(j, now, handle) && r.timer == Some(handle)
    ensures j.config.startOn == "" || j.timer.Some? ==> r == j
  {
    if j.config.startOn != "" && j.timer.None? then StartStep(j, now, handle) else j
  }

  /** The restart listener: with `restartOn` set, a stopped job is started; this version has no `restart()`. */
  function RestartListenerStep(j: Job, now: Millis, handle: Handle): (r: Job)
    ensures j.config.restartOn != "" && j.timer.None? ==> r == StartStep(j, now, handle) && r.timer == Some(handle)
    ensures j.config.restartOn == "" || j.timer.Some? ==> r == j
  {
    if j.config.restartOn != "" && j.timer.None? then StartStep(j, now, handle) else j
  }

  /** With both events configured, the restart listener does exactly what the start listener does. */
  lemma RestartListenerIsStartListener(j: Job, now: Millis, handle: Handle)
    requires j.config.restartOn != "" && j.config.startOn != ""
    ensures RestartListenerStep(j, now, handle) == StartListenerStep(j, now, handle)
  {
  }

  /**
   * One run driven by the interval: a tick, then the callback finishing
   * without error once `go()` has returned (the time is recorded by then).
   */
  function Round(j: Job, now: Millis): Job
  {
    DoneStep(GoStep(j, now), Undefined, [])
  }

  function Rounds(j: Job, now: Millis, n: nat): Job
    decreases n
  {
    if n == 0 then j else Rounds(Round(j, now), now, n - 1)
  }

  /** A finite, idle, armed job with `n` runs left runs exactly `n` times and then stops, waiting 0. */
  lemma {:induction false} CountdownRunsExactly(j: Job, now: Millis, n: nat, k: nat)
    requires Inv(j) && j.timer.Some? && !j.busy && !Truthy(j.config.infinite) && j.countdown == n
    requires k <= n
    ensures Rounds(j, now, k).executions == j.executions + k
    ensures Rounds(j, now, k).countdown == n - k
    ensures k < n ==> Rounds(j, now, k).timer == j.timer && !Rounds(j, now, k).busy
    ensures k == n ==> Rounds(j, now, k).timer.None? && Rounds(j, now, k).startWait == 0
    decreases k
  {
    if k > 0 {
      var j1 := Round(j, now);
      if n - 1 == 0 {
        assert Rounds(j1, now, 0) == j1;
      } else {
        CountdownRunsExactly(j1, now, n - 1, k - 1);
      }
    }
  }

  /** With events off, errors are still published, under the bare `jobError` name. */
  lemma ErrorPublishedAtLevelZero(j: Job, err: JsValue)
    requires Truthy(err) && j.config.emitLevel == 0
    requires j.config.levels == Table(j.config.delimiter, j.config.namespace, j.config.reference)
    ensures Event("jobError", [ErrorHistory(j.errors + [err])]) in DoneStep(j, err, []).emitted
  {
    assert "jobError" + "" == "jobError";
  }

  /** The option tests: defaults, and blank strings count as absent. */
  lemma ParseConfigExamples()
    ensures ParseConfig(NoOptions).blocking == Bool(true) && ParseConfig(NoOptions).infinite == Bool(true)
    ensures ParseConfig(NoOptions).reference == "timer" && ParseConfig(NoOptions).delimiter == "::"
    ensures ParseConfig(NoOptions).interval == 3000 && ParseConfig(NoOptions).emitLevel == 1
    ensures ParseConfig(NoOptions.(reference := "  ", stopOn := " ")).reference == "timer"
    ensures ParseConfig(NoOptions.(reference := "  ", stopOn := " ")).stopOn == ""
  {
    assert AllWhitespace("  ") by { assert forall i :: 0 <= i < 2 ==> "  "[i] == ' '; }
    assert AllWhitespace(" ") by { assert " "[0] == ' '; }
  }

  /** A job of the first version, updated in place. */
  class TimerJobs {
    const config: Config
    var busy: bool
    var errors: seq<JsValue>
    var executions: nat
    var timer: Option<Handle>
    var countdown: int
    var countdownOriginal: int
    var startWait: int
    var emitted: seq<Event>

    function State(): Job
      reads this
    {
      Job.Job(config, busy, errors, executions, timer, countdown, countdownOriginal, startWait, emitted)
    }

    predicate Valid()
      reads this
    {
      Inv(State())
    }

    /** `timer[property]` */
    function Get(property: Property): (r: JsValue)
      reads this
      ensures property in {Executions, Interval, Countdown, EmitLevelProperty} ==> IsInteger(r)
      ensures property == Executions ==> IsInteger(r) && IntegerValue(r) == executions
      ensures property == Countdown ==> IsInteger(r) && IntegerValue(r) == countdown
      ensures property in {AutoStart, Busy, IgnoreErrors, Immediate} ==> r.Bool?
      ensures property == Busy ==> (Truthy(r) <==> busy)
      ensures property in {Delimiter, Namespace, Reference} ==> r.Str?
      ensures property in {RestartOn, StartOn, StopOn} ==> r.Null? || r.Str?
    {
      match property
      case AutoStart => Bool(config.autoStart)
      case Blocking => config.blocking
      case Busy => Bool(busy)
      case Delimiter => Str(config.delimiter)
      case Executions => IntegerNumber(executions)
      case IgnoreErrors => Bool(config.ignoreErrors)
      case Immediate => Bool(config.immediate)
      case Interval => IntegerNumber(config.interval)
      case Infinite => config.infinite
      case Namespace => Str(config.namespace)
      case Reference => Str(config.reference)
      case RestartOn => NullableString(config.restartOn)
      case StartOn => NullableString(config.startOn)
      case StopOn => NullableString(config.stopOn)
      case Countdown => IntegerNumber(countdown)
      case EmitLevelProperty => IntegerNumber(config.emitLevel)
    }

    /** The constructor after the callback check. */
    constructor (o: RawOptions)
      ensures State() == Fresh(o) && Valid()
    {
      config := ParseConfig(o);
      busy, errors, executions := false, [], 0;
      var c := NormalizeCountdown(o.countdown);
      countdown, countdownOriginal := c, c;
      timer, startWait, emitted := None, 0, [];
    }

    /**
     * `new TimerJobs(options, callback)`: throws unless the callback is a
     * function; otherwise the job, started when `autoStart` is set, is
     * appended to the registry.
     */
    static method Create(o: RawOptions, callback: JsValue, registry: Registry, now: Millis, handle: Handle)
      returns (r: Result<TimerJobs, string>)
      modifies registry
      ensures r.Failure? <==> !IsFunction(callback)
      ensures r.Failure? ==> r.error == CallbackError && registry.timers == old(registry.timers)
      ensures r.Success? ==> fresh(r.value) && r.value.Valid()
      ensures r.Success? ==> Construct(o, callback, now, handle) == Success(r.value.State())
      ensures r.Success? ==> registry.timers == old(registry.timers) + [r.value]
    {
      if !IsFunction(callback) {
        return Failure(CallbackError);
      }
      var job := new TimerJobs(o);
      if job.config.autoStart {
        job.Start(now, handle);
      }
      registry.Add(job);
      r := Success(job);
    }

    method Emit(action: string, args: seq<Arg>)
      modifies this
      ensures State() == old(State()).(emitted := Emitted(old(State()), action, args))
    {
      if config.emitLevel != 0 {
        emitted := emitted + [Event(EventName(config.levels, action, config.emitLevel), args)];
      }
    }

    /** `stopped()` */
    function Stopped(): (r: bool)
      reads this
      ensures r <==> timer.None?
    {
      timer == None
    }

    /** `started()` */
    function Started(): (r: bool)
      reads this
      ensures r <==> !Stopped()
    {
      timer.Some?
    }

    /** `waitTime()` */
    function WaitTime(now: Millis): (w: int)
      reads this
      ensures startWait == 0 ==> w == 0
      ensures startWait != 0 ==> w == startWait + config.interval - now
    {
      WaitTimeAt(startWait, config.interval, now)
    }

    /** The `countdown` setter; a refused value is reported as the error it throws. */
    method SetCountdown(value: JsValue) returns (error: Option<string>)
      requires Valid()
      modifies this
      ensures Valid()
      ensures SetCountdownStep(old(State()), value).Failure? ==>
        error == Some(CountdownError) && State() == old(State())
      ensures SetCountdownStep(old(State()), value).Success? ==>
        error == None && State() == SetCountdownStep(old(State()), value).value
    {
      if !IsInteger(value) {
        return Some(CountdownError);
      }
      var c := IntegerValue(value);
      if c < 1 {
        c := 1;
      }
      countdown, countdownOriginal := c, c;
      error := None;
    }

    method Go(now: Millis)
      requires Valid()
      modifies this
      ensures Valid() && State() == GoStep(old(State()), now)
    {
      if !busy || Not(config.blocking) {
        busy := true;
        Emit("jobBegin", []);
        executions := executions + 1;
      }
      startWait := now;
    }

    method Start(now: Millis, handle: Handle)
      requires Valid()
      modifies this
      ensures Valid() && State() == StartStep(old(State()), now, handle)
    {
      if timer.None? {
        startWait := now;
        if countdown < 1 {
          countdown := countdownOriginal;
        }
        timer := Some(handle);
        Emit("jobStart", []);
        if config.immediate {
          Go(now);
        }
      }
    }

    method Stop()
      modifies this
      ensures State() == StopStep(old(State()))
      ensures old(Valid()) ==> Valid()
    {
      if timer.Some? {
        Emit("jobStop", []);
        timer := None;
        startWait := 0;
      }
    }

    method Done(err: JsValue, args: seq<JsValue>)
      requires Valid()
      modifies this
      ensures Valid() && State() == DoneStep(old(State()), err, args)
    {
      Emit("jobEnd", Values(args));
      Report(err);
      Spend();
      busy := false;
    }

    method Report(err: JsValue)
      requires Valid()
      modifies this
      ensures Valid() && State() == ReportStep(old(State()), err)
    {
      if Truthy(err) {
        errors := errors + [err];
        var level := if config.emitLevel != 0 then config.emitLevel else 1;
        emitted := emitted + [Event(EventName(config.levels, "jobError", level), [ErrorHistory(errors)])];
        if !config.ignoreErrors {
          Stop();
        }
      }
    }

    method Spend()
      requires Valid()
      modifies this
      ensures Valid() && State() == SpendStep(old(State()))
    {
      if Not(config.infinite) {
        countdown := countdown - 1;
        if countdown < 1 {
          Emit("jobComplete", []);
          Stop();
        }
      }
    }

    method OnStopEvent()
      requires Valid()
      modifies this
      ensures Valid() && State() == StopListenerStep(old(State()))
    {
      if config.stopOn != "" {
        Stop();
      }
    }

    method OnStartEvent(now: Millis, handle: Handle)
      requires Valid()
      modifies this
      ensures Valid() && State() == StartListenerStep(old(State()), now, handle)
    {
      if config.startOn != "" && Stopped() {
        Start(now, handle);
      }
    }

    method OnRestartEvent(now: Millis, handle: Handle)
      requires Valid()
      modifies this
      ensures Valid() && State() == RestartListenerStep(old(State()), now, handle)
    {
      if config.restartOn != "" && Stopped() {
        Start(now, handle);
      }
    }
  }

  /** The jobs of `ts` whose `property` is strictly equal to `target`, in order. */
  function Matching(ts: seq<TimerJobs>, property: Property, target: JsValue): (r: seq<TimerJobs>)
    reads ts
    ensures |r| <= |ts|
    ensures forall k :: 0 <= k < |r| ==> r[k] in ts && StrictEquals(r[k].Get(property), target)
  {
    if ts == [] then []
    else
      var last := ts[|ts| - 1];
      Matching(ts[..|ts| - 1], property, target) + (if StrictEquals(last.Get(property), target) then [last] else [])
  }

  /** A job is found exactly when it is registered and its property strictly equals the target. */
  lemma {:induction false} MatchingMembership(ts: seq<TimerJobs>, property: Property, target: JsValue, t: TimerJobs)
    ensures t in Matching(ts, property, target) <==> t in ts && StrictEquals(t.Get(property), target)
  {
    if ts != [] {
      MatchingMembership(ts[..|ts| - 1], property, target, t);
      assert ts == ts[..|ts| - 1] + [ts[|ts| - 1]];
    }
  }

  /** What `removeTimers` leaves of a job that was in state `before`: stopped when asked and registered, else untouched. */
  ghost predicate RemovedAs(t: TimerJobs, before: Job, stopping: bool)
    reads t
  {
    t.State() == if stopping then StopStep(before) else before
  }

  /** The static `timers` array of src/timerjobs.ts, owned by the caller. */
  class Registry {
    var timers: seq<TimerJobs>

    constructor ()
      ensures timers == []
    {
      timers := [];
    }

    method Add(t: TimerJobs)
      modifies this
      ensures timers == old(timers) + [t]
    {
      timers := timers + [t];
    }

    /** `findTimers(property, target)`: a `forEach` over the registry pushing each match. */
    method FindTimers(property: Property, target: JsValue) returns (found: seq<TimerJobs>)
      ensures found == Matching(timers, property, target)
    {
      found := [];
      var i := 0;
      while i < |timers|
        invariant 0 <= i <= |timers|
        invariant found == Matching(timers[..i], property, target)
      {
        var timer := timers[i];
        if StrictEquals(timer.Get(property), target) {
          found := found + [timer];
        }
        assert timers[..i + 1][..i] == timers[..i];
        i := i + 1;
      }
      assert timers[..i] == timers;
    }

    /** One step of `removeTimers`: splice the job's first occurrence out and stop it if asked. */
    method RemoveOne(timer: TimerJobs, stop: bool)
      modifies this, timer
      ensures timers == R.RemoveFirst(old(timers), timer)
      ensures RemovedAs(timer, old(timer.State()), stop && timer in old(timers))
    {
      ghost var before := timer.State();
      var index := R.IndexOf(timers, timer);
      if index >= 0 {
        timers := timers[..index] + timers[index + 1..];
        assert timer.State() == before;
        if stop {
          timer.Stop();
        }
      }
    }

    /**
     * `removeTimers(timers, stop)`: each given job's first occurrence is
     * spliced out of the registry and, when `stop` is set, the job is
     * stopped; a job that is not registered is ignored. A single job is
     * passed as a one-element sequence.
     */
    method RemoveTimers(ts: seq<TimerJobs>, stop: bool)
      modifies this, ts
      ensures timers == R.RemoveEach(old(timers), ts)
      ensures multiset(timers) == multiset(old(timers)) - multiset(ts)
      ensures forall t :: t in ts ==> RemovedAs(t, old(t.State()), stop && t in old(timers))
    {
      var i := 0;
      while i < |ts|
        invariant 0 <= i <= |ts|
        invariant timers == R.RemoveEach(old(timers), ts[..i])
        invariant forall t :: t in ts[..i] ==> RemovedAs(t, old(t.State()), stop && t in old(timers))
        invariant forall t :: t in ts && t !in ts[..i] ==> t.State() == old(t.State())
      {
        var timer := ts[i];
        assert ts[..i + 1] == ts[..i] + [timer];
        R.RemoveEachPresence(old(timers), ts[..i], timer);
        RemoveOne(timer, stop);
        forall t | t in ts[..i + 1]
          ensures RemovedAs(t, old(t.State()), stop && t in old(timers))
        {
          if t != timer {
            assert t in ts[..i];
          }
        }
        i := i + 1;
      }
      assert ts[..i] == ts;
      R.RemoveEachCount(old(timers), ts);
    }
  }
}
