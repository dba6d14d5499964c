# TimerJobs in Dafny

TimerJobs wraps `setInterval` in a job object. A job runs a user callback
every `interval` milliseconds. It can be blocking, so that a tick is skipped
while the previous run has not called `done`. It can be finite, running
`countdown` times and then stopping itself. Errors passed to `done` are
recorded and stop the job unless `ignoreErrors` is set. Each lifecycle
step is published on an event bus (`jobStart`, `jobBegin`, `jobEnd`,
`jobError`, `jobComplete`, `jobStop`). The event name carries a suffix
chosen by the job's emit level: nothing, the namespace, the reference, or
both. The `startOn`, `stopOn` and `restartOn` options name events the job
listens for. A static registry holds every job created.

The repository ships three versions of the job class. They are modelled
separately, each as written:

- `TimerJobsLib` is the current class (lib/index.ts). Its options come
  merged with defaults. Event names and listeners come from lib/emitter.ts
  (module `Emitter`). Its registry is filtered with predicates (class
  `Registry.Registry`).
- `TimerJobsRoot` is index.ts. It parses its own options. It keeps its own
  `LEVEL` table (module `LevelTable`) and the last countdown set
  (`__countdown`). Its registry removes jobs one at a time with `splice`.
- `TimerJobsLegacy` is src/timerjobs.ts. Its events carry no job argument.
  Its countdown setter rejects non-integers, and its restart listener
  starts a stopped job.

Each version is modelled the same way:

- A `Job` datatype holds a job's state.
- Each entry point is a step function on `Job`: `StartStep`, `StopStep`,
  `GoStep`, `DoneStep`, `RestartStep`, the setters and the listeners.
- The lifecycle properties are proved as lemmas on those functions.
- A class `TimerJobs` has the source's fields. Each of its methods is
  proved to move its fields as the step function moves the value, and to
  preserve the invariant `Inv`.

Events that reach the bus are recorded in the field `emitted`. `Date.now()`
is the parameter `now`, and the handle `setInterval` returns is the
parameter `handle`. The user callback appears as two entry points: `Go` is
a tick, and `Done` is the callback calling `done(err, ...args)`. The
JavaScript values the helpers inspect are the datatype `Helpers.JsValue`.

## Model

| member | source | states |
|---|---|---|
| Helpers.IsString | lib/helpers.ts:9-11 | true exactly for strings |
| Helpers.IsType | lib/helpers.ts:1-3 | true only for one of the six `typeof` names; for "string", "number" and "function" exactly the values of that kind; for "object" exactly `null`, objects and arrays |
| Helpers.IsNumber | lib/helpers.ts:13-15 | true exactly for numbers (NaN and infinities included) |
| Helpers.IsFunction | lib/helpers.ts:27-29 | true exactly for functions |
| Helpers.IsInteger | lib/helpers.ts:23-25 | true exactly for finite numbers equal to their floor, i.e. the numbers `k` for an integer `k` |
| Helpers.IntegerValue | lib/helpers.ts:23-25 | the integer an integer-valued number denotes |
| Helpers.Not | lib/helpers.ts:31-33 | `!value` is true exactly for the falsy values: undefined, null, false, 0, NaN and "" |
| Helpers.TrimStartDropsWhitespace | lib/helpers.ts:5-7 | trimming the front keeps a suffix and drops only whitespace |
| Helpers.TrimStartOfWhitespace | lib/helpers.ts:5-7 | a whitespace-only string trims at the front to "" |
| Helpers.TrimEndEmpty | lib/helpers.ts:5-7 | only a whitespace-only string trims at the back to "" |
| Helpers.TrimEmptyIffAllWhitespace | lib/helpers.ts:5-7 | `s.trim() === ''` exactly when every character of `s` is whitespace |
| Helpers.IsEmptyString | lib/helpers.ts:5-7 | true exactly for strings made of whitespace only; false for every non-string |
| Helpers.InRange | lib/helpers.ts:35-37 | `value` lies in the half-open range between `min` and `max`, in either order |
| Helpers.InRangeDefault | lib/helpers.ts:35-37 | with the defaults the range is [0, 1) |
| Helpers.InRangeSymmetric | lib/helpers.ts:35-37 | swapping the bounds changes nothing |
| Helpers.EmptyStringExamples | lib/helpers.ts:5-7 | "" and "     " are empty; "keyboard cat", 99 and undefined are not |
| Helpers.InRangeExamples | lib/helpers.ts:35-37 | the range checks of the helper tests, reversed bounds included |
| Helpers.NotExamples | lib/helpers.ts:31-33 | `not` on falsy and truthy values |
| Emitter.Values | lib/index.ts:273-275 | the extra `done` arguments are passed on one for one, in order |
| Emitter.ActualLevel | lib/emitter.ts:44-52 | an event that is emitted is never named at level 0; an error at level 0 is named at level 1 |
| Emitter.ShouldEmit | lib/emitter.ts:40-42 | an error is always published; at a level other than 0 every event is; at level 0 only an error is |
| Emitter.BuildEvent | lib/emitter.ts:44-52 | the name starts with the action; at levels 0 and 1 it is the bare action; above that the action followed by the level's suffix |
| Emitter.Levels | lib/emitter.ts:54-65 | suffixes exactly for levels 1 to 4; level 1 is empty; the others start with the delimiter; level 4 is level 2's suffix followed by level 3's |
| Emitter.GetLevel | lib/emitter.ts:54-69 | the table has a suffix exactly for levels 1 to 4 |
| Emitter.Emit | lib/emitter.ts:28-42 | an event is emitted exactly when the level is not 0 or the error is truthy; a truthy error goes in front of the arguments; the name starts with the action |
| Emitter.Emission | lib/emitter.ts:28-38 | at most one event is published, exactly when `shouldEmit` holds |
| Emitter.EventNameTable | lib/emitter.ts:44-65 | the name at each level: bare, with namespace (2), with reference (3), with both (4) |
| Emitter.EmitNames | lib/emitter.ts:28-65 | every event `emit` publishes is named by one of the four forms of the levels table, picked by the level (level 1 for an error at level 0), and a truthy error is its first argument |
| Emitter.SilentAtLevelZero | lib/emitter.ts:40-42 | at level 0 nothing but errors is published |
| JobRules.NormalizeCountdown | lib/index.ts:179-182 | a countdown is at least 1; a value of at least 1 is floored; anything below 1 gives 1 |
| JobRules.NormalizeCountdownIdempotent | index.ts:270-273 | normalising a normalised countdown changes nothing |
| JobRules.NormalizeCountdownExamples | lib/index.ts:179-182 | 2.2 gives 2, -20 and 0 give 1, 30 gives 30 |
| JobRules.WaitTimeBounds | lib/index.ts:158-164 | a stopped job waits 0; a started job waits between 0 and its interval until it is due, and a negative time once overdue |
| LevelTable.ProtectLevel | index.ts:141-148 | without a namespace level 2 becomes 1 and level 3 becomes 4; otherwise the level is kept |
| LevelTable.ProtectedNamesWellFormed | index.ts:141-155 | after that demotion no event name has an empty namespace segment |
| LevelTable.NormalizeEmitLevel | index.ts:275-277 | an integer in [0, 5) is kept, anything else gives 1 |
| LevelTable.Table | index.ts:150-155 | suffixes exactly for levels 1 to 4; level 1 is empty; the others start with the delimiter; level 3 is level 2's suffix followed by level 4's |
| LevelTable.ClampEmitLevel | src/timerjobs.ts:120-122 | an integer from 0 to 4 is kept; any level other than 1 comes from an integer value |
| LevelTable.EmitLevelNormalisersAgree | src/timerjobs.ts:120-122 | the legacy clamp `0 <= x <= 4` agrees with the root setter's `inRange(x, 0, 5)` on every value |
| LevelTable.TableAgainstEmitterLevels | index.ts:150-155 | the older `LEVEL` table agrees with lib/emitter.ts on levels 1 and 2 and swaps levels 3 and 4 |
| LevelTable.TableExamples | src/timerjobs.ts:132-137 | the table the option tests inspect |
| Registry.FilterFrom | lib/index.ts:219-221 | the filter of a suffix is no longer than the suffix |
| Registry.Filter | lib/index.ts:219-221 | `filter` returns no more entries than it was given |
| Registry.FilterFromMembership | lib/index.ts:219-221 | an entry is kept exactly when the predicate accepts it at some position of the suffix |
| Registry.FilterMembership | lib/index.ts:219-221 | an entry is kept exactly when the predicate accepts it at some position |
| Registry.FilterExact | lib/index.ts:219-221 | every kept entry is accepted somewhere, and every accepted entry is kept |
| Registry.Without | lib/index.ts:234-236 | what remains holds only entries of the array that are not dropped, and every such entry |
| Registry.WithoutIdempotent | lib/index.ts:241-243 | removing the same jobs twice removes nothing more |
| Registry.FilterWithoutPartition | lib/index.ts:231-239 | the removed jobs and the remaining ones together are the registry, as a multiset |
| Registry.PartitionFrom | lib/index.ts:231-239 | the same partition for every suffix |
| Registry.IndexOf | index.ts:318 | the first position of the job, or -1 exactly when it is absent |
| Registry.RemoveFirstCount | index.ts:318-322 | `splice(indexOf(t), 1)` on a present job removes exactly one copy and nothing else; an absent job leaves the array as it was |
| Registry.RemoveEachCount | index.ts:312-324 | removing jobs one by one removes one copy per request; requests for absent jobs are ignored |
| Registry.RemoveEachPresence | index.ts:312-324 | removal never adds a job, and a job no request names keeps its place in the registry |
| Registry.Registry.constructor | lib/index.ts:36 | the registry starts empty |
| Registry.Registry.Add | lib/index.ts:67 | a job is appended at the end |
| Registry.Registry.FindTimers | lib/index.ts:219-221 | the jobs returned are exactly the ones the predicate accepts |
| Registry.Registry.RemoveTimers | lib/index.ts:231-239 | returns the accepted jobs and keeps every other job, in order |
| Registry.Registry.RemoveTimer | lib/index.ts:241-243 | every occurrence of the job goes; the rest stays in order |
| TimerJobsLib.Fresh | lib/index.ts:50-61 | a new job is stopped, idle, never started, without errors, with its countdown normalised |
| TimerJobsLib.Construct | lib/index.ts:40-68 | fails exactly when the callback is not a function, with the source's message; otherwise the job is armed and started exactly when `autoStart` is set |
| TimerJobsLib.SetCountdownStep | lib/index.ts:179-182 | the setter stores the normalised value in `_countdown` and in the options, and changes nothing else |
| TimerJobsLib.GoStep | lib/index.ts:254-264 | an admitted tick marks the job busy, counts one execution, records the time and publishes `jobBegin`; a blocked tick changes nothing |
| TimerJobsLib.StartStep | lib/index.ts:82-99 | an armed job is left alone; otherwise it is armed, marked started and timed, a spent countdown is restored, `jobStart` is published (through `shouldEmit`, so nothing at level 0), and `immediate` runs one tick after it |
| TimerJobsLib.StopStep | lib/index.ts:128-136 | the job ends disarmed with start time 0; stopping a stopped job changes nothing |
| TimerJobsLib.RestartInterval | lib/index.ts:143-146 | the new interval is adopted only if it is an integer above 1 |
| TimerJobsLib.RestartStep | lib/index.ts:143-152 | the interval is adopted by the rule of `RestartInterval` whether or not the job has started, and no other option changes (for a started job, given `Inv`: `start()` writes a spent countdown back through the setter); a job that never started is unchanged apart from its interval (and stays stopped); a started job is exactly `stop()` followed by `start()`: re-armed at `now`, a spent countdown restored from the options, `jobStop` then `jobStart` published; the error history is kept |
| TimerJobsLib.StopThenStart | lib/index.ts:147-149 | `stop()` then `start()` arms the new timer at `now`, restores a spent countdown from the options, and publishes `jobStart` right after the events `stop()` leaves; given `Inv`, the options are the old ones with only the new interval |
| TimerJobsLib.ReportStep | lib/index.ts:277-284 | a truthy error is recorded and `jobError` (error first, then the job and the error history) is published right after the events so far, even at level 0; it stops the job unless errors are ignored; a falsy error changes nothing |
| TimerJobsLib.SpendStep | lib/index.ts:286-291 | a finite job spends one run; with none left `jobComplete` is published right away and the job stops; otherwise nothing is published; an infinite job is untouched |
| TimerJobsLib.DoneStep | lib/index.ts:273-294 | `jobEnd` with the extra arguments comes first, directly followed by `jobError` for a truthy error; `jobComplete` is published, one more event on top of all the earlier ones, when the last run is spent; never re-arms; records the error and stops on it unless ignored; a finite job spends one run and stops when none is left; the job is idle after |
| TimerJobsLib.DoneEvents | lib/index.ts:277-291 | after `jobEnd`, the `jobError` of a truthy error comes directly, and once the last run is spent `jobComplete` is one more event on top of all the earlier ones |
| TimerJobsLib.CountdownRunsExactly | lib/index.ts:286-291 | a finite job with n runs left runs exactly n times and then stops |
| TimerJobsLib.TicksWhileBusy | lib/index.ts:254-264 | a non-blocking job runs on every tick; a busy blocking job runs on none |
| TimerJobsLib.StartTwice | lib/index.ts:82-83 | starting twice arms the job once |
| TimerJobsLib.RestartAfterCountdownRestores | lib/index.ts:88-90 | starting after a spent countdown restores the value last set |
| TimerJobsLib.FailedRun | lib/index.ts:277-284 | a failed run records the error and stops the job unless errors are ignored |
| TimerJobsLib.RestartNeverStarts | lib/index.ts:148-151 | a restart never starts a job that never started |
| TimerJobsLib.StartListenerStep | lib/emitter.ts:88-100 | with `startOn` set and the guard true the job is exactly what `start()` makes of it, otherwise untouched |
| TimerJobsLib.StartListenerGuardFinding | lib/emitter.ts:93 | as written the guard is never true, so a stopped job is never started; with `stopped()` it is |
| TimerJobsLib.RestartListenerStep | lib/emitter.ts:108-120 | with `restartOn` set a job that has started is exactly what `restart()` without an interval makes of it, re-armed with its interval kept; others are untouched |
| TimerJobsLib.StopListenerStep | lib/emitter.ts:122-132 | with `stopOn` set the job is exactly what `stop()` makes of it, with no timer; otherwise untouched |
| TimerJobsLib.TimerJobs.constructor | lib/index.ts:50-61 | the fields start as `Fresh` |
| TimerJobsLib.TimerJobs.Create | lib/index.ts:40-68 | throws exactly when the callback is not a function; otherwise builds the job, starts it when `autoStart` is set, and appends it to the registry |
| TimerJobsLib.TimerJobs.Emit | lib/index.ts:101-106 | appends what the emitter publishes |
| TimerJobsLib.TimerJobs.Stopped | lib/index.ts:112-114 | true exactly when no interval is armed |
| TimerJobsLib.TimerJobs.Started | lib/index.ts:120-122 | the negation of `stopped()` |
| TimerJobsLib.TimerJobs.WaitTime | lib/index.ts:158-164 | 0 when stopped, else start time plus interval minus now |
| TimerJobsLib.TimerJobs.SetCountdown | lib/index.ts:179-182 | moves the fields as `SetCountdownStep` |
| TimerJobsLib.TimerJobs.SetEmitLevel | lib/index.ts:184-186 | stores the level in the options; nothing else changes |
| TimerJobsLib.TimerJobs.SetInfinite | lib/index.ts:192-194 | stores the flag in the options; nothing else changes |
| TimerJobsLib.TimerJobs.SetInterval | lib/index.ts:200-202 | stores the interval in the options; nothing else changes |
| TimerJobsLib.TimerJobs.Go | lib/index.ts:254-264 | moves the fields as `GoStep` and keeps `Inv` |
| TimerJobsLib.TimerJobs.Start | lib/index.ts:82-99 | moves the fields as `StartStep` and keeps `Inv` |
| TimerJobsLib.TimerJobs.Stop | lib/index.ts:128-136 | moves the fields as `StopStep` and keeps `Inv` |
| TimerJobsLib.TimerJobs.Restart | lib/index.ts:143-152 | moves the fields as `RestartStep` and keeps `Inv` |
| TimerJobsLib.TimerJobs.Done | lib/index.ts:273-294 | moves the fields as `DoneStep` and keeps `Inv` |
| TimerJobsLib.TimerJobs.Report | lib/index.ts:277-284 | moves the fields as `ReportStep` |
| TimerJobsLib.TimerJobs.Spend | lib/index.ts:286-291 | moves the fields as `SpendStep` |
| TimerJobsLib.TimerJobs.OnStartEventAsWritten | lib/emitter.ts:91-99 | the start listener as written changes nothing |
| TimerJobsLib.TimerJobs.OnStartEvent | lib/emitter.ts:91-99 | the start listener guarded by `stopped()` |
| TimerJobsLib.TimerJobs.StartListener | lib/emitter.ts:91-99 | the start listener for a given guard value |
| TimerJobsLib.TimerJobs.OnRestartEvent | lib/emitter.ts:111-118 | moves the fields as `RestartListenerStep` |
| TimerJobsLib.TimerJobs.OnStopEvent | lib/emitter.ts:125-130 | moves the fields as `StopListenerStep` |
| TimerJobsLib.TimerJobs.Dispose | lib/index.ts:245-247 | removes the job from the registry and leaves its state as it was |
| TimerJobsRoot.RestartOnOption | index.ts:106-109 | a blank restart event counts as none |
| TimerJobsRoot.ParseConfig | index.ts:63-116 | the defaults: blocking unless given falsy, reference "timer", delimiter "::", the `LEVEL` table built from them |
| TimerJobsRoot.IntervalOption | index.ts:68 | an integer interval is kept, anything else gives 3000 |
| TimerJobsRoot.Emitted | index.ts:183-185 | the earlier events are kept; exactly one event is added when the emit level is not 0 and none at 0; it carries the given arguments and its name starts with the action |
| TimerJobsRoot.Fresh | index.ts:53-158 | a new job is stopped and idle, with its countdown, interval, `infinite` and protected emit level read from the options |
| TimerJobsRoot.Construct | index.ts:53-166 | fails exactly when the callback is not a function; otherwise armed and started exactly when `autoStart` is set |
| TimerJobsRoot.SetCountdownStep | index.ts:270-273 | the normalised value goes to `_countdown` and `__countdown` |
| TimerJobsRoot.SetEmitLevelStep | index.ts:275-277 | an integer in [0, 5) is stored, anything else stores 1; nothing else changes |
| TimerJobsRoot.GoStep | index.ts:332-344 | an admitted tick marks the job busy, counts one execution, records the time and publishes `jobBegin` when events are on; a blocked tick changes nothing |
| TimerJobsRoot.StartStep | index.ts:173-192 | an armed job is left alone; otherwise it is armed, timed, a spent countdown is restored from `__countdown`, `jobStart` is published when the level is not 0, and `immediate` runs one tick after it |
| TimerJobsRoot.StopStep | index.ts:214-225 | the job ends disarmed with start time 0 |
| TimerJobsRoot.RestartInterval | index.ts:232-237 | the new interval is adopted only if it is an integer of at least 1 |
| TimerJobsRoot.RestartStep | index.ts:232-243 | the interval is adopted by the rule of `RestartInterval`; a job that never started is unchanged apart from its interval; a started job is exactly `stop()` followed by `start()`: re-armed at `now`, a spent countdown restored from `countdownOriginal`, `jobStop` then `jobStart` published (when events are on); the error history is kept |
| TimerJobsRoot.ReportStep | index.ts:359-374 | a truthy error is recorded and `jobError` with the error, the job and the error history is published right after the events so far, even at level 0; it stops the job unless ignored |
| TimerJobsRoot.SpendStep | index.ts:376-384 | a finite job spends one run; with none left `jobComplete` is published when events are on and the job stops; otherwise nothing is published |
| TimerJobsRoot.DoneStep | index.ts:353-387 | `jobEnd` (when events are on) comes first, directly followed by `jobError` for a truthy error; `jobComplete` is published, one more event on top of all the earlier ones, when the last run is spent and events are on; never re-arms; spends a run unless infinite; the job is idle after |
| TimerJobsRoot.DoneErrorEvents | index.ts:359-370 | after `jobEnd`, the `jobError` of a truthy error comes directly |
| TimerJobsRoot.DoneCompleteEvent | index.ts:376-381 | with events on, once the last run is spent `jobComplete` is one more event on top of all the earlier ones |
| TimerJobsRoot.StopListenerStep | index.ts:396-405 | with `stopOn` set the job is exactly what `stop()` makes of it, with no timer; otherwise untouched |
| TimerJobsRoot.StartListenerStep | index.ts:411-421 | with `startOn` set a stopped job is exactly what `start()` makes of it, armed with the new timer; a running job is untouched |
| TimerJobsRoot.RestartListenerStep | index.ts:427-435 | with `restartOn` set a job that has started is exactly what `restart()` without an interval makes of it, armed with the new timer and its interval kept; others are untouched |
| TimerJobsRoot.CountdownRunsExactly | index.ts:376-384 | a finite job with n runs left runs exactly n times and then stops |
| TimerJobsRoot.RestartAfterCountdownRestores | index.ts:177-180 | starting after a spent countdown restores the value last set |
| TimerJobsRoot.ErrorPublishedAtLevelZero | index.ts:363-369 | at level 0 an error is still published, as `jobError` |
| TimerJobsRoot.ParseConfigExamples | index.ts:63-116 | the defaults for `{}`, and a blank `restartOn` is none |
| TimerJobsRoot.MatchingMembership | index.ts:289-302 | a job is found exactly when it is registered and its property is strictly equal to the value |
| TimerJobsRoot.Matching | index.ts:289-302 | at most as many jobs as are registered, each registered and with the property strictly equal to the value |
| TimerJobsRoot.TimerJobs.constructor | index.ts:63-158 | the fields start as `Fresh` |
| TimerJobsRoot.TimerJobs.Create | index.ts:53-166 | throws exactly when the callback is not a function; otherwise builds, maybe starts, and registers the job |
| TimerJobsRoot.TimerJobs.Emit | index.ts:183-185 | appends the event when the emit level is not 0 |
| TimerJobsRoot.TimerJobs.Stopped | index.ts:198-200 | true exactly when no interval is armed |
| TimerJobsRoot.TimerJobs.Started | index.ts:206-208 | the negation of `stopped()` |
| TimerJobsRoot.TimerJobs.WaitTime | index.ts:249-255 | 0 when stopped, else start time plus interval minus now |
| TimerJobsRoot.TimerJobs.SetCountdown | index.ts:270-273 | moves the fields as `SetCountdownStep` |
| TimerJobsRoot.TimerJobs.SetEmitLevel | index.ts:275-277 | moves the fields as `SetEmitLevelStep` |
| TimerJobsRoot.TimerJobs.Go | index.ts:332-344 | moves the fields as `GoStep` and keeps `Inv` |
| TimerJobsRoot.TimerJobs.Start | index.ts:173-192 | moves the fields as `StartStep` and keeps `Inv` |
| TimerJobsRoot.TimerJobs.Stop | index.ts:214-225 | moves the fields as `StopStep` and keeps `Inv` |
| TimerJobsRoot.TimerJobs.Restart | index.ts:232-243 | moves the fields as `RestartStep` and keeps `Inv` |
| TimerJobsRoot.TimerJobs.Done | index.ts:353-387 | moves the fields as `DoneStep` and keeps `Inv` |
| TimerJobsRoot.TimerJobs.Report | index.ts:359-374 | moves the fields as `ReportStep` |
| TimerJobsRoot.TimerJobs.Spend | index.ts:376-384 | moves the fields as `SpendStep` |
| TimerJobsRoot.TimerJobs.OnStopEvent | index.ts:396-405 | moves the fields as `StopListenerStep` |
| TimerJobsRoot.TimerJobs.OnStartEvent | index.ts:411-421 | moves the fields as `StartListenerStep` |
| TimerJobsRoot.TimerJobs.OnRestartEvent | index.ts:427-435 | moves the fields as `RestartListenerStep` |
| TimerJobsRoot.TimerJobs.Get | index.ts:296 | `timer[property]`: the counters read back as the integers held; `busy` and the switches as booleans; the names as strings; an event option as `null` or a string |
| TimerJobsRoot.Registry.constructor | index.ts:47 | the registry starts empty |
| TimerJobsRoot.Registry.Add | index.ts:165 | a job is appended at the end |
| TimerJobsRoot.Registry.FindTimers | index.ts:289-302 | the loop returns exactly the registered jobs whose property is strictly equal to the value, in order |
| TimerJobsRoot.Registry.RemoveOne | index.ts:315-320 | the first occurrence is spliced out, and the job is stopped if asked and registered |
| TimerJobsRoot.Registry.RemoveTimers | index.ts:312-325 | removes one copy per given job; stops exactly the given jobs that were registered when `stop` is set; leaves other jobs' state unchanged |
| TimerJobsLegacy.OrIfBlank | src/timerjobs.ts:80-95 | a blank string option falls back to its default |
| TimerJobsLegacy.ParseConfig | src/timerjobs.ts:60-137 | `blocking` and `infinite` default to true and otherwise keep the value given; blank strings take their defaults; the emit level is clamped and protected |
| TimerJobsLegacy.Emitted | src/timerjobs.ts:194-195 | the earlier events are kept; exactly one event is added when the emit level is not 0 and none at 0; it carries the given arguments and its name starts with the action |
| TimerJobsLegacy.Fresh | src/timerjobs.ts:60-140 | a new job is stopped and idle, with its countdown normalised |
| TimerJobsLegacy.Construct | src/timerjobs.ts:49-148 | fails exactly when the callback is not a function; otherwise armed exactly when `autoStart` is set |
| TimerJobsLegacy.SetCountdownStep | src/timerjobs.ts:386-394 | a non-integer is refused with the source's message; an integer below 1 gives exactly 1; both countdown fields get it |
| TimerJobsLegacy.RestoreThroughSetter | src/timerjobs.ts:158-159 | restoring `__countdown` through the setter succeeds and stores it unchanged |
| TimerJobsLegacy.StartEmissionAsWritten | src/timerjobs.ts:163 | `jobStart` is published whatever the emit level |
| TimerJobsLegacy.StartEmission | src/timerjobs.ts:163 | `jobStart` guarded like the other events: nothing at level 0 |
| TimerJobsLegacy.StartEmissionAtLevelZero | src/timerjobs.ts:163 | at level 0 the start as written publishes "jobStartundefined", while stop and begin publish nothing |
| TimerJobsLegacy.BeginStep | src/timerjobs.ts:259-270 | an admitted tick marks the job busy, publishes `jobBegin` when events are on and counts one execution |
| TimerJobsLegacy.GoStep | src/timerjobs.ts:257-273 | every tick records the time; only an admitted one begins a run |
| TimerJobsLegacy.StartStep | src/timerjobs.ts:154-168 | an armed job is left alone; otherwise it is armed, timed, a spent countdown is restored, `jobStart` is published as `StartEmission` does (not at level 0; see "Left out"), and `immediate` runs one tick after it |
| TimerJobsLegacy.StopStep | src/timerjobs.ts:190-200 | the job ends disarmed with start time 0 |
| TimerJobsLegacy.ReportStep | src/timerjobs.ts:290-303 | a truthy error is recorded and `jobError` with the error list is published right after the events so far, even at level 0; it stops the job unless ignored |
| TimerJobsLegacy.SpendStep | src/timerjobs.ts:305-312 | unless `infinite` is truthy the job spends one run; with none left `jobComplete` is published when events are on and the job stops; otherwise nothing is published |
| TimerJobsLegacy.DoneStep | src/timerjobs.ts:282-315 | `jobEnd` with the extra arguments (when events are on) comes first, directly followed by `jobError` for a truthy error; `jobComplete` is published, one more event on top of all the earlier ones, when the last run is spent and events are on; never re-arms; a job it stops waits 0 |
| TimerJobsLegacy.DoneErrorEvents | src/timerjobs.ts:290-299 | after `jobEnd`, the `jobError` of a truthy error comes directly |
| TimerJobsLegacy.DoneCompleteEvent | src/timerjobs.ts:305-309 | with events on, once the last run is spent `jobComplete` is one more event on top of all the earlier ones |
| TimerJobsLegacy.GoSyncAsWritten | src/timerjobs.ts:257-273 | with a callback that calls `done` at once, the start time is recorded after it, even on a job that run stopped |
| TimerJobsLegacy.GoSync | src/timerjobs.ts:257-273 | with the time recorded before the callback, a job its own run stops waits 0 |
| TimerJobsLegacy.SyncFinishKeepsWait | src/timerjobs.ts:272 | a last synchronous run leaves a stopped job with a nonzero start time as written, and 0 corrected |
| TimerJobsLegacy.StopListenerStep | src/timerjobs.ts:327-335 | with `stopOn` set the job is exactly what `stop()` makes of it, with no timer; otherwise untouched |
| TimerJobsLegacy.StartListenerStep | src/timerjobs.ts:342-351 | with `startOn` set a stopped job is exactly what `start()` makes of it, armed with the new timer; a running job is untouched |
| TimerJobsLegacy.RestartListenerStep | src/timerjobs.ts:357-366 | with `restartOn` set a stopped job is exactly what `start()` makes of it, armed with the new timer; a running one is untouched |
| TimerJobsLegacy.RestartListenerIsStartListener | src/timerjobs.ts:342-366 | the restart listener behaves exactly like the start listener |
| TimerJobsLegacy.CountdownRunsExactly | src/timerjobs.ts:257-315 | with the callback finishing after `go()` returns (`DoneStep` after `GoStep`), a finite job with n runs left runs exactly n times, then stops and waits 0 |
| TimerJobsLegacy.ErrorPublishedAtLevelZero | src/timerjobs.ts:294-299 | at level 0 an error is still published, as `jobError` |
| TimerJobsLegacy.ParseConfigExamples | src/timerjobs.ts:60-137 | the defaults for `{}`, and blank strings count as absent |
| TimerJobsLegacy.MatchingMembership | src/timerjobs.ts:219-228 | a job is found exactly when it is registered and its property is strictly equal to the value |
| TimerJobsLegacy.Matching | src/timerjobs.ts:219-228 | at most as many jobs as are registered, each registered and with the property strictly equal to the value |
| TimerJobsLegacy.TimerJobs.constructor | src/timerjobs.ts:60-140 | the fields start as `Fresh` |
| TimerJobsLegacy.TimerJobs.Create | src/timerjobs.ts:49-148 | throws exactly when the callback is not a function; otherwise builds, maybe starts, and registers the job |
| TimerJobsLegacy.TimerJobs.Emit | src/timerjobs.ts:194-195 | appends the event when the emit level is not 0 |
| TimerJobsLegacy.TimerJobs.Stopped | src/timerjobs.ts:174-176 | true exactly when no interval is armed |
| TimerJobsLegacy.TimerJobs.Started | src/timerjobs.ts:182-184 | the negation of `stopped()` |
| TimerJobsLegacy.TimerJobs.WaitTime | src/timerjobs.ts:206-211 | 0 when stopped, else start time plus interval minus now |
| TimerJobsLegacy.TimerJobs.SetCountdown | src/timerjobs.ts:386-394 | reports the error and changes nothing on a non-integer; otherwise moves the fields as `SetCountdownStep` |
| TimerJobsLegacy.TimerJobs.Go | src/timerjobs.ts:257-273 | moves the fields as `GoStep` and keeps `Inv` |
| TimerJobsLegacy.TimerJobs.Start | src/timerjobs.ts:154-168 | moves the fields as `StartStep` and keeps `Inv` |
| TimerJobsLegacy.TimerJobs.Stop | src/timerjobs.ts:190-200 | moves the fields as `StopStep` and keeps `Inv` |
| TimerJobsLegacy.TimerJobs.Done | src/timerjobs.ts:282-315 | moves the fields as `DoneStep` and keeps `Inv` |
| TimerJobsLegacy.TimerJobs.Report | src/timerjobs.ts:290-303 | moves the fields as `ReportStep` |
| TimerJobsLegacy.TimerJobs.Spend | src/timerjobs.ts:305-312 | moves the fields as `SpendStep` |
| TimerJobsLegacy.TimerJobs.OnStopEvent | src/timerjobs.ts:327-335 | moves the fields as `StopListenerStep` |
| TimerJobsLegacy.TimerJobs.OnStartEvent | src/timerjobs.ts:342-351 | moves the fields as `StartListenerStep` |
| TimerJobsLegacy.TimerJobs.OnRestartEvent | src/timerjobs.ts:357-366 | moves the fields as `RestartListenerStep` |
| TimerJobsLegacy.TimerJobs.Get | src/timerjobs.ts:223 | `timer[ property ]`: the counters read back as the integers held; `autoStart`, `busy`, `ignoreErrors` and `immediate` as booleans (`blocking` and `infinite` keep the raw option); the names as strings; an event option as `null` or a string |
| TimerJobsLegacy.Registry.constructor | src/timerjobs.ts:44 | the registry starts empty |
| TimerJobsLegacy.Registry.Add | src/timerjobs.ts:147 | a job is appended at the end |
| TimerJobsLegacy.Registry.FindTimers | src/timerjobs.ts:219-228 | the loop returns exactly the registered jobs whose property is strictly equal to the value, in order |
| TimerJobsLegacy.Registry.RemoveOne | src/timerjobs.ts:243-248 | the first occurrence is spliced out, and the job is stopped if asked and registered |
| TimerJobsLegacy.Registry.RemoveTimers | src/timerjobs.ts:238-250 | removes one copy per given job; stops exactly the given jobs that were registered when `stop` is set |

## Left out

- The event bus (EventEmitter2) is left out: wildcard matching, listener order, and delivery of events to listeners. An emission is the event appended to `emitted`. The listeners a job installs are the entry points `OnStartEvent`, `OnStopEvent` and `OnRestartEvent`.
- A caller-supplied emitter and the static default emitter (`TimerJobs.emitter`, `Emitter.emitter`) are left out. Which bus is used does not change what a job publishes.
- Real timers and the clock are parameters. `setInterval` is the `handle` parameter, and `Date.now()` is `now`, a positive integer. `clearInterval` is the `timer` field becoming `None`. Every handle counts as truthy.
- The user callback appears as the entry points `Go` (a tick) and `Done` (its call to `done`). The `startCallback`, `stopCallback` and `restartCallback` options are not modelled, nor is the `context` they are applied to.
- The merge of lib/options.ts is not part of this model: `TimerJobsLib` takes its options already merged.
- `isObject` (the argument swap in the lib constructor) is not part of this model. The swapping of `options` and `callback` in the older constructors is also left out: `Construct` takes both separately.
- Countdown option values that are not finite numbers are left out, and so are string options that are not strings. `RawOptions` types them as `real` and `string`.
- Assigning public fields directly (`job.blocking = …` and the like) is left out. Only the setters the classes declare are modelled.
- The fluent builder (test/sugar.spec.ts) and the typings are left out.
- Numbers are exact: there is no floating-point rounding, and the integers are unbounded. Timestamps and counters stay far below 2^53, so this does not change any result.
- `findTimers` in the older variants covers the public option and state properties listed in `JobProperties.Property`. The `timer` handle, the callbacks and the methods are not matched on.
- `removeTimers` with a single job is the call with a one-element sequence. The default `stop = true` is left to the caller.
- TimerJobsLib.TimerJobs.SetEmitLevel: the setter takes an `EmitLevel` (0 to 4), not an arbitrary value as the untyped setter would accept.
- TimerJobsLegacy.StartStep: publishes `jobStart` through the guarded `StartEmission`, so at level 0 it publishes nothing, where src/timerjobs.ts:163 publishes "jobStartundefined" (the second finding below; `StartEmissionAsWritten` models the code as written). The same holds for `TimerJobsLegacy.TimerJobs.Start`.

Places where the code was followed rather than the prose description:

- lib/index.ts `dispose()` removes the job from the registry but does not stop it.
- lib/index.ts `restart(interval)` adopts the new interval only above 1. index.ts adopts it at 1 or more.
- lib/index.ts `start()` restores a spent countdown whether or not the job is infinite.

## Findings

| source | as written | input that shows it | evidently intended | confidence | as-written member | corrected member |
|---|---|---|---|---|---|---|
| lib/emitter.ts:93 | the start listener tests `this.timer.isStopped`, a property lib/index.ts never defines, so the guard is always `undefined` | a stopped job with `startOn: 'go'`; the event `go` fires | the listener starts a stopped job, as its note says and as index.ts does with `stopped()` | high, not executed | TimerJobsLib.TimerJobs.OnStartEventAsWritten | TimerJobsLib.TimerJobs.OnStartEvent |
| src/timerjobs.ts:163 | `start()` publishes `'jobStart' + LEVEL[emitLevel]` without the `if (this.emitLevel)` guard every other event has | `emitLevel: 0`, then `start()`: the event "jobStartundefined" is published | nothing is published at level 0, as index.ts:183-185 does | high, not executed | TimerJobsLegacy.StartEmissionAsWritten | TimerJobsLegacy.StartEmission |
| src/timerjobs.ts:272 | `go()` records `start_wait` after the callback has run, so a callback that calls `done` synchronously and finishes the job leaves `start_wait` set after `stop()` cleared it | `infinite: false, countdown: 1`, a callback calling `done()` at once: after the run the job is stopped but `waitTime()` is not 0 | a stopped job waits 0, as `stop()` intends; lib/index.ts:261 and index.ts:341 record the time before the callback | medium, not executed | TimerJobsLegacy.GoSyncAsWritten | TimerJobsLegacy.GoSync |
