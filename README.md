# Workout action runtime, modelled in Dafny

This project models the runtime that executes a workout program. It has three parts:

- The **execution context** holds the mutable state of one run:
  - a cancel flag that only ever becomes true;
  - a pause flag;
  - the current exercise, set and repetition markers;
  - three accumulators fed by progress deltas: overall progress, progress since the current exercise last changed, and the skip-ahead budget left over from a resume offset.
- **Sequence actions** run their children, in order, against one context. A child that the remaining skip-ahead covers is fast-forwarded. The sequence stops with a cancellation failure once the context is cancelled.
- **Prepare actions** are waits-with-prompt whose prompt is always "prepare".

Durations are TimeSpan ticks, represented as `int` (1 s = 10 000 000 ticks).

The files:

- `execution_context.dfy`, module `Context`:
  - `State` is a value snapshot of every field of the context; `Step` applies one operation (`Command`) to it and `Run` applies a whole history of them.
  - The C# context's reactive pipelines compute their published values as folds over the stream of operations. The lemmas here state what those folds give over whole histories.
  - The class `ExecutionContext` has the real fields and one method per operation. Each method overwrites its fields. Its invariant `Valid()` says that the fields equal `Run` applied to the initial state and to the ghost `history` of operations so far.
  - `WaitWhilePaused` is a function over the operations that follow the subscription. It returns the point at which the wait completes, or `None` if it never does.
- `actions.dfy`, module `Actions`:
  - the `Action` tree, its `Duration`, and `Exec`, the specification of execution;
  - the methods `Execute` and `ExecuteSequence`, which run an action against a live `ExecutionContext` and are proved to agree with `Exec`;
  - general lemmas about sequences.
- `prepare_action.dfy`, module `PrepareActions`: the prepare action's constructor and its delegation to the inner wait.
- `sequence_scenarios.dfy`, module `SequenceScenarios`: the concrete situations of the sequence action's unit tests, derived from the general lemmas.

Modelling decisions:

- **Skip-ahead clamp.** The context clamps the skip-ahead it publishes at zero, but the accumulator underneath is not clamped. `State` therefore carries both `skipAhead` and `skipAheadRunning`. A clamp after every delta would give a different answer when a delta is negative: see `ClampAppliesToOutput`.
- **Waiting after cancellation.** After a cancellation the filter `!cancel && !paused` never passes, so the wait never completes: see `CancelledNeverResumes`.
- **Sequence execution.** The sequence action's own source is not part of this model. Its behaviour is taken from its unit tests:
  - A child is skipped iff `skipAhead > 0 && skipAhead >= Duration(child)`. Without the `> 0` bound, the zero-duration children of the unit tests would be skipped in a fresh context.
  - A skipped child's duration is reported to the context as one progress delta.
  - Cancellation is checked before every child and after the last one. A child that fails with cancellation stops the sequence at once.
- **Leaves.** A `Leaf` is an action that reports no progress, like the unit tests' mocks. Running it records its id. If its `cancels` flag is set, it also cancels the context. It completes normally either way, as the test doubles do.
- **Waits with prompt.** Running a wait-with-prompt records one `Prompted` step with its prompt text and leaves the context alone.
- **Exercises** are compared by identity. The model names them by a `nat` id, and "no exercise" is `None`.
- **Prepare actions.** A prepare action is an immutable value holding its inner action. Its prompt is fixed by the subset type `PrepareInner`. So it has no per-run state, and running it against fresh contexts built alike gives the same result.

## Model

| member | source | states |
|---|---|---|
| `Context.Clamp` | Src/WorkoutWotch.Models/ExecutionContext.cs:56 | the published skip-ahead is never negative and is either the running value or zero |
| `Context.Step` | Src/WorkoutWotch.Models/ExecutionContext.cs:39-129 | field by field: cancel only sets the cancel flag, the pause setter only the pause flag, each position setter only its own marker, a delta feeds progress and per-exercise progress and drains the skip-ahead accumulator, a change of exercise restarts per-exercise progress, and the published skip-ahead stays the clamp of the accumulator |
| `Context.WaitWhilePaused` | Src/WorkoutWotch.Models/ExecutionContext.cs:109-114 | the wait completes at the first point after subscription where the context is neither paused nor cancelled, and never if no such point comes |
| `Context.CancelIdempotent` | Src/WorkoutWotch.Models/ExecutionContext.cs:116-117 | cancelling sets the flag, and cancelling twice is the same as cancelling once |
| `Context.CancelIsPermanent` | Src/WorkoutWotch.Models/ExecutionContext.cs:28-37 | once cancelled, the context stays cancelled whatever operations follow |
| `Context.CancelledIffCancelIssued` | Src/WorkoutWotch.Models/ExecutionContext.cs:28-37 | after a history, the context is cancelled iff it was cancelled before it or the history contains a cancel |
| `Context.CancelledNeverResumes` | Src/WorkoutWotch.Models/ExecutionContext.cs:109-114 | once cancelled, `WaitWhilePaused` never completes, even if the pause is lifted |
| `Context.ResumableCompletesAtOnce` | Src/WorkoutWotch.Models/ExecutionContext.cs:109-114 | in a context that is neither paused nor cancelled, the wait completes at once |
| `Context.CompletesWhenUnpaused` | Src/WorkoutWotch.Models/ExecutionContext.cs:109-114 | in a paused, uncancelled context, the wait completes right after the pause is cleared and not before |
| `Context.ControlUnchanged` | Src/WorkoutWotch.Models/ExecutionContext.cs:119-129 | progress and position operations leave the pause and cancel flags unchanged |
| `Context.ProgressIsSumOfDeltas` | Src/WorkoutWotch.Models/ExecutionContext.cs:39-43 | progress grows by exactly the sum of the deltas reported |
| `Context.FreshProgressIsSum` | Src/WorkoutWotch.Models/ExecutionContext.cs:39-43 | from construction, progress starts at zero and equals the sum of every delta reported |
| `Context.ProgressNeverDecreases` | Src/WorkoutWotch.Models/ExecutionContext.cs:39-43 | with non-negative deltas, progress never decreases |
| `Context.SkipAheadRunningIsRemainder` | Src/WorkoutWotch.Models/ExecutionContext.cs:52-58 | the skip-ahead accumulator loses exactly the deltas reported, and the published value stays its clamp |
| `Context.FreshSkipAheadIsClampedRemainder` | Src/WorkoutWotch.Models/ExecutionContext.cs:52-58 | skip-ahead starts at `max(0, offset)` and equals `max(0, offset - sum of deltas)` |
| `Context.SkipAheadNeverIncreases` | Src/WorkoutWotch.Models/ExecutionContext.cs:52-58 | with non-negative deltas, skip-ahead is never negative and never grows |
| `Context.ClampAppliesToOutput` | Src/WorkoutWotch.Models/ExecutionContext.cs:54-56 | for offset 5 and deltas 10 and -8, skip-ahead is 3, where clamping the running difference would give 8 |
| `Context.ExerciseProgressAccumulates` | Src/WorkoutWotch.Models/ExecutionContext.cs:45-50 | while the exercise does not change, per-exercise progress sums the deltas reported |
| `Context.ExerciseChangeRestartsProgress` | Src/WorkoutWotch.Models/ExecutionContext.cs:45-50 | after a change of exercise, per-exercise progress is the sum of the deltas reported since that change |
| `Context.SameExerciseKeepsProgress` | Src/WorkoutWotch.Models/ExecutionContext.cs:73-77 | setting the exercise that is already current changes nothing, so per-exercise progress is not reset |
| `Context.ExecutionContext.constructor` | Src/WorkoutWotch.Models/ExecutionContext.cs:25-58 | a fresh context is not cancelled or paused, has zero progress, and has skip-ahead `max(0, offset)`; the offset defaults to zero |
| `Context.ExecutionContext.Cancel` | Src/WorkoutWotch.Models/ExecutionContext.cs:116-117 | sets the cancel flag and changes nothing else |
| `Context.ExecutionContext.SetPaused` | Src/WorkoutWotch.Models/ExecutionContext.cs:67-71 | sets the pause flag and changes nothing else |
| `Context.ExecutionContext.AddProgress` | Src/WorkoutWotch.Models/ExecutionContext.cs:119-120 | adds the delta to progress and to per-exercise progress, subtracts it from the skip-ahead accumulator, and publishes the clamp; flags and position are unchanged |
| `Context.ExecutionContext.SetCurrentExercise` | Src/WorkoutWotch.Models/ExecutionContext.cs:122-123 | sets the exercise; per-exercise progress resets to zero iff the exercise changed |
| `Context.ExecutionContext.SetCurrentSet` | Src/WorkoutWotch.Models/ExecutionContext.cs:125-126 | sets the current set and changes nothing else |
| `Context.ExecutionContext.SetCurrentRepetition` | Src/WorkoutWotch.Models/ExecutionContext.cs:128-129 | sets the current repetition and changes nothing else |
| `Actions.Execute` | Src/WorkoutWotch.UnitTests/Models/Actions/SequenceActionFixture.cs:54-238 | running an action on a live context gives exactly the new context state, outcome and step trace of `Exec` |
| `Actions.ExecuteSequence` | Src/WorkoutWotch.UnitTests/Models/Actions/SequenceActionFixture.cs:54-252 | the loop over the children agrees with `Exec`: skip, run, or stop on cancellation, child by child |
| `Actions.Duration` | Src/WorkoutWotch.UnitTests/Models/Actions/SequenceActionFixture.cs:17-51 | a sequence lasts the sum of its children's durations |
| `Actions.DurationFrom` | Src/WorkoutWotch.UnitTests/Models/Actions/SequenceActionFixture.cs:26-51 | the children from index i on last the sum of their durations |
| `Actions.DurationIsSumOfChildren` | Src/WorkoutWotch.UnitTests/Models/Actions/SequenceActionFixture.cs:17-51 | a sequence's duration is the sum of its children's durations, and zero with no children |
| `Actions.DurationAppend` | Src/WorkoutWotch.UnitTests/Models/Actions/SequenceActionFixture.cs:26-51 | splitting a sequence's children splits its duration |
| `Actions.Exec` | Src/WorkoutWotch.UnitTests/Models/Actions/SequenceActionFixture.cs:206-238 | execution never clears the cancel flag, an action fails with cancellation only in a context that ends cancelled, and a sequence fails with cancellation iff the context ends cancelled |
| `Actions.ExecFrom` | Src/WorkoutWotch.UnitTests/Models/Actions/SequenceActionFixture.cs:54-252 | running the children from any index on never clears the cancel flag and fails with cancellation iff the context ends cancelled |
| `Actions.Skips` | Src/WorkoutWotch.UnitTests/Models/Actions/SequenceActionFixture.cs:119-203 | a child is only skipped while skip-ahead is left, and reporting a skipped child's duration lowers the published skip-ahead by exactly that duration, with no clamping |
| `Actions.CancelledSequenceRunsNothing` | Src/WorkoutWotch.UnitTests/Models/Actions/SequenceActionFixture.cs:206-238 | a sequence started in a cancelled context runs no child and fails |
| `Actions.PauseIsIgnored` | Src/WorkoutWotch.UnitTests/Models/Actions/SequenceActionFixture.cs:162-203 | the pause flag changes nothing a sequence decides, so children are skipped and run alike when paused |
| `Actions.SkipReportsDuration` | Src/WorkoutWotch.UnitTests/Models/Actions/SequenceActionFixture.cs:119-159 | a skipped child runs nothing, its duration is reported as progress, and skip-ahead drops by exactly that duration |
| `Actions.QuietLeavesRunOnceInOrder` | Src/WorkoutWotch.UnitTests/Models/Actions/SequenceActionFixture.cs:54-116 | with nothing skipped or cancelled, child j is the j-th step of the trace and there are as many steps as children, so each runs exactly once, in order, whatever its duration |
| `Actions.CancellingChildStopsSequence` | Src/WorkoutWotch.UnitTests/Models/Actions/SequenceActionFixture.cs:206-238 | when child k cancels, children 0..k have each run once in order, no later child runs, and the sequence fails with cancellation |
| `PrepareActions.NewPrepare` | Src/WorkoutWotch.Models/Actions/PrepareAction.cs:12-17 | the constructor wraps an inner wait with prompt "prepare", and the prepare action's duration is the duration given |
| `PrepareActions.PrepareDelegates` | Src/WorkoutWotch.Models/Actions/PrepareAction.cs:17-22 | duration and execution are those of the inner wait-with-prompt on the same context |
| `PrepareActions.PrepareSpeaksPrepare` | Src/WorkoutWotch.Models/Actions/PrepareAction.cs:14-22 | the recorded step is one prompt "prepare" |
| `PrepareActions.SkippedPrepareIsSilent` | Src/WorkoutWotch.Models/Actions/PrepareAction.cs:19-22 | a prepare action that the skip-ahead covers is never run (and so does not speak), and its duration is deducted |
| `SequenceScenarios.EmptySequence` | Src/WorkoutWotch.UnitTests/Models/Actions/SequenceActionFixture.cs:241-252 | an empty sequence lasts zero and completes at once in a fresh context |
| `SequenceScenarios.DurationOfThreeChildren` | Src/WorkoutWotch.UnitTests/Models/Actions/SequenceActionFixture.cs:26-51 | 10 s + 1 s + 7 s gives 18 s |
| `SequenceScenarios.EachChildRunsOnce` | Src/WorkoutWotch.UnitTests/Models/Actions/SequenceActionFixture.cs:54-81 | three zero-duration children in a fresh context each run exactly once |
| `SequenceScenarios.ChildrenRunInOrder` | Src/WorkoutWotch.UnitTests/Models/Actions/SequenceActionFixture.cs:84-116 | ten children numbered 1..10 run in the order 1..10 |
| `SequenceScenarios.SkipsChildrenCoveredBySkipAhead` | Src/WorkoutWotch.UnitTests/Models/Actions/SequenceActionFixture.cs:119-203 | with an 11 s offset and children of 3 s, 8 s and 2 s, only the third runs, once, paused or not |
| `SequenceScenarios.CancellationStopsTheSequence` | Src/WorkoutWotch.UnitTests/Models/Actions/SequenceActionFixture.cs:206-238 | the second of three children cancels: the first two have run, the third has not, and the result is a cancellation failure |

## Left out

- Reactive plumbing is not modelled. This covers the subjects, the `Scan`/`Switch`/`CombineLatest` pipelines, change notifications and disposal. The model keeps the values those pipelines publish, as plain fields.
- `WaitWhilePaused` is not modelled as an observable. It is a function over the operations that follow the subscription.
- Concurrency, asynchronous completion and threading are not modelled. The runtime is modelled as one sequential flow.
- Exceptions are not modelled as such. Cancellation is the `Cancelled` outcome. Failures of the delay or speech service are not modelled.
- The delay and speech services, timers, and the internals of wait and wait-with-prompt actions are not part of this model. In particular, waits do not report their own progress and do not wait while paused.
- The exercise, set and repetition wrapper actions and the exercise program are not part of this model. So nothing here calls the position setters during execution.
- TimeSpan overflow is not modelled, because durations are unbounded integers.
- PrepareActions.PrepareSpeaksPrepare: the prompt step is all the model records. A real wait-with-prompt also skips ahead by itself, reports its progress and fails on cancellation; none of that is modelled, because the wait and speech internals are not part of this model.
- Actions.Exec: a wait-with-prompt run on its own (outside a sequence, or not skipped by one) records one prompt and leaves the context alone. It does not take its own skip-ahead shortcut, does not report progress and does not fail on cancellation.
- The exercise view model, the parser and the test builders are not part of this model.
