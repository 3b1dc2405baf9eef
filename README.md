# Molecule, modelled in Dafny

Molecule builds a `StateFlow` or `Flow` from a Jetpack Compose function.
A Compose `Recomposer` recomposes the function whenever the snapshot state it
reads changes, and every composition hands its value to an emitter. This
project models the scheduling and emission layer that Molecule wraps around
the Recomposer, and proves properties of that model. The repository holds two
generations of that layer, and each source file is modelled as written, with
no merging:

- the gated frame clock (`gated_clock.dfy` for the current one, with its
  conflated request mailbox and timestamp tie-break; `legacy_gated_clock.dfy`
  for the earlier one);
- the runtimes:
  - `runtime.dfy`: `moleculeFlow` in its two recomposition modes, the
    immediate-clock flow's capacity-1 buffer and clock gating, and
    `launchMolecule`;
  - `legacy_runtime.dfy`: the earlier common runtime;
  - `jvm_runtime.dfy`: the earlier JVM runtime, with conflated global-write
    forwarding;
  - `action_flow.dfy`: the first `moleculeFlow` over `Emit`/`Skip` actions;
- the latest-value cell and the `channelFlow` emitter the runtimes share
  (`cells.dfy`), and the session bookkeeping (`compose.dfy`): the
  `applyScheduled` write debounce and the disposal on completion;
- the test harnesses:
  - `turbine.dfy`: the `Event` queue, the exception handler and
    `TickOnDemandMoleculeTurbine`;
  - `testing.dfy`: `testMolecule`, with its drain of errors into suppressed
    exceptions;
  - `legacy_testing.dfy`: `launchMoleculeForTest`;
- the Gradle plugins (`gradle_plugin.dfy`: the compiler-coordinate parser and
  the dependency wiring; `legacy_gradle_plugin.dfy`: the version-substitution
  rule);
- the samples (`counter.dfy`, `pupper_pics.dfy`, `breeds.dfy`).

`kotlin.dfy` holds the Kotlin and JVM building blocks everything is written
in:

- nullable values and thrown exceptions;
- the 32-bit `Int` and its wrap-around;
- `Throwable` with its suppressed list;
- bounded channels.

Coroutines are modelled as discrete steps that a caller invokes in the order
the scheduler would choose. Three kinds of input become parameters:

- external time (`nanoTime()`, `TimeSource.Monotonic`);
- what each composition emits;
- what the services and the validation lambda return or throw.

Stateful pieces are classes whose methods are specified by pure state
functions, and the properties are proved as lemmas about those functions.

## Model

| member | source | states |
|---|---|---|
| Kotlin.Wrap | sample/src/main/java/com/example/molecule/presenter.kt:50 | the result is an `Int` congruent to the exact sum modulo 2^32, and equal to it when it fits: the JVM wrap-around of `count += delta` and `fetchId++` |
| Kotlin.WrapAdd | sample/src/main/java/com/example/molecule/presenter.kt:50 | wrapping an intermediate sum does not change the final wrapped sum, so a run of `+=` equals one wrapped total |
| Kotlin.WrapSuccDiffers | sample-viewmodel/src/main/java/com/example/molecule/viewmodel/presentationLogic.kt:82 | `x + 1` wrapped into `Int` always differs from `x`, the overflow from `Int.MAX_VALUE` to `Int.MIN_VALUE` included |
| Kotlin.Throwable.AddSuppressed | molecule/molecule-testing/src/main/kotlin/app/cash/molecule/testing/moleculeTesting.kt:101 | a throwable other than the receiver is appended to its suppressed list; the receiver itself is ignored |
| Kotlin.Channel.TrySendOrThrow | molecule-runtime/src/commonMain/kotlin/app/cash/molecule/molecule.kt:89 | `trySend(v).getOrThrow()` on a bounded channel: appends `v` iff the buffer has room, and otherwise leaves the buffer unchanged and raises a fresh `IllegalStateException` |
| Kotlin.Channel.TryReceive | molecule-runtime/src/commonMain/kotlin/app/cash/molecule/molecule.kt:96 | an empty channel yields nothing and is unchanged; otherwise the head is taken, first in first out |
| Compose.BroadcastFrameClock.AddAwaiter | molecule-runtime/src/commonMain/kotlin/app/cash/molecule/GatedFrameClock.kt:68-70 | a new `withFrameNanos` caller is counted, and the clock reports it as the first awaiter exactly when none was waiting, which is when the callback runs |
| Compose.BroadcastFrameClock.SendFrame | molecule-runtime/src/commonMain/kotlin/app/cash/molecule/GatedFrameClock.kt:65 | one frame time is recorded and every waiting awaiter is resumed by it |
| Compose.OnGlobalWrite | molecule-runtime/src/commonMain/kotlin/app/cash/molecule/molecule.kt:196-204 | a write launches an apply task exactly when the observer is registered and none is scheduled; the debounce invariant (at most one pending task, flag up iff one is pending) is kept |
| Compose.RunApplyTask | molecule-runtime/src/commonMain/kotlin/app/cash/molecule/molecule.kt:199-202 | the task clears the flag and sends the notifications once per pending task, so a later write schedules again |
| Compose.OnJobCompletion | molecule-runtime/src/commonMain/kotlin/app/cash/molecule/molecule.kt:205-208 | job completion disposes both the composition and the observer handle and drops pending tasks |
| Compose.DisposeHandle | molecule/src/main/java/app/cash/molecule/moleculeFlow.kt:92-94 | the `finally` disposes the observer handle and keeps the debounce invariant |
| Compose.WritesCoalesce | molecule-runtime/src/commonMain/kotlin/app/cash/molecule/molecule.kt:196-204 | any number of writes in a row leave at most one pending apply task, exactly one when the observer is registered, and send no notification |
| Compose.NotificationsNeedWrites | molecule-runtime/src/commonMain/kotlin/app/cash/molecule/molecule.kt:195-204 | in every order of writes, task runs and completion, notifications plus pending tasks never exceed the number of writes |
| Compose.CompletedIsFinal | molecule-runtime/src/commonMain/kotlin/app/cash/molecule/molecule.kt:205-208 | after completion no event changes the session |
| Compose.WritesAfterDisposeIgnored | molecule/src/main/java/app/cash/molecule/moleculeFlow.kt:92-94 | once the handle is disposed, any number of writes leave the session unchanged |
| Compose.CompletionIdempotent | molecule/molecule-runtime/src/commonMain/kotlin/app/cash/molecule/molecule.kt:137-140 | disposing on completion twice is the same as once |
| Compose.Session.constructor | molecule/molecule-runtime/src/commonMain/kotlin/app/cash/molecule/molecule.kt:127-140 | a launched session has no apply scheduled, no notification and nothing disposed, and satisfies the debounce invariant |
| Compose.Session.GlobalWrite | molecule/molecule-runtime/src/commonMain/kotlin/app/cash/molecule/molecule.kt:128-136 | the observer updates the session as `OnGlobalWrite` and keeps the invariant |
| Compose.Session.ApplyTaskRuns | molecule/molecule-runtime/src/commonMain/kotlin/app/cash/molecule/molecule.kt:131-134 | the launched task updates the session as `RunApplyTask` and keeps the invariant |
| Compose.Session.HandleDisposed | molecule/src/main/java/app/cash/molecule/moleculeFlow.kt:92-94 | disposal of the handle alone, as `DisposeHandle` |
| Compose.Session.JobCompletes | molecule/molecule-runtime/src/commonMain/kotlin/app/cash/molecule/molecule.kt:137-140 | completion updates the session as `OnJobCompletion` |
| GatedClock.TieBreak | molecule-runtime/src/commonMain/kotlin/app/cash/molecule/GatedFrameClock.kt:57-63 | a raw time equal to `lastNanos` gets `lastOffset + 1`; any other raw time becomes `lastNanos` with offset 0; `lastOffset` ends equal to the offset used |
| GatedClock.Stamps | molecule-runtime/src/commonMain/kotlin/app/cash/molecule/GatedFrameClock.kt:52-66 | successive `sendFrame` calls give one frame time per raw reading |
| GatedClock.StampsNotBelowRaw | molecule-runtime/src/commonMain/kotlin/app/cash/molecule/GatedFrameClock.kt:57-65 | no frame time is below its raw time |
| GatedClock.SameRawStamps | molecule-runtime/src/commonMain/kotlin/app/cash/molecule/GatedFrameClock.kt:57-65 | frames sent at one raw time get consecutive, so strictly increasing, times `raw + k`, `raw + k + 1`, ... |
| GatedClock.OrderlyStampsIncrease | molecule-runtime/src/commonMain/kotlin/app/cash/molecule/GatedFrameClock.kt:55-65 | the "always increases" comment holds under the precondition that each raw time repeats the previous one or exceeds the previous frame time |
| GatedClock.UnorderedRawTimesRepeatAStamp | molecule-runtime/src/commonMain/kotlin/app/cash/molecule/GatedFrameClock.kt:55-65 | without that precondition it fails: raw times 5, 5, 6 give frame times 5, 6, 6 |
| GatedClock.GatedFrameClock.constructor | molecule-runtime/src/commonMain/kotlin/app/cash/molecule/GatedFrameClock.kt:32-50 | a new clock runs, with `lastNanos = 0`, `lastOffset = 0`, an empty mailbox and no frame sent |
| GatedClock.GatedFrameClock.SendFrame | molecule-runtime/src/commonMain/kotlin/app/cash/molecule/GatedFrameClock.kt:52-66 | one frame at `raw + offset` of the tie-break, resuming every awaiter, with `lastNanos`/`lastOffset` updated |
| GatedClock.GatedFrameClock.SetRunning | molecule-runtime/src/commonMain/kotlin/app/cash/molecule/GatedFrameClock.kt:40-47 | the flag becomes the assigned value; a false-to-true change sends exactly one frame directly, any other assignment sends none |
| GatedClock.GatedFrameClock.WithFrameNanos | molecule-runtime/src/commonMain/kotlin/app/cash/molecule/GatedFrameClock.kt:68-74 | a new awaiter posts a token only if it is the first one and the clock runs; while stopped nothing is recorded and the awaiter waits |
| GatedClock.GatedFrameClock.PumpStep | molecule-runtime/src/commonMain/kotlin/app/cash/molecule/GatedFrameClock.kt:34-37 | the pump drains the conflated token and sends exactly one frame per drained token; with no token nothing happens |
| LegacyGatedClock.FrameTime | molecule/molecule-runtime/src/commonMain/kotlin/app/cash/molecule/GatedFrameClock.kt:42-44 | the frame time is the time elapsed since the clock was created |
| LegacyGatedClock.FrameTimesFollowTheSource | molecule/molecule-runtime/src/commonMain/kotlin/app/cash/molecule/GatedFrameClock.kt:31-44 | frame times are ordered as the instants they are read at, and equal instants give equal times (no tie-break) |
| LegacyGatedClock.GatedFrameClock.constructor | molecule/molecule-runtime/src/commonMain/kotlin/app/cash/molecule/GatedFrameClock.kt:31-33 | a new clock runs and records its start instant |
| LegacyGatedClock.GatedFrameClock.SendFrame | molecule/molecule-runtime/src/commonMain/kotlin/app/cash/molecule/GatedFrameClock.kt:42-44 | one frame at the elapsed time, resuming every awaiter |
| LegacyGatedClock.GatedFrameClock.SetRunning | molecule/molecule-runtime/src/commonMain/kotlin/app/cash/molecule/GatedFrameClock.kt:33-40 | the flag becomes the assigned value; a false-to-true change sends exactly one frame, any other assignment none |
| LegacyGatedClock.GatedFrameClock.WithFrameNanos | molecule/molecule-runtime/src/commonMain/kotlin/app/cash/molecule/GatedFrameClock.kt:46-52 | delegates to the inner clock; a first awaiter on a running clock gets a synchronous frame, otherwise it waits for the next rising edge |
| Cells.LatestValueCell.constructor | molecule-runtime/src/commonMain/kotlin/app/cash/molecule/molecule.kt:127 | the captured `flow` starts as `null` |
| Cells.LatestValueCell.Emit | molecule-runtime/src/commonMain/kotlin/app/cash/molecule/molecule.kt:131-138 | the first value creates a holder, every later value overwrites the same holder |
| Cells.NullPointer | molecule-runtime/src/commonMain/kotlin/app/cash/molecule/molecule.kt:142 | `!!` on `null` raises a message-less `NullPointerException` |
| Cells.LaunchCell | molecule-runtime/src/commonMain/kotlin/app/cash/molecule/molecule.kt:127-142 | a first composition that throws propagates that same throwable before `flow!!`; otherwise `flow!!` succeeds iff the composition emitted, and the holder then carries the last value emitted |
| Cells.ChannelFlow.constructor | molecule-runtime/src/commonMain/kotlin/app/cash/molecule/molecule.kt:65-67 | a `channelFlow` starts with an empty buffer of the default capacity 64, no collector waiting and nothing handed over |
| Cells.ChannelFlow.Emit | molecule-runtime/src/commonMain/kotlin/app/cash/molecule/molecule.kt:70-72 | a value is accepted iff the buffer has room; a collector suspended in `receive()` takes it directly, otherwise it is buffered; a value that does not fit is raised, never dropped |
| Cells.ChannelFlow.Collect | molecule-runtime/src/commonMain/kotlin/app/cash/molecule/molecule.kt:65-75 | the collector takes buffered values first in first out, and suspends in `receive()` only on an empty buffer |
| Runtime.MoleculeFlow | molecule-runtime/src/commonMain/kotlin/app/cash/molecule/molecule.kt:41-63 | both overloads dispatch on the mode alone: `Immediate` iff the immediate-clock flow |
| Runtime.EmittingBody | molecule-runtime/src/commonMain/kotlin/app/cash/molecule/molecule.kt:55-58 | the value-returning body emits exactly the one value it returns per composition |
| Runtime.ClockContextFor | molecule-runtime/src/commonMain/kotlin/app/cash/molecule/molecule.kt:183-186 | `Immediate` installs a fresh gated clock, `ContextClock` adds nothing |
| Runtime.LaunchMolecule | molecule-runtime/src/commonMain/kotlin/app/cash/molecule/molecule.kt:178-214 | a fresh session with the debounce invariant, plus a fresh running gated clock iff the mode asks for one |
| Runtime.LaunchMoleculeStateFlow | molecule-runtime/src/commonMain/kotlin/app/cash/molecule/molecule.kt:123-143 | a body that throws during the first composition fails the call with that same throwable; otherwise returns the StateFlow iff the first composition emitted, holding the last value emitted, and else `NullPointerException` |
| Runtime.LaunchMoleculeOfValue | molecule-runtime/src/commonMain/kotlin/app/cash/molecule/molecule.kt:149-169 | a value-returning body emits once, so the StateFlow exists on return and holds that value; a body that throws fails the call with that same throwable |
| Runtime.CollectContextClockFlow | molecule-runtime/src/commonMain/kotlin/app/cash/molecule/molecule.kt:65-75 | the first composition's values are forwarded in order, the first straight to a collector already waiting in `receive()`; it succeeds iff they fit (64 buffered, 65 with a waiting collector) and the body does not throw; the first value that does not fit is raised with exactly the earlier values passed on, a body that throws after its values fit fails with that same throwable, and a failed producer's session is disposed |
| Runtime.ImmediateClockFlowCollection.constructor | molecule-runtime/src/commonMain/kotlin/app/cash/molecule/molecule.kt:80-92 | a running gated clock, an empty capacity-1 buffer, nothing collected, and the core launched with `ContextClock`, which adds no clock of its own: the collection runs on exactly one gated clock |
| Runtime.ImmediateClockFlowCollection.BodyThrows | molecule-runtime/src/commonMain/kotlin/app/cash/molecule/molecule.kt:84-92 | a body that throws on the first composition, before anything is collected, fails the collection with that same throwable and its failed child disposes the session; every later step (`Emitter`, `CollectStep`, `RecomposerAwaitsFrame`, `PumpStep`) requires an unfailed collection, so nothing more is collected |
| Runtime.ImmediateClockFlowCollection.Emitter | molecule-runtime/src/commonMain/kotlin/app/cash/molecule/molecule.kt:87-90 | stops the clock without sending a frame; hands the value to a collector suspended in `receive()`, else buffers it iff the slot is free, else raises; at most one value is pending and every accepted value is collected exactly once in order |
| Runtime.ImmediateClockFlowCollection.CollectStep | molecule-runtime/src/commonMain/kotlin/app/cash/molecule/molecule.kt:95-105 | a pending value is taken and emitted without touching the clock; only with an empty buffer does the collector set the clock running (one frame on a rising edge) and wait |
| Runtime.ImmediateClockFlowCollection.RecomposerAwaitsFrame | molecule-runtime/src/commonMain/kotlin/app/cash/molecule/molecule.kt:84-92 | a frame request posts a token only while the clock runs, so a busy collector causes no recomposition |
| Runtime.ImmediateClockFlowCollection.PumpStep | molecule-runtime/src/commonMain/kotlin/app/cash/molecule/molecule.kt:81 | the clock's pump sends exactly one frame per token |
| LegacyRuntime.LaunchMolecule | molecule/molecule-runtime/src/commonMain/kotlin/app/cash/molecule/molecule.kt:117-145 | a fresh debounced session; the first composition calls `emitter(body())` exactly once, or emits nothing and rethrows the same throwable when the body throws |
| LegacyRuntime.MoleculeFlow | molecule/molecule-runtime/src/commonMain/kotlin/app/cash/molecule/molecule.kt:45-54 | the first value is handed to a collector already waiting in `receive()`, or else is buffered in the `channelFlow`, when launch returns; a body that throws sends nothing, fails the producer with that same throwable and disposes the session |
| LegacyRuntime.Recompose | molecule/molecule-runtime/src/commonMain/kotlin/app/cash/molecule/molecule.kt:48-50 | a later value is accepted iff the buffer has room (straight to a waiting collector, else buffered), otherwise raised, never dropped |
| LegacyRuntime.LaunchMoleculeStateFlow | molecule/molecule-runtime/src/commonMain/kotlin/app/cash/molecule/molecule.kt:63-81 | the StateFlow exists on return and holds the first value; a body that throws fails the call with that same throwable |
| LegacyRuntime.LatestValueMolecule.Recompose | molecule/molecule-runtime/src/commonMain/kotlin/app/cash/molecule/molecule.kt:69-76 | a later composition overwrites the value of the same holder |
| LegacyRuntime.MoleculeComposeState | molecule/molecule-runtime/src/commonMain/kotlin/app/cash/molecule/molecule.kt:90-108 | the same create-then-overwrite cell over a `MutableState`, holding the first value on return; a body that throws fails the call with that same throwable |
| JvmRuntime.OnGlobalWrite | molecule/molecule-runtime/src/main/java/app/cash/molecule/molecule.kt:103-104 | a write leaves one pending signal in the conflated channel while the observer is registered; nothing else changes |
| JvmRuntime.CollectSignal | molecule/molecule-runtime/src/main/java/app/cash/molecule/molecule.kt:108-115 | a consumed signal sends the notifications once and then a frame at time 0 only on a broadcast clock |
| JvmRuntime.Finally | molecule/molecule-runtime/src/main/java/app/cash/molecule/molecule.kt:119-121 | the handle is disposed however the coroutine ends |
| JvmRuntime.WritesConflate | molecule/molecule-runtime/src/main/java/app/cash/molecule/molecule.kt:103-115 | any number of writes before the collector runs give one notification pass and at most one frame |
| JvmRuntime.FramesFollowNotifications | molecule/molecule-runtime/src/main/java/app/cash/molecule/molecule.kt:100-115 | a broadcast clock receives exactly one frame, at time 0, per notification pass, and any other clock none |
| JvmRuntime.NotificationsNeedWrites | molecule/molecule-runtime/src/main/java/app/cash/molecule/molecule.kt:103-115 | notification passes never exceed the number of writes |
| JvmRuntime.WriteForwarding.constructor | molecule/molecule-runtime/src/main/java/app/cash/molecule/molecule.kt:100-104 | no signal, no notification, handle registered, and the broadcast clock from the context if it is one |
| JvmRuntime.WriteForwarding.GlobalWrite | molecule/molecule-runtime/src/main/java/app/cash/molecule/molecule.kt:104 | the observer updates the state as `OnGlobalWrite` |
| JvmRuntime.WriteForwarding.CollectStep | molecule/molecule-runtime/src/main/java/app/cash/molecule/molecule.kt:108-115 | one collector turn, possible only before the `finally` disposes the handle, updates the state as `CollectSignal` |
| JvmRuntime.WriteForwarding.Exit | molecule/molecule-runtime/src/main/java/app/cash/molecule/molecule.kt:119-121 | the `finally` disposes the handle as `Finally` |
| JvmRuntime.LaunchMoleculeStateFlow | molecule/molecule-runtime/src/main/java/app/cash/molecule/molecule.kt:64-99 | the content is set before the coroutine starts, so the StateFlow exists on return with the first value; a body that throws fails the call with that same throwable and no forwarding coroutine is launched |
| JvmRuntime.MoleculeFlow | molecule/molecule-runtime/src/main/java/app/cash/molecule/molecule.kt:46-55 | the first value, sent during the launch, is handed to a collector already waiting in `receive()`, or else buffered in the `channelFlow`; a body that throws sends nothing and fails the producer with that same throwable, before any forwarding coroutine |
| ActionFlow.RunComposition | molecule/src/main/java/app/cash/molecule/moleculeFlow.kt:74-79 | `Emit(x)` sets the item to `x` and raises the flag; `Skip` changes neither |
| ActionFlow.RunCompositionsConflate | molecule/src/main/java/app/cash/molecule/moleculeFlow.kt:76-88 | compositions between two loop turns conflate: the flag is up iff one emitted, and the item is the last emitted |
| ActionFlow.RunCompositionsRecorded | molecule/src/main/java/app/cash/molecule/moleculeFlow.kt:86-87 | a raised flag always comes with an item, so `item as T` never sees `null` |
| ActionFlow.OneEmissionPerEmittingFrame | molecule/src/main/java/app/cash/molecule/moleculeFlow.kt:82-91 | the loop emits exactly once per frame in which some composition returned `Emit`, and never otherwise |
| ActionFlow.FrameEmitsLastItem | molecule/src/main/java/app/cash/molecule/moleculeFlow.kt:76-88 | several emits in one frame produce one emission of the last item |
| ActionFlow.FirstItemBeforeFirstFrame | molecule/src/main/java/app/cash/molecule/moleculeFlow.kt:82-90 | the first item is emitted before the first frame wait |
| ActionFlow.SkipOnlyEmitsNothing | molecule/src/main/java/app/cash/molecule/moleculeFlow.kt:82-88 | a body that always skips never emits |
| ActionFlow.TakeTurn | molecule/src/main/java/app/cash/molecule/moleculeFlow.kt:83-90 | a raised flag is lowered and the stored item emitted before the wait for a frame; otherwise only the wait |
| ActionFlow.EmitLoop | molecule/src/main/java/app/cash/molecule/moleculeFlow.kt:74-92 | after `setContent` the loop produces exactly the trace `Trace` specifies for the frames' compositions, one turn per frame |
| ActionFlow.Collect | molecule/src/main/java/app/cash/molecule/moleculeFlow.kt:47-97 | fails with "Coroutine context must have a MonotonicFrameClock" iff no clock is present, before anything is registered; a body that throws on the first composition fails the collection with that same throwable; otherwise its trace is the loop's specification; with a clock the handle is always disposed in `finally` |
| Turbine.EventStringTellsKind | molecule/molecule-testing/src/main/kotlin/app/cash/molecule/testing/moleculeTesting.kt:138-145 | `toString` renders `Item(...)` or `Error(...)`, and the prefix tells the kind |
| Turbine.UnexpectedEvent | molecule/molecule-testing/src/main/kotlin/app/cash/molecule/testing/moleculeTesting.kt:192-195 | an `AssertionError` with "Expected <expected> but found <event>", whose cause is the found throwable for an `Error` and `null` for an `Item` |
| Turbine.ItemExpectedErrorFound | molecule/molecule-testing/src/main/kotlin/app/cash/molecule/testing/moleculeTesting.kt:176-182 | an `Error` head where an item was expected gives "Expected item but found Error(RuntimeException)" |
| Turbine.ErrorExpectedUnitFound | molecule/molecule-testing/src/main/kotlin/app/cash/molecule/testing/moleculeTesting.kt:184-190 | an `Item` head where an error was expected gives "Expected error but found Item(kotlin.Unit)" |
| Turbine.ErrorsOf | molecule/molecule-testing/src/main/kotlin/app/cash/molecule/testing/moleculeTesting.kt:99-102 | the throwables of the `Error` events, in order |
| Turbine.SuppressibleAreTheOtherErrors | molecule/molecule-testing/src/main/kotlin/app/cash/molecule/testing/moleculeTesting.kt:99-102 | the drain adds exactly the queued errors other than the thrown one, so all of them when it was never queued |
| Turbine.SetupEvents | molecule/molecule-testing/src/main/kotlin/app/cash/molecule/testing/moleculeTesting.kt:67-84 | one `Item` per emission, in order, then one `Error` carrying the same throwable the launch raised |
| Turbine.SetupErrors | molecule/molecule-testing/src/main/kotlin/app/cash/molecule/testing/moleculeTesting.kt:67-84 | the only throwable a launch queues is the one it raised |
| Turbine.EventChannel.constructor | molecule/molecule-testing/src/main/kotlin/app/cash/molecule/testing/moleculeTesting.kt:60 | the unlimited events channel starts empty |
| Turbine.EventChannel.Send | molecule/molecule-testing/src/main/kotlin/app/cash/molecule/testing/moleculeTesting.kt:72 | a send to the unlimited channel always appends |
| Turbine.EventChannel.SendAll | molecule/molecule-testing/src/main/kotlin/app/cash/molecule/testing/moleculeTesting.kt:72 | the events sent during one pulse are appended in order |
| Turbine.EventChannel.TryReceive | molecule/molecule-testing/src/main/kotlin/app/cash/molecule/testing/moleculeTesting.kt:99 | first in first out, each event taken at most once |
| Turbine.EmitItem | molecule/molecule-testing/src/main/kotlin/app/cash/molecule/testing/moleculeTesting.kt:71-76 | every emitted value becomes an `Item` |
| Turbine.LaunchFailed | molecule/molecule-testing/src/main/kotlin/app/cash/molecule/testing/moleculeTesting.kt:79-84 | a setup failure becomes an `Error` carrying the same throwable |
| Turbine.Launch | molecule/molecule-testing/src/main/kotlin/app/cash/molecule/testing/moleculeTesting.kt:67-85 | the launch queues exactly `SetupEvents` |
| Turbine.EventEmittingExceptionHandler.constructor | molecule/molecule-testing/src/main/kotlin/app/cash/molecule/testing/moleculeTesting.kt:220-222 | the handler writes to the shared events channel |
| Turbine.EventEmittingExceptionHandler.HandleException | molecule/molecule-testing/src/main/kotlin/app/cash/molecule/testing/moleculeTesting.kt:223-228 | an asynchronous failure becomes an `Error` carrying the same throwable |
| Turbine.TickOnDemandMoleculeTurbine.constructor | molecule/molecule-testing/src/main/kotlin/app/cash/molecule/testing/moleculeTesting.kt:148-152 | the turbine shares the events channel and clock and keeps the timeout |
| Turbine.TickOnDemandMoleculeTurbine.AwaitFrame | molecule/molecule-testing/src/main/kotlin/app/cash/molecule/testing/moleculeTesting.kt:204-217 | each advance issues exactly two frames at time 0; the first resumes the awaiters already waiting plus its own, the second its own plus those that registered in between |
| Turbine.TickOnDemandMoleculeTurbine.Pulse | molecule/molecule-testing/src/main/kotlin/app/cash/molecule/testing/moleculeTesting.kt:197-202 | one pulse queues what arrived while it ran and then issues two frames |
| Turbine.TickOnDemandMoleculeTurbine.AwaitEvent | molecule/molecule-testing/src/main/kotlin/app/cash/molecule/testing/moleculeTesting.kt:153-174 | pulses at least once even with an event queued, stops at the first pulse after which the queue is non-empty and takes its head; otherwise times out, or, when the timeout is zero, never returns, pulsing the clock on every turn |
| Turbine.TickOnDemandMoleculeTurbine.AwaitItem | molecule/molecule-testing/src/main/kotlin/app/cash/molecule/testing/moleculeTesting.kt:176-182 | returns the head `Item`'s value; an `Error` head raises the unexpected-event `AssertionError` with that throwable as cause |
| Turbine.TickOnDemandMoleculeTurbine.AwaitError | molecule/molecule-testing/src/main/kotlin/app/cash/molecule/testing/moleculeTesting.kt:184-190 | returns the head `Error`'s very throwable; an `Item` head raises the unexpected-event `AssertionError` without a cause |
| Testing.DrainSuppressed | molecule/molecule-testing/src/main/kotlin/app/cash/molecule/testing/moleculeTesting.kt:95-104 | the queue is emptied, and exactly its errors other than the thrown one are suppressed into it, in order; items are discarded |
| Testing.MoleculeTest.constructor | molecule/molecule-testing/src/main/kotlin/app/cash/molecule/testing/moleculeTesting.kt:59-92 | a fresh clock and events channel holding exactly the launch's events, and a turbine over them |
| Testing.MoleculeTest.Finish | molecule/molecule-testing/src/main/kotlin/app/cash/molecule/testing/moleculeTesting.kt:87-107 | a validation throwable is rethrown unchanged after the drain; the molecule job is cancelled on every exit |
| LegacyTesting.MoleculeTestScope.constructor | molecule/molecule-testing/src/main/java/app/cash/molecule/testing/moleculeTesting.kt:49-79 | the same events, exception handler and turbine on a fresh clock |
| LegacyTesting.MoleculeTestScope.Finish | molecule/molecule-testing/src/main/java/app/cash/molecule/testing/moleculeTesting.kt:81-90 | the scope is cancelled and joined on every exit, and a validation throwable propagates without any drain |
| GradlePlugin.ColonIndex | molecule-gradle-plugin/src/main/java/app/cash/molecule/gradle/MoleculePlugin.kt:113 | the position of the first colon, or the length when there is none |
| GradlePlugin.JoinSplit | molecule-gradle-plugin/src/main/java/app/cash/molecule/gradle/MoleculePlugin.kt:113 | `split(":")` loses nothing: joining the parts with `:` gives the string back, and no part holds a colon |
| GradlePlugin.SplitJoin | molecule-gradle-plugin/src/main/java/app/cash/molecule/gradle/MoleculePlugin.kt:113 | colon-free parts joined with `:` split back into the same parts |
| GradlePlugin.SplitCount | molecule-gradle-plugin/src/main/java/app/cash/molecule/gradle/MoleculePlugin.kt:113 | a string with `n` colons splits into `n + 1` parts |
| GradlePlugin.PluginArtifact | molecule-gradle-plugin/src/main/java/app/cash/molecule/gradle/MoleculePlugin.kt:111-125 | one part gives the JetBrains compiler of that version, three parts give the coordinate in order, any other count is the illegal-format error naming both formats and the value |
| GradlePlugin.ArtifactByColons | molecule-gradle-plugin/src/main/java/app/cash/molecule/gradle/MoleculePlugin.kt:113-117 | the value is accepted iff it has no colon or exactly two |
| GradlePlugin.TripleRoundTrip | molecule-gradle-plugin/src/main/java/app/cash/molecule/gradle/MoleculePlugin.kt:112-116 | for a three-part value, joining group, artifact and version with `:` gives the value back |
| GradlePlugin.ArtifactFromCoordinate | molecule-gradle-plugin/src/main/java/app/cash/molecule/gradle/MoleculePlugin.kt:116 | a coordinate of colon-free fields is read back as the same artifact |
| GradlePlugin.IsInternal | molecule-gradle-plugin/src/main/java/app/cash/molecule/gradle/MoleculePlugin.kt:127-129 | true iff the property is present with string form "true" |
| GradlePlugin.TargetFor | molecule-gradle-plugin/src/main/java/app/cash/molecule/gradle/MoleculePlugin.kt:93-103 | JVM or Android gives `api`; otherwise multiplatform gives `commonMain`; otherwise no supported plugin |
| GradlePlugin.RuntimeDependency | molecule-gradle-plugin/src/main/java/app/cash/molecule/gradle/MoleculePlugin.kt:87-91 | the `:molecule-runtime` project iff internal, else the published coordinate |
| GradlePlugin.Project.constructor | molecule-gradle-plugin/src/main/java/app/cash/molecule/gradle/MoleculePlugin.kt:46 | a project without the extension and without dependencies |
| GradlePlugin.Project.Apply | molecule-gradle-plugin/src/main/java/app/cash/molecule/gradle/MoleculePlugin.kt:46-104 | the extension is always created; an internal `:molecule-runtime` returns early; a JetBrains Compose project fails with the conflict message; otherwise the dependency goes where `TargetFor` says, or "No supported Kotlin plugin detected!" is raised |
| GradlePlugin.Project.GetPluginArtifact | molecule-gradle-plugin/src/main/java/app/cash/molecule/gradle/MoleculePlugin.kt:111-125 | reads the extension's value and parses it as `PluginArtifact` |
| LegacyGradlePlugin.SelectedVersion | molecule/molecule-gradle-plugin/src/main/java/app/cash/molecule/gradle/MoleculePlugin.kt:28-36 | a version is selected iff group is `app.cash.molecule`, name `molecule-testing` and the requested version empty, and it is the plugin's version |
| LegacyGradlePlugin.OnlyMissingTestingVersionRewritten | molecule/molecule-gradle-plugin/src/main/java/app/cash/molecule/gradle/MoleculePlugin.kt:29-35 | an explicit version, another group or another artifact is never rewritten; group and name never change |
| LegacyGradlePlugin.ResolutionIdempotent | molecule/molecule-gradle-plugin/src/main/java/app/cash/molecule/gradle/MoleculePlugin.kt:29-35 | applying the rule to its own result changes nothing more |
| LegacyGradlePlugin.DependencyResolveDetails.constructor | molecule/molecule-gradle-plugin/src/main/java/app/cash/molecule/gradle/MoleculePlugin.kt:28 | a request with no version chosen and no reason |
| LegacyGradlePlugin.DependencyResolveDetails.EachDependency | molecule/molecule-gradle-plugin/src/main/java/app/cash/molecule/gradle/MoleculePlugin.kt:28-36 | sets the version and reason iff the rule selects a version, and leaves the details alone otherwise |
| LegacyGradlePlugin.PluginArtifact | molecule/molecule-gradle-plugin/src/main/java/app/cash/molecule/gradle/MoleculePlugin.kt:44-48 | always the AndroidX Compose compiler at the bundled version |
| LegacyGradlePlugin.KotlinCompilation.constructor | molecule/molecule-gradle-plugin/src/main/java/app/cash/molecule/gradle/MoleculePlugin.kt:50 | a compilation without dependencies |
| LegacyGradlePlugin.KotlinCompilation.ApplyToCompilation | molecule/molecule-gradle-plugin/src/main/java/app/cash/molecule/gradle/MoleculePlugin.kt:50-56 | every compilation gets the runtime at the plugin's version and no options |
| Counter.OnEvent | sample/src/main/java/com/example/molecule/presenter.kt:48-61 | `Change(d)` adds `d` with `Int` wrap-around and keeps `loading`; `Randomize` raises `loading` and keeps the count |
| Counter.OnRandomResult | sample/src/main/java/com/example/molecule/presenter.kt:54-59 | the completion sets the count to the result and clears `loading` in one step |
| Counter.FoldSums | sample/src/main/java/com/example/molecule/presenter.kt:47-63 | after any events the count is the start plus the sum of the deltas, wrapped once, and `loading` is up iff it was or a `Randomize` arrived |
| Counter.CounterPresenter.constructor | sample/src/main/java/com/example/molecule/presenter.kt:43-44 | the initial model is (0, false) |
| Counter.CounterPresenter.Collect | sample/src/main/java/com/example/molecule/presenter.kt:46-64 | the state follows the fold of the events, and one request for [-20, 20] is launched per `Randomize` |
| Counter.CounterPresenter.RandomResult | sample/src/main/java/com/example/molecule/presenter.kt:56-59 | the completion updates the state as `OnRandomResult` |
| PupperPics.DropdownText | sample-viewmodel/src/main/java/com/example/molecule/viewmodel/presentationLogic.kt:37 | the selected breed, or "Select breed" when none is selected |
| PupperPics.Seeded | sample-viewmodel/src/main/java/com/example/molecule/viewmodel/presentationLogic.kt:59-62 | the state starts from the seed's fields with `fetchId = 0` |
| PupperPics.Present | sample-viewmodel/src/main/java/com/example/molecule/viewmodel/presentationLogic.kt:87-92 | the model copies the state, with `loading` true iff no breed is selected |
| PupperPics.FetchAgainRestartsFetch | sample-viewmodel/src/main/java/com/example/molecule/viewmodel/presentationLogic.kt:72-82 | `FetchAgain` always changes the picture effect's key, so it always restarts the fetch |
| PupperPics.SelectBreedRestartsOnChange | sample-viewmodel/src/main/java/com/example/molecule/viewmodel/presentationLogic.kt:72-81 | selecting a breed restarts the fetch iff it is not the breed already selected |
| PupperPics.FoldTouchesSelectionAndCounter | sample-viewmodel/src/main/java/com/example/molecule/viewmodel/presentationLogic.kt:78-85 | events change only the selection (to the last selected breed) and the counter (by the number of `FetchAgain`, wrapped); breeds and URL are unchanged |
| PupperPics.LastSelected | sample-viewmodel/src/main/java/com/example/molecule/viewmodel/presentationLogic.kt:81 | a selection, once made, stays a selection |
| PupperPics.BreedsLoadedEndsLoading | sample-viewmodel/src/main/java/com/example/molecule/viewmodel/presentationLogic.kt:66-69 | the list is stored; a non-empty list selects its first breed and ends loading; an empty one leaves the selection |
| PupperPics.SelectionIsKept | sample-viewmodel/src/main/java/com/example/molecule/viewmodel/presentationLogic.kt:78-92 | once a breed is selected, no event brings back the loading state |
| PupperPics.FetchShowsOnlyTheNewPicture | sample-viewmodel/src/main/java/com/example/molecule/viewmodel/presentationLogic.kt:72-75 | a restarted fetch first clears the URL and then shows the returned one, leaving the rest unchanged |
| PupperPics.PupperPicsPresenter.constructor | sample-viewmodel/src/main/java/com/example/molecule/viewmodel/presentationLogic.kt:59-62 | the remembered state is `Seeded(seed)` |
| PupperPics.PupperPicsPresenter.BreedsLoaded | sample-viewmodel/src/main/java/com/example/molecule/viewmodel/presentationLogic.kt:66-69 | updates the state as `OnBreedsLoaded`, and raises `NoSuchElementException` "List is empty." iff the list is empty |
| PupperPics.PupperPicsPresenter.FetchStarted | sample-viewmodel/src/main/java/com/example/molecule/viewmodel/presentationLogic.kt:73-74 | clears the URL and names the selected breed to query, none when no breed is selected |
| PupperPics.PupperPicsPresenter.FetchCompleted | sample-viewmodel/src/main/java/com/example/molecule/viewmodel/presentationLogic.kt:74 | stores the returned URL |
| PupperPics.PupperPicsPresenter.Collect | sample-viewmodel/src/main/java/com/example/molecule/viewmodel/presentationLogic.kt:78-85 | the state follows the fold of the events, with the effect key after each event |
| Breeds.EntryNames | sample-viewmodel/src/main/java/com/example/molecule/viewmodel/data.kt:38-44 | a breed without sub-breeds contributes exactly itself; otherwise "breed/sub" per sub-breed, in order |
| Breeds.FlattenAppend | sample-viewmodel/src/main/java/com/example/molecule/viewmodel/data.kt:38-44 | the output follows the entry order: flattening a concatenation concatenates the outputs |
| Breeds.FlattenLength | sample-viewmodel/src/main/java/com/example/molecule/viewmodel/data.kt:38-44 | the length is the sum over entries of max(1, number of sub-breeds), so empty iff the map is |
| Breeds.FlattenNames | sample-viewmodel/src/main/java/com/example/molecule/viewmodel/data.kt:38-44 | a name is offered iff some entry contributes it |

## Left out

- The Recomposer, `Composition`, the snapshot system and `BroadcastFrameClock` are external. Only what the core observes of them is kept: the awaiter count of the broadcast clock, the frames it sent and how many awaiters each frame resumed, and the notifications sent. What a composition emits is a parameter.
- Coroutine concurrency (dispatchers, `UNDISPATCHED` start order, suspension and cancellation propagation) is replaced by discrete steps that the caller orders. A collector suspended in `receive()` takes the next value straight from the sender, and its resumption and downstream `emit` happen in the same step. Whether a `channelFlow` collector is already waiting when the launch's first composition runs depends on dispatch order, so it is the parameter `collectorWaiting`.
- A body that throws in a later composition throws inside the external Recomposer, so only a throw in the first composition, which `setContent` rethrows, is modelled. When a `channelFlow` producer fails, whether the collector still drains the values buffered before the failure depends on cancellation order, so the model states only what was sent.
- `withTimeout` wall-clock timing is not modelled. A non-zero timeout fails once the given arrivals are exhausted without an event; a zero timeout never returns, pulsing the clock on every turn. The exception's message text is not modelled.
- The "Unable to send item/error to events channel." branches of both harnesses are not modelled: the events channel is `UNLIMITED`, so its sends never fail and those branches cannot run.
- `GatedClock.TieBreak`: the 64-bit `Long` of `lastNanos`/`timeNanos` and the 32-bit `Int` of `lastOffset` are unbounded integers, so the model omits their overflow. That would take 2^31 frames at one raw time, or a clock reading near 2^63 ns.
- Platform frame clocks (display link, window animation frame), the RxJava adapter, the view-model base classes and the UI are not part of this model.
- `moleculeFlow.kt`'s downstream `emit` is assumed to return; a collector that throws or cancels ends the loop, and only the `finally` disposal of that exit is modelled.
- `GradlePlugin.Project.Apply`: the conflict error with a JetBrains Compose project carries only the first line of its message. Gradle's plugin, configuration and `afterEvaluate` plumbing is reduced to flags and dependency lists, and `withPlugin` is taken as "the project has the plugin".
- The current plugin's `isApplicable`, `getCompilerPluginId` and `applyToCompilation` are constants (every compilation, "app.cash.molecule", no options); they are kept only as the constant `CompilerPluginId`.
- The samples' network services (`randomService.get`, `listBreeds`, `randomImageUrlFor`) return parameters. Their requests are modelled as values, and an effect that restarts is modelled by a change of its key; effect cancellation is not modelled.
- `Breeds.Flatten`: the response map is taken as a sequence of entries in the JSON order Moshi preserves, so key uniqueness is not modelled.
- `Kotlin.Throwable.AddSuppressed` follows Kotlin's `Throwable.addSuppressed` extension, which ignores the throwable itself. The drain in `testMolecule` therefore never throws when the validation's throwable was also queued as an event.
