# Verified models of the cognee bindings and their harness

This project models the parts of the repository that carry protocols, codecs and arithmetic, and
proves what they promise:

- **Pipeline runs.** A pipeline can be changed, executed in three modes, shared with a watcher and
  destroyed, by any number of threads. `Pipelines` states one rule for both bindings, that a run works
  from the pipeline as it was when the run started. `CPipelines` is the C binding as a transition
  system over reference-counted objects, where a change is refused while a run holds the pipeline;
  `PyPipelines` is the Python binding, where runs clone or borrow. Both are proved to refine the rule.
  `CInterface` and the class in `PyPipelines` are the entry points themselves, updating fields in
  place; each C entry point is proved to take the machine's steps, and each Python builder call to be
  what a borrowing step and a releasing step come to, whatever other threads do between the two.
  `CPipelineSetters`, `CPipelineRecords` and `PyBuilders` tell pipelines, runs and errors by the events
  alone: which call every field, task and error comes from.
- **SDK handles.** `HandleLifecycle` interleaves operations that build services on demand with closes,
  releases, configuration changes, clones and drops, one atomic action or lock section at a time.
  `HandleTheorems` says when a close is final, `HandleEngines` accounts for every set of engines a handle
  ever opens, `HandleLastDrop` for what dropping the last handle leaves open, and `HandleWitnesses` holds
  histories from a new handle in which something is left open. `HandleRecords` tells flag, versions and
  cache by the events alone, and what a dropped handle leaves alone. Closed means closed by an awaited
  `close`: for a database, being dropped is not that (`crates/bindings-common/src/handle.rs` line 316).
- **Callback synchronisation.** `OpSync` is the mutex and condition-variable check of the C smoke test,
  with re-entrant callbacks, spurious wake-ups and a deadline; `OpSyncVerdicts` tells its verdict by the
  events that led to it.
- **Value conversion.** `ValueConversion` walks a heap of Python objects, possibly shared or cyclic, into
  JSON, and allocates Python objects from JSON.
- **Key spelling.** `KeySpelling` and `SettingsSpelling` are the Rust, Python and TypeScript translations
  between snake_case and camelCase and the maps they rename.
- **Harness codecs.** `Sentinel`, `Membership`, `DigitIter` and `Corpus`.
- **Least squares.** `RetentionFit`, over the real numbers.

`Wrappers`, `OrderedMap` and `SharedBoxes` are the shared vocabulary: optional values, insertion-ordered
maps (`serde_json::Map` is built with `preserve_order`, `Cargo.toml` line 199; a Python `dict`; a
JavaScript object) and reference-counted boxes (`Arc`).

A history is a sequence of events each enabled in the state before it. Theorems named for histories
hold for all of them, of any length, over any number of pipelines, runs, watchers, callbacks,
operations and handles. Interpreter locks, runtimes and schedulers appear only as the freedom of that
order. Text is ASCII; the base64 encoder is a parameter; closures, tasks and callbacks are identities.

## Where the code and its documentation part

The models follow the code. In these places the code does not do what a comment or a header says, or
a law holds only under a condition; each condition is proved exact.

- `crates/bindings-common/src/handle.rs:367-371` marks a handle closed first so that a concurrent
  operation fails fast. An operation that has already passed the check does not: after the close has
  finished it builds services and caches them on the closed handle (history:
  `HandleTheorems.CloseMissesSlippedPast`). The close is final exactly when no operation is between check
  and lock as the flag is set, so in particular under the header's own precondition that none is in
  flight: `HandleTheorems.CloseIsFinalExactlyWhenNoneSlipping`, and, as seen when the close finishes,
  `HandleTheorems.CloseIsFinalExactlyWhenNoneSlippedPast`.
- `capi/include/cognee_sdk.h:315-319` promises that the pool is closed when a close returns. That holds
  of the pool in the cache. One that an operation replaced there after a configuration change
  (`crates/lib/src/component_manager.rs:783-808` does not close what it replaces), or that a release
  left to an operation using it, is only ever dropped. Everything opened is closed exactly when neither
  has happened: `HandleEngines.CloseClosesAllExactlyWhenNoneStranded`, for every history
  `HandleEngines.StraysAreTheStranded`; histories in which it fails are
  `HandleWitnesses.ReconfiguringStrandsEngines`, where nothing is in flight at the close, and
  `HandleWitnesses.ReleaseInUseStrandsEngines`.
- `capi/include/cognee_sdk.h:333-339` has the destroy call that drops the last reference release what the
  handle opened. The last reference is not always let go by such a call: an operation in flight can
  outlive the last C handle, and a Python surface its `Cognee`. `HandleLastDrop.LastDropLeavesOpenExactly`
  says exactly when dropping the last handle, of any kind, can leave something open for good; histories
  are `HandleWitnesses.InFlightDestroyClosesNothing` and `HandleWitnesses.OutlivingSurfaceClosesNothing`.
- A run over a task of weight zero tells its watcher that it started and then fails without telling it
  so (`crates/core/src/pipeline.rs:944-965`, `crates/core/src/progress.rs:119-123`):
  `CPipelineTheorems.NoticesTellOutcome`, and a history in `CPipelineWitness.WeightlessFailureIsNotTold`.
- `_camel_to_snake` undoes `snake_to_camel` except on keys such as `x_y_z`:
  `KeySpelling.KeyRoundTrip`, `KeySpelling.OneLetterWordIsLost`.
- The settings round trip of `ts/src/cognee.ts:112-118` loses a setting when two keys share a canonical
  spelling: `SettingsSpelling.SettingsConserved`, `SettingsSpelling.CollidingKeysLoseASetting`.
- JSON text does not escape the sentinel, so a search result that quotes it is cut short:
  `Sentinel.RoundTrip`, `Sentinel.QuotedMarkerIsCut`.
- `split_digits` negates its input, which C leaves undefined for the least 64-bit integer; with the usual
  wrap-around the iterator is empty: `DigitIter.DigitsDenote`.
- `clone_pipeline` drops enrichment marks and per-task rate limiters. No Python method sets either, so
  for pipelines built from Python the clone is exact: `PyPipelines.CloneIsExact`.

## Model

| member | source | states |
|---|---|---|
| Pipelines.SpecRunSeesItsStart | capi/include/cognee.h:173-186 | The rule both bindings refine: whatever a run ever sees of its pipeline equals the pipeline at the moment the run started, for every history. |
| SharedBoxes.SoleReference | capi/cognee-capi/src/pipeline.rs:18-45 | `Arc::get_mut` succeeds, the strong count being one, exactly when no run holds the pipeline. |
| SharedBoxes.RetainCounted | capi/cognee-capi/src/pipeline_exec.rs:160-166 | Taking a reference for a new run keeps every strong count equal to handle plus holders. |
| SharedBoxes.ReleaseCounted | capi/cognee-capi/src/pipeline_exec.rs:288-298 | Letting one run's reference go keeps the counts, and an object goes only when nobody refers to it. |
| SharedBoxes.DropHandleCounted | capi/cognee-capi/src/pipeline.rs:273-280 | Destroying a handle keeps the counts; the object stays while a run holds it. |
| CPipelineSafety.RefsCountedStep | capi/cognee-capi/src/pipeline_exec.rs:148-311 | Every step of every run mode keeps pipeline and watcher counts equal to their holders. |
| CPipelineOwnership.EditedArgs | capi/cognee-capi/src/pipeline.rs:102-112 | After an accepted edit the pipeline owns what it owned and the new argument, less what was replaced, each once. |
| CPipelineOwnership.OwnedStep | capi/cognee-capi/src/pipeline.rs:102-280 | At every step each argument a setter took is owned by exactly one live pipeline or has been freed exactly once. |
| CWatcherOrder.LogSoundStep | capi/cognee-capi/src/pipeline_exec.rs:288-309 | At every step nothing reaches a watcher after its destroy, a destroy caused by a run precedes that run's report, each run is reported once, and log and runs agree. |
| CSnapshot.StepRefines | capi/include/cognee.h:195-204 | Each step of the C machine, including refused setters, is a step the snapshot rule allows. |
| CPipelineTheorems.InvAlways | capi/include/cognee.h:173-204 | The counts, the ownership, the run invariant and the log order hold in every reachable state. |
| CPipelineTheorems.RefinesSnapshot | capi/include/cognee.h:182-204 | Every history of the C machine is, event by event, a history of the snapshot rule. |
| CPipelineTheorems.RunSeesItsStart | capi/include/cognee.h:195-204 | In every history a run sees only the pipeline content of its start, and while it holds the pipeline that content is still there, handle destroyed or not. |
| CPipelineTheorems.RefusedExactlyWhileHeld | capi/include/cognee.h:195-199 | A setter is refused if and only if some run holds the pipeline; refused, it changes nothing but the caller's error and frees its argument, which no pipeline owns; accepted, it changes only that pipeline. |
| CPipelineTheorems.ArgumentsOwnedOnce | capi/include/cognee.h:195-199 | In every history what setters took is in exactly one live pipeline until freed, and is freed at most once. |
| CPipelineTheorems.CallbackMayAppend | capi/examples/example_async_exec.c:102-127 | When a callback runs and no other run holds the pipeline, it can append a task and the next run is given it. |
| CPipelineTheorems.DestroyedExactlyWhenReleased | capi/include/cognee.h:184-190 | A watcher has been destroyed if and only if neither its handle nor any run holds it; after that nothing reaches it, a second destroy included. |
| CPipelineTheorems.DestroyPrecedesReport | capi/examples/example_watcher_exec.c:135-174 | The destroy caused by a run letting the last reference go comes before that run's completion report. |
| CPipelineTheorems.DestroyedByLastReport | capi/examples/example_watcher_exec.c:237-320 | With the handle gone, the watcher is already destroyed when the last run using it can be reported. |
| CPipelineTheorems.NoticesTellOutcome | crates/core/src/pipeline.rs:944-1065 | What a finished run's watcher was told follows from its outcome and start content: success always told; failure told unless the run could not start, or has a zero weight, when only the start is told. |
| CPipelineWitness.WeightlessFailureIsNotTold | crates/core/src/pipeline.rs:944-965 | A reachable run over a task of weight zero reports a failure to its callback, and all its watcher was told is that it started. |
| CPipelineTheorems.NothingLeft | capi/cognee-capi/src/pipeline.rs:273-280 | With every handle destroyed and every run done nothing remains: each argument ever taken was freed exactly once and every watcher destroyed. |
| CPipelineTheorems.NeverStuck | capi/cognee-capi/src/pipeline_exec.rs:288-309 | Until a run holds nothing, aborted and detached ones included, it has an enabled step of its own that brings it nearer its report; and so until the report, unless a background run's caller has not come to wait for it. |
| CPipelineSetters.ContentIsItsCalls | capi/cognee-capi/src/pipeline.rs:88-270 | In every history each plain field of a pipeline holds the argument of the last setter call for it that was accepted, made with an acceptable argument while no run held the pipeline, or else what a new pipeline holds (batch size 32, concurrency 1, no retry, no name, no data-id closure); its tasks are those of the accepted calls in call order. |
| CPipelineRecords.ErrorsAreTheCallers | capi/include/cognee.h:195-200 | In every history the setter error a thread finds is the one its own last refused or zero-attempts call left, until that thread clears it; accepted and ignored calls and other threads' calls leave it alone. |
| CPipelineRecords.RunsAreTheirEvents | capi/cognee-capi/src/pipeline_exec.rs:148-375 | In every history a run was started once and is aborted, told, ended, let go of and reported exactly as its events say; a background run only reported to whoever waits for it; a blocking run lets its watcher go before its pipeline and an async run after. |
| CPipelineRecords.CallsAreNeverHeldUp | capi/include/cognee.h:173-194 | Whatever is in flight, a live handle can be executed in any mode with any live watcher, set or destroyed, and a background run waited for, given up or aborted; an aborted run may end at once. |
| CPipelineRecords.GoesInOrder | capi/cognee-capi/src/pipeline.rs:273-280 | A pipeline goes only when its handle is destroyed or a run holding it lets it go, and then its tasks are freed in the order in which they run and its data-id closure after them. |
| CInterface.Library.PipelineMut | capi/cognee-capi/src/pipeline.rs:36-45 | Answers whether the handle is the sole reference and otherwise sets the caller's error, nothing else. |
| CInterface.Library.AddTask | capi/cognee-capi/src/pipeline.rs:104-113 | Takes ownership first, then appends or frees: exactly the machine's step. |
| CInterface.Library.SetDataIdFn | capi/cognee-capi/src/pipeline.rs:222-270 | Installs the closure, freeing the one it replaces, or frees the refused one: exactly the machine's step. |
| CInterface.Library.SetRetryLimited | capi/cognee-capi/src/pipeline.rs:162-190 | Rejects zero attempts before looking at the pipeline, else sets the policy or is refused: the machine's step. |
| CInterface.Library.SetField | capi/cognee-capi/src/pipeline.rs:88-155 | The plain setters: ignored for a zero size or count, else set or refused: the machine's step, whose effect on every field `CPipelineSetters.ContentIsItsCalls` tells. |
| CInterface.Library.ReleasePipeline | capi/cognee-capi/src/pipeline.rs:273-280 | The last reference frees every task in order and then the data-id closure; any other only counts down. |
| CInterface.Library.ReleaseWatcher | capi/cognee-capi/src/watcher.rs:242-246 | The last reference runs the destroy callback, once; any other only counts down. |
| CInterface.Library.DestroyPipeline | capi/cognee-capi/src/pipeline.rs:276-280 | The handle goes and its reference with it: the machine's step. |
| CInterface.Library.DestroyWatcher | capi/cognee-capi/src/watcher.rs:242-246 | The handle goes and its reference with it: the machine's step. |
| CInterface.Library.Execute | capi/cognee-capi/src/pipeline_exec.rs:244-286 | Takes its own references to pipeline and watcher before the call returns: the machine's step. |
| CInterface.Library.CompleteAsync | capi/cognee-capi/src/pipeline_exec.rs:288-309 | The completion code's order (pipeline, watcher, callback) is a run of the machine from any reachable state and keeps the invariant. |
| CInterface.Library.CompleteBlocking | capi/cognee-capi/src/pipeline_exec.rs:163-177 | The blocking call's drop order (watcher, pipeline, return) is a run of the machine and keeps the invariant. |
| PyPipelines.CloneIsExact | python/src/pipeline.rs:256-286 | A clone equals its pipeline if and only if no task is marked enriching or has a rate limiter of its own. |
| PyPipelines.InvStep | python/src/pipeline.rs:155-178 | At every step the borrows out are the live synchronous runs, nothing borrowed is being changed, and every pipeline is one the clone is exact on. |
| PyPipelines.RefusedExactlyWhileBorrowed | python/src/pipeline.rs:34-120 | A setter cannot borrow the object if and only if a synchronous run or another setter has it; async and background runs never stand in the way. |
| PyPipelines.StepRefines | python/src/pipeline.rs:123-209 | Each step of the Python machine is a step the snapshot rule allows. |
| PyPipelines.RefinesSnapshot | python/src/pipeline.rs:123-209 | Every history of the Python machine is a history of the same snapshot rule. |
| PyPipelines.RunSeesItsStart | python/src/pipeline.rs:123-209 | Cloned or borrowed, a run sees only the pipeline as it was when the run started. |
| PyPipelines.CallIsTwoSteps | python/src/pipeline.rs:34-120 | A builder call that does not raise for a borrow is a borrowing step and a releasing step; whatever other threads do between them, the object ends as the call on an undisturbed object leaves it. |
| PyPipelines.PyPipeline.WithName | python/src/pipeline.rs:34-37 | Raises if borrowed and changes nothing, else sets the name and nothing more. |
| PyPipelines.PyPipeline.AddTask | python/src/pipeline.rs:50-72 | Raises if borrowed, if the callable cannot be wrapped or the batch size is zero, leaving the pipeline alone; else appends exactly the described task, last, as `PyBuilders.CallAnswers` spells out. |
| PyPipelines.PyPipeline.WithRetry | python/src/pipeline.rs:76-88 | Raises if borrowed or for zero attempts and changes nothing, else sets the constant policy. |
| PyPipelines.PyPipeline.WithRetryExponential | python/src/pipeline.rs:92-108 | Raises if borrowed or for zero attempts and changes nothing, else sets the exponential policy. |
| PyPipelines.PyPipeline.WithBatchSize | python/src/pipeline.rs:111-114 | Raises if borrowed and changes nothing, else sets the size and nothing more. |
| PyPipelines.PyPipeline.WithConcurrency | python/src/pipeline.rs:117-120 | Raises if borrowed and changes nothing, else sets the number and nothing more. |
| PyPipelines.PyPipeline.CloneInner | python/src/pipeline.rs:256-286 | On a pipeline built from Python the builder loop never fails and yields the pipeline itself. |
| PyBuilders.ContentIsItsCalls | python/src/pipeline.rs:26-120 | In every history each plain field of a pipeline object holds the arguments of the last call for it that succeeded, or what a new one holds; its tasks are those its successful `add_task` calls described, in call order; a call that raised left no trace. |
| PyBuilders.CallAnswers | python/src/pipeline.rs:34-120 | A call raises for a borrow first, then for a callable that cannot be wrapped, a zero batch size or zero attempts, changing nothing; else it succeeds, sets its own field or appends its task at the end, and leaves every other field. |
| PyBuilders.RunsAreNeverHeldUp | python/src/pipeline.rs:123-178 | A run, synchronous or not, can start from an object if and only if no setter has it. |
| HandleLifecycle.InvStep | crates/bindings-common/src/handle.rs:174-233 | At every step what is cached is open and recent enough for its key, what operations hold is no older than their call, and only the lock holder touches the caches. |
| HandleTheorems.StartedClosedIsRefused | capi/include/cognee_sdk.h:315-319 | An operation started on a closed handle never gets past the check, in any continuation. |
| HandleTheorems.CloseIsFinalExactlyWhenNoneSlippedPast | crates/bindings-common/src/handle.rs:366-400 | When a close finishes the handle is closed and caches nothing, and it caches nothing in every continuation if and only if no operation is past the closed check at that moment. |
| HandleTheorems.CloseIsFinalExactlyWhenNoneSlipping | capi/include/cognee_sdk.h:315-325 | As a caller can see it when the close sets the flag: whatever happens during and after it, the close is final if and only if no operation is between check and lock at that moment; so always when none is in flight. |
| HandleTheorems.CloseMissesSlippedPast | crates/bindings-common/src/handle.rs:366-371 | A whole close can run around an operation that has passed the check, leaving it past the check. |
| HandleTheorems.GuardedIsReachable | crates/bindings-common/src/handle.rs:178-190 | An operation does get to the point between check and build. |
| HandleTheorems.CloseIsIdempotent | capi/include/cognee_sdk.h:315-322 | Closing a closed, empty handle again changes nothing but the record that it was done. |
| HandleRecords.ClosedExactlyByClose | crates/bindings-common/src/handle.rs:321-371 | In every history a handle is closed if and only if a close, not a release, has got as far as setting the flag. |
| HandleTheorems.TeardownRuns | crates/bindings-common/src/handle.rs:366-410 | What an undisturbed teardown leaves: flag, empty caches, engines closed unless released while in use, a dropped handle gone. |
| HandleTheorems.ServicesAreCurrent | capi/include/cognee_sdk.h:1070-1078 | Services handed to an operation are open at that moment and built for a configuration no older than at its call. |
| HandleRecords.ServicesSeeConfiguration | capi/include/cognee_sdk.h:1070-1078 | In every history what an operation runs on was built under the configuration of that moment, after every configuration change that preceded the operation's call. |
| HandleRecords.BuiltOnce | crates/bindings-common/src/handle.rs:174-233 | However many operations race to be first, services are built and stored once as long as nothing is reconfigured or torn down. |
| HandleTheorems.ServicesRuns | crates/bindings-common/src/handle.rs:174-233 | Uninterrupted, `services()` refuses on a closed handle, returns the cached bundle at the current version, and otherwise builds around current engines or new ones, or fails there, before or after new engines are cached. |
| HandleEngines.StraysAreTheStranded | crates/lib/src/component_manager.rs:783-808 | In every history all engines ever opened are closed or cached if and only if none were superseded while cached or spared by a release; and all are closed if and only if moreover none are cached. |
| HandleEngines.CloseClosesAllExactlyWhenNoneStranded | capi/include/cognee_sdk.h:315-319 | When a close finishes, all engines ever opened are closed if and only if none were so stranded; they stay closed, with every later one, if and only if moreover no operation is past the check. |
| HandleWitnesses.ReconfiguringStrandsEngines | crates/lib/src/component_manager.rs:783-808 | From a new handle: warm, configure, warm again, close with nothing in flight; the first engines are open and no longer cached. |
| HandleWitnesses.ReleaseInUseStrandsEngines | crates/bindings-common/src/handle.rs:321-331 | From a new `Cognee`: it is dropped while an operation on a surface of it runs; when the operation has ended its engines are open and no longer cached. |
| HandleEngines.RunningStaysOpenUntilClosed | crates/lib/src/component_manager.rs:645-663 | In every history, until the handle is closed the engines of every running operation are open: no release, drop, rebuild or configuration change closes them. |
| HandleTheorems.StillWarms | python/src/sdk.rs:296-304 | Short of a close, any operation on any surviving surface can still go on to obtain services. |
| HandleRecords.DropLeavesAlone | capi/cognee-capi/src/sdk.rs:489-503 | While another handle or an operation in flight remains, destroying a C handle changes nothing but that the handle is gone; likewise dropping a Python surface at any time, and a `Cognee` that has built nothing. |
| HandleRecords.DropBeginsRelease | capi/cognee-capi/src/sdk.rs:489-503 | Destroying the last C handle with nothing in flight, or dropping a `Cognee` that has built or is building something, begins a release and changes nothing else. |
| HandleRecords.OpenUntilClosedOrDestroyed | capi/include/cognee_sdk.h:326-342 | In every history of a C handle, until a close has marked it or its last handle is destroyed no engines are closed, and nothing leaves the cache other than by replacement. |
| HandleRecords.CallsAreNeverHeldUp | crates/bindings-common/src/handle.rs:347-353 | Through any handle anything can be begun at any time, whatever is in flight; only a Python surface cannot be closed. |
| HandleLastDrop.LastDropLeavesOpenExactly | capi/cognee-capi/src/sdk.rs:489-503 | In every history, dropping the last handle can leave engines open for good if and only if some were stranded before, an operation may still build, or the drop keeps the cached ones: for a C handle when an operation is in flight, for a `Cognee` when one is using them, for a surface always. |
| HandleTheorems.LastDestroyClosesExactlyWhenIdle | capi/cognee-capi/src/sdk.rs:489-503 | The engines in the cache when the last C handle is destroyed can still be closed, by whatever follows, if and only if no operation is in flight. |
| HandleWitnesses.InFlightDestroyClosesNothing | capi/cognee-capi/src/sdk.rs:489-503 | From a new handle: it is destroyed with an operation in flight; when that has ended no handle is left and its engines are open. |
| HandleTheorems.LastSurfaceClosesNothing | python/src/sdk.rs:295-314 | Dropping a surface that outlived its `Cognee` never closes what it caches. |
| HandleWitnesses.OutlivingSurfaceClosesNothing | python/src/sdk.rs:295-314 | From a new `Cognee`: a surface outlives it, builds and is dropped; no handle is left and its engines are open. |
| HandleTheorems.HandleState.SetConfig | capi/include/cognee_sdk.h:1070-1078 | A configuration change advances the version: the machine's step. |
| HandleTheorems.HandleState.Engines | crates/lib/src/component_manager.rs:783-808 | Returns the cached engines when they are current, else puts new ones of the current version in their place. |
| HandleTheorems.HandleState.Services | crates/bindings-common/src/handle.rs:174-233 | The method's statements are a path of the machine; it reports a closed handle if and only if it was closed, and a failing build if and only if it had to build and the build fails. |
| HandleTheorems.HandleState.TeardownState | crates/bindings-common/src/handle.rs:366-410 | The method's statements are the machine's teardown. |
| OpSync.CallbacksStep | capi/examples/sdk_conventions_smoke.c:164-193 | At every step each callback's place agrees with mutex, stack and call, and its judgement with where it runs. |
| OpSync.CallerStep | capi/examples/sdk_conventions_smoke.c:212-258 | At every step the caller holds the mutex only while testing, and waits on a set flag only until the pending signal. |
| OpSync.RecordedStep | capi/examples/sdk_conventions_smoke.c:181-192 | At every step flags, count and code are exactly those of the callbacks that have written. |
| OpSyncVerdicts.VerdictIsExact | capi/examples/sdk_conventions_smoke.c:246-288 | In every history, told by its events: the verdict blames re-entrancy if and only if a callback ran inside the call, the caller's thread if and only if one ran on it, with the number that had recorded themselves and the last one's code; and it is never-fired only if the deadline passed, the wait timed out after that, and nothing had been recorded. |
| OpSyncVerdicts.OneDeferredCallbackPasses | capi/examples/sdk_conventions_smoke.c:270-302 | An operation that calls back once, off the caller's thread, is passed with its own code, unless the wait timed out after the deadline. |
| OpSync.NoLostWakeup | capi/examples/sdk_conventions_smoke.c:246-253 | Whenever the caller waits, either nothing has been recorded or the recorder is about to signal and will wake it. |
| OpSyncVerdicts.SpuriousWakeIsHarmless | capi/examples/sdk_conventions_smoke.c:248-253 | A spurious wake-up before anything is recorded leads back to the same wait, changing nothing. |
| OpSyncVerdicts.CallbacksComeAnyTime | capi/examples/sdk_conventions_smoke.c:156-179 | From the call until the verdict a callback can come at any time on another thread, and on the caller's own until it takes the mutex. |
| OpSyncVerdicts.ReentrancyHappens | capi/examples/sdk_conventions_smoke.c:177-193 | A callback from inside the call runs to its end without deadlock and is blamed for it. |
| OpSyncVerdicts.NeverFiringHappens | capi/examples/sdk_conventions_smoke.c:246-268 | An operation that never calls back is failed when the deadline has passed. |
| OpSync.EveryStepCounts | capi/examples/sdk_conventions_smoke.c:246-258 | Every step but a new callback, a spurious wake-up or an idle tick brings the verdict nearer. |
| OpSync.NeverStuck | capi/examples/sdk_conventions_smoke.c:179-181 | Until the verdict there is always such a step: no deadlock, re-entrant callbacks included. |
| OpSync.OpSync.DeferredCallback | capi/examples/sdk_conventions_smoke.c:164-193 | The callback's statements leave the shared fields as the machine's five callback steps do. |
| ValueConversion.PyToSerdeInner | python/src/json.rs:38-122 | The recursion over containers terminates on every heap, cyclic ones included, and computes the conversion. |
| ValueConversion.Accepted | python/src/json.rs:20-122 | A value converts if and only if every path from it has at most 128 hops and ends at an object with a JSON form. |
| ValueConversion.CycleRejected | python/src/json.rs:20-43 | A cycle within reach always gives an error. |
| ValueConversion.FirstFailureDecides | python/src/json.rs:95-112 | A container fails with the error of the first part that fails in visiting order, a key before its value. |
| ValueConversion.ErrorIsReal | python/src/json.rs:38-122 | Every error is about something that is there: a path leads to an object, or a depth, that it is true of. |
| ValueConversion.LeafErrors | python/src/json.rs:38-122 | An object that holds no others fails if and only if something is wrong with it, and with that very error. |
| ValueConversion.SuccessIsUnfolding | python/src/json.rs:34-112 | A conversion yields `j` if and only if `j` encodes the value's bounded, encodable tree unfolding. |
| ValueConversion.UnfoldingUnique | python/src/json.rs:95-112 | An object graph has at most one tree unfolding. |
| ValueConversion.EncodeToPython | python/src/json.rs:132-166 | Decoding an encoded tree gives it back if and only if it has no bytes and no integer above the 64-bit signed range. |
| ValueConversion.PythonRoundTrip | python/src/json.rs:34-166 | For every graph that converts, Python to JSON to Python gives the value back under exactly that condition. |
| ValueConversion.JsonRoundTrip | python/src/json.rs:34-166 | JSON to Python to JSON gives the value back if and only if its integers are 64-bit signed and its depth at most 128. |
| ValueConversion.AppendItems | python/src/json.rs:151-157 | The list loop allocates objects that unfold to the array's items and leaves earlier objects as they were. |
| ValueConversion.SetItems | python/src/json.rs:158-164 | The dict loop allocates keys and values that unfold to the object's entries in order, leaving earlier objects as they were. |
| ValueConversion.SerdeToPy | python/src/json.rs:132-166 | The object allocated unfolds to exactly the decoded tree, in a heap that extends the old one. |
| ValueConversion.NearestDoubleIsNearest | python/src/json.rs:138-147 | An integer above the 64-bit signed range becomes the nearest double, within 1024, ties to even. |
| KeySpelling.ConvertSnakeToCamel | python/src/json.rs:178-195 | The character loop computes the translation that the laws below are about. |
| KeySpelling.KeyRoundTrip | python/cognee_py/compat.py:86-98 | For every key, the two translations cancel if and only if it has no capitals and each underscore, unless leading, stands between words the way back can tell apart. |
| KeySpelling.OneLetterWordIsLost | python/cognee_py/compat.py:89-98 | `x_y_z` does not come back. |
| KeySpelling.SnakeToCamelIdempotent | python/src/json.rs:178-195 | A translated key is left alone. |
| KeySpelling.CamelKeysMeaning | python/src/json.rs:201-212 | The renamed keys are the images in order of first occurrence, each with the last value given to it, and nothing is lost if and only if no two images collide. |
| KeySpelling.CamelKeysIdempotent | python/src/json.rs:201-212 | A renamed map is left alone. |
| KeySpelling.DictRoundTrip | python/cognee_py/compat.py:101-117 | A dict comes back entry for entry if and only if each of its keys does. |
| KeySpelling.JsonObject.SnakeToCamelKeys | python/src/json.rs:201-212 | Clearing and refilling the object in place leaves exactly the renamed map. |
| SettingsSpelling.BackIsRespelled | ts/src/cognee.ts:58-92 | There and back, a key without capitals has its dots before letters turned to underscores and its separators before digits dropped. |
| SettingsSpelling.KeyRoundTrip | ts/src/cognee.ts:58-92 | So it comes back unchanged if and only if it has no dot before a letter and no separator before a digit. |
| SettingsSpelling.NameIsStable | ts/src/cognee.ts:112-118 | A respelled key shows the same camelCase name if and only if no doubled separator stands before a digit. |
| SettingsSpelling.AgreesWithRust | ts/src/cognee.ts:58-60 | On undotted keys the TypeScript and Rust translations agree if and only if every underscore is followed by a lower-case letter or digit (or, after a leading underscore, none is). |
| SettingsSpelling.ConfigToCamel | ts/src/cognee.ts:69-87 | The loop and the added embedding-model entry compute the shown settings. |
| SettingsSpelling.ShownMeaning | ts/src/cognee.ts:69-87 | Entry by entry what `config.get()` shows: each name, its alias's if the key has one, with the last value to show under it; and the embedding model's name once more under `embeddingModel` if and only if nothing else shows there. |
| SettingsSpelling.NormalizeSettings | ts/src/cognee.ts:120-127 | The loop computes the settings passed on. |
| SettingsSpelling.ModelNameIsShown | ts/src/cognee.ts:80-85 | A key shows as `embeddingModel` if and only if its canonical spelling is `embedding_model`. |
| SettingsSpelling.ModelAliasAddsNothing | ts/src/cognee.ts:80-85 | Whatever the snapshot and the aliases, colliding keys included, the extra embedding-model entry never changes what is passed on. |
| SettingsSpelling.SettingsRoundTrip | ts/src/cognee.ts:112-127 | A snapshot comes back under its canonical keys, every value and the order kept, when those keys are distinct. |
| SettingsSpelling.SettingsConserved | ts/src/cognee.ts:112-127 | And no setting is lost if and only if they are distinct. |
| SettingsSpelling.CollidingKeysLoseASetting | ts/src/cognee.ts:112-127 | `a.b` and `a_b` come back as one setting. |
| Sentinel.Find | e2e-cross-sdk/harness/helpers.py:690-691 | The first occurrence, or none exactly when there is none. |
| Sentinel.StartOccurrences | e2e-cross-sdk/harness/helpers.py:688-690 | The start marker never straddles the boundary it is printed at. |
| Sentinel.EndOccurrences | e2e-cross-sdk/harness/helpers.py:689-691 | An end marker lies wholly in the text before, wholly in the payload, or is the one printed. |
| Sentinel.ParseMeaning | e2e-cross-sdk/harness/helpers.py:686-698 | On every text parsing fails if and only if a marker is missing or an end marker stands before any start marker; else it gives what lies between the first of each. |
| Sentinel.ParseRecovers | e2e-cross-sdk/harness/helpers.py:686-698 | With no marker before it a payload is recovered up to its first own end marker. |
| Sentinel.RoundTrip | e2e-cross-sdk/harness/helpers.py:686-698 | For every text printed before it, the payload printed is the payload parsed if and only if neither marker precedes it and it contains no end marker, or an end marker precedes it and what comes before happens to parse to that payload. |
| Sentinel.StrayEndWins | e2e-cross-sdk/harness/helpers.py:690-697 | After an earlier end marker the result is that of the earlier text alone. |
| Sentinel.QuotedMarkerIsCut | e2e-cross-sdk/harness/helpers.py:377-377 | A result that quotes the end marker is cut short. |
| Membership.OneStringPerUuid | e2e-cross-sdk/harness/helpers.py:459-470 | Bytes, bare digits and hyphenated text of one UUID, in any letter case, normalise to one string. |
| Membership.NormalizeDecides | e2e-cross-sdk/harness/helpers.py:459-470 | Two stored UUIDs normalise alike if and only if they are the same UUID. |
| Membership.HexReadsBack | e2e-cross-sdk/harness/helpers.py:467-468 | Hexadecimal text is two lower-case digits a byte, the high one first, that read back as the byte. |
| Membership.IdentifyingColumns | e2e-cross-sdk/harness/helpers.py:479-483 | Exactly the twelve listed columns are normalised. |
| Membership.QueryRows | e2e-cross-sdk/harness/helpers.py:473-492 | In whatever order the columns are visited, exactly the identifying ones are normalised, once each. |
| Membership.QueryDatasetMembership | e2e-cross-sdk/harness/helpers.py:550-561 | The rows returned are the normalised pairs of both schema shapes, each where it was first seen. |
| Membership.EachMembershipOnce | e2e-cross-sdk/harness/helpers.py:550-561 | For every database a pair is reported once, and if and only if a junction row or a data row with a dataset records it. |
| Membership.ReportsTheFacts | e2e-cross-sdk/harness/helpers.py:516-561 | Whichever tables and storage forms hold the memberships, the report is the facts, each once, in first-seen order: the junction rows' first, then those of the data rows that are in a dataset. |
| Membership.SameFactsSameReport | e2e-cross-sdk/harness/helpers.py:516-561 | Two databases report the same memberships if and only if they record the same facts. |
| DigitIter.NumeralUnique | capi/examples/example_iter_task.c:40-56 | A canonical digit sequence is the numeral of the number it denotes. |
| DigitIter.DigitsDenote | capi/examples/example_iter_task.c:40-56 | The digits are canonical, denote the magnitude and number at most 19 if and only if the value is not the minimum. |
| DigitIter.DigitIterState.constructor | capi/examples/example_iter_task.c:28-62 | Extraction stops for want of value, never of slots, and after the reversal the state holds exactly those digits. |
| DigitIter.DigitIterState.ReverseInPlace | capi/examples/example_iter_task.c:50-55 | The swaps reverse the used part of the array. |
| DigitIter.DigitIterState.Next | capi/examples/example_iter_task.c:18-22 | Yields the next digit and moves on, or NULL with no change. |
| DigitIter.DigitIterState.NextTimes | capi/examples/example_iter_task.c:18-22 | Any number of calls yields the digits in order and NULL ever after. |
| DigitIter.SplitAndDrain | capi/examples/example_iter_task.c:18-62 | Every value but the minimum is handed out as the canonical digits of its magnitude and then NULL. |
| Corpus.BookIsKept | scripts/perf/build_large_corpus.py:40-45 | With both banners in place what is left is the book without blank ends. |
| Corpus.MissingBanners | scripts/perf/build_large_corpus.py:42-45 | A banner that is not found takes nothing away on its side. |
| Corpus.StripMeaning | scripts/perf/build_large_corpus.py:45-45 | Trimming cuts white space off the two ends and nothing else, leaves no blank end, and leaves nothing exactly of blank text. |
| Corpus.Anchor | scripts/perf/build_large_corpus.py:59-66 | The chapter list starts at the first later heading that repeats the first number, or at the beginning if none does. |
| Corpus.SplitChapters | scripts/perf/build_large_corpus.py:48-76 | Fails exactly when there is no heading; otherwise the loops compute one memory per non-blank chapter. |
| Corpus.ContentsAreSkipped | scripts/perf/build_large_corpus.py:51-66 | A table of contents followed by its chapters leaves exactly the chapters. |
| Corpus.SectionsTile | scripts/perf/build_large_corpus.py:69-73 | Headings and sections together are the body from the first chapter on. |
| Corpus.WithTextMeaning | scripts/perf/build_large_corpus.py:68-75 | The chapters kept are those with text under their heading, in order. |
| Corpus.MemoriesAreChapters | scripts/perf/build_large_corpus.py:68-76 | There is one memory for each of these, in order, with its own heading's number and trimmed name and its own trimmed text. |
| Corpus.ProseIsConserved | scripts/perf/build_large_corpus.py:68-76 | Every character of the chapters that is not white space is in the memories, once and in order. |
| Corpus.MemoriesAreTrimmed | scripts/perf/build_large_corpus.py:73-75 | No memory is blank or has blank ends. |
| RetentionFit.FitDefined | scripts/perf/measure_retention.py:114-121 | There is a fit if and only if the lists have one length and two distinct abscissae. |
| RetentionFit.FitIsOptimal | scripts/perf/measure_retention.py:116-124 | The fitted line has the least sum of squared residuals over all lines, and no other line attains it. |
| RetentionFit.VariationSplits | scripts/perf/measure_retention.py:119-129 | Total variation is residual variation plus squared slope times the abscissae's variation. |
| RetentionFit.RSquaredMeaning | scripts/perf/measure_retention.py:125-129 | R squared lies between 0 and 1, is 1 if and only if varying ordinates lie on one line, and a constant series gives slope 0, its value and 0. |
| RetentionFit.RSquaredExact | scripts/perf/measure_retention.py:125-129 | For varying ordinates R squared times their variation is what the line explains, slope squared times the abscissae's variation; times both variations, it is the covariation squared. |
| RetentionFit.SlopesMultiply | scripts/perf/measure_retention.py:116-129 | Fitting either list over the other gives the same R squared, the product of the two slopes. |
| RetentionFit.FitRecoversLine | scripts/perf/measure_retention.py:116-129 | Points on a line give exactly that line. |
| RetentionFit.OrderIsIrrelevant | scripts/perf/measure_retention.py:116-129 | Permuting the points does not change the fit. |
| RetentionFit.UnitIsIrrelevant | scripts/perf/measure_retention.py:116-129 | Measuring the abscissae in another unit and from another origin divides the slope, shifts the intercept and keeps R squared. |
| RetentionFit.ProjectionIgnoresUnit | scripts/perf/measure_retention.py:428-436 | So a projection, or its refusal, is the same in every unit. |
| RetentionFit.ProjectionMeaning | scripts/perf/measure_retention.py:428-436 | A projection is refused if and only if there is no line, the ordinates are constant or the line leaves over a tenth of their variation unexplained; else it is the ordinate of the one best line. |
| RetentionFit.ProjectionContinuesLine | scripts/perf/measure_retention.py:428-436 | On points of a rising or falling line the projection is that line's own ordinate. |

## Left out

- RetentionFit.FitIsOptimal: over the real numbers; floating-point rounding is not modelled.
- The inside of a run (batches, retries, provenance, telemetry) and task bodies: a run only looks at its
  pipeline and tells its watcher when it starts and ends. Per-task watcher events are left out with it.
- Null pointers, invalid UTF-8 and a missing runtime in the C entry points: one early return each.
- CPipelineTheorems.RefusedExactlyWhileHeld: a C entry point's use of a handle is one atomic step. A setter's
  `Arc::get_mut` and write are two, between which another thread could execute the same handle.
- CPipelineRecords.ErrorsAreTheCallers: of the errors a thread can find only the setters' are modelled; a
  failed run also leaves one on the thread it is reported on.
- Cancellation through a task context, and waiting on a run handle twice.
- PyPipelines.StepRefines: the sync run's result conversion and the watcher bridge are not modelled.
- HandleLifecycle.InvStep: one set of engines stands for the seven the component manager caches, and the
  strict configuration check, owner id, flushes and telemetry are left out; a failing build is kept.
  The drain timeout of a close is not modelled, nor what a destructor does to engines only dropped.
- HandleLastDrop.LastDropLeavesOpenExactly: the drop finds no other close or release still going on.
- HandleTheorems.HandleState.Services: the method is one thread's undisturbed run; interleavings are in
  the machine.
- OpSyncVerdicts.VerdictIsExact: a callback after the verdict uses a destroyed mutex, which C leaves undefined, so
  histories end there. The wait loop is modelled by the machine's steps, not as a method.
- OpSync.OpSync.DeferredCallback: the mutex is free and the five steps undisturbed; contention is in the machine.
- ValueConversion.Accepted: subclass checks other than bool before int, and lone surrogates in strings.
- `opts_to_camel_json` and `normalise_inputs`: a null test and a type test around the conversion.
- Letter case outside ASCII, in all the key translations.
- SettingsSpelling.SettingsRoundTrip: JavaScript's prototype keys and its ordering of integer-like keys.
- Sentinel.RoundTrip: the JSON text is opaque; its parser is not modelled.
- Membership.QueryDatasetMembership: the SQL engine; tables and columns are given by what they hold.
- Corpus.SplitChapters: the regular-expression engine; matches are given, in order and apart.
- `parse_sizes`, `default_sizes` and `human_bytes`: reading one body settles them.
- The databases, models, servers and packaging behind the SDK.
