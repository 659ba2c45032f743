/**
 Pipelines behind the C interface (`capi/include/cognee.h`): handles, runs and watchers share
 reference-counted objects, and a pipeline is changed only while its handle is the one reference.
 */
module CPipelines {
  import opened Wrappers
  import opened Pipelines
  import opened SharedBoxes

  // ----- State -----

  type PipelineId = nat
  type WatcherId = nat
  type RunId = nat
  type Thread = nat

  datatype Mode = Blocking | Background | Async

  /** What has become of a background run's handle. */
  datatype RunHandle = NoHandle | Held | Waited

  datatype Outcome = Succeeded | Failed | Cancelled

  /** Pipeline-level watcher events. */
  datatype Notice = Started | Ended(outcome: Outcome)

  datatype Run = Run(
    mode: Mode,
    pipeline: PipelineId,
    holdsPipeline: bool,
    watcher: Option<WatcherId>,
    holdsWatcher: bool,
    handle: RunHandle,
    aborted: bool,
    seen: seq<Pipeline>,
    told: seq<Notice>,
    outcome: Option<Outcome>,
    reported: bool)

  /** An argument whose ownership a setter takes. */
  datatype Arg = TaskArg(task: nat) | DataArg(data: nat)

  datatype SetterError = InUse | MaxAttemptsZero

  /** What the embedding program can observe happening, in order. */
  datatype Entry =
    | Notified(w: WatcherId, r: RunId, notice: Notice)
    | Destroyed(w: WatcherId, cause: Option<RunId>) // by the handle's destroy call, or when a run let go
    | Reported(r: RunId, outcome: Outcome)

  datatype State = State(
    pipelines: Boxes<Pipeline>,
    watchers: Boxes<()>,
    runs: map<RunId, Run>,
    pipelineIds: set<PipelineId>, // every one there ever was
    watcherIds: set<WatcherId>,
    passed: set<Arg>,
    freed: seq<Arg>,
    errors: map<Thread, SetterError>,
    log: seq<Entry>)

  const START := State(map[], map[], map[], {}, {}, {}, [], map[], [])

  datatype Setter =
    | SetName(name: string)
    | AddTask(info: TaskInfo)
    | SetBatchSize(size: nat)
    | SetConcurrency(n: nat)
    | SetRetryNone
    | SetRetryLimited(maxAttempts: nat, exponential: bool, baseMs: nat, factor: nat)
    | SetDataId(data: nat)

  datatype Event =
    | NewPipeline(p: PipelineId, description: string)
    | NewWatcher(w: WatcherId)
    | Set(thread: Thread, p: PipelineId, setter: Setter)
    | ClearError(thread: Thread)
    | DestroyPipeline(p: PipelineId)
    | DestroyWatcher(w: WatcherId)
    | Execute(r: RunId, p: PipelineId, mode: Mode, watcher: Option<WatcherId>)
    | Observe(r: RunId)
    | Notify(r: RunId, notice: Notice)
    | Finish(r: RunId, outcome: Outcome)
    | DropPipeline(r: RunId)
    | DropWatcher(r: RunId)
    | Report(r: RunId)
    | Abort(r: RunId)
    | Wait(r: RunId)
    | Detach(r: RunId)

  // ----- Steps -----

  function Args(p: Pipeline): seq<Arg> {
    seq(|p.tasks|, i requires 0 <= i < |p.tasks| => TaskArg(p.tasks[i].task))
    + if p.dataId.Some? then [DataArg(p.dataId.value)] else []
  }

  /** The argument a setter takes ownership of. */
  function Taken(setter: Setter): Option<Arg> {
    match setter
    case AddTask(info) => Some(TaskArg(info.task))
    case SetDataId(data) => Some(DataArg(data))
    case _ => None
  }

  function OwnedSet(setter: Setter): set<Arg> {
    match Taken(setter)
    case Some(arg) => {arg}
    case None => {}
  }

  function OwnedSeq(setter: Setter): seq<Arg> {
    match Taken(setter)
    case Some(arg) => [arg]
    case None => []
  }

  /** The setters return before looking at the pipeline on these arguments. */
  predicate Ignored(setter: Setter) {
    match setter
    case SetBatchSize(size) => size == 0
    case SetConcurrency(n) => n == 0
    case SetRetryLimited(maxAttempts, _, _, _) => maxAttempts == 0
    case _ => false
  }

  function Edited(p: Pipeline, setter: Setter): Pipeline
    requires !Ignored(setter)
  {
    match setter
    case SetName(name) => p.(name := Some(name))
    case AddTask(info) => p.(tasks := p.tasks + [info])
    case SetBatchSize(size) => p.(batchSize := size)
    case SetConcurrency(n) => p.(concurrency := n)
    case SetRetryNone => p.(retry := NoRetry)
    case SetRetryLimited(maxAttempts, exponential, baseMs, factor) =>
      p.(retry := if exponential then Exponential(maxAttempts, baseMs, factor) else Constant(maxAttempts, baseMs))
    case SetDataId(data) => p.(dataId := Some(data))
  }

  /** A replaced data-id function is dropped. */
  function Replaced(p: Pipeline, setter: Setter): seq<Arg> {
    if setter.SetDataId? && p.dataId.Some? then [DataArg(p.dataId.value)] else []
  }

  function SetStep(s: State, thread: Thread, p: PipelineId, setter: Setter): State
    requires p in s.pipelines
  {
    if setter.SetRetryLimited? && setter.maxAttempts == 0 then s.(errors := s.errors[thread := MaxAttemptsZero])
    else if Ignored(setter) then s
    else if s.pipelines[p].strong == 1 then AcceptStep(s, p, setter)
    else
      s.(passed := s.passed + OwnedSet(setter),
         freed := s.freed + OwnedSeq(setter),
         errors := s.errors[thread := InUse])
  }

  /** `pipeline_mut` found the handle to be the only reference. */
  function AcceptStep(s: State, p: PipelineId, setter: Setter): State
    requires p in s.pipelines && !Ignored(setter)
  {
    var box := s.pipelines[p];
    s.(passed := s.passed + OwnedSet(setter),
       freed := s.freed + Replaced(box.content, setter),
       pipelines := s.pipelines[p := box.(content := Edited(box.content, setter))])
  }

  /** What goes with a reference to a pipeline: everything it owns, if it was the last. */
  function GoesWith(s: State, p: PipelineId): seq<Arg>
    requires p in s.pipelines
  {
    if s.pipelines[p].strong == 1 then Args(s.pipelines[p].content) else []
  }

  /** And with a reference to a watcher: the last one runs the vtable's `destroy`. */
  function DestroyNotice(s: State, w: WatcherId, cause: Option<RunId>): seq<Entry>
    requires w in s.watchers
  {
    if s.watchers[w].strong == 1 then [Destroyed(w, cause)] else []
  }

  function NewRun(p: PipelineId, mode: Mode, watcher: Option<WatcherId>): Run {
    Run(mode, p, true, watcher, watcher.Some?, if mode.Background? then Held else NoHandle, false, [], [], None, false)
  }

  function WithRun(s: State, r: RunId, run: Run): State {
    s.(runs := s.runs[r := run])
  }

  /** The run is still executing, so it holds what it was given. */
  predicate Executing(s: State, r: RunId) {
    r in s.runs && s.runs[r].outcome.None? && s.runs[r].holdsPipeline && s.runs[r].pipeline in s.pipelines
  }

  function Given(s: State, r: RunId): Pipeline
    requires Executing(s, r)
  {
    s.pipelines[s.runs[r].pipeline].content
  }

  /** How a run can come to an end, given what its watcher has been told. */
  predicate MayFinish(run: Run, content: Pipeline, outcome: Outcome) {
    || run.told == [Started, Ended(outcome)]
    || (run.told == [] && !Runnable(content) && outcome == Failed)
    || (run.told == [Started] && !Splittable(content) && outcome == Failed)
    || (run.aborted && outcome == Cancelled)
  }

  /** When a run can take each of the steps that follow its outcome. */
  predicate MayDropPipeline(s: State, run: Run) {
    && run.outcome.Some? && run.holdsPipeline && (run.mode.Blocking? ==> !run.holdsWatcher)
    && run.pipeline in s.pipelines && s.pipelines[run.pipeline].strong > 0
  }

  predicate MayDropWatcher(s: State, run: Run) {
    && run.outcome.Some? && run.holdsWatcher && (run.mode.Async? ==> !run.holdsPipeline)
    && run.watcher.Some? && run.watcher.value in s.watchers && s.watchers[run.watcher.value].strong > 0
  }

  predicate MayReport(run: Run) {
    && run.outcome.Some? && !run.holdsPipeline && !run.holdsWatcher
    && !run.reported && (run.mode.Background? ==> run.handle == Waited)
  }

  predicate Enabled(s: State, e: Event) {
    match e
    case NewPipeline(p, _) => p !in s.pipelineIds
    case NewWatcher(w) => w !in s.watcherIds
    case Set(_, p, setter) => Live(s.pipelines, p) && OwnedSet(setter) !! s.passed
    case ClearError(_) => true
    case DestroyPipeline(p) => Live(s.pipelines, p)
    case DestroyWatcher(w) => Live(s.watchers, w)
    case Execute(r, p, _, watcher) =>
      r !in s.runs && Live(s.pipelines, p) && (watcher.Some? ==> Live(s.watchers, watcher.value))
    case Observe(r) => Executing(s, r)
    case Notify(r, Started) => Executing(s, r) && s.runs[r].told == [] && Runnable(Given(s, r))
    case Notify(r, Ended(_)) => Executing(s, r) && s.runs[r].told == [Started] && Splittable(Given(s, r))
    case Finish(r, outcome) => Executing(s, r) && MayFinish(s.runs[r], Given(s, r), outcome)
    case DropPipeline(r) => r in s.runs && MayDropPipeline(s, s.runs[r])
    case DropWatcher(r) => r in s.runs && MayDropWatcher(s, s.runs[r])
    case Report(r) => r in s.runs && MayReport(s.runs[r])
    case Abort(r) => r in s.runs && s.runs[r].handle == Held
    case Wait(r) => r in s.runs && s.runs[r].handle == Held
    case Detach(r) => r in s.runs && s.runs[r].handle == Held
  }

  function NoticeEntry(run: Run, r: RunId, notice: Notice): seq<Entry> {
    if run.holdsWatcher && run.watcher.Some? then [Notified(run.watcher.value, r, notice)] else []
  }

  function RetainWatcher(watchers: Boxes<()>, watcher: Option<WatcherId>): Boxes<()>
    requires watcher.Some? ==> watcher.value in watchers
  {
    if watcher.Some? then Retain(watchers, watcher.value) else watchers
  }

  function Step(s: State, e: Event): State
    requires Enabled(s, e)
  {
    match e
    case NewPipeline(p, description) =>
      s.(pipelines := s.pipelines[p := Box(Pipelines.NewPipeline(p, description), true, 1)],
         pipelineIds := s.pipelineIds + {p})
    case NewWatcher(w) => s.(watchers := s.watchers[w := Box((), true, 1)], watcherIds := s.watcherIds + {w})
    case Set(thread, p, setter) => SetStep(s, thread, p, setter)
    case ClearError(thread) => s.(errors := s.errors - {thread})
    case DestroyPipeline(p) => s.(pipelines := DropHandle(s.pipelines, p), freed := s.freed + GoesWith(s, p))
    case DestroyWatcher(w) => s.(watchers := DropHandle(s.watchers, w), log := s.log + DestroyNotice(s, w, None))
    case Execute(r, p, mode, watcher) =>
      s.(runs := s.runs[r := NewRun(p, mode, watcher)],
         pipelines := Retain(s.pipelines, p),
         watchers := RetainWatcher(s.watchers, watcher))
    case Observe(r) => WithRun(s, r, s.runs[r].(seen := s.runs[r].seen + [Given(s, r)]))
    case Notify(r, notice) =>
      WithRun(s, r, s.runs[r].(told := s.runs[r].told + [notice])).(log := s.log + NoticeEntry(s.runs[r], r, notice))
    case Finish(r, outcome) => WithRun(s, r, s.runs[r].(outcome := Some(outcome)))
    case DropPipeline(r) =>
      var p := s.runs[r].pipeline;
      WithRun(s, r, s.runs[r].(holdsPipeline := false))
        .(pipelines := Release(s.pipelines, p), freed := s.freed + GoesWith(s, p))
    case DropWatcher(r) =>
      var w := s.runs[r].watcher.value;
      WithRun(s, r, s.runs[r].(holdsWatcher := false))
        .(watchers := Release(s.watchers, w), log := s.log + DestroyNotice(s, w, Some(r)))
    case Report(r) =>
      WithRun(s, r, s.runs[r].(reported := true)).(log := s.log + [Reported(r, s.runs[r].outcome.value)])
    case Abort(r) => WithRun(s, r, s.runs[r].(aborted := true))
    case Wait(r) => WithRun(s, r, s.runs[r].(handle := Waited))
    case Detach(r) => WithRun(s, r, s.runs[r].(handle := NoHandle))
  }

  /** A run of the whole system: any number of threads, interleaved in any way. */
  ghost predicate IsRun(s: State, es: seq<Event>)
    decreases |es|
  {
    es != [] ==> Enabled(s, es[0]) && IsRun(Step(s, es[0]), es[1..])
  }

  ghost function After(s: State, es: seq<Event>): State
    requires IsRun(s, es)
    decreases |es|
  {
    if es == [] then s else After(Step(s, es[0]), es[1..])
  }
}
