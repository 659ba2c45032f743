/** What every run of the C pipeline machine keeps. */
module CPipelineSafety {
  import opened Wrappers
  import opened Pipelines
  import opened SharedBoxes
  import opened CPipelines

  // ----- References -----

  ghost function PipelineRefs(runs: map<RunId, Run>): Refs {
    map r | r in runs && runs[r].holdsPipeline :: runs[r].pipeline
  }

  ghost function WatcherRefs(runs: map<RunId, Run>): Refs {
    map r | r in runs && runs[r].holdsWatcher && runs[r].watcher.Some? :: runs[r].watcher.value
  }

  ghost predicate RefsCounted(s: State) {
    && Counted(s.pipelines, PipelineRefs(s.runs))
    && Counted(s.watchers, WatcherRefs(s.runs))
    && s.pipelines.Keys <= s.pipelineIds && s.watchers.Keys <= s.watcherIds
  }

  lemma RefsUpdated(runs: map<RunId, Run>, r: RunId, run: Run)
    ensures PipelineRefs(runs[r := run]) ==
            if run.holdsPipeline then PipelineRefs(runs)[r := run.pipeline] else PipelineRefs(runs) - {r}
    ensures WatcherRefs(runs[r := run]) ==
            if run.holdsWatcher && run.watcher.Some? then WatcherRefs(runs)[r := run.watcher.value]
            else WatcherRefs(runs) - {r}
  {
  }

  lemma RefsKept(runs: map<RunId, Run>, r: RunId)
    requires r in runs
    ensures runs[r := runs[r]] == runs
    ensures PipelineRefs(runs) ==
            if runs[r].holdsPipeline then PipelineRefs(runs)[r := runs[r].pipeline] else PipelineRefs(runs) - {r}
    ensures WatcherRefs(runs) ==
            if runs[r].holdsWatcher && runs[r].watcher.Some? then WatcherRefs(runs)[r := runs[r].watcher.value]
            else WatcherRefs(runs) - {r}
  {
    RefsUpdated(runs, r, runs[r]);
  }

  /** The run an event concerns, and what the event makes of it. */
  function RunOf(e: Event): Option<RunId> {
    match e
    case Execute(r, _, _, _) => Some(r)
    case Observe(r) => Some(r)
    case Notify(r, _) => Some(r)
    case Finish(r, _) => Some(r)
    case DropPipeline(r) => Some(r)
    case DropWatcher(r) => Some(r)
    case Report(r) => Some(r)
    case Abort(r) => Some(r)
    case Wait(r) => Some(r)
    case Detach(r) => Some(r)
    case _ => None
  }

  function RunAfter(s: State, e: Event): Run
    requires Enabled(s, e) && RunOf(e).Some?
  {
    match e
    case Execute(_, p, mode, watcher) => NewRun(p, mode, watcher)
    case Observe(r) => s.runs[r].(seen := s.runs[r].seen + [Given(s, r)])
    case Notify(r, notice) => s.runs[r].(told := s.runs[r].told + [notice])
    case Finish(r, outcome) => s.runs[r].(outcome := Some(outcome))
    case DropPipeline(r) => s.runs[r].(holdsPipeline := false)
    case DropWatcher(r) => s.runs[r].(holdsWatcher := false)
    case Report(r) => s.runs[r].(reported := true)
    case Abort(r) => s.runs[r].(aborted := true)
    case Wait(r) => s.runs[r].(handle := Waited)
    case Detach(r) => s.runs[r].(handle := NoHandle)
  }

  /** An event concerns at most one run, which was there before unless it starts here. */
  lemma RunsAfter(s: State, e: Event)
    requires Enabled(s, e)
    ensures RunOf(e).None? ==> Step(s, e).runs == s.runs
    ensures RunOf(e).Some? ==> Step(s, e).runs == s.runs[RunOf(e).value := RunAfter(s, e)]
    ensures RunOf(e).Some? ==> (e.Execute? <==> RunOf(e).value !in s.runs)
  {
    hide DropHandle, Retain, Release, GoesWith, DestroyNotice, NoticeEntry, MayFinish, Runnable, Splittable,
         Edited, Replaced, RetainWatcher;
  }

  /** The runs keep what they hold, except for the one step that lets it go. */
  lemma RefsAfter(s: State, e: Event)
    requires Enabled(s, e)
    ensures PipelineRefs(Step(s, e).runs) ==
            match e
            case Execute(r, p, _, _) => PipelineRefs(s.runs)[r := p]
            case DropPipeline(r) => PipelineRefs(s.runs) - {r}
            case _ => PipelineRefs(s.runs)
    ensures WatcherRefs(Step(s, e).runs) ==
            match e
            case Execute(r, _, _, Some(w)) => WatcherRefs(s.runs)[r := w]
            case DropWatcher(r) => WatcherRefs(s.runs) - {r}
            case _ => WatcherRefs(s.runs)
  {
    RunsAfter(s, e);
    if RunOf(e).Some? {
      var r := RunOf(e).value;
      RefsUpdated(s.runs, r, RunAfter(s, e));
      if !e.Execute? {
        RefsKept(s.runs, r);
      } else {
        NotHeldYet(s, r);
      }
    }
    hide Step, Enabled, PipelineRefs, WatcherRefs;
  }

  lemma AcceptRefs(s: State, p: PipelineId, setter: Setter)
    requires Counted(s.pipelines, PipelineRefs(s.runs)) && p in s.pipelines && !Ignored(setter)
    ensures Counted(AcceptStep(s, p, setter).pipelines, PipelineRefs(s.runs))
    ensures AcceptStep(s, p, setter).pipelines.Keys == s.pipelines.Keys
  {
    ContentCounted(s.pipelines, PipelineRefs(s.runs), p, Edited(s.pipelines[p].content, setter));
    hide Counted, Edited, Replaced, PipelineRefs;
  }

  lemma SetRefs(s: State, thread: Thread, p: PipelineId, setter: Setter)
    requires Counted(s.pipelines, PipelineRefs(s.runs)) && p in s.pipelines
    ensures Counted(SetStep(s, thread, p, setter).pipelines, PipelineRefs(s.runs))
    ensures SetStep(s, thread, p, setter).pipelines.Keys == s.pipelines.Keys
    ensures SetStep(s, thread, p, setter).watchers == s.watchers
    ensures SetStep(s, thread, p, setter).pipelineIds == s.pipelineIds
    ensures SetStep(s, thread, p, setter).watcherIds == s.watcherIds
  {
    if !Ignored(setter) {
      AcceptRefs(s, p, setter);
    }
    hide Counted, Edited, Replaced, PipelineRefs, Ignored;
  }

  lemma RefsCountedStep(s: State, e: Event)
    requires RefsCounted(s) && Enabled(s, e)
    ensures RefsCounted(Step(s, e))
  {
    RefsAfter(s, e);
    hide Counted, SetStep, DropHandle, Retain, Release, PipelineRefs, WatcherRefs, MayFinish, Runnable, Splittable;
    match e {
      case NewPipeline(p, description) =>
        NewCounted(s.pipelines, PipelineRefs(s.runs), p, Pipelines.NewPipeline(p, description));
      case NewWatcher(w) =>
        NewCounted(s.watchers, WatcherRefs(s.runs), w, ());
      case Set(thread, p, setter) =>
        SetRefs(s, thread, p, setter);
      case DestroyPipeline(p) =>
        DropHandleCounted(s.pipelines, PipelineRefs(s.runs), p);
        HandleKeys(s.pipelines, p);
      case DestroyWatcher(w) =>
        DropHandleCounted(s.watchers, WatcherRefs(s.runs), w);
        HandleKeys(s.watchers, w);
      case Execute(r, p, _, watcher) =>
        NotHeldYet(s, r);
        RetainCounted(s.pipelines, PipelineRefs(s.runs), r, p);
        RetainKeys(s.pipelines, p);
        if watcher.Some? {
          RetainCounted(s.watchers, WatcherRefs(s.runs), r, watcher.value);
          RetainKeys(s.watchers, watcher.value);
        }
      case DropPipeline(r) =>
        RunRefs(s, r);
        ReleaseCounted(s.pipelines, PipelineRefs(s.runs), r);
        ReleaseKeys(s.pipelines, s.runs[r].pipeline);
      case DropWatcher(r) =>
        RunRefs(s, r);
        ReleaseCounted(s.watchers, WatcherRefs(s.runs), r);
        ReleaseKeys(s.watchers, s.runs[r].watcher.value);
      case _ =>
    }
  }

  lemma NotHeldYet(s: State, r: RunId)
    requires r !in s.runs
    ensures r !in PipelineRefs(s.runs) && r !in WatcherRefs(s.runs)
  {
  }

  lemma RunRefs(s: State, r: RunId)
    requires r in s.runs
    ensures s.runs[r].holdsPipeline ==> r in PipelineRefs(s.runs) && PipelineRefs(s.runs)[r] == s.runs[r].pipeline
    ensures s.runs[r].holdsWatcher && s.runs[r].watcher.Some? ==>
              r in WatcherRefs(s.runs) && WatcherRefs(s.runs)[r] == s.runs[r].watcher.value
  {
  }

  lemma HandleKeys<T>(boxes: Boxes<T>, p: nat)
    requires p in boxes && boxes[p].strong > 0
    ensures DropHandle(boxes, p).Keys <= boxes.Keys
  {
  }

  lemma RetainKeys<T>(boxes: Boxes<T>, p: nat)
    requires p in boxes
    ensures Retain(boxes, p).Keys == boxes.Keys
  {
  }

  lemma ReleaseKeys<T>(boxes: Boxes<T>, p: nat)
    requires p in boxes && boxes[p].strong > 0
    ensures Release(boxes, p).Keys <= boxes.Keys
  {
  }

  // ----- Runs -----

  /** A run holds what it was given until its outcome is known, and nothing once it has been reported. */
  predicate Sound(run: Run) {
    && (run.outcome.None? ==> run.holdsPipeline && run.holdsWatcher == run.watcher.Some?)
    && (run.holdsWatcher ==> run.watcher.Some?)
    && (run.reported ==> run.outcome.Some? && !run.holdsPipeline && !run.holdsWatcher)
    && (run.told == [] || run.told == [Started] || exists o :: run.told == [Started, Ended(o)])
  }

  ghost predicate RunsSound(s: State) {
    forall r :: r in s.runs ==> Sound(s.runs[r])
  }

  lemma RunsSoundStep(s: State, e: Event)
    requires RunsSound(s) && Enabled(s, e)
    ensures RunsSound(Step(s, e))
  {
    hide SetStep, DropHandle, Retain, Release, GoesWith, DestroyNotice, NoticeEntry, Splittable, Runnable;
    RunsAfter(s, e);
    hide Step;
    if e.Notify? {
      assert [Started] + [e.notice] == [Started, e.notice];
    }
  }
}
