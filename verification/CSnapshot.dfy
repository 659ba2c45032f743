/**
 The C discipline refines the atomic-snapshot rule: refusing every change to a held pipeline is as
 good as copying the pipeline when a run starts.
 */
module CSnapshot {
  import opened Wrappers
  import opened Pipelines
  import opened SharedBoxes
  import opened CPipelines
  import opened CPipelineSafety
  import opened CPipelineOwnership

  /** The pipelines that still have a handle. */
  ghost function Handled(boxes: Boxes<Pipeline>): map<nat, Pipeline> {
    map p | p in boxes && boxes[p].handle :: boxes[p].content
  }

  /** A run's notices and outcome are possible for its plan. */
  ghost predicate Fits(run: Run, plan: Pipeline) {
    && (run.told != [] ==> Runnable(plan))
    && (|run.told| == 2 ==> Splittable(plan))
    && (run.outcome.Some? ==> MayFinish(run, plan, run.outcome.value))
  }

  ghost predicate RunRefines(contents: map<nat, Pipeline>, run: Run, planned: SpecRun) {
    && run.seen == planned.seen
    && (run.holdsPipeline ==> run.pipeline in contents && contents[run.pipeline] == planned.plan)
    && (planned.live <==> run.outcome.None?)
    && Fits(run, planned.plan)
  }

  ghost predicate RunsRefine(contents: map<nat, Pipeline>, runs: map<RunId, Run>, planned: map<RunId, SpecRun>) {
    && runs.Keys == planned.Keys
    && forall r :: r in runs ==> RunRefines(contents, runs[r], planned[r])
  }

  ghost predicate Refines(c: State, s: Spec) {
    && s.pipelines == Handled(c.pipelines)
    && RunsRefine(ContentsOf(c.pipelines), c.runs, s.runs)
  }

  /** The snapshot rule's view of an event. */
  function SpecOf(c: State, e: Event): SpecEvent
    requires Enabled(c, e)
  {
    match e
    case NewPipeline(p, description) => Put(p, Pipelines.NewPipeline(p, description))
    case Set(_, p, setter) =>
      if Ignored(setter) || c.pipelines[p].strong != 1 then Nothing
      else Put(p, Edited(c.pipelines[p].content, setter))
    case DestroyPipeline(p) => Drop(p)
    case Execute(r, p, _, _) => Start(r, p)
    case Observe(r) => SpecEvent.Observe(r)
    case Finish(r, _) => Stop(r)
    case _ => Nothing
  }

  // ----- The runs, as contents change under them -----

  /** A pipeline no run holds may change, come or go. */
  lemma UnheldContents(contents: map<nat, Pipeline>, contents': map<nat, Pipeline>,
                       runs: map<RunId, Run>, planned: map<RunId, SpecRun>)
    requires RunsRefine(contents, runs, planned)
    requires forall r :: r in runs && runs[r].holdsPipeline && runs[r].pipeline in contents ==>
      runs[r].pipeline in contents' && contents'[runs[r].pipeline] == contents[runs[r].pipeline]
    ensures RunsRefine(contents', runs, planned)
  {
    hide Fits;
  }

  lemma RunReplaced(contents: map<nat, Pipeline>, runs: map<RunId, Run>, planned: map<RunId, SpecRun>,
                    r: RunId, run: Run, plan: SpecRun)
    requires RunsRefine(contents, runs, planned) && RunRefines(contents, run, plan)
    ensures RunsRefine(contents, runs[r := run], planned[r := plan])
  {
    hide RunRefines;
  }

  lemma RunKept(contents: map<nat, Pipeline>, runs: map<RunId, Run>, planned: map<RunId, SpecRun>,
                r: RunId, run: Run)
    requires RunsRefine(contents, runs, planned) && r in runs && RunRefines(contents, run, planned[r])
    ensures RunsRefine(contents, runs[r := run], planned)
  {
    hide RunRefines;
    assert planned[r := planned[r]] == planned;
    RunReplaced(contents, runs, planned, r, run, planned[r]);
  }

  // ----- What each step does to the contents and to the handles -----

  lemma PutContents(boxes: Boxes<Pipeline>, p: PipelineId, content: Pipeline, strong: nat)
    ensures ContentsOf(boxes[p := Box(content, true, strong)]) == ContentsOf(boxes)[p := content]
    ensures Handled(boxes[p := Box(content, true, strong)]) == Handled(boxes)[p := content]
  {
  }

  lemma RetainContents(boxes: Boxes<Pipeline>, p: PipelineId)
    requires p in boxes
    ensures ContentsOf(Retain(boxes, p)) == ContentsOf(boxes)
    ensures Handled(Retain(boxes, p)) == Handled(boxes)
  {
  }

  lemma ReleaseContents(boxes: Boxes<Pipeline>, p: PipelineId)
    requires p in boxes && boxes[p].strong > 0
    ensures ContentsOf(Release(boxes, p)) == if boxes[p].strong == 1 then ContentsOf(boxes) - {p} else ContentsOf(boxes)
    ensures Handled(Release(boxes, p)) == if boxes[p].strong == 1 then Handled(boxes) - {p} else Handled(boxes)
  {
  }

  lemma DropHandleContents(boxes: Boxes<Pipeline>, p: PipelineId)
    requires p in boxes && boxes[p].strong > 0
    ensures ContentsOf(DropHandle(boxes, p)) ==
            if boxes[p].strong == 1 then ContentsOf(boxes) - {p} else ContentsOf(boxes)
    ensures Handled(DropHandle(boxes, p)) == Handled(boxes) - {p}
  {
    var unhandled := boxes[p := boxes[p].(handle := false)];
    ReleaseContents(unhandled, p);
    assert ContentsOf(unhandled) == ContentsOf(boxes);
    assert Handled(unhandled) == Handled(boxes) - {p};
    hide Release;
  }

  // ----- Steps -----

  lemma HoldersElsewhere(c: State, p: PipelineId)
    requires RefsCounted(c) && Live(c.pipelines, p) && c.pipelines[p].strong == 1
    ensures forall r :: r in c.runs && c.runs[r].holdsPipeline ==> c.runs[r].pipeline != p
  {
    SoleReference(c.pipelines, PipelineRefs(c.runs), p);
    forall r | r in c.runs && c.runs[r].holdsPipeline ensures c.runs[r].pipeline != p {
      RunRefs(c, r);
    }
    hide Counted, PipelineRefs;
  }

  /** A change is accepted only when no run holds the pipeline. */
  lemma AcceptRefines(c: State, s: Spec, p: PipelineId, setter: Setter)
    requires Refines(c, s) && RefsCounted(c) && Live(c.pipelines, p) && c.pipelines[p].strong == 1 && !Ignored(setter)
    ensures Refines(AcceptStep(c, p, setter), SpecStep(s, Put(p, Edited(c.pipelines[p].content, setter))))
  {
    var edited := Edited(c.pipelines[p].content, setter);
    var contents := ContentsOf(c.pipelines);
    HoldersElsewhere(c, p);
    PutContents(c.pipelines, p, edited, 1);
    hide RefsCounted, Edited, Ignored, RunRefines;
    UnheldContents(contents, contents[p := edited], c.runs, s.runs);
    hide RunsRefine, ContentsOf, Handled;
    assert c.pipelines[p].(content := edited) == Box(edited, true, 1);
  }

  lemma SetRefines(c: State, s: Spec, thread: Thread, p: PipelineId, setter: Setter)
    requires Refines(c, s) && RefsCounted(c) && Enabled(c, Set(thread, p, setter))
    ensures SpecEnabled(s, SpecOf(c, Set(thread, p, setter)))
    ensures Refines(SetStep(c, thread, p, setter), SpecStep(s, SpecOf(c, Set(thread, p, setter))))
  {
    assert setter.SetRetryLimited? && setter.maxAttempts == 0 ==> Ignored(setter);
    hide AcceptStep, Edited, Ignored, RefsCounted, RunsRefine, ContentsOf, Handled;
    if !Ignored(setter) && c.pipelines[p].strong == 1 {
      AcceptRefines(c, s, p, setter);
      hide Refines;
    } else {
      var t := SetStep(c, thread, p, setter);
      assert t.runs == c.runs && t.pipelines == c.pipelines;
    }
  }

  lemma NewPipelineRefines(c: State, s: Spec, p: PipelineId, description: string)
    requires Refines(c, s) && RefsCounted(c) && Enabled(c, NewPipeline(p, description))
    ensures Refines(Step(c, NewPipeline(p, description)), SpecStep(s, SpecOf(c, NewPipeline(p, description))))
  {
    var content := Pipelines.NewPipeline(p, description);
    var contents := ContentsOf(c.pipelines);
    assert p !in contents;
    hide Counted, RunRefines;
    UnheldContents(contents, contents[p := content], c.runs, s.runs);
    PutContents(c.pipelines, p, content, 1);
    hide RunsRefine, RefsCounted, ContentsOf, Handled, Pipelines.NewPipeline;
  }

  /** What a run still holds has its content, however references elsewhere are lost. */
  lemma LossRefines(boxes: Boxes<Pipeline>, boxes': Boxes<Pipeline>, p: PipelineId,
                    runs: map<RunId, Run>, planned: map<RunId, SpecRun>)
    requires p in boxes
    requires ContentsOf(boxes') == if boxes[p].strong == 1 then ContentsOf(boxes) - {p} else ContentsOf(boxes)
    requires Counted(boxes', PipelineRefs(runs)) && RunsRefine(ContentsOf(boxes), runs, planned)
    ensures RunsRefine(ContentsOf(boxes'), runs, planned)
  {
    var contents, contents' := ContentsOf(boxes), ContentsOf(boxes');
    forall r | r in runs && runs[r].holdsPipeline && runs[r].pipeline in contents
      ensures runs[r].pipeline in contents' && contents'[runs[r].pipeline] == contents[runs[r].pipeline]
    {
      assert r in PipelineRefs(runs) && PipelineRefs(runs)[r] == runs[r].pipeline;
      assert runs[r].pipeline in boxes';
      hide PipelineRefs, RunsRefine, Holding;
    }
    hide Counted, PipelineRefs, ContentsOf;
    UnheldContents(contents, contents', runs, planned);
    hide RunsRefine;
  }

  lemma DestroyRefines(c: State, s: Spec, p: PipelineId)
    requires Refines(c, s) && RefsCounted(c) && Enabled(c, DestroyPipeline(p))
    ensures SpecEnabled(s, Drop(p))
    ensures Refines(Step(c, DestroyPipeline(p)), SpecStep(s, Drop(p)))
  {
    hide RunsRefine, Counted;
    assert p in s.pipelines;
    DropHandleCounted(c.pipelines, PipelineRefs(c.runs), p);
    DropHandleContents(c.pipelines, p);
    hide DropHandle, ContentsOf, Handled, PipelineRefs, GoesWith;
    LossRefines(c.pipelines, DropHandle(c.pipelines, p), p, c.runs, s.runs);
  }

  /** A run that lets its pipeline go is still the run its plan describes. */
  lemma LetGoRefines(contents: Contents, runs: map<RunId, Run>, planned: map<RunId, SpecRun>, r: RunId)
    requires RunsRefine(contents, runs, planned) && r in runs
    ensures RunsRefine(contents, runs[r := runs[r].(holdsPipeline := false)], planned)
  {
    var run := runs[r].(holdsPipeline := false);
    assert RunRefines(contents, run, planned[r]) by {
      assert RunRefines(contents, runs[r], planned[r]);
    }
    hide RunsRefine, RunRefines;
    RunKept(contents, runs, planned, r, run);
  }

  /** Nor is a handle lost with a run's reference. */
  lemma LetGoHandled(c: State, r: RunId)
    requires RefsCounted(c) && r in c.runs && c.runs[r].holdsPipeline
    ensures c.runs[r].pipeline in c.pipelines && c.pipelines[c.runs[r].pipeline].strong > 0
    ensures Handled(Release(c.pipelines, c.runs[r].pipeline)) == Handled(c.pipelines)
  {
    var p := c.runs[r].pipeline;
    HandleNotLast(c, r);
    ReleaseContents(c.pipelines, p);
    if !c.pipelines[p].handle {
      LastHandled(c.pipelines, p);
    }
    hide Release, ContentsOf, Handled, PipelineRefs;
  }

  lemma DropRefines(c: State, s: Spec, r: RunId)
    requires Refines(c, s) && RefsCounted(c) && Enabled(c, DropPipeline(r))
    ensures Refines(Step(c, DropPipeline(r)), s)
  {
    hide RunsRefine, Counted;
    var p, run := c.runs[r].pipeline, c.runs[r].(holdsPipeline := false);
    LetGoRefines(ContentsOf(c.pipelines), c.runs, s.runs, r);
    LetGoHandled(c, r);
    RunRefs(c, r);
    ReleaseCounted(c.pipelines, PipelineRefs(c.runs), r);
    RefsUpdated(c.runs, r, run);
    ReleaseContents(c.pipelines, p);
    hide Release, ContentsOf, Handled, PipelineRefs, WatcherRefs, GoesWith;
    LossRefines(c.pipelines, Release(c.pipelines, p), p, c.runs[r := run], s.runs);
  }

  lemma LastHandled(boxes: Boxes<Pipeline>, p: PipelineId)
    requires p in boxes && !boxes[p].handle
    ensures Handled(boxes) - {p} == Handled(boxes)
  {
  }

  /** A run's reference is not the last one while the handle is there. */
  lemma HandleNotLast(c: State, r: RunId)
    requires RefsCounted(c) && r in c.runs && c.runs[r].holdsPipeline
    ensures c.runs[r].pipeline in c.pipelines
    ensures c.pipelines[c.runs[r].pipeline].handle ==> c.pipelines[c.runs[r].pipeline].strong > 1
  {
    RunRefs(c, r);
    var p := c.runs[r].pipeline;
    assert r in Holding(PipelineRefs(c.runs), p);
  }

  lemma ExecuteRefines(c: State, s: Spec, r: RunId, p: PipelineId, mode: Mode, watcher: Option<WatcherId>)
    requires Refines(c, s) && Enabled(c, Execute(r, p, mode, watcher))
    ensures SpecEnabled(s, Start(r, p))
    ensures Refines(Step(c, Execute(r, p, mode, watcher)), SpecStep(s, Start(r, p)))
  {
    assert r !in s.runs;
    hide RunsRefine;
    RetainContents(c.pipelines, p);
    assert p in s.pipelines && s.pipelines[p] == ContentsOf(c.pipelines)[p];
    hide Handled, Retain, RetainWatcher;
    RunReplaced(ContentsOf(c.pipelines), c.runs, s.runs, r, NewRun(p, mode, watcher),
                SpecRun(s.pipelines[p], [], true));
  }

  /** The other events of a run, or of none. */
  predicate Plain(e: Event) {
    !(e.NewPipeline? || e.Set? || e.DestroyPipeline? || e.Execute? || e.DropPipeline?)
  }

  lemma PlainRun(c: State, s: Spec, e: Event)
    requires Refines(c, s) && RunsSound(c) && Enabled(c, e) && Plain(e) && RunOf(e).Some?
    ensures SpecEnabled(s, SpecOf(c, e))
    ensures RunRefines(ContentsOf(c.pipelines), RunAfter(c, e),
                       SpecStep(s, SpecOf(c, e)).runs[RunOf(e).value])
    ensures SpecStep(s, SpecOf(c, e)).pipelines == s.pipelines
    ensures SpecStep(s, SpecOf(c, e)).runs == s.runs[RunOf(e).value := SpecStep(s, SpecOf(c, e)).runs[RunOf(e).value]]
  {
    hide Runnable, Splittable;
    var r := RunOf(e).value;
    assert RunRefines(ContentsOf(c.pipelines), c.runs[r], s.runs[r]) && Sound(c.runs[r]);
    assert s.runs[r := s.runs[r]] == s.runs;
  }

  lemma PlainRefines(c: State, s: Spec, e: Event)
    requires Refines(c, s) && RunsSound(c) && Enabled(c, e) && Plain(e)
    ensures SpecEnabled(s, SpecOf(c, e))
    ensures Refines(Step(c, e), SpecStep(s, SpecOf(c, e)))
  {
    RunsAfter(c, e);
    PlainKeepsPipelines(c, e);
    hide Step;
    if RunOf(e).Some? {
      PlainRun(c, s, e);
      hide SpecOf, SpecStep, RunAfter, Enabled;
      var r := RunOf(e).value;
      RunReplaced(ContentsOf(c.pipelines), c.runs, s.runs, r, RunAfter(c, e),
                  SpecStep(s, SpecOf(c, e)).runs[r]);
    }
  }

  lemma PlainKeepsPipelines(c: State, e: Event)
    requires Enabled(c, e) && Plain(e)
    ensures Step(c, e).pipelines == c.pipelines
  {
    hide Release, DropHandle, Retain, RetainWatcher, NoticeEntry, DestroyNotice;
  }

  lemma StepRefines(c: State, s: Spec, e: Event)
    requires Refines(c, s) && RefsCounted(c) && RunsSound(c) && Enabled(c, e)
    ensures SpecEnabled(s, SpecOf(c, e))
    ensures Refines(Step(c, e), SpecStep(s, SpecOf(c, e)))
  {
    match e {
      case NewPipeline(p, description) => NewPipelineRefines(c, s, p, description);
      case Set(thread, p, setter) => SetRefines(c, s, thread, p, setter);
      case DestroyPipeline(p) => DestroyRefines(c, s, p);
      case Execute(r, p, mode, watcher) => ExecuteRefines(c, s, r, p, mode, watcher);
      case DropPipeline(r) => DropRefines(c, s, r);
      case _ => PlainRefines(c, s, e);
    }
    hide Refines, SetStep, Release, DropHandle, Retain;
  }
}
