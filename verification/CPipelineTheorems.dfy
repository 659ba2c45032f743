/**
 What holds in every history of pipelines behind the C interface: any number of pipelines, watchers
 and runs, with setters, starts, finishes, aborts, detaches and destroys in any order.
 */
module CPipelineTheorems {
  import opened Wrappers
  import opened Pipelines
  import opened SharedBoxes
  import opened CPipelines
  import opened CPipelineSafety
  import opened CPipelineOwnership
  import opened CWatcherOrder
  import opened CSnapshot

  type History = seq<Event>

  // ----- The invariant -----

  ghost predicate Inv(s: State) {
    RefsCounted(s) && RunsSound(s) && Owned(s) && LogSound(s)
  }

  lemma InvStart()
    ensures Inv(START)
  {
    assert PipelineRefs(map[]) == map[] && WatcherRefs(map[]) == map[];
    assert ContentsOf(START.pipelines) == map[];
  }

  lemma InvStep(s: State, e: Event)
    requires Inv(s) && Enabled(s, e)
    ensures Inv(Step(s, e))
  {
    assert forall p :: p in s.pipelines ==> p in s.pipelineIds;
    RefsCountedStep(s, e);
    RunsSoundStep(s, e);
    OwnedStep(s, e);
    LogSoundStep(s, e);
    hide Step, Enabled, Counted, RefsCounted, RunsSound, Owned, LogSound;
  }

  lemma {:induction false} InvAfter(s: State, es: History)
    requires Inv(s) && IsRun(s, es)
    ensures Inv(After(s, es))
    decreases |es|
  {
    hide Inv, Step, Enabled;
    if es != [] {
      InvStep(s, es[0]);
      InvAfter(Step(s, es[0]), es[1..]);
    }
  }

  lemma InvAlways(es: History)
    requires IsRun(START, es)
    ensures Inv(After(START, es))
  {
    InvStart();
    InvAfter(START, es);
    hide Inv;
  }

  lemma {:induction false} Split(s: State, es: History, i: nat)
    requires IsRun(s, es) && i <= |es|
    ensures IsRun(s, es[..i]) && IsRun(After(s, es[..i]), es[i..])
    ensures After(s, es) == After(After(s, es[..i]), es[i..])
    ensures i < |es| ==> Enabled(After(s, es[..i]), es[i])
    decreases |es|
  {
    hide Step, Enabled;
    if i == 0 {
      assert es[..0] == [] && es[0..] == es;
    } else {
      Split(Step(s, es[0]), es[1..], i - 1);
      assert es[1..][..i - 1] == es[..i][1..] && es[1..][i - 1..] == es[i..];
    }
  }

  // ----- Every history is one of the snapshot rule's -----

  /** The history as the snapshot rule sees it. */
  ghost function Seen(s: State, es: History): seq<SpecEvent>
    requires IsRun(s, es)
    decreases |es|
  {
    if es == [] then [] else [SpecOf(s, es[0])] + Seen(Step(s, es[0]), es[1..])
  }

  lemma {:induction false} SeenAt(s: State, es: History, i: nat)
    requires IsRun(s, es) && i < |es|
    ensures |Seen(s, es)| == |es|
    ensures IsRun(s, es[..i]) && Seen(s, es)[..i] == Seen(s, es[..i])
    ensures Enabled(After(s, es[..i]), es[i]) && Seen(s, es)[i] == SpecOf(After(s, es[..i]), es[i])
    decreases |es|
  {
    hide Step, Enabled, SpecOf;
    Split(s, es, i);
    if i > 0 {
      SeenAt(Step(s, es[0]), es[1..], i - 1);
      assert es[1..][..i - 1] == es[..i][1..];
    } else if |es| > 1 {
      SeenAt(Step(s, es[0]), es[1..], 0);
    } else {
      assert es[1..] == [];
    }
  }

  lemma {:induction false} HistoryRefines(c: State, s: Spec, es: History)
    requires Inv(c) && Refines(c, s) && IsRun(c, es)
    ensures IsSpecRun(s, Seen(c, es)) && Refines(After(c, es), SpecAfter(s, Seen(c, es)))
    decreases |es|
  {
    if es != [] {
      StepRefines(c, s, es[0]);
      InvStep(c, es[0]);
      hide Inv, Refines, Step, Enabled, SpecOf, SpecStep, SpecEnabled;
      var s' := SpecStep(s, SpecOf(c, es[0]));
      HistoryRefines(Step(c, es[0]), s', es[1..]);
      assert Seen(c, es)[1..] == Seen(Step(c, es[0]), es[1..]);
    }
  }

  lemma StartRefines()
    ensures Refines(START, SPEC_START)
  {
    assert Handled(START.pipelines) == map[];
  }

  /** Refusing to change a held pipeline is as good as copying it: each history is a snapshot history. */
  lemma RefinesSnapshot(es: History)
    requires IsRun(START, es)
    ensures IsSpecRun(SPEC_START, Seen(START, es))
    ensures Refines(After(START, es), SpecAfter(SPEC_START, Seen(START, es)))
  {
    InvStart();
    StartRefines();
    HistoryRefines(START, SPEC_START, es);
    hide Refines, Inv;
  }

  /** Every look was at `plan`, and so would the next be. */
  predicate SeesOnly(s: State, run: Run, plan: Pipeline) {
    && (forall k :: 0 <= k < |run.seen| ==> run.seen[k] == plan)
    && (run.holdsPipeline ==> run.pipeline in s.pipelines && s.pipelines[run.pipeline].content == plan)
  }

  /** Whatever happens meanwhile, a run works from the pipeline as it was when the run started. */
  lemma RunSeesItsStart(es: History, i: nat, r: RunId, p: PipelineId, mode: Mode, watcher: Option<WatcherId>)
    requires IsRun(START, es) && i < |es| && es[i] == Execute(r, p, mode, watcher)
    ensures IsRun(START, es[..i]) && p in After(START, es[..i]).pipelines && r in After(START, es).runs
    ensures var plan, run := After(START, es[..i]).pipelines[p].content, After(START, es).runs[r];
            SeesOnly(After(START, es), run, plan) && Fits(run, plan)
  {
    var trace := Seen(START, es);
    SeenAt(START, es, i);
    Split(START, es, i);
    RefinesSnapshot(es);
    RefinesSnapshot(es[..i]);
    SpecRunSeesItsStart(trace, i, r, p);
    RefinedRun(After(START, es), SpecAfter(SPEC_START, trace), r);
    RefinedPipeline(After(START, es[..i]), SpecAfter(SPEC_START, trace[..i]), p);
    hide Refines, Step, IsRun, IsSpecRun, After, SpecAfter, Seen, Fits;
  }

  lemma RefinedRun(c: State, s: Spec, r: RunId)
    requires Refines(c, s) && r in s.runs
    ensures r in c.runs && RunRefines(ContentsOf(c.pipelines), c.runs[r], s.runs[r])
    ensures c.runs[r].holdsPipeline ==>
              c.runs[r].pipeline in c.pipelines && c.pipelines[c.runs[r].pipeline].content == s.runs[r].plan
  {
  }

  lemma RefinedPipeline(c: State, s: Spec, p: PipelineId)
    requires Refines(c, s) && p in s.pipelines
    ensures p in c.pipelines && c.pipelines[p].content == s.pipelines[p]
  {
  }

  // ----- Setters -----

  ghost predicate Holds(s: State, r: RunId, p: PipelineId) {
    r in s.runs && s.runs[r].holdsPipeline && s.runs[r].pipeline == p
  }

  /** The handle is the only reference exactly when no run holds the pipeline. */
  lemma SoleMeansUnheld(s: State, p: PipelineId)
    requires Inv(s) && Live(s.pipelines, p)
    ensures s.pipelines[p].strong == 1 <==> forall r :: !Holds(s, r, p)
  {
    SoleReference(s.pipelines, PipelineRefs(s.runs), p);
    hide Counted, Owned, LogSound, RunsSound;
    forall r ensures Holds(s, r, p) <==> r in PipelineRefs(s.runs) && PipelineRefs(s.runs)[r] == p {
    }
    hide Holds, PipelineRefs;
  }

  /** All a refused call does: the caller's error is set, and its argument freed. */
  predicate Refusal(s: State, t: State, thread: Thread, setter: Setter) {
    && t == s.(errors := t.errors, passed := t.passed, freed := t.freed)
    && t.errors == s.errors[thread := InUse]
    && t.passed == s.passed + OwnedSet(setter)
    && t.freed == s.freed + OwnedSeq(setter)
  }

  /** All an accepted call does: the pipeline is edited, and what the edit replaced is freed. */
  predicate Acceptance(s: State, t: State, p: PipelineId, setter: Setter)
    requires p in s.pipelines && !Ignored(setter)
  {
    && t == s.(pipelines := t.pipelines, passed := t.passed, freed := t.freed)
    && t.pipelines == s.pipelines[p := s.pipelines[p].(content := Edited(s.pipelines[p].content, setter))]
    && t.passed == s.passed + OwnedSet(setter)
    && t.freed == s.freed + Replaced(s.pipelines[p].content, setter)
  }

  lemma SetEffect(s: State, thread: Thread, p: PipelineId, setter: Setter)
    requires p in s.pipelines && !Ignored(setter)
    ensures var t := SetStep(s, thread, p, setter);
            if s.pipelines[p].strong == 1 then Acceptance(s, t, p, setter) else Refusal(s, t, thread, setter)
  {
    hide Edited, Replaced, OwnedSet, OwnedSeq;
  }

  /**
   A setter is refused exactly while a run holds the pipeline. A refused one leaves everything as it
   was, but for the caller's error and for its argument, which is freed and belongs to no pipeline.
   */
  lemma RefusedExactlyWhileHeld(es: History, thread: Thread, p: PipelineId, setter: Setter)
    requires IsRun(START, es) && Enabled(After(START, es), Set(thread, p, setter)) && !Ignored(setter)
    ensures var s := After(START, es);
            var t := Step(s, Set(thread, p, setter));
            if exists r :: Holds(s, r, p) then
              && Refusal(s, t, thread, setter)
              && forall a, q :: a in OwnedSet(setter) && q in t.pipelines ==> !Owns(t.pipelines[q].content, a)
            else Acceptance(s, t, p, setter)
  {
    var s := After(START, es);
    InvAlways(es);
    hide IsRun, After;
    SoleMeansUnheld(s, p);
    NewArgumentUnowned(s, setter);
    hide Inv, Holds, Owns;
    SetEffect(s, thread, p, setter);
    hide SetStep, Ignored, Acceptance, OwnedSet, OwnedSeq;
  }

  lemma NewArgumentUnowned(s: State, setter: Setter)
    requires Inv(s) && OwnedSet(setter) !! s.passed
    ensures forall a, q :: a in OwnedSet(setter) && q in s.pipelines ==> !Owns(s.pipelines[q].content, a)
  {
    hide RefsCounted, RunsSound, LogSound;
    forall a, q | a in OwnedSet(setter) && q in s.pipelines ensures !Owns(s.pipelines[q].content, a) {
      assert ContentsOf(s.pipelines)[q] == s.pipelines[q].content;
    }
  }

  /** What a setter took belongs to exactly one pipeline until it is freed, and is freed only once. */
  lemma ArgumentsOwnedOnce(es: History)
    requires IsRun(START, es)
    ensures var s := After(START, es);
            && (forall i, j :: 0 <= i < j < |s.freed| ==> s.freed[i] != s.freed[j])
            && (forall a :: a in s.passed <==>
                  a in s.freed || exists p :: p in s.pipelines && Owns(s.pipelines[p].content, a))
            && (forall a, p :: p in s.pipelines && Owns(s.pipelines[p].content, a) ==> a !in s.freed)
            && (forall a, p, q ::
                  (p in s.pipelines && q in s.pipelines && Owns(s.pipelines[p].content, a)
                   && Owns(s.pipelines[q].content, a)) ==> p == q)
  {
    var s := After(START, es);
    InvAlways(es);
    var live := ContentsOf(s.pipelines);
    assert forall p :: p in live <==> p in s.pipelines;
    assert forall p :: p in live ==> live[p] == s.pipelines[p].content;
    forall a | a in s.passed && a !in s.freed ensures exists p :: p in s.pipelines && Owns(s.pipelines[p].content, a) {
      var p :| p in live && Owns(live[p], a);
      assert Owns(s.pipelines[p].content, a);
    }
    hide RefsCounted, LogSound, RunsSound, Owns, ContentsOf;
  }

  /** The events can happen, and then a run executes over `content`. */
  ghost predicate LeadsToRunOf(s: State, es: History, r: RunId, content: Pipeline) {
    IsRun(s, es) && Executing(After(s, es), r) && Given(After(s, es), r) == content
  }

  /** The callback's own run holds nothing, so with no other run it may append a task the next run executes. */
  lemma CallbackMayAppend(es: History, r: RunId, thread: Thread, p: PipelineId, info: TaskInfo, next: RunId, mode: Mode)
    requires IsRun(START, es) && Enabled(After(START, es), Report(r))
    requires Live(After(START, es).pipelines, p) && next !in After(START, es).runs
    requires forall q :: q != r ==> !Holds(After(START, es), q, p)
    requires TaskArg(info.task) !in After(START, es).passed
    ensures var s := After(START, es);
            LeadsToRunOf(s, [Report(r), Set(thread, p, AddTask(info)), Execute(next, p, mode, None)], next,
                         s.pipelines[p].content.(tasks := s.pipelines[p].content.tasks + [info]))
  {
    var s := After(START, es);
    InvAlways(es);
    SoleMeansUnheld(s, p);
    assert forall q :: !Holds(s, q, p);
    hide IsRun, After, Inv, Holds;
    var s1 := Step(s, Report(r));
    ReportLeaves(s, r);
    hide Step, Enabled, Given, Executing;
    AppendThenExecute(s1, thread, p, info, next, mode);
    ThreeSteps(s, Report(r), Set(thread, p, AddTask(info)), Execute(next, p, mode, None));
  }

  lemma ReportLeaves(s: State, r: RunId)
    requires Enabled(s, Report(r))
    ensures var t := Step(s, Report(r));
            t.pipelines == s.pipelines && t.passed == s.passed && t.runs.Keys == s.runs.Keys
  {
  }

  lemma AppendThenExecute(s: State, thread: Thread, p: PipelineId, info: TaskInfo, next: RunId, mode: Mode)
    requires Live(s.pipelines, p) && s.pipelines[p].strong == 1 && next !in s.runs && TaskArg(info.task) !in s.passed
    ensures Enabled(s, Set(thread, p, AddTask(info)))
    ensures var t := Step(s, Set(thread, p, AddTask(info)));
            && Enabled(t, Execute(next, p, mode, None))
            && Executing(Step(t, Execute(next, p, mode, None)), next)
            && Given(Step(t, Execute(next, p, mode, None)), next) ==
               s.pipelines[p].content.(tasks := s.pipelines[p].content.tasks + [info])
  {
    var content := Edited(s.pipelines[p].content, AddTask(info));
    var t := Step(s, Set(thread, p, AddTask(info)));
    assert t.pipelines[p] == s.pipelines[p].(content := content) && t.runs == s.runs;
    hide MayFinish, Runnable, Splittable, Replaced, Edited, AcceptStep;
  }

  lemma ThreeSteps(s: State, a: Event, b: Event, c: Event)
    requires Enabled(s, a) && Enabled(Step(s, a), b) && Enabled(Step(Step(s, a), b), c)
    ensures IsRun(s, [a, b, c]) && After(s, [a, b, c]) == Step(Step(Step(s, a), b), c)
  {
    hide Enabled, Step;
    OneStep(Step(Step(s, a), b), c);
    assert [a, b, c][1..] == [b, c] && [b, c][1..] == [c];
    assert IsRun(Step(s, a), [b, c]) && After(Step(s, a), [b, c]) == After(Step(Step(s, a), b), [c]);
  }

  // ----- Watchers -----

  ghost predicate WatcherKept(s: State, w: WatcherId) {
    || (w in s.watchers && s.watchers[w].handle)
    || exists r :: r in s.runs && s.runs[r].holdsWatcher && s.runs[r].watcher == Some(w)
  }

  /** A box is there exactly as long as a handle or a run refers to it. */
  lemma BoxKept<T>(boxes: Boxes<T>, refs: Refs, p: nat)
    requires Counted(boxes, refs)
    ensures p in boxes <==> (p in boxes && boxes[p].handle) || exists r :: r in refs && refs[r] == p
  {
    if p in boxes && !boxes[p].handle {
      assert |Holding(refs, p)| > 0;
      var r :| r in Holding(refs, p);
      assert r in refs && refs[r] == p;
    }
  }

  /**
   A watcher has been destroyed exactly when neither its handle nor any run holds it, it is destroyed
   once, and nothing reaches it afterwards.
   */
  lemma DestroyedExactlyWhenReleased(es: History, w: WatcherId)
    requires IsRun(START, es) && w in After(START, es).watcherIds
    ensures IsDestroyed(After(START, es).log, w) <==> !WatcherKept(After(START, es), w)
    ensures DestroyIsLast(After(START, es).log)
  {
    var s := After(START, es);
    InvAlways(es);
    BoxKept(s.watchers, WatcherRefs(s.runs), w);
    forall r ensures (r in WatcherRefs(s.runs) && WatcherRefs(s.runs)[r] == w) <==>
                     (r in s.runs && s.runs[r].holdsWatcher && s.runs[r].watcher == Some(w))
    {
    }
    hide WatcherRefs, PipelineRefs, Counted, RunsSound, Owned, RunsLogged, IsRun, After, DestroyIsLast, IsDestroyed;
  }

  /** The run that let the last reference go is reported after the destroy. */
  lemma DestroyPrecedesReport(es: History, w: WatcherId, r: RunId, outcome: Outcome, i: nat, j: nat)
    requires IsRun(START, es) && i < |After(START, es).log| && j < |After(START, es).log|
    requires After(START, es).log[i] == Destroyed(w, Some(r)) && After(START, es).log[j] == Reported(r, outcome)
    ensures i < j
  {
    InvAlways(es);
    hide IsRun, After, RefsCounted, RunsSound, Owned, WatchersLogged, RunsLogged;
  }

  /** No handle and no run other than `r` holds the watcher. */
  predicate NoOtherHolds(s: State, r: RunId, w: WatcherId) {
    && !(w in s.watchers && s.watchers[w].handle)
    && forall q :: q in s.runs && q != r && s.runs[q].watcher == Some(w) ==> !s.runs[q].holdsWatcher
  }

  /** Once its handle is gone, a watcher is destroyed by the time the last run using it is reported. */
  lemma DestroyedByLastReport(es: History, r: RunId, w: WatcherId)
    requires IsRun(START, es) && Enabled(After(START, es), Report(r)) && After(START, es).runs[r].watcher == Some(w)
    requires NoOtherHolds(After(START, es), r, w) && w in After(START, es).watcherIds
    ensures IsDestroyed(After(START, es).log, w)
  {
    DestroyedExactlyWhenReleased(es, w);
    hide IsRun, After, IsDestroyed;
  }

  /** Nothing to run, or nothing to run it in. */
  predicate Empty(plan: Pipeline) {
    |plan.tasks| == 0 || plan.batchSize == 0 || plan.concurrency == 0
  }

  predicate Weightless(plan: Pipeline) {
    exists i :: 0 <= i < |plan.tasks| && plan.tasks[i].weight == 0
  }

  /** The notices of a run over `plan`, by how it ended. */
  predicate Tell(notices: seq<Notice>, run: Run, plan: Pipeline) {
    && (run.outcome == Some(Succeeded) ==>
          notices == [Started, Ended(Succeeded)] && !Empty(plan) && !Weightless(plan))
    && (run.outcome == Some(Failed) ==>
          notices == if Empty(plan) then [] else if Weightless(plan) then [Started] else [Started, Ended(Failed)])
    && (run.outcome == Some(Cancelled) ==> run.aborted || notices == [Started, Ended(Cancelled)])
  }

  /** What a finished run's watcher has been told, by how the run ended and what it was given. */
  lemma NoticesTellOutcome(es: History, i: nat, r: RunId, p: PipelineId, mode: Mode, w: WatcherId)
    requires IsRun(START, es) && i < |es| && es[i] == Execute(r, p, mode, Some(w))
    ensures IsRun(START, es[..i]) && p in After(START, es[..i]).pipelines && r in After(START, es).runs
    ensures var plan, run := After(START, es[..i]).pipelines[p].content, After(START, es).runs[r];
            Tell(Notices(After(START, es).log, r), run, plan)
  {
    RunSeesItsStart(es, i, r, p, mode, Some(w));
    InvAlways(es);
    RunHasWatcher(es, i, r, p, mode, Some(w));
    EmptyOrWeightless(After(START, es[..i]).pipelines[p].content);
    hide IsRun, RefsCounted, RunsSound, Owned, Ordered, WatchersLogged, Runnable, Splittable, Step, Empty, Weightless;
  }

  lemma EmptyOrWeightless(plan: Pipeline)
    ensures Empty(plan) <==> !Runnable(plan)
    ensures Weightless(plan) <==> !Splittable(plan)
  {
  }

  lemma WatcherKeptAtStep(s: State, e: Event, r: RunId)
    requires Enabled(s, e) && r in s.runs
    ensures r in Step(s, e).runs && Step(s, e).runs[r].watcher == s.runs[r].watcher
  {
    RunsAfter(s, e);
    hide Step;
    if RunOf(e) == Some(r) {
      assert !e.Execute?;
      SameWatcher(s, e);
    }
    hide Enabled, RunAfter, RunOf;
  }

  lemma SameWatcher(s: State, e: Event)
    requires Enabled(s, e) && RunOf(e).Some? && !e.Execute?
    ensures RunOf(e).value in s.runs && RunAfter(s, e).watcher == s.runs[RunOf(e).value].watcher
  {
    hide MayFinish, Given, Runnable, Splittable;
    match e {
      case Observe(_) => case Notify(_, _) => case Finish(_, _) => case DropPipeline(_) => case DropWatcher(_) =>
      case Report(_) => case Abort(_) => case Wait(_) => case Detach(_) =>
    }
  }

  lemma {:induction false} WatcherStays(s: State, es: History, r: RunId)
    requires IsRun(s, es) && r in s.runs
    ensures r in After(s, es).runs && After(s, es).runs[r].watcher == s.runs[r].watcher
    decreases |es|
  {
    hide Step, Enabled;
    if es != [] {
      WatcherKeptAtStep(s, es[0], r);
      WatcherStays(Step(s, es[0]), es[1..], r);
    }
  }

  lemma RunHasWatcher(es: History, i: nat, r: RunId, p: PipelineId, mode: Mode, watcher: Option<WatcherId>)
    requires IsRun(START, es) && i < |es| && es[i] == Execute(r, p, mode, watcher)
    ensures r in After(START, es).runs && After(START, es).runs[r].watcher == watcher
  {
    Split(START, es, i);
    Split(START, es, i + 1);
    var before := After(START, es[..i]);
    Split(before, es[i..], 1);
    assert es[i..][..1] == [es[i]] && es[i..][1..] == es[i + 1..];
    OneStep(before, es[i]);
    WatcherStays(Step(before, es[i]), es[i + 1..], r);
    hide IsRun, After;
  }

  lemma OneStep(s: State, e: Event)
    requires Enabled(s, e)
    ensures IsRun(s, [e]) && After(s, [e]) == Step(s, e)
  {
    hide Enabled, Step;
    assert [e][1..] == [];
    assert IsRun(Step(s, e), []);
  }

  // ----- Nothing is left behind, and no run gets stuck -----

  predicate AllLetGo(s: State) {
    && (forall p :: p in s.pipelines ==> !s.pipelines[p].handle)
    && (forall w :: w in s.watchers ==> !s.watchers[w].handle)
    && (forall r :: r in s.runs ==> !s.runs[r].holdsPipeline && !s.runs[r].holdsWatcher)
  }

  ghost predicate AllGone(s: State) {
    && s.pipelines == map[] && s.watchers == map[]
    && multiset(s.freed) == multiset(s.passed)
    && forall w :: w in s.watcherIds ==> IsDestroyed(s.log, w)
  }

  /** With every handle destroyed and every run done, all is freed, each argument once, and every watcher destroyed. */
  lemma NothingLeft(es: History)
    requires IsRun(START, es) && AllLetGo(After(START, es))
    ensures AllGone(After(START, es))
  {
    var s := After(START, es);
    InvAlways(es);
    ArgumentsOwnedOnce(es);
    hide IsRun, After;
    assert PipelineRefs(s.runs) == map[] && WatcherRefs(s.runs) == map[];
    forall p ensures p !in s.pipelines {
      BoxKept(s.pipelines, map[], p);
    }
    forall w ensures w !in s.watchers {
      BoxKept(s.watchers, map[], w);
    }
    hide Inv;
    EachOnce(s.freed, s.passed);
    forall w | w in s.watcherIds ensures IsDestroyed(s.log, w) {
      DestroyedExactlyWhenReleased(es, w);
    }
  }

  lemma {:induction false} EachOnce(freed: seq<Arg>, passed: set<Arg>)
    requires forall i, j :: 0 <= i < j < |freed| ==> freed[i] != freed[j]
    requires forall a :: a in passed <==> a in freed
    ensures multiset(freed) == multiset(passed)
  {
    if freed != [] {
      var front, last := freed[..|freed| - 1], freed[|freed| - 1];
      assert freed == front + [last];
      forall a ensures a in passed - {last} <==> a in front {
        if a in front {
          var k :| 0 <= k < |front| && front[k] == a;
          assert freed[k] == a;
        }
      }
      EachOnce(front, passed - {last});
      assert passed == (passed - {last}) + {last};
    } else {
      assert passed == {};
    }
  }

  /** How far a run is from being reported. */
  function Ahead(run: Run): nat {
    2 * One(|run.told| == 0) + One(|run.told| == 1) + One(run.outcome.None?) + One(run.holdsPipeline)
    + One(run.holdsWatcher) + One(!run.reported)
  }

  /** The run is executing, or still holds something. */
  predicate Busy(run: Run) {
    run.outcome.None? || run.holdsPipeline || run.holdsWatcher
  }

  /** The report is still to come, and if the run is done, somebody is there to take it. */
  predicate HasToReport(run: Run) {
    !run.reported && (Busy(run) || (run.mode.Background? ==> run.handle == Waited))
  }

  /** A step the run takes by itself, unlike what the owner of its handle does. */
  predicate TakenByRun(e: Event) {
    e.Notify? || e.Finish? || e.DropPipeline? || e.DropWatcher? || e.Report?
  }

  /** A run takes a step by itself and is nearer its report. */
  ghost predicate CanMoveOn(s: State, r: RunId)
    requires r in s.runs
  {
    exists e :: Enabled(s, e) && RunOf(e) == Some(r) && TakenByRun(e)
                && r in Step(s, e).runs && Ahead(Step(s, e).runs[r]) < Ahead(s.runs[r])
  }

  /** A step a run can take next. */
  function NextStep(s: State, r: RunId): Event
    requires r in s.runs && Sound(s.runs[r]) && (s.runs[r].outcome.None? ==> Executing(s, r))
  {
    var run := s.runs[r];
    if run.outcome.None? then
      if run.told == [] then
        if Runnable(Given(s, r)) then Notify(r, Started) else Finish(r, Failed)
      else if run.told == [Started] then
        if Splittable(Given(s, r)) then Notify(r, Ended(Succeeded)) else Finish(r, Failed)
      else Finish(r, run.told[1].outcome)
    else if run.holdsWatcher && !(run.mode.Async? && run.holdsPipeline) then DropWatcher(r)
    else if run.holdsPipeline then DropPipeline(r)
    else Report(r)
  }

  predicate HoldsLive(s: State, run: Run) {
    && (run.holdsPipeline ==> run.pipeline in s.pipelines && s.pipelines[run.pipeline].strong > 0)
    && (run.holdsWatcher ==>
          && run.watcher.Some? && run.watcher.value in s.watchers
          && s.watchers[run.watcher.value].strong > 0)
  }

  lemma NextStepEnabled(s: State, r: RunId)
    requires r in s.runs && Sound(s.runs[r]) && HoldsLive(s, s.runs[r])
    requires HasToReport(s.runs[r])
    ensures Enabled(s, NextStep(s, r)) && RunOf(NextStep(s, r)) == Some(r) && TakenByRun(NextStep(s, r))
    ensures Ahead(RunAfter(s, NextStep(s, r))) < Ahead(s.runs[r])
  {
    hide Runnable, Splittable;
    var run, e := s.runs[r], NextStep(s, r);
    if run.outcome.None? {
      if run.told != [] && run.told != [Started] {
        var o :| run.told == [Started, Ended(o)];
        assert e == Finish(r, o);
      }
    } else {
      assert Enabled(s, e);
    }
  }

  /**
   A run always has a step of its own left, aborted, detached or neither, until it holds nothing; and
   then to its report, which for a background run is made to whoever waits for it.
   */
  lemma NeverStuck(es: History, r: RunId)
    requires IsRun(START, es) && r in After(START, es).runs && HasToReport(After(START, es).runs[r])
    ensures CanMoveOn(After(START, es), r)
  {
    var s := After(START, es);
    InvAlways(es);
    hide IsRun, After;
    RunsHold(s, r);
    NextStepEnabled(s, r);
    RunsAfter(s, NextStep(s, r));
    hide Step, Enabled, NextStep, Inv, Ahead, RunAfter, TakenByRun;
  }

  lemma RunsHold(s: State, r: RunId)
    requires Inv(s) && r in s.runs
    ensures Sound(s.runs[r])
    ensures HoldsLive(s, s.runs[r])
  {
    RunRefs(s, r);
    hide Owned, LogSound, PipelineRefs, WatcherRefs;
  }
}
