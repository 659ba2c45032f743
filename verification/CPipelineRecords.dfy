/** What the C interface's machine records of its runs and its callers' errors, told by the events alone. */
module CPipelineRecords {
  import opened Wrappers
  import opened Pipelines
  import opened SharedBoxes
  import opened CPipelines
  import opened CPipelineSafety
  import opened CPipelineTheorems
  import opened CPipelineSetters

  // ----- Errors -----

  /** The error the last events of a thread leave it with: refused calls and zero attempts set it. */
  ghost function LastError(es: History, thread: Thread): Option<SetterError> {
    if es == [] then None
    else
      var front, last := es[..|es| - 1], es[|es| - 1];
      if last == ClearError(thread) then None
      else if last.Set? && last.thread == thread && last.setter.SetRetryLimited? && last.setter.maxAttempts == 0 then
        Some(MaxAttemptsZero)
      else if last.Set? && last.thread == thread && Acceptable(last.setter)
              && IsRun(START, front) && HeldBySome(After(START, front), last.p) then
        Some(InUse)
      else LastError(front, thread)
  }

  function ErrorIn(errors: map<Thread, SetterError>, thread: Thread): Option<SetterError> {
    if thread in errors then Some(errors[thread]) else None
  }

  lemma SetErrors(s: State, e: Event, thread: Thread)
    requires Enabled(s, e) && e.Set? && e.p in s.pipelines
    ensures ErrorIn(Step(s, e).errors, thread) ==
            if e.thread == thread && e.setter.SetRetryLimited? && e.setter.maxAttempts == 0 then Some(MaxAttemptsZero)
            else if e.thread == thread && Acceptable(e.setter) && s.pipelines[e.p].strong != 1 then Some(InUse)
            else ErrorIn(s.errors, thread)
  {
    hide Edited, Replaced, OwnedSet, OwnedSeq;
  }

  lemma OtherErrors(s: State, e: Event, thread: Thread)
    requires Enabled(s, e) && !e.Set?
    ensures ErrorIn(Step(s, e).errors, thread) ==
            if e == ClearError(thread) then None else ErrorIn(s.errors, thread)
  {
    hide GoesWith, DestroyNotice, NoticeEntry, RetainWatcher, MayFinish, Runnable, Splittable, Release, Retain,
         DropHandle;
  }

  /** In every history the setter error a thread finds is the one its own last calls left. */
  lemma {:induction false} ErrorsAreTheCallers(es: History, thread: Thread)
    requires IsRun(START, es)
    ensures ErrorIn(After(START, es).errors, thread) == LastError(es, thread)
    decreases |es|
  {
    if es != [] {
      var front, e := es[..|es| - 1], es[|es| - 1];
      LastStep(es);
      InvAlways(front);
      var s := After(START, front);
      if e.Set? {
        SetKeeps(s, e);
        SetErrors(s, e, thread);
        SoleMeansUnheld(s, e.p);
      } else {
        OtherErrors(s, e, thread);
      }
      hide IsRun, After, Inv, Step, Enabled, Acceptable, Holds;
      ErrorsAreTheCallers(front, thread);
    }
  }

  // ----- Runs -----

  /** The notices a run was told of, in order. */
  function ToldTo(es: History, r: RunId): seq<Notice> {
    if es == [] then []
    else
      var last := es[|es| - 1];
      ToldTo(es[..|es| - 1], r) + if last.Notify? && last.r == r then [last.notice] else []
  }

  /** What became of a background run's handle; other runs have none. */
  function HandleOf(es: History, r: RunId, mode: Mode): RunHandle {
    if !mode.Background? then NoHandle
    else if Wait(r) in es then Waited
    else if Detach(r) in es then NoHandle
    else Held
  }

  predicate Starts(es: History, r: RunId, run: Run) {
    Execute(r, run.pipeline, run.mode, run.watcher) in es
  }

  ghost predicate HoldingsTold(es: History, r: RunId, run: Run) {
    && Starts(es, r, run)
    && (run.holdsPipeline <==> DropPipeline(r) !in es)
    && (run.holdsWatcher <==> run.watcher.Some? && DropWatcher(r) !in es)
    && (forall outcome :: run.outcome == Some(outcome) <==> Finish(r, outcome) in es)
  }

  ghost predicate HandleTold(es: History, r: RunId, run: Run) {
    && (run.aborted <==> Abort(r) in es) && (run.reported <==> Report(r) in es)
    && run.handle == HandleOf(es, r, run.mode) && !(Wait(r) in es && Detach(r) in es)
    && (run.reported && run.mode.Background? ==> Wait(r) in es)
  }

  /** A run holds what it was given until it has ended, and lets it go in its mode's order; then it is reported. */
  predicate LetsGoInOrder(run: Run) {
    && (!run.holdsPipeline || (run.watcher.Some? && !run.holdsWatcher) ==> run.outcome.Some?)
    && (run.mode.Blocking? && !run.holdsPipeline ==> !run.holdsWatcher)
    && (run.mode.Async? && run.watcher.Some? && !run.holdsWatcher ==> !run.holdsPipeline)
    && (run.reported ==> !run.holdsPipeline && !run.holdsWatcher)
  }

  /** A run's record is what its events say. */
  ghost predicate Recounts(es: History, r: RunId, run: Run) {
    HoldingsTold(es, r, run) && HandleTold(es, r, run) && run.told == ToldTo(es, r) && LetsGoInOrder(run)
  }

  /** Nothing has been heard of the run. */
  predicate Unheard(es: History, r: RunId) {
    forall i :: 0 <= i < |es| ==> RunOf(es[i]) != Some(r)
  }

  lemma RecountsAnew(front: History, e: Event, r: RunId)
    requires Unheard(front, r) && e.Execute? && e.r == r
    ensures Recounts(front + [e], r, NewRun(e.p, e.mode, e.watcher))
  {
    var es := front + [e];
    assert es[..|front|] == front && es[|front|] == e;
    forall x: Event | x in es && RunOf(x) == Some(r) ensures x == e {
      var i :| 0 <= i < |es| && es[i] == x;
    }
    UnheardUntold(front, r);
    assert ToldTo(es, r) == [];
    hide ToldTo;
    assert HoldingsTold(es, r, NewRun(e.p, e.mode, e.watcher));
  }

  lemma {:induction false} UnheardUntold(es: History, r: RunId)
    requires Unheard(es, r)
    ensures ToldTo(es, r) == []
  {
    if es != [] {
      UnheardUntold(es[..|es| - 1], r);
    }
  }

  /** What an event of a run's own does to its record. */
  predicate Moves(before: Run, e: Event, after: Run) {
    && after.mode == before.mode && after.pipeline == before.pipeline && after.watcher == before.watcher
    && after.aborted == (before.aborted || e.Abort?) && after.reported == (before.reported || e.Report?)
    && after.holdsPipeline == (before.holdsPipeline && !e.DropPipeline?)
    && after.holdsWatcher == (before.holdsWatcher && !e.DropWatcher?)
    && (e.Finish? ==> before.outcome == None)
    && after.outcome == (if e.Finish? then Some(e.outcome) else before.outcome)
    && (e.Wait? || e.Detach? ==> before.handle == Held)
    && after.handle == (if e.Wait? then Waited else if e.Detach? then NoHandle else before.handle)
    && (e.Report? && before.mode.Background? ==> before.handle == Waited)
    && after.told == before.told + (if e.Notify? then [e.notice] else [])
    && (e.DropPipeline? ==> before.outcome.Some? && (before.mode.Blocking? ==> !before.holdsWatcher))
    && (e.DropWatcher? ==> before.outcome.Some? && (before.mode.Async? ==> !before.holdsPipeline))
    && (e.Report? ==> !before.holdsPipeline && !before.holdsWatcher)
  }

  lemma RunMoves(s: State, e: Event, r: RunId)
    requires Enabled(s, e) && RunOf(e) == Some(r) && !e.Execute?
    ensures r in s.runs && Moves(s.runs[r], e, RunAfter(s, e))
  {
    hide Runnable, Splittable, MayFinish;
  }

  lemma HandleOn(front: History, e: Event, r: RunId, mode: Mode)
    requires e.Wait? || e.Detach? ==> HandleOf(front, r, mode) == Held
    requires RunOf(e) == Some(r) && !(Wait(r) in front && Detach(r) in front)
    ensures HandleOf(front + [e], r, mode) ==
            if e.Wait? then Waited else if e.Detach? then NoHandle else HandleOf(front, r, mode)
    ensures !(Wait(r) in front + [e] && Detach(r) in front + [e])
  {
  }

  lemma RecountsOn(front: History, e: Event, r: RunId, before: Run, after: Run)
    requires Recounts(front, r, before) && !(e.Execute? && e.r == r)
    requires if RunOf(e) == Some(r) then Moves(before, e, after) else after == before
    ensures Recounts(front + [e], r, after)
  {
    var es := front + [e];
    assert es[..|front|] == front && es[|front|] == e;
    assert ToldTo(es, r) == ToldTo(front, r) + if e.Notify? && e.r == r then [e.notice] else [];
    hide ToldTo;
    assert HandleTold(es, r, after) by {
      if RunOf(e) == Some(r) {
        HandleOn(front, e, r, before.mode);
      }
      hide HandleOf, HoldingsTold;
    }
    hide HandleTold;
  }

  /**
   In every history a run was started once, and its record is what was done to it since: aborted, told,
   ended, let go of and reported exactly as its events say, a background run only to whoever waits for it.
   */
  lemma {:induction false} RunsAreTheirEvents(es: History, r: RunId)
    requires IsRun(START, es)
    ensures if r in After(START, es).runs then Recounts(es, r, After(START, es).runs[r]) else Unheard(es, r)
    decreases |es|
  {
    if es != [] {
      var front, e := es[..|es| - 1], es[|es| - 1];
      LastStep(es);
      var s := After(START, front);
      RunsAfter(s, e);
      if RunOf(e) == Some(r) && !e.Execute? {
        RunMoves(s, e, r);
      }
      assert front + [e] == es;
      hide IsRun, After, Step, Enabled, RunAfter, Recounts, Moves;
      RunsAreTheirEvents(front, r);
      if r in s.runs {
        RecountsOn(front, e, r, s.runs[r], After(START, es).runs[r]);
      } else if RunOf(e) == Some(r) {
        RecountsAnew(front, e, r);
      }
    }
  }

  // ----- Nobody is held up -----

  /**
   In every state a live handle can be executed, in any mode and with any live watcher, or destroyed, and a
   background run's handle waited for, given up or aborted, whatever runs are in flight; and a run that is
   executing when it is aborted may end there and then.
   */
  lemma CallsAreNeverHeldUp(s: State, p: PipelineId, w: WatcherId, r: RunId, mode: Mode, thread: Thread, setter: Setter)
    ensures Live(s.pipelines, p) ==> Enabled(s, DestroyPipeline(p))
    ensures Live(s.watchers, w) ==> Enabled(s, DestroyWatcher(w))
    ensures Live(s.pipelines, p) && r !in s.runs ==> Enabled(s, Execute(r, p, mode, None))
    ensures Live(s.pipelines, p) && Live(s.watchers, w) && r !in s.runs ==> Enabled(s, Execute(r, p, mode, Some(w)))
    ensures Live(s.pipelines, p) && OwnedSet(setter) !! s.passed ==> Enabled(s, Set(thread, p, setter))
    ensures r in s.runs && s.runs[r].handle == Held ==>
              Enabled(s, Wait(r)) && Enabled(s, Detach(r)) && Enabled(s, Abort(r))
    ensures Executing(s, r) && s.runs[r].aborted ==> Enabled(s, Finish(r, Cancelled))
  {
  }

  // ----- What goes with the last reference -----

  /** The tasks' arguments in order, and after them the data-id closure's. */
  predicate InOrder(freed: seq<Arg>, content: Pipeline) {
    && |freed| == |content.tasks| + (if content.dataId.Some? then 1 else 0)
    && (forall i :: 0 <= i < |content.tasks| ==> freed[i] == TaskArg(content.tasks[i].task))
    && (content.dataId.Some? ==> freed[|content.tasks|] == DataArg(content.dataId.value))
  }

  lemma ArgsInOrder(content: Pipeline)
    ensures InOrder(Args(content), content)
  {
  }

  /**
   A pipeline goes when its handle is destroyed or a run lets it go, and then what it owned is freed at
   once: its tasks in the order in which they run, and its data-id closure last.
   */
  lemma GoesInOrder(s: State, e: Event, p: PipelineId)
    requires Enabled(s, e) && p in s.pipelines && p !in Step(s, e).pipelines
    ensures e == DestroyPipeline(p) || (e.DropPipeline? && Holds(s, e.r, p))
    ensures var freed := Step(s, e).freed;
            |s.freed| <= |freed| && freed[..|s.freed|] == s.freed && InOrder(freed[|s.freed|..], s.pipelines[p].content)
  {
    if e.Set? {
      SetKeeps(s, e);
    }
    ArgsInOrder(s.pipelines[p].content);
    hide Args, InOrder, DestroyNotice, NoticeEntry, RetainWatcher, MayFinish, Runnable, Splittable, SetStep;
  }
}
