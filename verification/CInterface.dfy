/**
 The C entry points themselves: each updates the library's objects in place, in the order the
 binding's code does, and is proved to take exactly the steps of the pipeline machine.
 */
module CInterface {
  import opened Wrappers
  import opened Pipelines
  import opened SharedBoxes
  import opened CPipelines
  import opened CPipelineSafety
  import opened CPipelineTheorems

  /** The machine's steps for an async run's completion: let go of everything, then report. */
  function AsyncEnd(r: RunId, run: Run, outcome: Outcome): seq<Event> {
    [Finish(r, outcome), DropPipeline(r)] + (if run.holdsWatcher then [DropWatcher(r)] else []) + [Report(r)]
  }

  /** A blocking call's locals are dropped in reverse order of declaration. */
  function BlockingEnd(r: RunId, run: Run, outcome: Outcome): seq<Event> {
    [Finish(r, outcome)] + (if run.holdsWatcher then [DropWatcher(r)] else []) + [DropPipeline(r), Report(r)]
  }

  /** A history goes on by one step. */
  lemma {:induction false} Extended(s: State, es: seq<Event>, e: Event)
    requires IsRun(s, es) && Enabled(After(s, es), e)
    ensures IsRun(s, es + [e]) && After(s, es + [e]) == Step(After(s, es), e)
    decreases |es|
  {
    hide Enabled, Step;
    if es == [] {
      assert [] + [e] == [e];
      OneStep(s, e);
    } else {
      Extended(Step(s, es[0]), es[1..], e);
      assert (es + [e])[1..] == es[1..] + [e];
    }
  }

  // What a completing run can do next, as it lets go of one thing after another.

  lemma Finished(s: State, r: RunId, outcome: Outcome)
    requires Inv(s) && Enabled(s, Finish(r, outcome))
    ensures var t := Step(s, Finish(r, outcome));
            && r in s.runs && t == WithRun(s, r, s.runs[r].(outcome := Some(outcome)))
            && t.runs[r].holdsPipeline && !t.runs[r].reported && HoldsLive(t, t.runs[r])
  {
    RunsHold(s, r);
    hide Inv, MayFinish;
  }

  lemma CanDropPipeline(s: State, r: RunId)
    requires r in s.runs && HoldsLive(s, s.runs[r]) && s.runs[r].outcome.Some? && s.runs[r].holdsPipeline
    requires s.runs[r].mode.Blocking? ==> !s.runs[r].holdsWatcher
    ensures Enabled(s, DropPipeline(r))
    ensures var t := Step(s, DropPipeline(r));
            r in t.runs && t.runs[r] == s.runs[r].(holdsPipeline := false) && HoldsLive(t, t.runs[r])
  {
    hide Release, GoesWith;
  }

  lemma CanDropWatcher(s: State, r: RunId)
    requires r in s.runs && HoldsLive(s, s.runs[r]) && s.runs[r].outcome.Some? && s.runs[r].holdsWatcher
    requires s.runs[r].mode.Async? ==> !s.runs[r].holdsPipeline
    ensures Enabled(s, DropWatcher(r))
    ensures var t := Step(s, DropWatcher(r));
            r in t.runs && t.runs[r] == s.runs[r].(holdsWatcher := false) && HoldsLive(t, t.runs[r])
  {
    hide Release, DestroyNotice;
  }

  lemma CanReport(s: State, r: RunId)
    requires r in s.runs && s.runs[r].outcome.Some? && !s.runs[r].holdsPipeline && !s.runs[r].holdsWatcher
    requires !s.runs[r].reported && !s.runs[r].mode.Background?
    ensures Enabled(s, Report(r))
  {
  }

  class Library {
    var pipelines: Boxes<Pipeline>
    var watchers: Boxes<()>
    var runs: map<RunId, Run>
    var pipelineIds: set<PipelineId>
    var watcherIds: set<WatcherId>
    var passed: set<Arg>
    var freed: seq<Arg>
    var errors: map<Thread, SetterError>
    var log: seq<Entry>

    function Now(): State
      reads this
    {
      State(pipelines, watchers, runs, pipelineIds, watcherIds, passed, freed, errors, log)
    }

    constructor ()
      ensures Now() == START
    {
      pipelines, watchers, runs := map[], map[], map[];
      pipelineIds, watcherIds, passed := {}, {}, {};
      freed, errors, log := [], map[], [];
    }

    // ----- Setters -----

    /** `Arc::get_mut` on the handle's reference; a failure sets the caller's last error. */
    method PipelineMut(thread: Thread, p: PipelineId) returns (unshared: bool)
      requires p in pipelines
      modifies this`errors
      ensures unshared == (pipelines[p].strong == 1)
      ensures errors == if unshared then old(errors) else old(errors)[thread := InUse]
    {
      unshared := pipelines[p].strong == 1;
      if !unshared {
        errors := errors[thread := InUse];
      }
    }

    method AddTask(thread: Thread, p: PipelineId, info: TaskInfo)
      requires Enabled(Now(), Set(thread, p, CPipelines.AddTask(info)))
      modifies this
      ensures Now() == Step(old(Now()), Set(thread, p, CPipelines.AddTask(info)))
    {
      passed := passed + {TaskArg(info.task)};
      var unshared := PipelineMut(thread, p);
      if unshared {
        var content := pipelines[p].content;
        pipelines := pipelines[p := pipelines[p].(content := content.(tasks := content.tasks + [info]))];
      } else {
        freed := freed + [TaskArg(info.task)];
      }
    }

    method SetDataIdFn(thread: Thread, p: PipelineId, data: nat)
      requires Enabled(Now(), Set(thread, p, SetDataId(data)))
      modifies this
      ensures Now() == Step(old(Now()), Set(thread, p, SetDataId(data)))
    {
      passed := passed + {DataArg(data)};
      var unshared := PipelineMut(thread, p);
      if unshared {
        var content := pipelines[p].content;
        if content.dataId.Some? {
          freed := freed + [DataArg(content.dataId.value)];
        }
        pipelines := pipelines[p := pipelines[p].(content := content.(dataId := Some(data)))];
      } else {
        freed := freed + [DataArg(data)];
      }
    }

    method SetRetryLimited(thread: Thread, p: PipelineId, maxAttempts: nat, exponential: bool, baseMs: nat, factor: nat)
      requires Enabled(Now(), Set(thread, p, CPipelines.SetRetryLimited(maxAttempts, exponential, baseMs, factor)))
      modifies this`errors, this`pipelines
      ensures Now() ==
              Step(old(Now()), Set(thread, p, CPipelines.SetRetryLimited(maxAttempts, exponential, baseMs, factor)))
    {
      if maxAttempts == 0 {
        errors := errors[thread := MaxAttemptsZero];
        return;
      }
      var retry := Constant(maxAttempts, baseMs);
      if exponential {
        retry := Exponential(maxAttempts, baseMs, factor);
      }
      var unshared := PipelineMut(thread, p);
      if unshared {
        pipelines := pipelines[p := pipelines[p].(content := pipelines[p].content.(retry := retry))];
      }
    }

    /** The setters of one plain field. */
    method SetField(thread: Thread, p: PipelineId, setter: Setter)
      requires Enabled(Now(), Set(thread, p, setter))
      requires setter.SetName? || setter.SetBatchSize? || setter.SetConcurrency? || setter.SetRetryNone?
      modifies this`errors, this`pipelines
      ensures Now() == Step(old(Now()), Set(thread, p, setter))
    {
      if (setter.SetBatchSize? && setter.size == 0) || (setter.SetConcurrency? && setter.n == 0) {
        return;
      }
      var unshared := PipelineMut(thread, p);
      if unshared {
        var content := pipelines[p].content;
        match setter {
          case SetName(name) => content := content.(name := Some(name));
          case SetBatchSize(size) => content := content.(batchSize := size);
          case SetConcurrency(n) => content := content.(concurrency := n);
          case _ => content := content.(retry := NoRetry);
        }
        pipelines := pipelines[p := pipelines[p].(content := content)];
      }
    }

    // ----- References -----

    /** Dropping a reference: the last one drops the pipeline, task by task and then its data-id closure. */
    method ReleasePipeline(p: PipelineId)
      requires p in pipelines && pipelines[p].strong > 0
      modifies this`pipelines, this`freed
      ensures pipelines == Release(old(pipelines), p)
      ensures freed == old(freed) + GoesWith(old(Now()), p)
    {
      var content := pipelines[p].content;
      if pipelines[p].strong > 1 {
        pipelines := pipelines[p := pipelines[p].(strong := pipelines[p].strong - 1)];
        return;
      }
      pipelines := pipelines - {p};
      var i := 0;
      while i < |content.tasks|
        invariant 0 <= i <= |content.tasks|
        invariant freed == old(freed) + Args(content)[..i]
        invariant pipelines == Release(old(pipelines), p)
      {
        freed := freed + [TaskArg(content.tasks[i].task)];
        i := i + 1;
      }
      if content.dataId.Some? {
        freed := freed + [DataArg(content.dataId.value)];
      }
    }

    /** Dropping a watcher reference: the last one runs the vtable's `destroy`. */
    method ReleaseWatcher(w: WatcherId, cause: Option<RunId>)
      requires w in watchers && watchers[w].strong > 0
      modifies this`watchers, this`log
      ensures watchers == Release(old(watchers), w)
      ensures log == old(log) + DestroyNotice(old(Now()), w, cause)
    {
      if watchers[w].strong > 1 {
        watchers := watchers[w := watchers[w].(strong := watchers[w].strong - 1)];
      } else {
        watchers := watchers - {w};
        log := log + [Destroyed(w, cause)];
      }
    }

    method DestroyPipeline(p: PipelineId)
      requires Enabled(Now(), Event.DestroyPipeline(p))
      modifies this
      ensures Now() == Step(old(Now()), Event.DestroyPipeline(p))
    {
      pipelines := pipelines[p := pipelines[p].(handle := false)];
      ReleasePipeline(p);
    }

    method DestroyWatcher(w: WatcherId)
      requires Enabled(Now(), Event.DestroyWatcher(w))
      modifies this
      ensures Now() == Step(old(Now()), Event.DestroyWatcher(w))
    {
      watchers := watchers[w := watchers[w].(handle := false)];
      ReleaseWatcher(w, None);
    }

    // ----- Runs -----

    /** What all three execute calls do first: take a reference to the pipeline, and to the watcher if there is one. */
    method Execute(r: RunId, p: PipelineId, mode: Mode, watcher: Option<WatcherId>)
      requires Enabled(Now(), Event.Execute(r, p, mode, watcher))
      modifies this
      ensures Now() == Step(old(Now()), Event.Execute(r, p, mode, watcher))
    {
      pipelines := pipelines[p := pipelines[p].(strong := pipelines[p].strong + 1)];
      if watcher.Some? {
        var w := watcher.value;
        watchers := watchers[w := watchers[w].(strong := watchers[w].strong + 1)];
      }
      runs := runs[r := NewRun(p, mode, watcher)];
    }

    method LetPipelineGo(r: RunId)
      requires Enabled(Now(), Event.DropPipeline(r))
      modifies this
      ensures Now() == Step(old(Now()), Event.DropPipeline(r))
    {
      ReleasePipeline(runs[r].pipeline);
      runs := runs[r := runs[r].(holdsPipeline := false)];
    }

    method LetWatcherGo(r: RunId)
      requires Enabled(Now(), Event.DropWatcher(r))
      modifies this
      ensures Now() == Step(old(Now()), Event.DropWatcher(r))
    {
      ReleaseWatcher(runs[r].watcher.value, Some(r));
      runs := runs[r := runs[r].(holdsWatcher := false)];
    }

    method SignalCompletion(r: RunId)
      requires Enabled(Now(), Event.Report(r))
      modifies this
      ensures Now() == Step(old(Now()), Event.Report(r))
    {
      log := log + [Reported(r, runs[r].outcome.value)];
      runs := runs[r := runs[r].(reported := true)];
    }


    /** The end of an async run: the pipeline goes, then the watcher, then the callback is invoked. */
    method CompleteAsync(r: RunId, outcome: Outcome)
      requires Inv(Now()) && Enabled(Now(), Finish(r, outcome)) && runs[r].mode.Async?
      modifies this
      ensures IsRun(old(Now()), AsyncEnd(r, old(runs[r]), outcome))
      ensures Now() == After(old(Now()), AsyncEnd(r, old(runs[r]), outcome)) && Inv(Now())
    {
      hide Inv, IsRun, After, Enabled, Step, HoldsLive;
      ghost var s0 := Now();
      Finished(s0, r, outcome);
      ghost var run := runs[r];
      OneStep(s0, Finish(r, outcome));
      runs := runs[r := runs[r].(outcome := Some(outcome))];
      ghost var done := [Finish(r, outcome)];
      CanDropPipeline(Now(), r);
      Extended(s0, done, DropPipeline(r));
      LetPipelineGo(r);
      done := done + [DropPipeline(r)];
      if runs[r].holdsWatcher {
        CanDropWatcher(Now(), r);
        Extended(s0, done, DropWatcher(r));
        LetWatcherGo(r);
        done := done + [DropWatcher(r)];
      }
      CanReport(Now(), r);
      Extended(s0, done, Report(r));
      SignalCompletion(r);
      assert done + [Report(r)] == AsyncEnd(r, run, outcome);
      InvAfter(s0, AsyncEnd(r, run, outcome));
    }

    /** The end of a blocking run: the watcher goes, then the pipeline, then the call returns. */
    method CompleteBlocking(r: RunId, outcome: Outcome)
      requires Inv(Now()) && Enabled(Now(), Finish(r, outcome)) && runs[r].mode.Blocking?
      modifies this
      ensures IsRun(old(Now()), BlockingEnd(r, old(runs[r]), outcome))
      ensures Now() == After(old(Now()), BlockingEnd(r, old(runs[r]), outcome)) && Inv(Now())
    {
      hide Inv, IsRun, After, Enabled, Step, HoldsLive;
      ghost var s0 := Now();
      Finished(s0, r, outcome);
      ghost var run := runs[r];
      OneStep(s0, Finish(r, outcome));
      runs := runs[r := runs[r].(outcome := Some(outcome))];
      ghost var done := [Finish(r, outcome)];
      if runs[r].holdsWatcher {
        CanDropWatcher(Now(), r);
        Extended(s0, done, DropWatcher(r));
        LetWatcherGo(r);
        done := done + [DropWatcher(r)];
      }
      CanDropPipeline(Now(), r);
      Extended(s0, done, DropPipeline(r));
      LetPipelineGo(r);
      done := done + [DropPipeline(r)];
      CanReport(Now(), r);
      Extended(s0, done, Report(r));
      SignalCompletion(r);
      assert done + [Report(r)] == BlockingEnd(r, run, outcome);
      InvAfter(s0, BlockingEnd(r, run, outcome));
    }
  }
}
