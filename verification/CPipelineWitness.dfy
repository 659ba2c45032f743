/** A failure behind the C interface that the watcher is not told of. */
module CPipelineWitness {
  import opened Wrappers
  import opened Pipelines
  import opened SharedBoxes
  import opened CPipelines
  import opened CWatcherOrder
  import opened CPipelineTheorems

  const WEIGHTLESS := TaskInfo(0, None, None, None, 0, false, None)

  /** A pipeline of one task of weight zero, and a watcher. */
  function SetUp(): History {
    [NewPipeline(0, ""), NewWatcher(0), Set(0, 0, AddTask(WEIGHTLESS))]
  }

  /** An async run of it, up to its callback. */
  function Run(): History {
    [Execute(0, 0, Async, Some(0)), Notify(0, Started), Finish(0, Failed), DropPipeline(0), DropWatcher(0), Report(0)]
  }

  /** The state from the execute call on. */
  function During(references: nat, watching: nat, runs: map<RunId, CPipelines.Run>, log: Log): State {
    State(map[0 := Box(Pipelines.NewPipeline(0, "").(tasks := [WEIGHTLESS]), true, references)],
          map[0 := Box((), true, watching)], runs, {0}, {0}, {TaskArg(0)}, [], map[], log)
  }

  const BEGUN := NewRun(0, Async, Some(0))
  const TOLD := BEGUN.(told := [Started])
  const FAILED := TOLD.(outcome := Some(Failed))
  const LET_GO := FAILED.(holdsPipeline := false)
  const UNWATCHED := LET_GO.(holdsWatcher := false)
  const NOTICE := Notified(0, 0, Started)

  predicate Leads(s: State, e: Event, t: State) {
    Enabled(s, e) && Step(s, e) == t
  }

  lemma {:induction false} Extends(s: State, es: History, e: Event)
    requires IsRun(s, es) && Enabled(After(s, es), e)
    ensures IsRun(s, es + [e]) && After(s, es + [e]) == Step(After(s, es), e)
    decreases |es|
  {
    hide Enabled, Step;
    if es == [] {
      assert [] + [e] == [e];
      OneStep(s, e);
    } else {
      Extends(Step(s, es[0]), es[1..], e);
      assert (es + [e])[1..] == es[1..] + [e];
    }
  }

  lemma SetUpRuns()
    ensures IsRun(START, SetUp()) && After(START, SetUp()) == During(1, 1, map[], [])
  {
    hide IsRun, After;
    var a, b, c := NewPipeline(0, ""), NewWatcher(0), Set(0, 0, AddTask(WEIGHTLESS));
    var s1 := Step(START, a);
    var s2 := Step(s1, b);
    assert s2 == START.(pipelines := map[0 := Box(Pipelines.NewPipeline(0, ""), true, 1)], pipelineIds := {0},
                        watchers := map[0 := Box((), true, 1)], watcherIds := {0});
    assert [] + [WEIGHTLESS] == [WEIGHTLESS] && {} + {TaskArg(0)} == {TaskArg(0)};
    assert s2.freed + [] == [];
    assert Step(s2, c) == During(1, 1, map[], []);
    hide Step, Enabled, During;
    ThreeSteps(START, a, b, c);
  }

  lemma Executes()
    ensures Leads(During(1, 1, map[], []), Execute(0, 0, Async, Some(0)), During(2, 2, map[0 := BEGUN], []))
    ensures Leads(During(2, 2, map[0 := BEGUN], []), Notify(0, Started), During(2, 2, map[0 := TOLD], [NOTICE]))
    ensures Leads(During(2, 2, map[0 := TOLD], [NOTICE]), Finish(0, Failed), During(2, 2, map[0 := FAILED], [NOTICE]))
  {
    assert [] + [Started] == [Started] && [] + [NOTICE] == [NOTICE];
    assert [WEIGHTLESS][0].weight == 0;
  }

  lemma Completes()
    ensures Leads(During(2, 2, map[0 := FAILED], [NOTICE]), DropPipeline(0), During(1, 2, map[0 := LET_GO], [NOTICE]))
    ensures Leads(During(1, 2, map[0 := LET_GO], [NOTICE]), DropWatcher(0), During(1, 1, map[0 := UNWATCHED], [NOTICE]))
    ensures Leads(During(1, 1, map[0 := UNWATCHED], [NOTICE]), Report(0),
                  During(1, 1, map[0 := UNWATCHED.(reported := true)], [NOTICE, Reported(0, Failed)]))
  {
  }

  /** The callback reports a failure; the watcher was told of the start and of nothing else. */
  lemma WeightlessFailureIsNotTold()
    ensures IsRun(START, SetUp() + Run())
    ensures var end := After(START, SetUp() + Run());
            Notices(end.log, 0) == [Started] && end.log[|end.log| - 1] == Reported(0, Failed)
  {
    Executes();
    Completes();
    hide IsRun, After, Step, Enabled, During;
    var es := SetUp();
    SetUpRuns();
    Extends(START, es, Execute(0, 0, Async, Some(0)));
    es := es + [Execute(0, 0, Async, Some(0))];
    Extends(START, es, Notify(0, Started));
    es := es + [Notify(0, Started)];
    Extends(START, es, Finish(0, Failed));
    es := es + [Finish(0, Failed)];
    Extends(START, es, DropPipeline(0));
    es := es + [DropPipeline(0)];
    Extends(START, es, DropWatcher(0));
    es := es + [DropWatcher(0)];
    Extends(START, es, Report(0));
    assert es + [Report(0)] == SetUp() + Run();
    LogEnds();
  }

  lemma LogEnds()
    ensures During(1, 1, map[0 := UNWATCHED.(reported := true)], [NOTICE, Reported(0, Failed)]).log ==
            [NOTICE, Reported(0, Failed)]
    ensures Notices([NOTICE, Reported(0, Failed)], 0) == [Started]
  {
    AppendNotices([], NOTICE, 0);
    AppendNotices([NOTICE], Reported(0, Failed), 0);
    assert [] + [NOTICE] == [NOTICE] && [NOTICE] + [Reported(0, Failed)] == [NOTICE, Reported(0, Failed)];
  }
}
