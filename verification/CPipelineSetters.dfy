/** What is in a pipeline behind the C interface, told by the calls that were made on it. */
module CPipelineSetters {
  import opened Wrappers
  import opened Pipelines
  import opened SharedBoxes
  import opened CPipelines
  import opened CPipelineSafety
  import opened CPipelineOwnership
  import opened CWatcherOrder
  import opened CPipelineTheorems

  // ----- Calls and what they are for -----

  /** The one plain field a setter is for. */
  function FieldOf(setter: Setter): Option<Field> {
    match setter
    case SetName(_) => Some(Name)
    case SetBatchSize(_) => Some(BatchSize)
    case SetConcurrency(_) => Some(Concurrency)
    case SetRetryNone => Some(Retry)
    case SetRetryLimited(_, _, _, _) => Some(Retry)
    case SetDataId(_) => Some(DataId)
    case AddTask(_) => None
  }

  /** The field holds the setter's argument. */
  predicate Shows(content: Pipeline, setter: Setter) {
    match setter
    case SetName(name) => content.name == Some(name)
    case SetBatchSize(size) => content.batchSize == size
    case SetConcurrency(n) => content.concurrency == n
    case SetRetryNone => content.retry == NoRetry
    case SetRetryLimited(maxAttempts, exponential, baseMs, factor) =>
      if exponential then content.retry == Exponential(maxAttempts, baseMs, factor)
      else content.retry == Constant(maxAttempts, baseMs)
    case SetDataId(data) => content.dataId == Some(data)
    case AddTask(_) => true
  }

  /** A zero size, count or number of attempts is turned away before the pipeline is looked at. */
  predicate Acceptable(setter: Setter) {
    && (setter.SetBatchSize? ==> setter.size > 0) && (setter.SetConcurrency? ==> setter.n > 0)
    && (setter.SetRetryLimited? ==> setter.maxAttempts > 0)
  }

  ghost predicate HeldBySome(s: State, p: PipelineId) {
    exists r :: Holds(s, r, p)
  }

  /** The `i`-th event is an acceptable setter call on `p`, made while no run holds it. */
  ghost predicate AcceptedAt(es: History, i: nat, p: PipelineId) {
    && i < |es| && es[i].Set? && es[i].p == p && Acceptable(es[i].setter)
    && IsRun(START, es[..i]) && !HeldBySome(After(START, es[..i]), p)
  }

  /** The last accepted call for a field. */
  ghost function LastCall(es: History, p: PipelineId, field: Field): (r: Option<Setter>)
    ensures r.Some? ==> FieldOf(r.value) == Some(field)
  {
    if es == [] then None
    else if AcceptedAt(es, |es| - 1, p) && FieldOf(es[|es| - 1].setter) == Some(field) then Some(es[|es| - 1].setter)
    else LastCall(es[..|es| - 1], p, field)
  }

  /** The tasks of the accepted calls, in the order of the calls. */
  ghost function AddedTasks(es: History, p: PipelineId): seq<TaskInfo> {
    if es == [] then []
    else
      AddedTasks(es[..|es| - 1], p)
      + if AcceptedAt(es, |es| - 1, p) && es[|es| - 1].setter.AddTask? then [es[|es| - 1].setter.info] else []
  }

  // ----- One step -----

  /** What an accepted call, and what an event, does to the content of a pipeline, field by field. */
  predicate EditsTo(before: Pipeline, setter: Setter, after: Pipeline) {
    && Shows(after, setter) && SameElsewhere(before, after)
    && (forall field :: FieldOf(setter) != Some(field) ==> SameIn(before, after, field))
    && after.tasks == before.tasks + if setter.AddTask? then [setter.info] else []
  }

  predicate Changes(s: State, e: Event, p: PipelineId, accepted: bool, after: Pipeline) {
    if e.NewPipeline? && e.p == p then
      && (forall field :: ShowsDefault(after, field)) && after.tasks == [] && after.id == p
      && after.description == e.description && after.telemetry == None && after.rateLimiter == None
    else
      && p in s.pipelines
      && var before := s.pipelines[p].content;
      if accepted then e.Set? && EditsTo(before, e.setter, after) else after == before
  }

  lemma SetChanges(s: State, e: Event, p: PipelineId)
    requires Enabled(s, e) && e.Set? && p in s.pipelines && p in Step(s, e).pipelines
    ensures Changes(s, e, p, e.p == p && Acceptable(e.setter) && s.pipelines[p].strong == 1,
                    Step(s, e).pipelines[p].content)
  {
    hide Replaced, OwnedSet, OwnedSeq, Edited, EditsTo;
    if !Ignored(e.setter) {
      EditedSo(s.pipelines[p].content, e.setter);
    }
  }

  lemma EditedSo(content: Pipeline, setter: Setter)
    requires !Ignored(setter)
    ensures EditsTo(content, setter, Edited(content, setter))
  {
  }

  lemma OtherChanges(s: State, e: Event, p: PipelineId)
    requires Enabled(s, e) && !e.Set? && p in Step(s, e).pipelines
    ensures Changes(s, e, p, false, Step(s, e).pipelines[p].content)
  {
    hide GoesWith, DestroyNotice, NoticeEntry, RetainWatcher, MayFinish, Runnable, Splittable;
  }

  lemma ContentChanges(s: State, e: Event, p: PipelineId)
    requires Inv(s) && Enabled(s, e) && p in Step(s, e).pipelines
    ensures Changes(s, e, p, e.Set? && e.p == p && Acceptable(e.setter) && !HeldBySome(s, p),
                    Step(s, e).pipelines[p].content)
  {
    if e.Set? {
      SetKeeps(s, e);
      SetChanges(s, e, p);
      if e.p == p {
        SoleMeansUnheld(s, p);
      }
    } else {
      OtherChanges(s, e, p);
    }
    hide Inv, Step, Changes, Holds;
  }

  lemma SetKeeps(s: State, e: Event)
    requires Enabled(s, e) && e.Set?
    ensures Step(s, e).pipelines.Keys == s.pipelines.Keys && Live(s.pipelines, e.p)
  {
    hide Edited, Replaced, OwnedSet, OwnedSeq;
  }

  // ----- Whole histories -----

  lemma LastStep(es: History)
    requires IsRun(START, es) && es != []
    ensures var front, last := es[..|es| - 1], es[|es| - 1];
            && IsRun(START, front) && Enabled(After(START, front), last)
            && After(START, es) == Step(After(START, front), last)
  {
    var n := |es| - 1;
    Split(START, es, n);
    hide Step, Enabled;
    assert es[n..] == [es[n]] && es[n..][1..] == [];
  }

  /** Nothing can have been called on a pipeline before it was made. */
  lemma {:induction false} NoCallsBefore(es: History, p: PipelineId)
    requires IsRun(START, es) && p !in After(START, es).pipelineIds
    ensures forall i :: 0 <= i < |es| && es[i].Set? ==> es[i].p != p
    decreases |es|
  {
    if es != [] {
      var front, last := es[..|es| - 1], es[|es| - 1];
      LastStep(es);
      InvAlways(front);
      hide IsRun, After, Inv;
      IdsGrow(After(START, front), last, p);
      hide Step, Enabled;
      NoCallsBefore(front, p);
      assert forall i :: 0 <= i < |front| ==> es[i] == front[i];
    }
  }

  lemma IdsGrow(s: State, e: Event, p: PipelineId)
    requires Inv(s) && Enabled(s, e) && p !in Step(s, e).pipelineIds
    ensures p !in s.pipelineIds && !(e.NewPipeline? && e.p == p) && !(e.Set? && e.p == p)
  {
    hide RunsSound, Owned, LogSound, Counted, GoesWith, DestroyNotice, NoticeEntry, RetainWatcher, MayFinish;
  }

  lemma AcceptedNow(front: History, e: Event, p: PipelineId)
    requires IsRun(START, front)
    ensures AcceptedAt(front + [e], |front|, p) <==>
            e.Set? && e.p == p && Acceptable(e.setter) && !HeldBySome(After(START, front), p)
  {
    assert (front + [e])[..|front|] == front;
    hide IsRun, After;
  }

  lemma {:induction false} NothingCalled(es: History, p: PipelineId)
    requires forall i :: 0 <= i < |es| && es[i].Set? ==> es[i].p != p
    ensures AddedTasks(es, p) == [] && forall field :: LastCall(es, p, field) == None
  {
    hide IsRun, After;
    if es != [] {
      NothingCalled(es[..|es| - 1], p);
    }
  }

  /** The field shows the argument of the last accepted call for it, or its default if there was none. */
  predicate Settled(content: Pipeline, field: Field, last: Option<Setter>) {
    match last
    case Some(setter) => Shows(content, setter)
    case None => ShowsDefault(content, field)
  }

  lemma StillSettled(before: Pipeline, after: Pipeline, field: Field, last: Option<Setter>)
    requires SameIn(before, after, field) && (last.Some? ==> FieldOf(last.value) == Some(field))
    ensures Settled(before, field, last) ==> Settled(after, field, last)
  {
  }

  /** What all the calls made on a pipeline come to. */
  ghost predicate ToldBy(es: History, p: PipelineId, content: Pipeline) {
    && (forall field :: Settled(content, field, LastCall(es, p, field)))
    && content.tasks == AddedTasks(es, p)
    && (exists i :: 0 <= i < |es| && es[i] == Event.NewPipeline(p, content.description))
    && content.id == p && content.telemetry == None && content.rateLimiter == None
  }

  lemma ToldAnew(front: History, p: PipelineId, description: string, s: State, content: Pipeline)
    requires (forall i :: 0 <= i < |front| && front[i].Set? ==> front[i].p != p)
    requires Changes(s, Event.NewPipeline(p, description), p, false, content)
    ensures ToldBy(front + [Event.NewPipeline(p, description)], p, content)
  {
    var es := front + [Event.NewPipeline(p, description)];
    assert es[|front|] == Event.NewPipeline(p, description);
    NothingCalled(es, p);
  }

  lemma ToldOn(front: History, e: Event, p: PipelineId, s: State, after: Pipeline)
    requires p in s.pipelines && ToldBy(front, p, s.pipelines[p].content)
    requires !(e.NewPipeline? && e.p == p) && Changes(s, e, p, AcceptedAt(front + [e], |front|, p), after)
    ensures ToldBy(front + [e], p, after)
  {
    var es, before := front + [e], s.pipelines[p].content;
    assert es[..|front|] == front && es[|front|] == e;
    hide IsRun, After;
    forall field ensures Settled(after, field, LastCall(es, p, field)) {
      if !(AcceptedAt(es, |front|, p) && FieldOf(e.setter) == Some(field)) {
        StillSettled(before, after, field, LastCall(front, p, field));
      }
    }
    hide Settled, AcceptedAt;
    var i :| 0 <= i < |front| && front[i] == Event.NewPipeline(p, before.description);
    assert es[i] == Event.NewPipeline(p, after.description);
  }

  lemma NewOrKept(s: State, e: Event, p: PipelineId, after: Pipeline)
    requires exists accepted :: Changes(s, e, p, accepted, after)
    ensures (e.NewPipeline? && e.p == p) || p in s.pipelines
    ensures e.NewPipeline? && e.p == p ==> Changes(s, e, p, false, after)
  {
    hide ShowsDefault;
  }

  /**
   In every history, each plain field of a pipeline that is still there holds the argument of the last
   setter call for it that was accepted, or what it holds in a new pipeline; its tasks are those of the
   accepted calls, in their order; and the rest is as it was made.
   */
  lemma {:induction false} ContentIsItsCalls(es: History, p: PipelineId)
    requires IsRun(START, es) && p in After(START, es).pipelines
    ensures ToldBy(es, p, After(START, es).pipelines[p].content)
    decreases |es|
  {
    if es != [] {
      var front, e := es[..|es| - 1], es[|es| - 1];
      LastStep(es);
      InvAlways(front);
      AcceptedNow(front, e, p);
      var s := After(START, front);
      hide IsRun, After, Inv, Step, Enabled, AcceptedAt, Acceptable, HeldBySome, ToldBy, Changes;
      ContentChanges(s, e, p);
      NewOrKept(s, e, p, After(START, es).pipelines[p].content);
      assert front + [e] == es;
      if e.NewPipeline? && e.p == p {
        NoCallsBefore(front, p);
        ToldAnew(front, p, e.description, s, After(START, es).pipelines[p].content);
      } else {
        ContentIsItsCalls(front, p);
        ToldOn(front, e, p, s, After(START, es).pipelines[p].content);
      }
    }
  }
}
