/** What a pipeline built from Python holds, told by the builder calls that were made on it. */
module PyBuilders {
  import opened Wrappers
  import opened Pipelines
  import opened PyPipelines

  type History = seq<Event>

  // ----- Calls and what they are for -----

  function FieldOf(setter: Setter): Option<Field> {
    match setter
    case WithName(_) => Some(Name)
    case AddTask(_, _, _, _) => None
    case WithRetry(_, _) => Some(Retry)
    case WithRetryExponential(_, _, _) => Some(Retry)
    case WithBatchSize(_) => Some(BatchSize)
    case WithConcurrency(_) => Some(Concurrency)
  }

  /** The field holds the call's arguments. */
  predicate Shows(content: Pipeline, setter: Setter) {
    match setter
    case WithName(name) => content.name == Some(name)
    case AddTask(_, _, _, _) => true
    case WithRetry(maxAttempts, delayMs) => content.retry == Constant(maxAttempts, delayMs)
    case WithRetryExponential(maxAttempts, baseMs, factor) =>
      content.retry == Exponential(maxAttempts, baseMs, factor)
    case WithBatchSize(size) => content.batchSize == size
    case WithConcurrency(n) => content.concurrency == n
  }

  /** The task an `add_task` call describes; what it does not say is left out. */
  predicate Describes(setter: Setter, info: TaskInfo) {
    && setter.AddTask? && setter.callable == Some(info.task)
    && info.name == setter.taskName && info.batchSize == setter.batchSize && info.weight == setter.weight
    && info.summary == None && !info.enriches && info.rateLimiter == None
  }

  /** Why a call on an object nobody is using raises. */
  function Complaint(setter: Setter): Option<PyError> {
    if setter.AddTask? && setter.callable == None then Some(NotCallable)
    else if setter.AddTask? && setter.batchSize == Some(0) then Some(BatchSizeZero)
    else if (setter.WithRetry? || setter.WithRetryExponential?) && setter.maxAttempts == 0 then Some(MaxAttemptsZero)
    else None
  }

  predicate SucceedsOn(e: Event, p: PipelineId) {
    e.EndSet? && e.p == p && Complaint(e.setter) == None
  }

  predicate Makes(e: Event, p: PipelineId) {
    e.New? && e.p == p
  }

  /** The last call for a field that succeeded since the object was made. */
  function LastCall(es: History, p: PipelineId, field: Field): (r: Option<Setter>)
    ensures r.Some? ==> FieldOf(r.value) == Some(field)
  {
    if es == [] then None
    else
      var last := es[|es| - 1];
      if Makes(last, p) then None
      else if SucceedsOn(last, p) && FieldOf(last.setter) == Some(field) then Some(last.setter)
      else LastCall(es[..|es| - 1], p, field)
  }

  /** The `add_task` calls that succeeded since the object was made, in order. */
  function AddCalls(es: History, p: PipelineId): seq<Setter> {
    if es == [] then []
    else
      var last := es[|es| - 1];
      if Makes(last, p) then []
      else AddCalls(es[..|es| - 1], p) + if SucceedsOn(last, p) && last.setter.AddTask? then [last.setter] else []
  }

  // ----- One step -----

  /** What a call that succeeds does to the content, field by field. */
  predicate EditsTo(before: Pipeline, setter: Setter, after: Pipeline) {
    && Shows(after, setter) && SameElsewhere(before, after)
    && (forall field :: FieldOf(setter) != Some(field) ==> SameIn(before, after, field))
    && if setter.AddTask? then
         && |after.tasks| == |before.tasks| + 1 && after.tasks[..|before.tasks|] == before.tasks
         && Describes(setter, after.tasks[|before.tasks|])
       else after.tasks == before.tasks
  }

  lemma BuiltSo(before: Pipeline, setter: Setter)
    ensures Built(before, setter).Ok? <==> Complaint(setter) == None
    ensures Built(before, setter).Err? ==> Complaint(setter) == Some(Built(before, setter).error)
    ensures Built(before, setter).Ok? ==> EditsTo(before, setter, Built(before, setter).value)
  {
  }

  /** A call raises for a borrow, or else for its arguments, and then changes nothing; otherwise it succeeds. */
  lemma CallAnswers(before: Object, setter: Setter)
    ensures var (after, answer) := Called(before, setter);
            if before.readers > 0 || before.writing then answer == Err(AlreadyBorrowed) && after == before
            else if Complaint(setter).Some? then answer == Err(Complaint(setter).value) && after == before
            else answer == Ok(()) && EditsTo(before.content, setter, after.content)
  {
    BuiltSo(before.content, setter);
    hide Built, Complaint, EditsTo;
  }

  predicate IsNew(content: Pipeline, p: PipelineId, description: string) {
    && (forall field :: ShowsDefault(content, field)) && content.tasks == []
    && content.id == p && content.description == description
    && content.telemetry == None && content.rateLimiter == None
  }

  lemma ContentStep(s: State, e: Event, p: PipelineId)
    requires Enabled(s, e) && p in Step(s, e).objects
    ensures var after := Step(s, e).objects[p].content;
            if Makes(e, p) then IsNew(after, p, e.description)
            else
              && p in s.objects
              && if SucceedsOn(e, p) then EditsTo(s.objects[p].content, e.setter, after)
                 else after == s.objects[p].content
  {
    if e.EndSet? {
      BuiltSo(s.objects[e.p].content, e.setter);
    }
    hide Built, Complaint, EditsTo, ClonePipeline;
  }

  /** A run can start from an object whenever no setter has it, however many runs have started from it. */
  lemma RunsAreNeverHeldUp(s: State, r: RunId, p: PipelineId)
    requires r !in s.runs && p in s.objects
    ensures Enabled(s, Execute(r, p)) <==> !s.objects[p].writing
    ensures Enabled(s, ExecuteSync(r, p)) <==> !s.objects[p].writing
  {
  }

  // ----- Whole histories -----

  lemma {:induction false} LastStep(s: State, es: History)
    requires IsRun(s, es) && es != []
    ensures var front, last := es[..|es| - 1], es[|es| - 1];
            && IsRun(s, front) && Enabled(After(s, front), last) && After(s, es) == Step(After(s, front), last)
    decreases |es|
  {
    hide Step, Enabled;
    if |es| == 1 {
      assert es[..0] == [] && es[1..] == [];
    } else {
      LastStep(Step(s, es[0]), es[1..]);
      assert es[1..][..|es| - 2] == es[..|es| - 1][1..];
    }
  }

  predicate Settled(content: Pipeline, field: Field, last: Option<Setter>) {
    match last
    case Some(setter) => Shows(content, setter)
    case None => ShowsDefault(content, field)
  }

  /** What all the calls made on an object come to. */
  ghost predicate ToldBy(es: History, p: PipelineId, content: Pipeline) {
    && (forall field :: Settled(content, field, LastCall(es, p, field)))
    && |content.tasks| == |AddCalls(es, p)|
    && (forall i :: 0 <= i < |content.tasks| ==> Describes(AddCalls(es, p)[i], content.tasks[i]))
    && content.id == p && New(p, content.description) in es
    && content.telemetry == None && content.rateLimiter == None
  }

  lemma StillSettled(before: Pipeline, after: Pipeline, field: Field, last: Option<Setter>)
    requires SameIn(before, after, field) && (last.Some? ==> FieldOf(last.value) == Some(field))
    ensures Settled(before, field, last) ==> Settled(after, field, last)
  {
  }

  lemma ToldAnew(front: History, e: Event, p: PipelineId, after: Pipeline)
    requires Makes(e, p) && IsNew(after, p, e.description)
    ensures ToldBy(front + [e], p, after)
  {
    var es := front + [e];
    assert es[|front|] == e;
    assert New(p, after.description) in es;
  }

  lemma ToldOn(front: History, e: Event, p: PipelineId, before: Pipeline, after: Pipeline)
    requires ToldBy(front, p, before) && !Makes(e, p)
    requires if SucceedsOn(e, p) then EditsTo(before, e.setter, after) else after == before
    ensures ToldBy(front + [e], p, after)
  {
    var es := front + [e];
    assert es[..|front|] == front && es[|front|] == e;
    hide Complaint, Describes, Makes;
    forall field ensures Settled(after, field, LastCall(es, p, field)) {
      if !(SucceedsOn(e, p) && FieldOf(e.setter) == Some(field)) {
        StillSettled(before, after, field, LastCall(front, p, field));
      }
    }
    assert New(p, before.description) in es;
    hide Settled, Shows, LastCall, SucceedsOn;
  }

  /**
   In every history, each plain field of a pipeline object holds the arguments of the last call for it
   that succeeded, or what it holds in a new one; and its tasks are those its `add_task` calls described,
   in the order of the calls. A call that raised, whatever for, has left no trace.
   */
  lemma {:induction false} ContentIsItsCalls(es: History, p: PipelineId)
    requires IsRun(START, es) && p in After(START, es).objects
    ensures ToldBy(es, p, After(START, es).objects[p].content)
    decreases |es|
  {
    if es != [] {
      var front, e := es[..|es| - 1], es[|es| - 1];
      LastStep(START, es);
      var s, after := After(START, front), After(START, es).objects[p].content;
      hide IsRun, After;
      ContentStep(s, e, p);
      assert front + [e] == es;
      hide Step, Enabled, ToldBy, EditsTo, SucceedsOn, IsNew;
      if Makes(e, p) {
        ToldAnew(front, e, p, after);
      } else {
        ContentIsItsCalls(front, p);
        ToldOn(front, e, p, s.objects[p].content, after);
      }
    }
  }
}
