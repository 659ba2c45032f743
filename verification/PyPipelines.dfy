/**
 Pipelines behind the Python interface: async and background runs work from a clone, and a
 synchronous run borrows the pipeline so that nothing can change it meanwhile.
 */
module PyPipelines {
  import opened Wrappers
  import opened Pipelines

  // ----- Cloning -----

  /** The clone carries what the builder methods it calls can set. */
  function CloneTask(info: TaskInfo): TaskInfo {
    TaskInfo(info.task, info.name, info.batchSize, info.summary, info.weight, false, None)
  }

  function CloneTasks(tasks: seq<TaskInfo>): seq<TaskInfo> {
    if tasks == [] then [] else [CloneTask(tasks[0])] + CloneTasks(tasks[1..])
  }

  function ClonePipeline(p: Pipeline): Pipeline {
    p.(tasks := CloneTasks(p.tasks))
  }

  predicate Plain(info: TaskInfo) {
    !info.enriches && info.rateLimiter == None
  }

  lemma {:induction false} CloneTasksAt(tasks: seq<TaskInfo>)
    ensures |CloneTasks(tasks)| == |tasks|
    ensures forall i :: 0 <= i < |tasks| ==> CloneTasks(tasks)[i] == CloneTask(tasks[i])
  {
    if tasks != [] {
      CloneTasksAt(tasks[1..]);
    }
  }

  /** Enrichment marks and per-task rate limiters are lost in cloning, and only they. */
  lemma CloneIsExact(p: Pipeline)
    ensures ClonePipeline(p) == p <==> forall i :: 0 <= i < |p.tasks| ==> Plain(p.tasks[i])
  {
    CloneTasksAt(p.tasks);
    if ClonePipeline(p) == p {
      forall i | 0 <= i < |p.tasks| ensures Plain(p.tasks[i]) {
        assert ClonePipeline(p).tasks[i] == CloneTask(p.tasks[i]);
      }
    }
    if forall i :: 0 <= i < |p.tasks| ==> Plain(p.tasks[i]) {
      assert CloneTasks(p.tasks) == p.tasks;
    }
  }

  // ----- Builder methods -----

  datatype Setter =
    | WithName(name: string)
    | AddTask(callable: Option<nat>, // None: cannot be wrapped
              taskName: Option<string>, batchSize: Option<nat>, weight: nat)
    | WithRetry(maxAttempts: nat, delayMs: nat)
    | WithRetryExponential(maxAttempts: nat, baseMs: nat, factor: nat)
    | WithBatchSize(size: nat)
    | WithConcurrency(n: nat)

  datatype PyError = AlreadyBorrowed | MaxAttemptsZero | NotCallable | BatchSizeZero

  function Built(p: Pipeline, setter: Setter): Result<Pipeline, PyError> {
    match setter
    case WithName(name) => Ok(p.(name := Some(name)))
    case AddTask(callable, name, batchSize, weight) =>
      if callable.None? then Err(NotCallable)
      else if batchSize == Some(0) then Err(BatchSizeZero)
      else Ok(p.(tasks := p.tasks + [TaskInfo(callable.value, name, batchSize, None, weight, false, None)]))
    case WithRetry(maxAttempts, delayMs) =>
      if maxAttempts == 0 then Err(MaxAttemptsZero) else Ok(p.(retry := Constant(maxAttempts, delayMs)))
    case WithRetryExponential(maxAttempts, baseMs, factor) =>
      if maxAttempts == 0 then Err(MaxAttemptsZero) else Ok(p.(retry := Exponential(maxAttempts, baseMs, factor)))
    case WithBatchSize(size) => Ok(p.(batchSize := size))
    case WithConcurrency(n) => Ok(p.(concurrency := n))
  }

  /** What pipelines built this way look like: cloning them loses nothing, and never fails. */
  predicate PyBuilt(p: Pipeline) {
    forall i :: 0 <= i < |p.tasks| ==> Plain(p.tasks[i]) && p.tasks[i].batchSize != Some(0)
  }

  // ----- The machine -----

  type PipelineId = nat
  type RunId = nat

  /** A Python pipeline object, with the borrows of it that are out. */
  datatype Object = Object(content: Pipeline, readers: nat, writing: bool)

  datatype Source = Own(copy: Pipeline) | Borrowed(p: PipelineId)

  datatype Run = Run(source: Source, seen: seq<Pipeline>, live: bool)

  datatype State = State(objects: map<PipelineId, Object>, runs: map<RunId, Run>)

  const START := State(map[], map[])

  /** A setter borrows the object for as long as it runs, and other threads may run meanwhile. */
  datatype Event =
    | New(p: PipelineId, description: string)
    | BeginSet(p: PipelineId)
    | EndSet(p: PipelineId, setter: Setter)
    | Collect(p: PipelineId)
    | Execute(r: RunId, p: PipelineId)      // execute, execute_in_background
    | ExecuteSync(r: RunId, p: PipelineId)
    | Observe(r: RunId)
    | Finish(r: RunId)

  predicate Free(o: Object) {
    o.readers == 0 && !o.writing
  }

  predicate Executing(s: State, r: RunId) {
    r in s.runs && s.runs[r].live && (s.runs[r].source.Borrowed? ==> s.runs[r].source.p in s.objects)
  }

  function Given(s: State, r: RunId): Pipeline
    requires Executing(s, r)
  {
    match s.runs[r].source
    case Own(copy) => copy
    case Borrowed(p) => s.objects[p].content
  }

  predicate Enabled(s: State, e: Event) {
    match e
    case New(p, _) => p !in s.objects
    case BeginSet(p) => p in s.objects && Free(s.objects[p])
    case EndSet(p, _) => p in s.objects && s.objects[p].writing
    case Collect(p) => p in s.objects && Free(s.objects[p])
    case Execute(r, p) => r !in s.runs && p in s.objects && !s.objects[p].writing
    case ExecuteSync(r, p) => r !in s.runs && p in s.objects && !s.objects[p].writing
    case Observe(r) => Executing(s, r)
    case Finish(r) => Executing(s, r) && (s.runs[r].source.Borrowed? ==> s.objects[s.runs[r].source.p].readers > 0)
  }

  function Step(s: State, e: Event): State
    requires Enabled(s, e)
  {
    match e
    case New(p, description) => s.(objects := s.objects[p := Object(NewPipeline(p, description), 0, false)])
    case BeginSet(p) => s.(objects := s.objects[p := s.objects[p].(writing := true)])
    case EndSet(p, setter) =>
      var o := s.objects[p];
      var content := match Built(o.content, setter) case Ok(built) => built case Err(_) => o.content;
      s.(objects := s.objects[p := Object(content, o.readers, false)])
    case Collect(p) => s.(objects := s.objects - {p})
    case Execute(r, p) => s.(runs := s.runs[r := Run(Own(ClonePipeline(s.objects[p].content)), [], true)])
    case ExecuteSync(r, p) =>
      s.(runs := s.runs[r := Run(Borrowed(p), [], true)],
         objects := s.objects[p := s.objects[p].(readers := s.objects[p].readers + 1)])
    case Observe(r) => s.(runs := s.runs[r := s.runs[r].(seen := s.runs[r].seen + [Given(s, r)])])
    case Finish(r) =>
      s.(runs := s.runs[r := s.runs[r].(live := false)],
         objects := match s.runs[r].source
           case Own(_) => s.objects
           case Borrowed(p) => s.objects[p := s.objects[p].(readers := s.objects[p].readers - 1)])
  }

  // ----- Borrows -----

  ghost predicate Borrowing(run: Run, p: PipelineId) {
    run.live && run.source == Borrowed(p)
  }

  ghost function Borrowers(runs: map<RunId, Run>, p: PipelineId): set<RunId> {
    set r | r in runs && Borrowing(runs[r], p)
  }

  /** Borrows are counted, nobody borrows what is being changed, and all was built here. */
  ghost predicate InvAt(s: State, p: PipelineId) {
    if p in s.objects then
      && s.objects[p].readers == |Borrowers(s.runs, p)|
      && (s.objects[p].writing ==> s.objects[p].readers == 0)
      && PyBuilt(s.objects[p].content)
    else Borrowers(s.runs, p) == {}
  }

  ghost predicate Inv(s: State) {
    forall p :: InvAt(s, p)
  }

  /** Only a synchronous run's start and finish change who borrows what. */
  lemma BorrowersAfter(s: State, e: Event, p: PipelineId)
    requires Enabled(s, e)
    ensures Borrowers(Step(s, e).runs, p) ==
            match e
            case ExecuteSync(r, q) => if p == q then Borrowers(s.runs, p) + {r} else Borrowers(s.runs, p)
            case Finish(r) => Borrowers(s.runs, p) - {r}
            case _ => Borrowers(s.runs, p)
  {
    hide Built, ClonePipeline;
  }

  lemma BuiltStaysPlain(p: Pipeline, setter: Setter)
    requires PyBuilt(p) && Built(p, setter).Ok?
    ensures PyBuilt(Built(p, setter).value)
  {
  }

  lemma ObjectInv(s: State, e: Event, p: PipelineId)
    requires InvAt(s, p) && Enabled(s, e) && (e.New? || e.BeginSet? || e.EndSet? || e.Collect?)
    ensures InvAt(Step(s, e), p)
  {
    assert Step(s, e).runs == s.runs;
    if e.New? {
      NothingBuilt(e.p, e.description);
    } else if e.EndSet? && e.p == p && Built(s.objects[p].content, e.setter).Ok? {
      BuiltStaysPlain(s.objects[p].content, e.setter);
    }
    hide Borrowers, PyBuilt, NewPipeline, Built;
  }

  lemma RunInv(s: State, e: Event, p: PipelineId)
    requires InvAt(s, p) && Enabled(s, e) && !(e.New? || e.BeginSet? || e.EndSet? || e.Collect?)
    ensures InvAt(Step(s, e), p)
  {
    BorrowersAfter(s, e, p);
    hide Borrowers, PyBuilt, ClonePipeline;
    match e {
      case ExecuteSync(r, q) => NotYet(s.runs, r, p);
      case Finish(r) => Already(s.runs, r, p);
      case _ =>
    }
  }

  lemma InvStep(s: State, e: Event)
    requires Inv(s) && Enabled(s, e)
    ensures Inv(Step(s, e))
  {
    forall p ensures InvAt(Step(s, e), p) {
      if e.New? || e.BeginSet? || e.EndSet? || e.Collect? {
        ObjectInv(s, e, p);
      } else {
        RunInv(s, e, p);
      }
    }
    hide InvAt, Step, Enabled;
  }

  lemma Already(runs: map<RunId, Run>, r: RunId, p: PipelineId)
    requires r in runs
    ensures r in Borrowers(runs, p) <==> Borrowing(runs[r], p)
  {
  }

  lemma NothingBuilt(p: PipelineId, description: string)
    ensures PyBuilt(NewPipeline(p, description))
  {
  }

  lemma NotYet(runs: map<RunId, Run>, r: RunId, p: PipelineId)
    requires r !in runs
    ensures r !in Borrowers(runs, p)
  {
  }

  /** A setter finds the object borrowed exactly while a synchronous run or another setter is using it. */
  lemma RefusedExactlyWhileBorrowed(s: State, p: PipelineId)
    requires Inv(s) && p in s.objects
    ensures !Enabled(s, BeginSet(p)) <==> s.objects[p].writing || exists r :: r in s.runs && Borrowing(s.runs[r], p)
  {
    assert InvAt(s, p);
    if s.objects[p].readers > 0 {
      var r :| r in Borrowers(s.runs, p);
    }
    if r :| r in s.runs && Borrowing(s.runs[r], p) {
      assert r in Borrowers(s.runs, p);
    }
  }

  // ----- The clone discipline refines the snapshot rule -----

  ghost predicate RunRefines(s: State, run: Run, planned: SpecRun) {
    && run.seen == planned.seen && run.live == planned.live
    && (run.live ==>
          match run.source
          case Own(copy) => copy == planned.plan
          case Borrowed(p) => p in s.objects && s.objects[p].content == planned.plan)
  }

  ghost predicate Refines(s: State, spec: Spec) {
    && s.objects.Keys == spec.pipelines.Keys && s.runs.Keys == spec.runs.Keys
    && (forall p :: p in s.objects ==> s.objects[p].content == spec.pipelines[p])
    && (forall r :: r in s.runs ==> RunRefines(s, s.runs[r], spec.runs[r]))
  }

  function SpecOf(s: State, e: Event): SpecEvent
    requires Enabled(s, e)
  {
    match e
    case New(p, description) => Put(p, NewPipeline(p, description))
    case EndSet(p, setter) =>
      (match Built(s.objects[p].content, setter)
       case Ok(built) => Put(p, built)
       case Err(_) => Nothing)
    case Collect(p) => Drop(p)
    case Execute(r, p) => Start(r, p)
    case ExecuteSync(r, p) => Start(r, p)
    case Observe(r) => SpecEvent.Observe(r)
    case Finish(r) => Stop(r)
    case BeginSet(_) => Nothing
  }

  /** While something may change or go, no live run borrows it. */
  lemma UnborrowedChanges(s: State, t: State, spec: Spec, spec': Spec, p: PipelineId)
    requires Inv(s) && Refines(s, spec) && t.runs == s.runs && spec'.runs == spec.runs
    requires p in s.objects ==> s.objects[p].readers == 0
    requires t.objects.Keys == spec'.pipelines.Keys
    requires forall q :: q in t.objects ==> t.objects[q].content == spec'.pipelines[q]
    requires forall q :: q != p && q in s.objects ==> q in t.objects && t.objects[q].content == s.objects[q].content
    ensures Refines(t, spec')
  {
    Unborrowed(s, p);
    forall r | r in s.runs ensures RunRefines(t, s.runs[r], spec.runs[r]) {
      assert RunRefines(s, s.runs[r], spec.runs[r]);
    }
    hide Inv;
  }

  lemma Unborrowed(s: State, p: PipelineId)
    requires Inv(s) && (p in s.objects ==> s.objects[p].readers == 0)
    ensures forall r :: r in s.runs ==> !Borrowing(s.runs[r], p)
  {
    assert InvAt(s, p);
    forall r | r in s.runs ensures !Borrowing(s.runs[r], p) {
      assert r !in Borrowers(s.runs, p);
    }
  }

  lemma ObjectStepRefines(s: State, spec: Spec, e: Event)
    requires Inv(s) && Refines(s, spec) && Enabled(s, e) && (e.New? || e.BeginSet? || e.EndSet? || e.Collect?)
    ensures SpecEnabled(spec, SpecOf(s, e)) && Refines(Step(s, e), SpecStep(spec, SpecOf(s, e)))
  {
    assert InvAt(s, e.p);
    hide Borrowers, Built, NewPipeline, RunRefines, PyBuilt;
    var t, spec' := Step(s, e), SpecStep(spec, SpecOf(s, e));
    UnborrowedChanges(s, t, spec, spec', e.p);
  }

  /** A run starts from a clone that is the pipeline itself, or from the pipeline while it holds still. */
  lemma StartRefines(s: State, spec: Spec, e: Event)
    requires Inv(s) && Refines(s, spec) && Enabled(s, e) && (e.Execute? || e.ExecuteSync?)
    ensures SpecEnabled(spec, SpecOf(s, e)) && Refines(Step(s, e), SpecStep(spec, SpecOf(s, e)))
  {
    assert InvAt(s, e.p);
    CloneIsExact(s.objects[e.p].content);
    assert ClonePipeline(s.objects[e.p].content) == s.objects[e.p].content;
    hide Inv, InvAt, ClonePipeline, Borrowers, PyBuilt;
  }

  lemma RunStepRefines(s: State, spec: Spec, e: Event)
    requires Refines(s, spec) && Enabled(s, e) && (e.Observe? || e.Finish?)
    ensures SpecEnabled(spec, SpecOf(s, e)) && Refines(Step(s, e), SpecStep(spec, SpecOf(s, e)))
  {
  }

  /** Each step is one the snapshot rule allows. */
  lemma StepRefines(s: State, spec: Spec, e: Event)
    requires Inv(s) && Refines(s, spec) && Enabled(s, e)
    ensures SpecEnabled(spec, SpecOf(s, e)) && Refines(Step(s, e), SpecStep(spec, SpecOf(s, e)))
  {
    match e {
      case New(_, _) => ObjectStepRefines(s, spec, e);
      case BeginSet(_) => ObjectStepRefines(s, spec, e);
      case EndSet(_, _) => ObjectStepRefines(s, spec, e);
      case Collect(_) => ObjectStepRefines(s, spec, e);
      case Execute(_, _) => StartRefines(s, spec, e);
      case ExecuteSync(_, _) => StartRefines(s, spec, e);
      case Observe(_) => RunStepRefines(s, spec, e);
      case Finish(_) => RunStepRefines(s, spec, e);
    }
    hide Inv, Refines, Step, SpecOf, SpecStep, SpecEnabled, Enabled;
  }

  // ----- Histories -----

  ghost predicate IsRun(s: State, es: seq<Event>)
    decreases |es|
  {
    es != [] ==> Enabled(s, es[0]) && IsRun(Step(s, es[0]), es[1..])
  }

  ghost function After(s: State, es: seq<Event>): State
    requires IsRun(s, es)
    decreases |es|
  {
    if es == [] then s else After(Step(s, es[0]), es[1..])
  }

  ghost function Seen(s: State, es: seq<Event>): seq<SpecEvent>
    requires IsRun(s, es)
    decreases |es|
  {
    if es == [] then [] else [SpecOf(s, es[0])] + Seen(Step(s, es[0]), es[1..])
  }

  lemma {:induction false} SeenAt(s: State, es: seq<Event>, i: nat)
    requires IsRun(s, es) && i < |es|
    ensures |Seen(s, es)| == |es|
    ensures IsRun(s, es[..i]) && Seen(s, es)[..i] == Seen(s, es[..i])
    ensures Enabled(After(s, es[..i]), es[i]) && Seen(s, es)[i] == SpecOf(After(s, es[..i]), es[i])
    decreases |es|
  {
    hide Step, Enabled, SpecOf;
    if i > 0 {
      SeenAt(Step(s, es[0]), es[1..], i - 1);
      assert es[1..][..i - 1] == es[..i][1..];
    } else if |es| > 1 {
      SeenAt(Step(s, es[0]), es[1..], 0);
    } else {
      assert es[1..] == [];
    }
  }

  lemma {:induction false} HistoryRefines(s: State, spec: Spec, es: seq<Event>)
    requires Inv(s) && Refines(s, spec) && IsRun(s, es)
    ensures Inv(After(s, es))
    ensures IsSpecRun(spec, Seen(s, es)) && Refines(After(s, es), SpecAfter(spec, Seen(s, es)))
    decreases |es|
  {
    if es != [] {
      StepRefines(s, spec, es[0]);
      InvStep(s, es[0]);
      hide Inv, Refines, Step, Enabled, SpecOf, SpecStep, SpecEnabled;
      HistoryRefines(Step(s, es[0]), SpecStep(spec, SpecOf(s, es[0])), es[1..]);
      assert Seen(s, es)[1..] == Seen(Step(s, es[0]), es[1..]);
    }
  }

  /** Cloning or borrowing, every history is one of the snapshot rule's. */
  lemma RefinesSnapshot(es: seq<Event>)
    requires IsRun(START, es)
    ensures Inv(After(START, es))
    ensures IsSpecRun(SPEC_START, Seen(START, es))
    ensures Refines(After(START, es), SpecAfter(SPEC_START, Seen(START, es)))
  {
    assert forall p :: InvAt(START, p) by {
      assert forall p :: Borrowers(map[], p) == {};
    }
    HistoryRefines(START, SPEC_START, es);
    hide Inv;
  }

  /** A run, of whatever kind, works from the pipeline as it was when the run started. */
  lemma RunSeesItsStart(es: seq<Event>, i: nat, r: RunId, p: PipelineId)
    requires IsRun(START, es) && i < |es| && (es[i] == Execute(r, p) || es[i] == ExecuteSync(r, p))
    ensures IsRun(START, es[..i]) && p in After(START, es[..i]).objects && r in After(START, es).runs
    ensures var content, s := After(START, es[..i]).objects[p].content, After(START, es);
            && (forall k :: 0 <= k < |s.runs[r].seen| ==> s.runs[r].seen[k] == content)
            && (Executing(s, r) ==> Given(s, r) == content)
  {
    SeenAt(START, es, i);
    RefinesSnapshot(es);
    RefinesSnapshot(es[..i]);
    var trace := Seen(START, es);
    SpecRunSeesItsStart(trace, i, r, p);
    hide Inv, Step, IsRun, IsSpecRun, After, SpecAfter, Seen;
    var end, spec := After(START, es), SpecAfter(SPEC_START, trace);
    assert RunRefines(end, end.runs[r], spec.runs[r]);
  }

  // ----- Builder calls as steps -----

  /** What a builder call leaves behind and returns, to a caller nobody disturbs. */
  function Called(before: Object, setter: Setter): (Object, Result<(), PyError>) {
    if !Free(before) then (before, Err(AlreadyBorrowed))
    else match Built(before.content, setter)
         case Ok(built) => (before.(content := built), Ok(()))
         case Err(error) => (before, Err(error))
  }

  ghost predicate NoEndOf(es: seq<Event>, p: PipelineId) {
    forall i :: 0 <= i < |es| ==> !(es[i].EndSet? && es[i].p == p)
  }

  /** Nothing else touches an object while a builder call has it. */
  lemma {:induction false} HeldStill(s: State, p: PipelineId, es: seq<Event>)
    requires p in s.objects && s.objects[p].writing && s.objects[p].readers == 0
    requires IsRun(s, es) && NoEndOf(es, p)
    ensures p in After(s, es).objects && After(s, es).objects[p] == s.objects[p]
    decreases |es|
  {
    if es != [] {
      assert !(es[0].EndSet? && es[0].p == p);
      HeldStillAtStep(s, p, es[0]);
      hide Step, Enabled;
      HeldStill(Step(s, es[0]), p, es[1..]);
    }
  }

  lemma HeldStillAtStep(s: State, p: PipelineId, e: Event)
    requires p in s.objects && s.objects[p].writing && s.objects[p].readers == 0
    requires Enabled(s, e) && !(e.EndSet? && e.p == p)
    ensures p in Step(s, e).objects && Step(s, e).objects[p] == s.objects[p]
  {
  }

  /**
   A builder call is a step that borrows the object and one that lets it go. Whatever other threads
   do between the two, the object is left as `Called` says; when the call raises for a borrow, the
   first step is not enabled and there is no second.
   */
  lemma CallIsTwoSteps(s: State, p: PipelineId, setter: Setter, between: seq<Event>)
    requires p in s.objects
    ensures Enabled(s, BeginSet(p)) <==> Called(s.objects[p], setter).1 != Err(AlreadyBorrowed)
    ensures !Enabled(s, BeginSet(p)) ==> Called(s.objects[p], setter).0 == s.objects[p]
    ensures Enabled(s, BeginSet(p)) && IsRun(Step(s, BeginSet(p)), between) && NoEndOf(between, p) ==>
              var t := After(Step(s, BeginSet(p)), between);
              && Enabled(t, EndSet(p, setter))
              && Step(t, EndSet(p, setter)) ==
                 t.(objects := t.objects[p := Called(s.objects[p], setter).0])
  {
    if Enabled(s, BeginSet(p)) && IsRun(Step(s, BeginSet(p)), between) && NoEndOf(between, p) {
      HeldStill(Step(s, BeginSet(p)), p, between);
      hide After, IsRun, NoEndOf;
    }
  }

  // ----- The object -----

  class PyPipeline {
    var inner: Pipeline
    var readers: nat
    var writing: bool

    function Now(): Object
      reads this
    {
      Object(inner, readers, writing)
    }

    ghost predicate Returns(before: Object, setter: Setter, r: Result<(), PyError>)
      reads this
    {
      (Now(), r) == Called(before, setter)
    }

    constructor (id: nat, description: string)
      ensures Now() == Object(NewPipeline(id, description), 0, false)
    {
      inner, readers, writing := NewPipeline(id, description), 0, false;
    }

    method WithName(name: string) returns (r: Result<(), PyError>)
      modifies this`inner
      ensures Returns(old(Now()), Setter.WithName(name), r)
    {
      if readers > 0 || writing { return Err(AlreadyBorrowed); }
      inner := inner.(name := Some(name));
      return Ok(());
    }

    method AddTask(callable: Option<nat>, name: Option<string>, batchSize: Option<nat>, weight: nat)
      returns (r: Result<(), PyError>)
      modifies this`inner
      ensures Returns(old(Now()), Setter.AddTask(callable, name, batchSize, weight), r)
    {
      if readers > 0 || writing { return Err(AlreadyBorrowed); }
      if callable.None? { return Err(NotCallable); }
      var info := TaskInfo(callable.value, None, None, None, 1, false, None);
      if name.Some? {
        info := info.(name := name);
      }
      if batchSize.Some? {
        if batchSize.value == 0 { return Err(BatchSizeZero); }
        info := info.(batchSize := batchSize);
      }
      info := info.(weight := weight);
      inner := inner.(tasks := inner.tasks + [info]);
      return Ok(());
    }

    method WithRetry(maxAttempts: nat, delayMs: nat) returns (r: Result<(), PyError>)
      modifies this`inner
      ensures Returns(old(Now()), Setter.WithRetry(maxAttempts, delayMs), r)
    {
      if readers > 0 || writing { return Err(AlreadyBorrowed); }
      if maxAttempts == 0 { return Err(MaxAttemptsZero); }
      inner := inner.(retry := Constant(maxAttempts, delayMs));
      return Ok(());
    }

    method WithRetryExponential(maxAttempts: nat, baseMs: nat, factor: nat) returns (r: Result<(), PyError>)
      modifies this`inner
      ensures Returns(old(Now()), Setter.WithRetryExponential(maxAttempts, baseMs, factor), r)
    {
      if readers > 0 || writing { return Err(AlreadyBorrowed); }
      if maxAttempts == 0 { return Err(MaxAttemptsZero); }
      inner := inner.(retry := Exponential(maxAttempts, baseMs, factor));
      return Ok(());
    }

    method WithBatchSize(size: nat) returns (r: Result<(), PyError>)
      modifies this`inner
      ensures Returns(old(Now()), Setter.WithBatchSize(size), r)
    {
      if readers > 0 || writing { return Err(AlreadyBorrowed); }
      inner := inner.(batchSize := size);
      return Ok(());
    }

    method WithConcurrency(n: nat) returns (r: Result<(), PyError>)
      modifies this`inner
      ensures Returns(old(Now()), Setter.WithConcurrency(n), r)
    {
      if readers > 0 || writing { return Err(AlreadyBorrowed); }
      inner := inner.(concurrency := n);
      return Ok(());
    }

    /** The clone an async or background run takes away; for a pipeline built here it is the pipeline. */
    method CloneInner() returns (copy: Pipeline)
      requires PyBuilt(inner)
      ensures copy == ClonePipeline(inner) == inner
    {
      CloneIsExact(inner);
      CloneTasksAt(inner.tasks);
      var tasks: seq<TaskInfo> := [];
      for i := 0 to |inner.tasks|
        invariant |tasks| == i
        invariant forall j :: 0 <= j < i ==> tasks[j] == CloneTask(inner.tasks[j])
      {
        var task := inner.tasks[i];
        var info := TaskInfo(task.task, None, None, None, 1, false, None);
        if task.name.Some? {
          info := info.(name := task.name);
        }
        if task.batchSize.Some? {
          assert task.batchSize.value > 0;
          info := info.(batchSize := task.batchSize);
        }
        if task.summary.Some? {
          info := info.(summary := task.summary);
        }
        info := info.(weight := task.weight);
        tasks := tasks + [info];
      }
      assert tasks == CloneTasks(inner.tasks);
      copy := inner.(tasks := tasks);
    }
  }
}
