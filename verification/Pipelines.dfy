/**
 What a pipeline is, and the rule every run of one has to follow: it works from the pipeline as it
 was when the run started, whatever happens to the pipeline meanwhile.
 */
module Pipelines {
  import opened Wrappers

  datatype RetryPolicy =
    | NoRetry
    | Constant(maxAttempts: nat, delayMs: nat)
    | Exponential(maxAttempts: nat, baseMs: nat, factor: nat)

  /** `task`, `rateLimiter` and the pipeline's `dataId` name shared closures by identity. */
  datatype TaskInfo = TaskInfo(
    task: nat,
    name: Option<string>,
    batchSize: Option<nat>,
    summary: Option<string>,
    weight: nat,
    enriches: bool,
    rateLimiter: Option<nat>)

  datatype Pipeline = Pipeline(
    id: nat,
    name: Option<string>,
    description: string,
    tasks: seq<TaskInfo>,
    retry: RetryPolicy,
    batchSize: nat,
    dataId: Option<nat>,
    concurrency: nat,
    telemetry: Option<nat>,
    rateLimiter: Option<nat>)

  function NewPipeline(id: nat, description: string): Pipeline {
    Pipeline(id, None, description, [], NoRetry, 32, None, 1, None, None)
  }

  /** The guards before a run reports anything to its watcher. */
  predicate Runnable(p: Pipeline) {
    p.tasks != [] && p.batchSize > 0 && p.concurrency > 0
  }

  /** The guard after it has reported its start: the progress token cannot be split over a zero weight. */
  predicate Splittable(p: Pipeline) {
    forall i :: 0 <= i < |p.tasks| ==> p.tasks[i].weight > 0
  }

  // ----- Field by field -----

  /** The fields that calls can set, the tasks apart. */
  datatype Field = Name | BatchSize | Concurrency | Retry | DataId

  /** The field holds what it does in a new pipeline. */
  predicate ShowsDefault(content: Pipeline, field: Field) {
    match field
    case Name => content.name == None
    case BatchSize => content.batchSize == 32
    case Concurrency => content.concurrency == 1
    case Retry => content.retry == NoRetry
    case DataId => content.dataId == None
  }

  predicate SameIn(before: Pipeline, after: Pipeline, field: Field) {
    match field
    case Name => after.name == before.name
    case BatchSize => after.batchSize == before.batchSize
    case Concurrency => after.concurrency == before.concurrency
    case Retry => after.retry == before.retry
    case DataId => after.dataId == before.dataId
  }

  /** What no call sets. */
  predicate SameElsewhere(before: Pipeline, after: Pipeline) {
    && after.id == before.id && after.description == before.description
    && after.telemetry == before.telemetry && after.rateLimiter == before.rateLimiter
  }

  // ----- The atomic-snapshot rule -----

  datatype SpecRun = SpecRun(plan: Pipeline, seen: seq<Pipeline>, live: bool)

  datatype Spec = Spec(pipelines: map<nat, Pipeline>, runs: map<nat, SpecRun>)

  datatype SpecEvent =
    | Nothing
    | Put(p: nat, content: Pipeline)
    | Drop(p: nat)
    | Start(r: nat, p: nat)
    | Observe(r: nat)
    | Stop(r: nat)

  const SPEC_START := Spec(map[], map[])

  predicate SpecEnabled(s: Spec, e: SpecEvent) {
    match e
    case Nothing => true
    case Put(_, _) => true
    case Drop(p) => p in s.pipelines
    case Start(r, p) => r !in s.runs && p in s.pipelines
    case Observe(r) => r in s.runs && s.runs[r].live
    case Stop(r) => r in s.runs && s.runs[r].live
  }

  /** A start copies the pipeline; from then on the run sees its copy. */
  function SpecStep(s: Spec, e: SpecEvent): Spec
    requires SpecEnabled(s, e)
  {
    match e
    case Nothing => s
    case Put(p, content) => s.(pipelines := s.pipelines[p := content])
    case Drop(p) => s.(pipelines := s.pipelines - {p})
    case Start(r, p) => s.(runs := s.runs[r := SpecRun(s.pipelines[p], [], true)])
    case Observe(r) => s.(runs := s.runs[r := s.runs[r].(seen := s.runs[r].seen + [s.runs[r].plan])])
    case Stop(r) => s.(runs := s.runs[r := s.runs[r].(live := false)])
  }

  /** Every look a run took showed it its plan. */
  ghost predicate SeesItsPlan(s: Spec) {
    forall r, i :: r in s.runs && 0 <= i < |s.runs[r].seen| ==> s.runs[r].seen[i] == s.runs[r].plan
  }

  lemma SpecKeepsPlans(s: Spec, e: SpecEvent)
    requires SpecEnabled(s, e) && SeesItsPlan(s)
    ensures SeesItsPlan(SpecStep(s, e))
    ensures forall r :: r in s.runs ==> r in SpecStep(s, e).runs && SpecStep(s, e).runs[r].plan == s.runs[r].plan
  {
  }

  /** A whole history under the rule. */
  ghost predicate IsSpecRun(s: Spec, es: seq<SpecEvent>)
    decreases |es|
  {
    es != [] ==> SpecEnabled(s, es[0]) && IsSpecRun(SpecStep(s, es[0]), es[1..])
  }

  ghost function SpecAfter(s: Spec, es: seq<SpecEvent>): Spec
    requires IsSpecRun(s, es)
    decreases |es|
  {
    if es == [] then s else SpecAfter(SpecStep(s, es[0]), es[1..])
  }

  lemma {:induction false} SpecSplit(s: Spec, es: seq<SpecEvent>, i: nat)
    requires IsSpecRun(s, es) && i <= |es|
    ensures IsSpecRun(s, es[..i]) && IsSpecRun(SpecAfter(s, es[..i]), es[i..])
    ensures SpecAfter(s, es) == SpecAfter(SpecAfter(s, es[..i]), es[i..])
    decreases |es|
  {
    if i == 0 {
      assert es[..0] == [] && es[0..] == es;
    } else {
      SpecSplit(SpecStep(s, es[0]), es[1..], i - 1);
      assert es[1..][..i - 1] == es[..i][1..] && es[1..][i - 1..] == es[i..];
    }
  }

  lemma {:induction false} SpecKeepsPlansForever(s: Spec, es: seq<SpecEvent>)
    requires IsSpecRun(s, es) && SeesItsPlan(s)
    ensures SeesItsPlan(SpecAfter(s, es))
    ensures forall r :: r in s.runs ==> r in SpecAfter(s, es).runs && SpecAfter(s, es).runs[r].plan == s.runs[r].plan
    decreases |es|
  {
    if es != [] {
      SpecKeepsPlans(s, es[0]);
      SpecKeepsPlansForever(SpecStep(s, es[0]), es[1..]);
    }
  }

  /** What a run ever sees is the pipeline as it was at its start, whatever came between. */
  lemma SpecRunSeesItsStart(es: seq<SpecEvent>, i: nat, r: nat, p: nat)
    requires IsSpecRun(SPEC_START, es) && i < |es| && es[i] == Start(r, p)
    ensures IsSpecRun(SPEC_START, es[..i]) && p in SpecAfter(SPEC_START, es[..i]).pipelines
    ensures var start, end := SpecAfter(SPEC_START, es[..i]), SpecAfter(SPEC_START, es);
            && r in end.runs && end.runs[r].plan == start.pipelines[p]
            && forall k :: 0 <= k < |end.runs[r].seen| ==> end.runs[r].seen[k] == start.pipelines[p]
  {
    SpecSplit(SPEC_START, es, i);
    var before, rest := SpecAfter(SPEC_START, es[..i]), es[i..];
    SpecKeepsPlansForever(SPEC_START, es[..i]);
    assert rest[0] == Start(r, p);
    SpecKeepsPlans(before, rest[0]);
    SpecKeepsPlansForever(SpecStep(before, rest[0]), rest[1..]);
  }
}
