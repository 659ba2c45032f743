/**
 Ownership of what setters are given: a task or a data-id closure belongs to exactly one pipeline
 from the moment a setter takes it until it is freed, and is freed once.
 */
module CPipelineOwnership {
  import opened Wrappers
  import opened Pipelines
  import opened SharedBoxes
  import opened CPipelines

  type Contents = map<PipelineId, Pipeline>

  ghost predicate Owns(p: Pipeline, a: Arg) {
    a in Args(p)
  }

  ghost predicate Distinct(args: seq<Arg>) {
    forall i, j :: 0 <= i < j < |args| ==> args[i] != args[j]
  }

  ghost function ContentsOf(boxes: Boxes<Pipeline>): Contents {
    map p | p in boxes :: boxes[p].content
  }

  /** Every argument ever taken is in one place: owned once by one live pipeline, or freed once. */
  ghost predicate OwnedOnce(live: Contents, passed: set<Arg>, freed: seq<Arg>) {
    && Distinct(freed)
    && (forall p :: p in live ==> Distinct(Args(live[p])))
    && (forall p, a :: p in live && Owns(live[p], a) ==> a in passed && a !in freed)
    && (forall p, q, a :: p in live && q in live && Owns(live[p], a) && Owns(live[q], a) ==> p == q)
    && (forall a :: a in passed <==> a in freed || exists p :: p in live && Owns(live[p], a))
  }

  lemma FreeAll(live: Contents, passed: set<Arg>, freed: seq<Arg>, p: PipelineId)
    requires OwnedOnce(live, passed, freed) && p in live
    ensures OwnedOnce(live - {p}, passed, freed + Args(live[p]))
  {
    var gone, freed' := Args(live[p]), freed + Args(live[p]);
    assert forall a :: a in freed' <==> a in freed || a in gone;
    forall i, j | 0 <= i < j < |freed'| ensures freed'[i] != freed'[j] {
      if i < |freed| <= j {
        assert Owns(live[p], gone[j - |freed|]) && freed[i] in freed;
      }
    }
    forall a | a in passed && a !in freed' ensures exists q :: q in live - {p} && Owns((live - {p})[q], a) {
      var q :| q in live && Owns(live[q], a);
      assert q != p;
      assert q in live - {p};
    }
    hide Args;
  }

  lemma InsertedDistinct(before: seq<Arg>, a: Arg, after: seq<Arg>)
    requires Distinct(before + after) && a !in before + after
    ensures Distinct(before + [a] + after)
  {
    var all, kept := before + [a] + after, before + after;
    assert forall k :: 0 <= k < |kept| ==> kept[k] in kept;
    assert all[|before|] == a && forall k :: 0 <= k < |kept| ==> kept[k] != a;
    forall i, j | 0 <= i < j < |all| ensures all[i] != all[j] {
      var i' := if i > |before| then i - 1 else i;
      var j' := if j > |before| then j - 1 else j;
      assert i != |before| ==> all[i] == kept[i'];
      assert j != |before| ==> all[j] == kept[j'];
      assert i != |before| && j != |before| ==> kept[i'] != kept[j'];
    }
  }

  /** What an edit leaves the pipeline owning. */
  lemma EditedArgs(content: Pipeline, setter: Setter)
    requires !Ignored(setter) && Distinct(Args(content)) && forall a :: a in OwnedSet(setter) ==> !Owns(content, a)
    ensures Distinct(Args(Edited(content, setter))) && Distinct(Replaced(content, setter))
    ensures forall a :: Owns(Edited(content, setter), a) <==>
                        a in OwnedSet(setter) || (Owns(content, a) && a !in Replaced(content, setter))
    ensures forall a :: a in Replaced(content, setter) ==> Owns(content, a)
  {
    var args, n := Args(content), |content.tasks|;
    match setter {
      case AddTask(info) =>
        var args' := Args(Edited(content, setter));
        assert args' == args[..n] + [TaskArg(info.task)] + args[n..];
        assert args == args[..n] + args[n..];
        assert !Owns(content, TaskArg(info.task));
        InsertedDistinct(args[..n], TaskArg(info.task), args[n..]);
      case SetDataId(data) =>
        assert Args(Edited(content, setter)) == args[..n] + [DataArg(data)];
        assert args == args[..n] + args[n..] && args[n..] == Replaced(content, setter);
      case _ =>
        assert Args(Edited(content, setter)) == args;
    }
  }

  lemma AcceptOwned(live: Contents, passed: set<Arg>, freed: seq<Arg>, p: PipelineId, setter: Setter)
    requires OwnedOnce(live, passed, freed) && p in live && !Ignored(setter) && OwnedSet(setter) !! passed
    ensures OwnedOnce(live[p := Edited(live[p], setter)], passed + OwnedSet(setter), freed + Replaced(live[p], setter))
  {
    var content := live[p];
    var live', passed', freed' := live[p := Edited(content, setter)], passed + OwnedSet(setter),
                                  freed + Replaced(content, setter);
    EditedArgs(content, setter);
    hide Edited, Args, Replaced, OwnedSet, Ignored;
    assert forall a :: a in freed' <==> a in freed || a in Replaced(content, setter);
    forall a | a in passed' && a !in freed' ensures exists q :: q in live' && Owns(live'[q], a) {
      if a in OwnedSet(setter) {
        assert Owns(live'[p], a);
      } else {
        var q :| q in live && Owns(live[q], a);
        assert Owns(live'[q], a);
      }
    }
    forall q, a | q in live' && Owns(live'[q], a) ensures a in passed' && a !in freed' {
      assert Owns(live[q], a) || a in OwnedSet(setter);
    }
    forall i, j | 0 <= i < j < |freed'| ensures freed'[i] != freed'[j] {
      if i < |freed| <= j {
        assert freed[i] in freed && freed'[j] in Replaced(content, setter);
      }
    }
  }

  lemma RefuseOwned(live: Contents, passed: set<Arg>, freed: seq<Arg>, setter: Setter)
    requires OwnedOnce(live, passed, freed) && OwnedSet(setter) !! passed
    ensures OwnedOnce(live, passed + OwnedSet(setter), freed + OwnedSeq(setter))
  {
    hide Args;
    assert forall a :: a in OwnedSeq(setter) <==> a in OwnedSet(setter);
    var freed' := freed + OwnedSeq(setter);
    assert forall a :: a in freed' <==> a in freed || a in OwnedSeq(setter);
    forall i, j | 0 <= i < j < |freed'| ensures freed'[i] != freed'[j] {
      if i < |freed| <= j {
        assert freed[i] in freed && freed'[j] in OwnedSeq(setter);
        assert freed[i] in passed;
      }
    }
  }

  ghost predicate Owned(s: State) {
    OwnedOnce(ContentsOf(s.pipelines), s.passed, s.freed)
  }

  lemma SetOwned(s: State, thread: Thread, p: PipelineId, setter: Setter)
    requires Owned(s) && p in s.pipelines && OwnedSet(setter) !! s.passed
    ensures Owned(SetStep(s, thread, p, setter))
  {
    hide OwnedOnce, Edited, Replaced, Ignored, OwnedSet, OwnedSeq;
    var live, content := ContentsOf(s.pipelines), s.pipelines[p].content;
    if !Ignored(setter) {
      AcceptOwned(live, s.passed, s.freed, p, setter);
      RefuseOwned(live, s.passed, s.freed, setter);
      AcceptContents(s.pipelines, p, Edited(content, setter));
      hide ContentsOf;
    }
  }

  lemma AcceptContents(boxes: Boxes<Pipeline>, p: PipelineId, content: Pipeline)
    requires p in boxes
    ensures ContentsOf(boxes[p := boxes[p].(content := content)]) == ContentsOf(boxes)[p := content]
  {
  }

  lemma ReleaseOwned(s: State, p: PipelineId, boxes: Boxes<Pipeline>)
    requires Owned(s) && p in s.pipelines && s.pipelines[p].strong > 0
    requires boxes == Release(s.pipelines, p) || boxes == DropHandle(s.pipelines, p)
    ensures OwnedOnce(ContentsOf(boxes), s.passed, s.freed + GoesWith(s, p))
  {
    var live := ContentsOf(s.pipelines);
    if s.pipelines[p].strong == 1 {
      FreeAll(live, s.passed, s.freed, p);
      assert ContentsOf(boxes) == live - {p};
    } else {
      assert ContentsOf(boxes) == live;
      assert s.freed + [] == s.freed;
    }
    hide OwnedOnce, Args;
  }

  predicate KeepsContents(e: Event) {
    !(e.NewPipeline? || e.Set? || e.DestroyPipeline? || e.DropPipeline?)
  }

  lemma ContentsKept(s: State, e: Event)
    requires Enabled(s, e) && KeepsContents(e)
    ensures ContentsOf(Step(s, e).pipelines) == ContentsOf(s.pipelines)
    ensures Step(s, e).passed == s.passed && Step(s, e).freed == s.freed
  {
    hide DropHandle, Release, DestroyNotice, NoticeEntry, MayFinish, Runnable, Splittable, RetainWatcher;
  }

  lemma NewOwned(s: State, p: PipelineId, description: string)
    requires Owned(s) && p !in s.pipelines
    ensures var boxes := s.pipelines[p := Box(Pipelines.NewPipeline(p, description), true, 1)];
            OwnedOnce(ContentsOf(boxes), s.passed, s.freed)
  {
    var live, made := ContentsOf(s.pipelines), Pipelines.NewPipeline(p, description);
    assert Args(made) == [];
    hide Args, Pipelines.NewPipeline;
    var live' := live[p := made];
    assert ContentsOf(s.pipelines[p := Box(made, true, 1)]) == live';
    assert forall a, q :: q in live && Owns(live[q], a) ==> q != p && live'[q] == live[q];
    forall a | a in s.passed && a !in s.freed ensures exists q :: q in live' && Owns(live'[q], a) {
      var q :| q in live && Owns(live[q], a);
      assert Owns(live'[q], a);
    }
  }

  lemma OwnedStep(s: State, e: Event)
    requires Owned(s) && Enabled(s, e)
    requires forall p :: p in s.pipelines ==> p in s.pipelineIds
    ensures Owned(Step(s, e))
  {
    hide OwnedOnce, ContentsOf, SetStep, DropHandle, Release, GoesWith;
    match e {
      case NewPipeline(p, description) => NewOwned(s, p, description);
      case Set(thread, p, setter) => SetOwned(s, thread, p, setter);
      case DestroyPipeline(p) => ReleaseOwned(s, p, DropHandle(s.pipelines, p));
      case DropPipeline(r) => ReleaseOwned(s, s.runs[r].pipeline, Release(s.pipelines, s.runs[r].pipeline));
      case _ => ContentsKept(s, e);
    }
  }
}
