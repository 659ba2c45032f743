/** What holds in every history of an SDK handle. */
module HandleTheorems {
  import opened Wrappers
  import opened HandleLifecycle

  type History = seq<Event>

  ghost predicate IsRun(s: State, es: History)
    decreases |es|
  {
    es != [] ==> Enabled(s, es[0]) && IsRun(Step(s, es[0]), es[1..])
  }

  ghost function After(s: State, es: History): State
    requires IsRun(s, es)
    decreases |es|
  {
    if es == [] then s else After(Step(s, es[0]), es[1..])
  }

  lemma {:induction false} InvAfter(s: State, es: History)
    requires Inv(s) && IsRun(s, es)
    ensures Inv(After(s, es))
    decreases |es|
  {
    hide Inv, Step, Enabled;
    if es != [] {
      InvStep(s, es[0]);
      InvAfter(Step(s, es[0]), es[1..]);
    }
  }

  lemma InvAlways(h: HandleId, kind: Kind, es: History)
    requires IsRun(Start(h, kind), es)
    ensures Inv(After(Start(h, kind), es))
  {
    InvAfter(Start(h, kind), es);
    hide IsRun, After;
  }

  lemma OneStep(s: State, e: Event)
    requires Enabled(s, e)
    ensures IsRun(s, [e]) && After(s, [e]) == Step(s, e)
  {
    hide Enabled, Step;
    assert [e][1..] == [];
    assert IsRun(Step(s, e), []);
  }

  lemma Cons(s: State, e: Event, es: History)
    requires Enabled(s, e) && IsRun(Step(s, e), es)
    ensures IsRun(s, [e] + es) && After(s, [e] + es) == After(Step(s, e), es)
  {
    hide Enabled, Step;
    assert ([e] + es)[1..] == es;
  }

  // ----- Closed for good -----

  /** Operations started on a closed handle are refused, at once or whenever they get to run. */
  lemma {:induction false} StartedClosedIsRefused(s: State, op: OpId, h: HandleId, es: History)
    requires Inv(s) && s.closed && Enabled(s, Call(op, h)) && IsRun(Step(s, Call(op, h)), es)
    ensures var t := After(Step(s, Call(op, h)), es);
            t.closed && op in t.ops && (t.ops[op].pc == Called || t.ops[op].pc == Refused)
  {
    var s1 := Step(s, Call(op, h));
    InvStep(s, Call(op, h));
    assert s1.ops[op].bornClosed && s1.closed;
    hide Inv, Step, Enabled;
    BornClosedStays(s1, op, es);
    InvAfter(s1, es);
    assert OpSound(After(s1, es), op, After(s1, es).ops[op]) by {
      SoundOp(After(s1, es), op);
    }
    hide IsRun, After;
  }

  lemma SoundOp(s: State, op: OpId)
    requires Inv(s) && op in s.ops
    ensures OpSound(s, op, s.ops[op])
  {
  }

  lemma OpStays(s: State, e: Event, op: OpId)
    requires Enabled(s, e) && op in s.ops
    ensures op in Step(s, e).ops && Step(s, e).ops[op].bornClosed == s.ops[op].bornClosed
  {
    if OfOp(e) {
      OtherOps(s, e);
      if e.op == op {
        OwnOp(s, e);
      }
    } else if !e.Call? {
      LockAndSlot(s, e);
      hide Step;
    }
  }

  lemma OwnOp(s: State, e: Event)
    requires Enabled(s, e) && OfOp(e)
    ensures e.op in Step(s, e).ops && Step(s, e).ops[e.op].bornClosed == s.ops[e.op].bornClosed
  {
    hide Hit, SlotCurrent;
    match e {
      case Guard(_) => case ReadVersion(_) => case TryFast(_) => case TrySlow(_) => case Build(_, _) =>
      case BuildFails(_) => case Store(_) => case End(_) =>
    }
  }

  lemma {:induction false} BornClosedStays(s: State, op: OpId, es: History)
    requires Inv(s) && IsRun(s, es) && op in s.ops && s.closed
    ensures After(s, es).closed && op in After(s, es).ops && After(s, es).ops[op].bornClosed == s.ops[op].bornClosed
    decreases |es|
  {
    if es != [] {
      OpStays(s, es[0], op);
      assert CacheSound(s);
      Monotone(s, es[0]);
      InvStep(s, es[0]);
      hide Inv, Step, Enabled;
      BornClosedStays(Step(s, es[0]), op, es[1..]);
    }
  }

  // ----- What a close leaves -----

  predicate CacheEmpty(s: State) {
    s.bundle == None && s.slot == None
  }

  /** No operation slipped past the closed check. */
  predicate NoneSlippedPast(s: State) {
    forall op :: op in s.ops ==> !PastGuard(s.ops[op].pc)
  }

  lemma QuietStep(s: State, e: Event)
    requires s.closed && CacheEmpty(s) && NoneSlippedPast(s) && Enabled(s, e)
    ensures Step(s, e).closed && CacheEmpty(Step(s, e)) && NoneSlippedPast(Step(s, e))
    ensures Step(s, e).conns == s.conns
  {
    if OfOp(e) {
      assert !PastGuard(s.ops[e.op].pc);
    }
    hide Releases, InUse;
    match e {
      case Clone(_, _, _) => case Configure(_) => case Close(_, _) => case Drop(_, _) => case Call(_, _) =>
      case Guard(_) => case End(_) => case Mark(_) => case TakeBundle(_) => case CloseSlot(_) => case Unlock(_) =>
      case _ => assert false;
    }
  }

  lemma {:induction false} QuietForever(s: State, es: History)
    requires s.closed && CacheEmpty(s) && NoneSlippedPast(s) && IsRun(s, es)
    ensures After(s, es).closed && CacheEmpty(After(s, es)) && NoneSlippedPast(After(s, es))
    ensures After(s, es).conns == s.conns
    decreases |es|
  {
    hide CacheEmpty, NoneSlippedPast, Step, Enabled;
    if es != [] {
      QuietStep(s, es[0]);
      QuietForever(Step(s, es[0]), es[1..]);
    }
  }

  /** Where an operation that slipped past the check is, how it goes on to build. */
  function ToBuild(s: State, op: OpId, c: ConnId): History
    requires op in s.ops
  {
    match s.ops[op].pc
    case Guarded => [ReadVersion(op), TryFast(op), TrySlow(op), Build(op, c)]
    case Versioned(_) => [TryFast(op), TrySlow(op), Build(op, c)]
    case _ => [TrySlow(op), Build(op, c)]
  }

  lemma SlowBuilds(s: State, op: OpId, c: ConnId)
    requires op in s.ops && s.ops[op].pc.Missed? && s.lock == Free && CacheEmpty(s) && c !in s.conns
    ensures IsRun(s, [TrySlow(op), Build(op, c)])
    ensures After(s, [TrySlow(op), Build(op, c)]).slot == Some(c)
  {
    var s1 := Step(s, TrySlow(op));
    assert s1.ops[op].pc == Building(s.ops[op].pc.ver) && s1.conns == s.conns;
    var s2 := Step(s1, Build(op, c));
    assert s2.slot == Some(c);
    hide Step, Enabled;
    OneStep(s1, Build(op, c));
    Cons(s, TrySlow(op), [Build(op, c)]);
    assert [TrySlow(op)] + [Build(op, c)] == [TrySlow(op), Build(op, c)];
  }

  lemma FastMisses(s: State, op: OpId, c: ConnId)
    requires op in s.ops && s.ops[op].pc.Versioned? && s.lock == Free && CacheEmpty(s) && c !in s.conns
    ensures IsRun(s, [TryFast(op), TrySlow(op), Build(op, c)])
    ensures After(s, [TryFast(op), TrySlow(op), Build(op, c)]).slot == Some(c)
  {
    var s1 := Step(s, TryFast(op));
    assert s1 == OpTo(s, op, Missed(s.ops[op].pc.ver));
    hide Step, Enabled;
    SlowBuilds(s1, op, c);
    Cons(s, TryFast(op), [TrySlow(op), Build(op, c)]);
    assert [TryFast(op)] + [TrySlow(op), Build(op, c)] == [TryFast(op), TrySlow(op), Build(op, c)];
  }

  /** An operation past the check reopens a closed handle. */
  lemma {:induction false} SlippedPastReopens(s: State, op: OpId, c: ConnId)
    requires op in s.ops && PastGuard(s.ops[op].pc) && !s.ops[op].pc.Building? && !s.ops[op].pc.Built?
    requires s.lock == Free && CacheEmpty(s) && c !in s.conns
    ensures IsRun(s, ToBuild(s, op, c)) && After(s, ToBuild(s, op, c)).slot == Some(c)
  {
    match s.ops[op].pc {
      case Guarded =>
        var s1 := Step(s, ReadVersion(op));
        assert s1 == OpTo(s, op, Versioned(s.version));
        FastMisses(s1, op, c);
        Cons(s, ReadVersion(op), [TryFast(op), TrySlow(op), Build(op, c)]);
        assert [ReadVersion(op)] + [TryFast(op), TrySlow(op), Build(op, c)] == ToBuild(s, op, c);
      case Versioned(_) => FastMisses(s, op, c);
      case Missed(_) => SlowBuilds(s, op, c);
    }
    hide IsRun, After, Step, Enabled;
  }

  lemma FreshConn(conns: map<ConnId, Conn>) returns (c: ConnId)
    ensures c !in conns
  {
    c := LargestBelow(conns.Keys);
  }

  lemma {:induction false} LargestBelow(ids: set<nat>) returns (bound: nat)
    ensures forall id :: id in ids ==> id < bound
    decreases |ids|
  {
    if ids == {} {
      bound := 0;
    } else {
      var id :| id in ids;
      var rest := LargestBelow(ids - {id});
      bound := if id < rest then rest else id + 1;
      forall x | x in ids ensures x < bound {
        assert x == id || x in ids - {id};
      }
    }
  }

  /**
   When a close finishes, the handle is closed and caches nothing. It stays that way in every
   continuation exactly when no operation is past the closed check at that moment.
   */
  lemma CloseIsFinalExactlyWhenNoneSlippedPast(h: HandleId, kind: Kind, es: History, t: TeardownId)
    requires IsRun(Start(h, kind), es) && Enabled(After(Start(h, kind), es), Unlock(t))
    requires After(Start(h, kind), es).teardowns[t].mark
    ensures var s := Step(After(Start(h, kind), es), Unlock(t));
            && s.closed && CacheEmpty(s)
            && ((forall more :: IsRun(s, more) ==> CacheEmpty(After(s, more))) <==> NoneSlippedPast(s))
  {
    var s0 := After(Start(h, kind), es);
    InvAlways(h, kind, es);
    hide IsRun, After;
    assert TeardownSound(s0, t, s0.teardowns[t]);
    var s := Step(s0, Unlock(t));
    InvStep(s0, Unlock(t));
    assert s.closed && CacheEmpty(s) && s.lock == Free;
    hide Step, Enabled;
    if NoneSlippedPast(s) {
      forall more | IsRun(s, more) ensures CacheEmpty(After(s, more)) {
        QuietForever(s, more);
      }
    } else {
      var op :| op in s.ops && PastGuard(s.ops[op].pc);
      SoundOp(s, op);
      hide Inv;
      var c := FreshConn(s.conns);
      SlippedPastReopens(s, op, c);
    }
  }

  /** Between the closed check and the lock. */
  predicate Slipping(pc: OpPc) {
    pc.Guarded? || pc.Versioned? || pc.Missed?
  }

  /** Once this teardown has finished, nothing is ever cached. */
  ghost predicate FinalOnceFinished(s: State, t: TeardownId) {
    forall more :: IsRun(s, more) && TeardownAt(After(s, more), t, Finished) ==> CacheEmpty(After(s, more))
  }

  /** The handle is closed, nobody is on the way to the lock, and the teardown clears what it comes to. */
  ghost predicate Shutting(s: State, t: TeardownId) {
    && s.closed && t in s.teardowns && s.teardowns[t].pc != Begun
    && (forall op :: op in s.ops ==> !Slipping(s.ops[op].pc))
    && (s.teardowns[t].pc != Marked ==> !s.lock.ByOp? && s.bundle == None)
    && (s.teardowns[t].pc == Emptied || s.teardowns[t].pc == Finished ==> s.slot == None)
  }

  lemma ShuttingUnderOp(s: State, e: Event, t: TeardownId)
    requires Inv(s) && Shutting(s, t) && Enabled(s, e) && OfOp(e)
    ensures Shutting(Step(s, e), t)
  {
    SoundOp(s, e.op);
    assert !Slipping(s.ops[e.op].pc);
    hide Inv;
    match e {
      case Guard(_) => case Build(_, _) => case BuildFails(_) => case Store(_) => case End(_) =>
      case _ => assert false;
    }
  }

  lemma ShuttingUnderTeardown(s: State, e: Event, t: TeardownId)
    requires Inv(s) && Shutting(s, t) && Enabled(s, e) && OfTeardown(e)
    ensures Shutting(Step(s, e), t)
  {
    assert TeardownSound(s, t, s.teardowns[t]);
    hide Inv, InUse;
    match e {
      case Mark(_) => case TakeBundle(_) => case CloseSlot(_) => case Unlock(_) =>
    }
  }

  lemma ShuttingStep(s: State, e: Event, t: TeardownId)
    requires Inv(s) && Shutting(s, t) && Enabled(s, e)
    ensures Shutting(Step(s, e), t)
  {
    if OfOp(e) {
      ShuttingUnderOp(s, e, t);
      hide Step, Enabled, Shutting;
    } else if OfTeardown(e) {
      ShuttingUnderTeardown(s, e, t);
      hide Step, Enabled, Shutting;
    } else {
      hide Releases;
      match e {
        case Clone(_, _, _) => case Configure(_) => case Close(_, _) => case Drop(_, _) => case Call(_, _) =>
      }
    }
  }

  lemma {:induction false} ShuttingForever(s: State, es: History, t: TeardownId)
    requires Inv(s) && Shutting(s, t) && IsRun(s, es)
    ensures Shutting(After(s, es), t) && Inv(After(s, es))
    decreases |es|
  {
    if es != [] {
      ShuttingStep(s, es[0], t);
      InvStep(s, es[0]);
      hide Inv, Shutting, Step, Enabled;
      ShuttingForever(Step(s, es[0]), es[1..], t);
    }
  }

  /** Whoever holds the lock can let it go, and the others stay where they are. */
  lemma LockCanBeFreed(s: State, op: OpId, t: TeardownId) returns (es: History)
    requires Inv(s) && op in s.ops && Slipping(s.ops[op].pc) && TeardownAt(s, t, Marked)
    ensures IsRun(s, es) && After(s, es).lock == Free
    ensures op in After(s, es).ops && After(s, es).ops[op] == s.ops[op]
    ensures t in After(s, es).teardowns && After(s, es).teardowns[t] == s.teardowns[t]
  {
    assert CacheSound(s);
    match s.lock {
      case Free => es := [];
      case ByOp(x) =>
        SoundOp(s, x);
        SoundOp(s, op);
        hide Inv;
        BuildFailsIs(s, x);
        hide Step, Enabled;
        OneStep(s, BuildFails(x));
        es := [BuildFails(x)];
      case ByTeardown(u) =>
        assert TeardownSound(s, u, s.teardowns[u]) && TeardownSound(s, t, s.teardowns[t]);
        hide Inv, Step, Enabled, InUse;
        var s1, before := s, [];
        if s.teardowns[u].pc == Locked {
          CloseSlotIs(s, u);
          s1, before := Step(s, CloseSlot(u)), [CloseSlot(u)];
        }
        UnlockIs(s1, u);
        OneStep(s1, Unlock(u));
        if before != [] {
          Cons(s, CloseSlot(u), [Unlock(u)]);
        } else {
          assert before + [Unlock(u)] == [Unlock(u)];
        }
        es := before + [Unlock(u)];
        hide IsRun, After;
    }
  }

  /** A close can run on around an operation that has passed the check, which then builds. */
  lemma SlippingReopens(s: State, op: OpId, t: TeardownId)
    requires Inv(s) && op in s.ops && Slipping(s.ops[op].pc) && TeardownAt(s, t, Marked)
    ensures !FinalOnceFinished(s, t)
  {
    var free := LockCanBeFreed(s, op, t);
    var s1 := After(s, free);
    hide Inv, Step, Enabled;
    MarkedRuns(s1, t);
    var rest := [TakeBundle(t), CloseSlot(t), Unlock(t)];
    var s2 := After(s1, rest);
    var c := FreshConn(s2.conns);
    SlippedPastReopens(s2, op, c);
    var build := ToBuild(s2, op, c);
    BuildingKeepsTeardowns(s2, build);
    hide SlotClosed, TornDown, ToBuild;
    Concat(s1, rest, build);
    Concat(s, free, rest + build);
    hide IsRun, After;
  }

  lemma {:induction false} Concat(s: State, a: History, b: History)
    requires IsRun(s, a) && IsRun(After(s, a), b)
    ensures IsRun(s, a + b) && After(s, a + b) == After(After(s, a), b)
    decreases |a|
  {
    hide Step, Enabled;
    if a == [] {
      assert a + b == b;
    } else {
      Concat(Step(s, a[0]), a[1..], b);
      assert (a + b)[1..] == a[1..] + b;
    }
  }

  lemma {:induction false} BuildingKeepsTeardowns(s: State, es: History)
    requires IsRun(s, es) && forall i :: 0 <= i < |es| ==> OfOp(es[i])
    ensures After(s, es).teardowns == s.teardowns && After(s, es).handles == s.handles
    decreases |es|
  {
    if es != [] {
      assert OfOp(es[0]);
      OpStepFrame(s, es[0]);
      hide Step, Enabled;
      BuildingKeepsTeardowns(Step(s, es[0]), es[1..]);
    }
  }

  lemma OpStepFrame(s: State, e: Event)
    requires Enabled(s, e) && OfOp(e)
    ensures Step(s, e).teardowns == s.teardowns && Step(s, e).handles == s.handles && Step(s, e).dying == s.dying
  {
    match e {
      case Guard(_) => case ReadVersion(_) => case TryFast(_) => case TrySlow(_) => case Build(_, _) =>
      case BuildFails(_) => case Store(_) => case End(_) =>
    }
  }

  /**
   As its caller can see it when the closed flag is set: the close is final, whatever happens before
   and after it finishes, exactly when no operation is between the check and the lock at that moment.
   In particular it is final when none is in flight.
   */
  lemma CloseIsFinalExactlyWhenNoneSlipping(h: HandleId, kind: Kind, es: History, t: TeardownId)
    requires IsRun(Start(h, kind), es) && Enabled(After(Start(h, kind), es), Mark(t))
    requires After(Start(h, kind), es).teardowns[t].mark
    ensures var s := After(Start(h, kind), es);
            FinalOnceFinished(Step(s, Mark(t)), t) <==> forall op :: op in s.ops ==> !Slipping(s.ops[op].pc)
  {
    var s := After(Start(h, kind), es);
    InvAlways(h, kind, es);
    hide IsRun, After;
    MarkIs(s, t);
    InvStep(s, Mark(t));
    var s1 := Step(s, Mark(t));
    hide Step, Enabled, Inv;
    if forall op :: op in s.ops ==> !Slipping(s.ops[op].pc) {
      assert Shutting(s1, t);
      forall more | IsRun(s1, more) && TeardownAt(After(s1, more), t, Finished) ensures CacheEmpty(After(s1, more)) {
        ShuttingForever(s1, more, t);
      }
    } else {
      var op :| op in s.ops && Slipping(s.ops[op].pc);
      SlippingReopens(s1, op, t);
    }
  }

  /** And one can be: a close runs to its end around an operation that has found the handle not closed. */
  lemma {:induction false} CloseMissesSlippedPast(s: State, op: OpId, h: HandleId, t: TeardownId)
    requires OpAt(s, op, Guarded) && s.lock == Free && Enabled(s, Close(h, t))
    ensures IsRun(s, CloseSteps(h, t))
    ensures var end := After(s, CloseSteps(h, t)); end.closed && CacheEmpty(end) && !NoneSlippedPast(end)
  {
    var s1 := Step(s, Close(h, t));
    assert s1 == s.(teardowns := s.teardowns[t := Teardown(true, None, Begun)]);
    hide Step, Enabled, InUse, IsRun, After;
    TeardownRuns(s1, t);
    Cons(s, Close(h, t), TeardownSteps(t));
    assert OpAt(TornDown(s1, t), op, Guarded);
  }

  lemma GuardedIsReachable()
    ensures var es := [Call(0, 0)] + [Guard(0)];
            IsRun(Start(0, CHandle), es) && OpAt(After(Start(0, CHandle), es), 0, Guarded)
  {
    var s0 := Start(0, CHandle);
    var s1 := Step(s0, Call(0, 0));
    assert s1 == s0.(ops := map[0 := Op(Called, false, 0)]);
    assert OpAt(Step(s1, Guard(0)), 0, Guarded);
    hide Step, Enabled;
    OneStep(s1, Guard(0));
    Cons(s0, Call(0, 0), [Guard(0)]);
    hide IsRun, After;
  }

  /** A second close finds nothing to do. */
  lemma CloseIsIdempotent(s: State, h: HandleId, t: TeardownId)
    requires s.closed && CacheEmpty(s) && s.lock == Free && Enabled(s, Close(h, t))
    ensures IsRun(s, CloseSteps(h, t))
    ensures After(s, CloseSteps(h, t)) == s.(teardowns := s.teardowns[t := Teardown(true, None, Finished)])
  {
    var s1 := Step(s, Close(h, t));
    assert s1 == s.(teardowns := s.teardowns[t := Teardown(true, None, Begun)]);
    TeardownRuns(s1, t);
    hide Step, Enabled, InUse;
    Cons(s, Close(h, t), TeardownSteps(t));
    hide IsRun, After;
  }

  function TeardownSteps(t: TeardownId): History {
    [Mark(t), TakeBundle(t), CloseSlot(t), Unlock(t)]
  }

  function CloseSteps(h: HandleId, t: TeardownId): History {
    [Close(h, t)] + TeardownSteps(t)
  }

  /** A whole teardown, undisturbed. */
  function TornDown(s: State, t: TeardownId): State
    requires t in s.teardowns
  {
    TeardownTo(s, t, Finished)
      .(closed := s.closed || s.teardowns[t].mark, bundle := None, slot := None,
        conns := SlotClosed(s, s.teardowns[t].mark), lock := Free,
        handles := match s.teardowns[t].dropping
          case Some(h) => s.handles - {h}
          case None => s.handles)
  }

  // One teardown step at a time.

  lemma MarkIs(s: State, t: TeardownId)
    requires TeardownAt(s, t, Begun)
    ensures Enabled(s, Mark(t))
    ensures Step(s, Mark(t)) == TeardownTo(s, t, Marked).(closed := s.closed || s.teardowns[t].mark)
  {
  }

  lemma TakeBundleIs(s: State, t: TeardownId)
    requires TeardownAt(s, t, Marked) && s.lock == Free
    ensures Enabled(s, TakeBundle(t))
    ensures Step(s, TakeBundle(t)) == TeardownTo(s, t, Locked).(lock := ByTeardown(t), bundle := None)
  {
  }

  lemma CloseSlotIs(s: State, t: TeardownId)
    requires TeardownAt(s, t, Locked)
    ensures Enabled(s, CloseSlot(t))
    ensures Step(s, CloseSlot(t)) ==
            TeardownTo(s, t, Emptied).(conns := SlotClosed(s, s.teardowns[t].mark), slot := None)
  {
  }

  lemma UnlockIs(s: State, t: TeardownId)
    requires TeardownAt(s, t, Emptied)
    ensures Enabled(s, Unlock(t))
    ensures Step(s, Unlock(t)) ==
            TeardownTo(s, t, Finished)
              .(lock := Free,
                handles := match s.teardowns[t].dropping
                  case Some(h) => s.handles - {h}
                  case None => s.handles)
  {
  }

  lemma {:induction false} MarkedRuns(s: State, t: TeardownId)
    requires TeardownAt(s, t, Marked) && s.lock == Free
    ensures var es := [TakeBundle(t), CloseSlot(t), Unlock(t)];
            && IsRun(s, es)
            && After(s, es) == TornDown(s, t).(closed := s.closed)
  {
    hide InUse, Step, Enabled, IsRun, After, SlotClosed;
    TakeBundleIs(s, t);
    var s2 := Step(s, TakeBundle(t));
    CloseSlotIs(s2, t);
    var s3 := Step(s2, CloseSlot(t));
    UnlockIs(s3, t);
    SameSlotClosed(s, s2, s.teardowns[t].mark);
    assert Step(s3, Unlock(t)) == TornDown(s, t).(closed := s.closed);
    hide TeardownTo, TornDown;
    OneStep(s3, Unlock(t));
    Cons(s2, CloseSlot(t), [Unlock(t)]);
    Cons(s, TakeBundle(t), [CloseSlot(t)] + [Unlock(t)]);
    assert [TakeBundle(t)] + ([CloseSlot(t)] + [Unlock(t)]) == [TakeBundle(t), CloseSlot(t), Unlock(t)];
  }

  lemma {:induction false} TeardownRuns(s: State, t: TeardownId)
    requires TeardownAt(s, t, Begun) && s.lock == Free
    ensures IsRun(s, TeardownSteps(t)) && After(s, TeardownSteps(t)) == TornDown(s, t)
  {
    hide InUse, Step, Enabled, IsRun, After, SlotClosed;
    MarkIs(s, t);
    var s1 := Step(s, Mark(t));
    MarkedRuns(s1, t);
    SameSlotClosed(s, s1, s.teardowns[t].mark);
    assert TornDown(s1, t).(closed := s1.closed) == TornDown(s, t);
    hide TeardownTo, TornDown;
    Cons(s, Mark(t), [TakeBundle(t), CloseSlot(t), Unlock(t)]);
    assert [Mark(t)] + [TakeBundle(t), CloseSlot(t), Unlock(t)] == TeardownSteps(t);
  }

  lemma SameSlotClosed(s: State, t: State, mark: bool)
    requires t.ops == s.ops && t.slot == s.slot && t.conns == s.conns
    ensures SlotClosed(t, mark) == SlotClosed(s, mark)
  {
    SameUse(s, t);
    hide InUse;
  }

  lemma SameUse(s: State, t: State)
    requires t.ops == s.ops
    ensures forall c :: InUse(t, c) == InUse(s, c)
  {
  }

  // ----- Versions -----

  /** Services handed to an operation are open, and no older than the configuration when it was called. */
  lemma ServicesAreCurrent(h: HandleId, kind: Kind, es: History, e: Event)
    requires IsRun(Start(h, kind), es) && Enabled(After(Start(h, kind), es), e)
    requires e.TryFast? || e.TrySlow? || e.Store?
    ensures var s := Step(After(Start(h, kind), es), e);
            s.ops[e.op].pc.Running? ==>
              && s.ops[e.op].pc.conn in s.conns && !s.conns[s.ops[e.op].pc.conn].closed
              && s.ops[e.op].bornVersion <= s.conns[s.ops[e.op].pc.conn].version <= s.version
  {
    var s := After(Start(h, kind), es);
    InvAlways(h, kind, es);
    hide IsRun, After;
    CurrentAt(s, e);
  }

  lemma CurrentAt(s: State, e: Event)
    requires Inv(s) && Enabled(s, e) && (e.TryFast? || e.TrySlow? || e.Store?)
    ensures var t := Step(s, e);
            t.ops[e.op].pc.Running? ==>
              && t.ops[e.op].pc.conn in t.conns && !t.conns[t.ops[e.op].pc.conn].closed
              && t.ops[e.op].bornVersion <= t.conns[t.ops[e.op].pc.conn].version <= t.version
  {
    SoundOp(s, e.op);
    assert CacheSound(s);
    hide Inv;
  }

  /** What comes of building: the engines and the services, an early failure, or one after the engines are cached. */
  datatype BuildOutcome = Succeeds | FailsEarly | FailsLate

  function SlowPath(op: OpId, c: ConnId, outcome: BuildOutcome): History {
    match outcome
    case Succeeds => [TrySlow(op), Build(op, c), Store(op)]
    case FailsEarly => [TrySlow(op), BuildFails(op)]
    case FailsLate => [TrySlow(op), Build(op, c), BuildFails(op)]
  }

  /** The way through `services()` of an operation nothing else interferes with. */
  function ServicesPath(s: State, op: OpId, c: ConnId, outcome: BuildOutcome): History {
    if s.closed then [Guard(op)]
    else if Hit(s, s.version) then [Guard(op), ReadVersion(op), TryFast(op)]
    else [Guard(op), ReadVersion(op), TryFast(op)] + SlowPath(op, c, outcome)
  }

  /** The engines an operation builds on, new ones if the cached ones are not current. */
  function WithEngines(s: State, c: ConnId): State {
    if SlotCurrent(s) then s else s.(slot := Some(c), conns := s.conns[c := Conn(s.version, false)])
  }

  /** Where a miss leads: new services around those engines, or a failure that may leave them cached. */
  function Missing(s: State, op: OpId, c: ConnId, outcome: BuildOutcome): State
    requires op in s.ops
  {
    match outcome
    case Succeeds =>
      var conn := if SlotCurrent(s) then s.slot.value else c;
      OpTo(WithEngines(s, c), op, Running(conn)).(bundle := Some((s.version, conn)))
    case FailsEarly => OpTo(s, op, Failed)
    case FailsLate => OpTo(WithEngines(s, c), op, Failed)
  }

  /** Where `services()` leads: a refusal, the cached services, or what comes of a miss. */
  function Served(s: State, op: OpId, c: ConnId, outcome: BuildOutcome): State
    requires op in s.ops
  {
    if s.closed then OpTo(s, op, Refused)
    else if Hit(s, s.version) then OpTo(s, op, Running(s.bundle.value.1))
    else Missing(s, op, c, outcome)
  }

  lemma TrySlowIs(s: State, op: OpId, ver: nat)
    requires OpAt(s, op, Missed(ver)) && s.lock == Free && !Hit(s, ver)
    ensures Enabled(s, TrySlow(op)) && Step(s, TrySlow(op)) == OpTo(s, op, Building(ver)).(lock := ByOp(op))
  {
  }

  lemma BuildIs(s: State, op: OpId, ver: nat, c: ConnId)
    requires OpAt(s, op, Building(ver)) && c !in s.conns
    ensures Enabled(s, Build(op, c))
    ensures Step(s, Build(op, c)) ==
            if SlotCurrent(s) then OpTo(s, op, Built(ver, s.slot.value))
            else OpTo(s, op, Built(ver, c)).(conns := s.conns[c := Conn(s.version, false)], slot := Some(c))
  {
  }

  lemma StoreIs(s: State, op: OpId, ver: nat, conn: ConnId)
    requires OpAt(s, op, Built(ver, conn))
    ensures Enabled(s, Store(op))
    ensures Step(s, Store(op)) == OpTo(s, op, Running(conn)).(bundle := Some((ver, conn)), lock := Free)
  {
  }

  lemma BuildFailsIs(s: State, op: OpId)
    requires op in s.ops && (s.ops[op].pc.Building? || s.ops[op].pc.Built?)
    ensures Enabled(s, BuildFails(op)) && Step(s, BuildFails(op)) == OpTo(s, op, Failed).(lock := Free)
  {
  }

  lemma {:induction false} SlowServes(s: State, op: OpId, c: ConnId, outcome: BuildOutcome)
    requires OpAt(s, op, Missed(s.version)) && s.lock == Free && !Hit(s, s.version) && c !in s.conns
    ensures IsRun(s, SlowPath(op, c, outcome)) && After(s, SlowPath(op, c, outcome)) == Missing(s, op, c, outcome)
  {
    hide Step, Enabled, IsRun, After;
    TrySlowIs(s, op, s.version);
    hide Hit;
    var s1 := Step(s, TrySlow(op));
    SlowRest(s, s1, op, c, outcome);
    hide Missing, OpTo;
    var rest := SlowPath(op, c, outcome)[1..];
    Cons(s, TrySlow(op), rest);
    assert [TrySlow(op)] + rest == SlowPath(op, c, outcome);
  }

  /** What follows once the lock is held. */
  lemma SlowRest(s: State, s1: State, op: OpId, c: ConnId, outcome: BuildOutcome)
    requires op in s.ops && s.lock == Free && c !in s.conns
    requires s1 == OpTo(s, op, Building(s.version)).(lock := ByOp(op))
    ensures IsRun(s1, SlowPath(op, c, outcome)[1..])
    ensures After(s1, SlowPath(op, c, outcome)[1..]) == Missing(s, op, c, outcome)
  {
    hide Step, Enabled, IsRun, After;
    if outcome == FailsEarly {
      BuildFailsIs(s1, op);
      OneStep(s1, BuildFails(op));
      assert SlowPath(op, c, outcome)[1..] == [BuildFails(op)];
      assert Step(s1, BuildFails(op)) == Missing(s, op, c, outcome);
    } else {
      BuildIs(s1, op, s.version, c);
      var s2 := Step(s1, Build(op, c));
      var last := if outcome == Succeeds then Store(op) else BuildFails(op);
      BuiltRest(s, s1, s2, op, c, outcome);
      hide Missing, OpTo;
      Cons(s1, Build(op, c), [last]);
      assert SlowPath(op, c, outcome)[1..] == [Build(op, c)] + [last];
    }
  }

  lemma BuiltRest(s: State, s1: State, s2: State, op: OpId, c: ConnId, outcome: BuildOutcome)
    requires op in s.ops && s.lock == Free && c !in s.conns && outcome != FailsEarly
    requires s1 == OpTo(s, op, Building(s.version)).(lock := ByOp(op))
    requires Enabled(s1, Build(op, c)) && s2 == Step(s1, Build(op, c))
    ensures var last := if outcome == Succeeds then Store(op) else BuildFails(op);
            IsRun(s2, [last]) && After(s2, [last]) == Missing(s, op, c, outcome)
  {
    var conn := if SlotCurrent(s) then s.slot.value else c;
    hide IsRun, After;
    BuiltIs(s, s1, s2, op, c);
    hide Step, Enabled, SlotCurrent, WithEngines;
    EnginesKeep(s, c);
    if outcome == Succeeds {
      StoreIs(s2, op, s.version, conn);
      OneStep(s2, Store(op));
    } else {
      BuildFailsIs(s2, op);
      OneStep(s2, BuildFails(op));
    }
  }

  lemma EnginesKeep(s: State, c: ConnId)
    ensures WithEngines(s, c).ops == s.ops && WithEngines(s, c).lock == s.lock
  {
  }

  lemma BuiltIs(s: State, s1: State, s2: State, op: OpId, c: ConnId)
    requires op in s.ops && s.lock == Free && c !in s.conns
    requires s1 == OpTo(s, op, Building(s.version)).(lock := ByOp(op))
    requires Enabled(s1, Build(op, c)) && s2 == Step(s1, Build(op, c))
    ensures var conn := if SlotCurrent(s) then s.slot.value else c;
            op in WithEngines(s, c).ops
            && s2 == OpTo(WithEngines(s, c), op, Built(s.version, conn)).(lock := ByOp(op))
  {
    BuildIs(s1, op, s.version, c);
    assert SlotCurrent(s1) == SlotCurrent(s);
    hide Step, Enabled, SlotCurrent;
  }

  lemma GuardIs(s: State, op: OpId)
    requires OpAt(s, op, Called)
    ensures Enabled(s, Guard(op)) && Step(s, Guard(op)) == OpTo(s, op, if s.closed then Refused else Guarded)
  {
  }

  lemma ReadVersionIs(s: State, op: OpId)
    requires OpAt(s, op, Guarded)
    ensures Enabled(s, ReadVersion(op)) && Step(s, ReadVersion(op)) == OpTo(s, op, Versioned(s.version))
  {
  }

  lemma TryFastIs(s: State, op: OpId, ver: nat)
    requires OpAt(s, op, Versioned(ver)) && s.lock == Free
    ensures Enabled(s, TryFast(op))
    ensures Step(s, TryFast(op)) == OpTo(s, op, if Hit(s, ver) then Running(s.bundle.value.1) else Missed(ver))
  {
  }

  /** Where the first look at the cache leaves an operation. */
  function Looked(s: State, op: OpId): State
    requires op in s.ops
  {
    OpTo(s, op, if Hit(s, s.version) then Running(s.bundle.value.1) else Missed(s.version))
  }

  lemma {:induction false} GuardsServe(s: State, op: OpId, tail: History)
    requires OpAt(s, op, Called) && s.lock == Free && !s.closed && IsRun(Looked(s, op), tail)
    ensures var es := [Guard(op)] + ([ReadVersion(op)] + ([TryFast(op)] + tail));
            IsRun(s, es) && After(s, es) == After(Looked(s, op), tail)
  {
    hide Step, Enabled, IsRun, After;
    GuardIs(s, op);
    var s1 := Step(s, Guard(op));
    ReadVersionIs(s1, op);
    var s2 := Step(s1, ReadVersion(op));
    TryFastIs(s2, op, s.version);
    assert Hit(s2, s.version) == Hit(s, s.version);
    assert Step(s2, TryFast(op)) == Looked(s, op);
    hide Looked, OpTo, Hit;
    Cons(s2, TryFast(op), tail);
    Cons(s1, ReadVersion(op), [TryFast(op)] + tail);
    Cons(s, Guard(op), [ReadVersion(op)] + ([TryFast(op)] + tail));
  }

  lemma {:induction false} ServicesRuns(s: State, op: OpId, c: ConnId, outcome: BuildOutcome)
    requires OpAt(s, op, Called) && s.lock == Free && c !in s.conns
    ensures IsRun(s, ServicesPath(s, op, c, outcome))
    ensures After(s, ServicesPath(s, op, c, outcome)) == Served(s, op, c, outcome)
  {
    hide Step, Enabled;
    if s.closed {
      GuardIs(s, op);
      OneStep(s, Guard(op));
      hide IsRun, After;
    } else if Hit(s, s.version) {
      assert IsRun(Looked(s, op), []) && After(Looked(s, op), []) == Looked(s, op);
      GuardsServe(s, op, []);
      hide IsRun, After;
      assert [Guard(op)] + ([ReadVersion(op)] + ([TryFast(op)] + [])) == ServicesPath(s, op, c, outcome);
    } else {
      hide IsRun, After;
      MissServes(s, op, c, outcome);
    }
  }

  lemma {:induction false} MissServes(s: State, op: OpId, c: ConnId, outcome: BuildOutcome)
    requires OpAt(s, op, Called) && s.lock == Free && c !in s.conns && !s.closed && !Hit(s, s.version)
    ensures IsRun(s, ServicesPath(s, op, c, outcome))
    ensures After(s, ServicesPath(s, op, c, outcome)) == Served(s, op, c, outcome)
  {
    hide Step, Enabled, IsRun, After;
    var miss, tail := Looked(s, op), SlowPath(op, c, outcome);
    assert Hit(miss, s.version) == Hit(s, s.version) && SlotCurrent(miss) == SlotCurrent(s);
    SlowServes(miss, op, c, outcome);
    assert Missing(miss, op, c, outcome) == Missing(s, op, c, outcome);
    hide Missing, Looked, SlowPath;
    GuardsServe(s, op, tail);
    assert [Guard(op)] + ([ReadVersion(op)] + ([TryFast(op)] + tail)) == ServicesPath(s, op, c, outcome);
  }

  /** Short of a close, any operation still gets services: after a release, say, it builds them anew. */
  lemma StillWarms(s: State, op: OpId)
    requires !s.closed && s.lock == Free && OpAt(s, op, Called)
    ensures exists es :: IsRun(s, es) && op in After(s, es).ops && After(s, es).ops[op].pc.Running?
  {
    var c := FreshConn(s.conns);
    ServicesRuns(s, op, c, Succeeds);
    assert op in Served(s, op, c, Succeeds).ops && Served(s, op, c, Succeeds).ops[op].pc.Running?;
    hide IsRun, After, Served;
  }

  // ----- The last handle -----

  /** No handle is left to act through, and no teardown is under way. */
  predicate Abandoned(s: State) {
    s.handles == map[] && forall t :: t in s.teardowns ==> s.teardowns[t].pc == Finished
  }

  lemma AbandonedStep(s: State, e: Event)
    requires Inv(s) && Abandoned(s) && Enabled(s, e)
    ensures Abandoned(Step(s, e))
    ensures forall c :: c in s.conns ==> c in Step(s, e).conns && Step(s, e).conns[c] == s.conns[c]
  {
    hide Inv, Releases, InUse;
    match e {
      case Guard(_) => case ReadVersion(_) => case TryFast(_) => case TrySlow(_) => case Build(_, _) =>
      case BuildFails(_) => case Store(_) => case End(_) =>
      case _ => assert false;
    }
  }

  lemma {:induction false} AbandonedForever(s: State, es: History)
    requires Inv(s) && Abandoned(s) && IsRun(s, es)
    ensures forall c :: c in s.conns ==> c in After(s, es).conns && After(s, es).conns[c] == s.conns[c]
    decreases |es|
  {
    if es != [] {
      AbandonedStep(s, es[0]);
      InvStep(s, es[0]);
      hide Inv, Abandoned, Step, Enabled;
      AbandonedForever(Step(s, es[0]), es[1..]);
    }
  }

  /**
   Destroying the last C handle gets the cached engines closed exactly when no operation is in flight:
   one that is keeps the state alive, and nothing closes it after that.
   */
  lemma LastDestroyClosesExactlyWhenIdle(s: State, h: HandleId, t: TeardownId, c: ConnId)
    requires Inv(s) && s.handles == map[h := CHandle] && s.dying == {} && t !in s.teardowns && s.slot == Some(c)
    requires forall x :: x in s.teardowns ==> s.teardowns[x].pc == Finished
    ensures Enabled(s, Drop(h, t)) && c in s.conns
    ensures (exists es :: IsRun(Step(s, Drop(h, t)), es) && c in After(Step(s, Drop(h, t)), es).conns
                          && After(Step(s, Drop(h, t)), es).conns[c].closed)
            <==> forall op :: op in s.ops ==> !Active(s.ops[op])
  {
    assert CacheSound(s);
    var s1 := Step(s, Drop(h, t));
    InvStep(s, Drop(h, t));
    if forall op :: op in s.ops ==> !Active(s.ops[op]) {
      assert s.handles.Keys == {h};
      IdleIsUnlocked(s);
      assert s1.lock == Free && TeardownAt(s1, t, Begun);
      assert s1.slot == Some(c) && s1.conns == s.conns && s1.ops == s.ops;
      forall x ensures !InUse(s1, x) {
      }
      hide Inv, Step, Enabled, InUse;
      TeardownRuns(s1, t);
    } else {
      assert s1.handles == map[] && s1.conns == s.conns;
      hide Inv, Step, Enabled;
      forall es | IsRun(s1, es) ensures c in After(s1, es).conns && !After(s1, es).conns[c].closed {
        AbandonedForever(s1, es);
      }
    }
  }

  lemma IdleIsUnlocked(s: State)
    requires Inv(s) && Quiescent(s)
    ensures s.lock == Free
  {
    LockHolderBusy(s);
    hide Inv, Active;
  }

  lemma LockHolderBusy(s: State)
    requires Inv(s)
    ensures s.lock.ByOp? ==> s.lock.op in s.ops && Active(s.ops[s.lock.op])
    ensures s.lock.ByTeardown? ==> s.lock.t in s.teardowns && s.teardowns[s.lock.t].pc != Finished
  {
    assert CacheSound(s);
    if s.lock.ByOp? {
      assert OpSound(s, s.lock.op, s.ops[s.lock.op]);
    }
    if s.lock.ByTeardown? {
      assert TeardownSound(s, s.lock.t, s.teardowns[s.lock.t]);
    }
    hide Inv;
  }

  /** A surface that outlives its `Cognee` and builds again is dropped without a release: nothing closes its engines. */
  lemma LastSurfaceClosesNothing(s: State, h: HandleId, t: TeardownId, c: ConnId, es: History)
    requires Inv(s) && s.handles == map[h := PySurface] && s.dying == {} && t !in s.teardowns && s.slot == Some(c)
    requires forall x :: x in s.teardowns ==> s.teardowns[x].pc == Finished
    requires Enabled(s, Drop(h, t)) && IsRun(Step(s, Drop(h, t)), es)
    ensures var end := After(Step(s, Drop(h, t)), es);
            c in end.conns && !end.conns[c].closed
  {
    assert CacheSound(s);
    var s1 := Step(s, Drop(h, t));
    InvStep(s, Drop(h, t));
    assert s1.handles == map[] && s1.conns == s.conns;
    hide Inv, Step, Enabled;
    AbandonedForever(s1, es);
  }

  // ----- The shared state itself -----

  datatype SdkError = HandleClosed | BuildFailed

  /** The fields of the shared state, and its methods as one thread runs them. */
  class HandleState {
    var closed: bool
    var version: nat
    var bundle: Option<(nat, ConnId)>
    var slot: Option<ConnId>
    var conns: map<ConnId, Conn>

    predicate Matches(s: State)
      reads this
    {
      && closed == s.closed && version == s.version && bundle == s.bundle && slot == s.slot && conns == s.conns
      && s.lock == Free
    }

    constructor (ghost h: HandleId, ghost kind: Kind)
      ensures Matches(Start(h, kind))
    {
      closed, version, bundle, slot, conns := false, 0, None, None, map[];
    }

    method SetConfig(ghost s: State, ghost h: HandleId)
      requires Matches(s) && Enabled(s, Configure(h))
      modifies this`version
      ensures Matches(Step(s, Configure(h)))
    {
      version := version + 1;
    }

    /** `ComponentManager`'s accessor: the cached engines if they are current, else new ones in their place. */
    method Engines(spare: ConnId) returns (conn: ConnId)
      requires spare !in conns
      modifies this`slot, this`conns
      ensures if old(slot.Some? && slot.value in conns && conns[slot.value].version == version)
              then conn == old(slot.value) && slot == old(slot) && conns == old(conns)
              else conn == spare && slot == Some(spare) && conns == old(conns)[spare := Conn(version, false)]
    {
      if slot.Some? && slot.value in conns && conns[slot.value].version == version {
        return slot.value;
      }
      conns := conns[spare := Conn(version, false)];
      slot := Some(spare);
      conn := spare;
    }

    /** `outcome` is what building would come to, which nothing here decides. */
    method Services(spare: ConnId, outcome: BuildOutcome, ghost s: State, ghost op: OpId)
      returns (r: Result<ConnId, SdkError>)
      requires Matches(s) && OpAt(s, op, Called) && spare !in conns
      modifies this
      ensures IsRun(s, ServicesPath(s, op, spare, outcome))
      ensures var after := After(s, ServicesPath(s, op, spare, outcome));
              && Matches(after) && op in after.ops
              && after.ops[op].pc == match r
                                     case Ok(conn) => Running(conn)
                                     case Err(HandleClosed) => Refused
                                     case Err(BuildFailed) => Failed
      ensures r == Err(HandleClosed) <==> old(closed)
      ensures r == Err(BuildFailed) <==>
              outcome != Succeeds && !old(closed) && !(old(bundle).Some? && old(bundle).value.0 == version)
    {
      ServicesRuns(s, op, spare, outcome);
      hide IsRun, After;
      if closed {
        return Err(HandleClosed);
      }
      var current := version;
      if bundle.Some? && bundle.value.0 == current {
        return Ok(bundle.value.1);
      }
      if outcome == FailsEarly {
        return Err(BuildFailed);
      }
      var conn := Engines(spare);
      if outcome == FailsLate {
        return Err(BuildFailed);
      }
      bundle := Some((current, conn));
      return Ok(conn);
    }

    /** `inUse`: some operation in flight still holds the cached engines. */
    method TeardownState(mark: bool, inUse: bool, ghost s: State, ghost t: TeardownId)
      requires Matches(s) && TeardownAt(s, t, Begun) && s.teardowns[t].mark == mark
      requires inUse <==> slot.Some? && InUse(s, slot.value)
      modifies this
      ensures IsRun(s, TeardownSteps(t)) && Matches(After(s, TeardownSteps(t)))
    {
      TeardownRuns(s, t);
      hide IsRun, After, InUse;
      if mark {
        closed := true;
      }
      bundle := None;
      if slot.Some? {
        if slot.value in conns && (mark || !inUse) {
          conns := conns[slot.value := conns[slot.value].(closed := true)];
        }
        slot := None;
      }
    }
  }
}
