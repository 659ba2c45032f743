/** What dropping the last handle leaves open, whatever its kind and whatever is in flight. */
module HandleLastDrop {
  import opened Wrappers
  import opened HandleLifecycle
  import opened HandleTheorems
  import opened HandleEngines

  /** The operation is building, or nothing stops it from getting there. */
  predicate MayBuild(s: State, op: Op) {
    PastGuard(op.pc) || (op.pc == Called && !s.closed)
  }

  predicate SomeMayBuild(s: State) {
    exists op :: op in s.ops && MayBuild(s, s.ops[op])
  }

  /** Dropping the handle does not close the cached engines. */
  predicate Kept(s: State, h: HandleId)
    requires h in s.handles
  {
    && s.slot.Some?
    && match s.handles[h]
       case CHandle => exists op :: op in s.ops && Active(s.ops[op])
       case PyMain => InUse(s, s.slot.value)
       case PySurface => true
  }

  ghost predicate NeverClosed(s: State, c: ConnId) {
    forall more :: IsRun(s, more) ==> c in After(s, more).conns && !After(s, more).conns[c].closed
  }

  /** Things can go on so that some engines are open and never closed. */
  ghost predicate CanBeLeftOpen(s: State) {
    exists more, c :: IsRun(s, more) && NeverClosed(After(s, more), c)
  }

  lemma LeftOpenNow(s: State, c: ConnId)
    requires NeverClosed(s, c)
    ensures CanBeLeftOpen(s)
  {
    assert IsRun(s, []) && After(s, []) == s;
    assert NeverClosed(After(s, []), c);
    hide NeverClosed;
  }

  lemma LeftOpenLater(s: State, es: History)
    requires IsRun(s, es) && CanBeLeftOpen(After(s, es))
    ensures CanBeLeftOpen(s)
  {
    var more, c :| IsRun(After(s, es), more) && NeverClosed(After(After(s, es), more), c);
    Concat(s, es, more);
    hide NeverClosed, IsRun, After;
    assert NeverClosed(After(s, es + more), c);
  }

  lemma StrayLeftOpen(s: State, c: ConnId)
    requires Inv(s) && Stray(s, c)
    ensures CanBeLeftOpen(s)
  {
    forall more | IsRun(s, more) ensures c in After(s, more).conns && !After(s, more).conns[c].closed {
      StraysAfter(s, more);
    }
    hide Inv, IsRun, After, CanBeLeftOpen;
    LeftOpenNow(s, c);
  }

  lemma AbandonedSlotLeftOpen(s: State)
    requires Inv(s) && Abandoned(s) && s.slot.Some?
    ensures CanBeLeftOpen(s)
  {
    Cached(s);
    forall more | IsRun(s, more)
      ensures s.slot.value in After(s, more).conns && !After(s, more).conns[s.slot.value].closed
    {
      AbandonedForever(s, more);
    }
    hide Inv, IsRun, After, CanBeLeftOpen, Abandoned;
    LeftOpenNow(s, s.slot.value);
  }

  // ----- Once no handle is left -----

  /** An operation that can still build leaves its engines cached, with nobody to close them. */
  lemma BuilderLeavesOpen(s: State)
    requires Inv(s) && Abandoned(s) && CacheEmpty(s) && SomeMayBuild(s)
    ensures CanBeLeftOpen(s)
  {
    var op :| op in s.ops && MayBuild(s, s.ops[op]);
    LockHolderBusy(s);
    if s.lock.ByOp? {
      LockedBuilderBuilds(s);
    } else {
      FreeBuilderBuilds(s, op);
    }
    hide CanBeLeftOpen, Inv;
  }

  lemma LockedBuilderBuilds(s: State)
    requires Inv(s) && Abandoned(s) && CacheEmpty(s) && s.lock.ByOp? && s.lock.op in s.ops
    ensures CanBeLeftOpen(s)
  {
    var x := s.lock.op;
    SoundOp(s, x);
    var c := FreshConn(s.conns);
    BuildIs(s, x, s.ops[x].pc.ver, c);
    InvStep(s, Build(x, c));
    hide Inv, Step, Enabled;
    OneStep(s, Build(x, c));
    hide IsRun, After, CanBeLeftOpen;
    AbandonedSlotLeftOpen(Step(s, Build(x, c)));
    LeftOpenLater(s, [Build(x, c)]);
  }

  lemma FreeBuilderBuilds(s: State, op: OpId)
    requires Inv(s) && Abandoned(s) && CacheEmpty(s) && s.lock == Free && op in s.ops && MayBuild(s, s.ops[op])
    ensures CanBeLeftOpen(s)
  {
    SoundOp(s, op);
    if s.ops[op].pc == Called {
      GuardIs(s, op);
      InvStep(s, Guard(op));
      hide Inv, Step, Enabled;
      OneStep(s, Guard(op));
      hide IsRun, After, CanBeLeftOpen;
      SlippingLeavesOpen(Step(s, Guard(op)), op);
      LeftOpenLater(s, [Guard(op)]);
    } else {
      hide Inv, CanBeLeftOpen;
      SlippingLeavesOpen(s, op);
    }
  }

  lemma SlippingLeavesOpen(s: State, op: OpId)
    requires Inv(s) && Abandoned(s) && CacheEmpty(s) && s.lock == Free && op in s.ops && Slipping(s.ops[op].pc)
    ensures CanBeLeftOpen(s)
  {
    var c := FreshConn(s.conns);
    hide Inv, Step, Enabled;
    SlippedPastReopens(s, op, c);
    var build := ToBuild(s, op, c);
    BuildingKeepsTeardowns(s, build);
    InvAfter(s, build);
    hide IsRun, After, CanBeLeftOpen, ToBuild;
    AbandonedSlotLeftOpen(After(s, build));
    LeftOpenLater(s, build);
  }

  /** With nothing cached and nobody to build, nothing is opened again. */
  ghost predicate Over(s: State) {
    Abandoned(s) && CacheEmpty(s) && !SomeMayBuild(s) && AllClosed(s)
  }

  lemma OverStep(s: State, e: Event)
    requires Inv(s) && Over(s) && Enabled(s, e)
    ensures Over(Step(s, e))
  {
    if OfOp(e) {
      SoundOp(s, e.op);
      assert !MayBuild(s, s.ops[e.op]);
      hide Inv;
      match e {
        case Guard(_) => case End(_) =>
        case _ => assert false;
      }
    } else {
      NotAbandoned(s, e);
    }
  }

  lemma NotAbandoned(s: State, e: Event)
    requires Abandoned(s) && Enabled(s, e)
    ensures OfOp(e)
  {
  }

  lemma {:induction false} OverForever(s: State, es: History)
    requires Inv(s) && Over(s) && IsRun(s, es)
    ensures AllClosed(After(s, es))
    decreases |es|
  {
    if es != [] {
      OverStep(s, es[0]);
      InvStep(s, es[0]);
      hide Inv, Over, Step, Enabled;
      OverForever(Step(s, es[0]), es[1..]);
    }
  }

  lemma OverLeavesNothing(s: State)
    requires Inv(s) && Over(s)
    ensures !CanBeLeftOpen(s)
  {
    forall more, c | IsRun(s, more) ensures !NeverClosed(After(s, more), c) {
      OverForever(s, more);
      NotNeverClosed(After(s, more), c);
    }
    hide Inv, Over, NeverClosed, IsRun, After;
  }

  lemma NotNeverClosed(s: State, c: ConnId)
    requires AllClosed(s)
    ensures !NeverClosed(s, c)
  {
    assert IsRun(s, []) && After(s, []) == s;
  }

  // ----- While the last handle's release is under way -----

  /** The last handle is being dropped with a release, and nothing else is being torn down. */
  predicate Releasing(s: State, h: HandleId, t: TeardownId) {
    && s.handles.Keys == {h} && h in s.dying
    && t in s.teardowns && !s.teardowns[t].mark && s.teardowns[t].dropping == Some(h)
    && forall x :: x in s.teardowns && x != t ==> s.teardowns[x].pc == Finished
  }

  lemma FreeReleaseLeavesOpen(s: State, h: HandleId, t: TeardownId)
    requires Inv(s) && Releasing(s, h, t) && s.teardowns[t].pc == Begun && s.lock == Free
    requires SomeMayBuild(s) || (s.slot.Some? && InUse(s, s.slot.value))
    ensures CanBeLeftOpen(s)
  {
    Cached(s);
    TeardownRuns(s, t);
    InvAfter(s, TeardownSteps(t));
    hide Inv, IsRun, After, CanBeLeftOpen;
    var end := TornDown(s, t);
    if s.slot.Some? && InUse(s, s.slot.value) {
      assert Stray(end, s.slot.value);
      StrayLeftOpen(end, s.slot.value);
    } else {
      var op :| op in s.ops && MayBuild(s, s.ops[op]);
      assert end.ops == s.ops && MayBuild(end, end.ops[op]);
      hide InUse;
      assert end.handles == map[];
      BuilderLeavesOpen(end);
    }
    LeftOpenLater(s, TeardownSteps(t));
  }

  /** Whoever is building finishes first, and then uses the engines the release comes to. */
  lemma LockedReleaseLeavesOpen(s: State, h: HandleId, t: TeardownId)
    requires Inv(s) && Releasing(s, h, t) && s.teardowns[t].pc == Begun && s.lock.ByOp? && s.lock.op in s.ops
    ensures CanBeLeftOpen(s)
  {
    var x := s.lock.op;
    SoundOp(s, x);
    if s.ops[x].pc.Building? {
      var c := FreshConn(s.conns);
      BuildIs(s, x, s.ops[x].pc.ver, c);
      InvStep(s, Build(x, c));
      hide Inv, Step, Enabled, SlotCurrent;
      OneStep(s, Build(x, c));
      hide IsRun, After, CanBeLeftOpen;
      StoredReleaseLeavesOpen(Step(s, Build(x, c)), h, t, x);
      LeftOpenLater(s, [Build(x, c)]);
    } else {
      hide Inv, CanBeLeftOpen;
      StoredReleaseLeavesOpen(s, h, t, x);
    }
  }

  lemma StoredReleaseLeavesOpen(s: State, h: HandleId, t: TeardownId, x: OpId)
    requires Inv(s) && Releasing(s, h, t) && s.teardowns[t].pc == Begun && x in s.ops && s.ops[x].pc.Built?
    ensures CanBeLeftOpen(s)
  {
    SoundOp(s, x);
    var conn := s.ops[x].pc.conn;
    StoreIs(s, x, s.ops[x].pc.ver, conn);
    InvStep(s, Store(x));
    var s1 := Step(s, Store(x));
    assert s1.ops[x].pc == Running(conn) && InUse(s1, conn);
    hide Inv, Step, Enabled, InUse;
    OneStep(s, Store(x));
    hide IsRun, After, CanBeLeftOpen;
    FreeReleaseLeavesOpen(s1, h, t);
    LeftOpenLater(s, [Store(x)]);
  }

  /** The release will close what is cached, and nobody can put anything else there. */
  ghost predicate Sealed(s: State, h: HandleId, t: TeardownId) {
    && (s.handles == map[] || s.handles.Keys == {h}) && h in s.dying
    && t in s.teardowns && !s.teardowns[t].mark && s.teardowns[t].dropping == Some(h)
    && (forall x :: x in s.teardowns && x != t ==> s.teardowns[x].pc == Finished)
    && !SomeMayBuild(s) && NoStray(s) && (s.slot.Some? ==> !InUse(s, s.slot.value))
    && (s.teardowns[t].pc == Emptied || s.teardowns[t].pc == Finished ==> s.slot == None)
  }

  lemma SealedUnderOp(s: State, e: Event, h: HandleId, t: TeardownId)
    requires Inv(s) && Sealed(s, h, t) && Enabled(s, e) && OfOp(e)
    ensures Sealed(Step(s, e), h, t)
  {
    SoundOp(s, e.op);
    assert !MayBuild(s, s.ops[e.op]);
    var t' := Step(s, e);
    hide Inv;
    match e {
      case Guard(_) =>
        SameStrays(s, t');
      case End(_) =>
        SameStrays(s, t');
      case _ => assert false;
    }
    hide NoStray;
  }

  lemma SealedUnderTeardown(s: State, e: Event, h: HandleId, t: TeardownId)
    requires Inv(s) && Sealed(s, h, t) && Enabled(s, e) && OfTeardown(e)
    ensures Sealed(Step(s, e), h, t)
  {
    Cached(s);
    assert TeardownSound(s, t, s.teardowns[t]);
    StrayStep(s, e);
    hide Inv, NoStray, Stray;
    assert e.t == t;
    SealedMoves(s, e, t);
    SameUse(s, Step(s, e));
    hide Step, Enabled, InUse;
    assert SomeMayBuild(Step(s, e)) == SomeMayBuild(s);
  }

  lemma SealedMoves(s: State, e: Event, t: TeardownId)
    requires Enabled(s, e) && OfTeardown(e) && e.t == t && !s.teardowns[t].mark
    ensures var u := Step(s, e);
            && u.ops == s.ops && u.closed == s.closed && u.dying == s.dying
            && u.teardowns.Keys == s.teardowns.Keys
            && (forall x :: x in s.teardowns && x != t ==> u.teardowns[x] == s.teardowns[x])
            && u.teardowns[t].mark == s.teardowns[t].mark && u.teardowns[t].dropping == s.teardowns[t].dropping
            && (u.slot == s.slot || (e.CloseSlot? && u.slot == None))
            && (u.teardowns[t].pc == Emptied ==> u.slot == None)
            && (u.teardowns[t].pc == Finished ==> s.teardowns[t].pc == Emptied)
            && (u.handles == s.handles
                || (s.teardowns[t].dropping.Some? && u.handles == s.handles - {s.teardowns[t].dropping.value}))
  {
    hide InUse;
    match e {
      case Mark(_) => case TakeBundle(_) => case CloseSlot(_) => case Unlock(_) =>
    }
  }

  lemma SealedStep(s: State, e: Event, h: HandleId, t: TeardownId)
    requires Inv(s) && Sealed(s, h, t) && Enabled(s, e)
    ensures Sealed(Step(s, e), h, t)
  {
    if OfOp(e) {
      SealedUnderOp(s, e, h, t);
    } else if OfTeardown(e) {
      SealedUnderTeardown(s, e, h, t);
    } else {
      NobodyLeft(s, e, h, t);
    }
    hide Step, Sealed;
  }

  lemma NobodyLeft(s: State, e: Event, h: HandleId, t: TeardownId)
    requires Sealed(s, h, t) && Enabled(s, e)
    ensures OfOp(e) || OfTeardown(e)
  {
    assert forall x :: Usable(s, x) ==> x in s.handles.Keys;
    hide InUse, NoStray, SomeMayBuild;
  }

  lemma {:induction false} SealedForever(s: State, es: History, h: HandleId, t: TeardownId)
    requires Inv(s) && Sealed(s, h, t) && IsRun(s, es)
    ensures Inv(After(s, es)) && Sealed(After(s, es), h, t)
    decreases |es|
  {
    if es != [] {
      SealedStep(s, es[0], h, t);
      InvStep(s, es[0]);
      hide Inv, Sealed, Step, Enabled;
      SealedForever(Step(s, es[0]), es[1..], h, t);
    }
  }

  /** From wherever it is, the release can be brought to the point where all is closed. */
  lemma SealedCloses(s: State, h: HandleId, t: TeardownId) returns (es: History)
    requires Inv(s) && Sealed(s, h, t)
    ensures IsRun(s, es) && After(s, es).slot == None
  {
    SealedLock(s, h, t);
    hide Inv;
    es := [];
    match s.teardowns[t].pc {
      case Begun =>
        TeardownRuns(s, t);
        es := TeardownSteps(t);
      case Marked =>
        MarkedRuns(s, t);
        es := [TakeBundle(t), CloseSlot(t), Unlock(t)];
      case Locked =>
        CloseSlotIs(s, t);
        hide Step, Enabled;
        OneStep(s, CloseSlot(t));
        es := [CloseSlot(t)];
      case _ =>
        assert IsRun(s, []) && After(s, []) == s;
    }
    hide IsRun, After, InUse;
  }

  lemma SealedLock(s: State, h: HandleId, t: TeardownId)
    requires Inv(s) && Sealed(s, h, t)
    ensures s.teardowns[t].pc == Begun || s.teardowns[t].pc == Marked ==> s.lock == Free
  {
    LockBuilds(s);
    LockHolderBusy(s);
    if s.lock.ByTeardown? {
      assert TeardownSound(s, s.lock.t, s.teardowns[s.lock.t]);
    }
    hide Inv, SomeMayBuild, NoStray, InUse;
  }

  lemma SealedLeavesNothing(s: State, h: HandleId, t: TeardownId)
    requires Inv(s) && Sealed(s, h, t)
    ensures !CanBeLeftOpen(s)
  {
    forall more, c | IsRun(s, more) ensures !NeverClosed(After(s, more), c) {
      SealedForever(s, more, h, t);
      var s1 := After(s, more);
      hide Inv, Sealed, NeverClosed;
      SealedNotNeverClosed(s1, h, t, c);
    }
    hide Inv, Sealed, NeverClosed, IsRun, After;
  }

  lemma SealedNotNeverClosed(s: State, h: HandleId, t: TeardownId, c: ConnId)
    requires Inv(s) && Sealed(s, h, t)
    ensures !NeverClosed(s, c)
  {
    var es := SealedCloses(s, h, t);
    SealedForever(s, es, h, t);
    var end := After(s, es);
    hide IsRun, After;
    Cached(end);
    assert NoStray(end);
    ClosedUnlessCached(end);
    hide Inv, Sealed, NoStray;
  }

  // ----- Dropping the last handle -----

  lemma DropIs(s: State, h: HandleId, t: TeardownId)
    requires Usable(s, h) && t !in s.teardowns
    ensures Enabled(s, Drop(h, t))
    ensures Step(s, Drop(h, t)) ==
            if Releases(s, h) then
              s.(teardowns := s.teardowns[t := Teardown(false, Some(h), Begun)], dying := s.dying + {h})
            else s.(handles := s.handles - {h})
  {
    hide Releases;
  }

  lemma UnreleasedDrop(s: State, s1: State, h: HandleId)
    requires Inv(s1) && h in s.handles && NoStray(s) && s1 == s.(handles := map[])
    requires forall x :: x in s.teardowns ==> s.teardowns[x].pc == Finished
    requires CacheSound(s)
    ensures CanBeLeftOpen(s1) <==> SomeMayBuild(s) || s.slot.Some?
  {
    SameStrays(s, s1);
    assert SomeMayBuild(s1) == SomeMayBuild(s);
    assert Abandoned(s1);
    if s1.slot.Some? {
      hide Inv, CanBeLeftOpen, SomeMayBuild, NoStray;
      AbandonedSlotLeftOpen(s1);
    } else {
      ClosedUnlessCached(s1);
      assert IsRun(s1, []) && After(s1, []) == s1;
      AllClosedMeansEmpty(s1, []);
      hide Inv, CanBeLeftOpen, NoStray;
      if SomeMayBuild(s1) {
        BuilderLeavesOpen(s1);
      } else {
        OverLeavesNothing(s1);
      }
    }
  }

  lemma ReleasedDrop(s: State, s1: State, h: HandleId, t: TeardownId)
    requires Inv(s) && Inv(s1) && s.handles.Keys == {h} && NoStray(s) && t !in s.teardowns
    requires s1 == s.(teardowns := s.teardowns[t := Teardown(false, Some(h), Begun)], dying := s.dying + {h})
    requires forall x :: x in s.teardowns ==> s.teardowns[x].pc == Finished
    ensures CanBeLeftOpen(s1) <==> SomeMayBuild(s) || (s.slot.Some? && InUse(s, s.slot.value))
  {
    SameStrays(s, s1);
    SameUse(s, s1);
    LockHolderBusy(s);
    LockBuilds(s);
    assert SomeMayBuild(s1) == SomeMayBuild(s);
    assert Releasing(s1, h, t);
    hide Inv, CanBeLeftOpen, InUse, NoStray;
    if s1.lock.ByOp? {
      LockedReleaseLeavesOpen(s1, h, t);
    } else if SomeMayBuild(s1) || (s1.slot.Some? && InUse(s1, s1.slot.value)) {
      FreeReleaseLeavesOpen(s1, h, t);
    } else {
      SealedLeavesNothing(s1, h, t);
    }
  }

  /** Who holds the lock is building. */
  lemma LockBuilds(s: State)
    requires Inv(s)
    ensures s.lock.ByOp? ==> SomeMayBuild(s)
  {
    Cached(s);
    if s.lock.ByOp? {
      SoundOp(s, s.lock.op);
      assert MayBuild(s, s.ops[s.lock.op]);
    }
    hide Inv;
  }

  /**
   Over every history, with builds, configuration changes, releases and closes in it: dropping the last
   handle can leave engines open for good exactly when some were stranded before, an operation in
   flight may still build, or the drop does not close the cached ones: because an operation is in
   flight, for a C handle; because one is using them, for a Python `Cognee`; always, for a surface.
   */
  lemma LastDropLeavesOpenExactly(h0: HandleId, kind: Kind, es: History, h: HandleId, t: TeardownId)
    requires IsRun(Start(h0, kind), es)
    requires var s := After(Start(h0, kind), es);
             && s.handles.Keys == {h} && s.dying == {} && t !in s.teardowns
             && forall x :: x in s.teardowns ==> s.teardowns[x].pc == Finished
    ensures Enabled(After(Start(h0, kind), es), Drop(h, t))
    ensures var s := After(Start(h0, kind), es);
            CanBeLeftOpen(Step(s, Drop(h, t))) <==>
            Stranded(Start(h0, kind), es) || SomeMayBuild(s) || Kept(s, h)
  {
    var s := After(Start(h0, kind), es);
    StraysAreTheStranded(h0, kind, es);
    InvAlways(h0, kind, es);
    hide IsRun, After, Stranded;
    assert h in s.handles.Keys;
    DropIs(s, h, t);
    InvStep(s, Drop(h, t));
    Cached(s);
    hide Inv, Enabled, CanBeLeftOpen, NoStray;
    DropLeaves(s, Step(s, Drop(h, t)), h, t);
    hide Step, SomeMayBuild, Kept;
  }

  lemma DropLeaves(s: State, s1: State, h: HandleId, t: TeardownId)
    requires Inv(s) && Inv(s1) && s.handles.Keys == {h} && s.dying == {} && t !in s.teardowns
    requires forall x :: x in s.teardowns ==> s.teardowns[x].pc == Finished
    requires s1 == if Releases(s, h) then
                     s.(teardowns := s.teardowns[t := Teardown(false, Some(h), Begun)], dying := s.dying + {h})
                   else s.(handles := s.handles - {h})
    ensures CanBeLeftOpen(s1) <==> !NoStray(s) || SomeMayBuild(s) || Kept(s, h)
  {
    Cached(s);
    LockBuilds(s);
    LockHolderBusy(s);
    if !NoStray(s) {
      var c :| Stray(s, c);
      assert Stray(s1, c);
      hide Inv, CanBeLeftOpen;
      StrayLeftOpen(s1, c);
    } else if Releases(s, h) {
      ReleasedDrop(s, s1, h, t);
      hide Inv, CanBeLeftOpen, NoStray;
      IdleUsesNothing(s);
    } else {
      assert s1.handles == map[];
      hide CanBeLeftOpen, NoStray;
      UnreleasedDrop(s, s1, h);
      hide Inv;
    }
  }

  lemma IdleUsesNothing(s: State)
    ensures (forall op :: op in s.ops ==> !Active(s.ops[op])) ==>
              !SomeMayBuild(s) && forall c :: !InUse(s, c)
  {
  }
}
