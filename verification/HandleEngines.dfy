/**
 What becomes of every set of engines an SDK handle ever opens: whether it gets an awaited close, or
 is only dropped, which for a database is not one.
 */
module HandleEngines {
  import opened Wrappers
  import opened HandleLifecycle
  import opened HandleTheorems

  /** Open, and no longer the cached ones: nothing will close them. */
  predicate Stray(s: State, c: ConnId) {
    c in s.conns && !s.conns[c].closed && s.slot != Some(c)
  }

  ghost predicate NoStray(s: State) {
    forall c: ConnId :: !Stray(s, c)
  }

  predicate AllClosed(s: State) {
    forall c :: c in s.conns ==> s.conns[c].closed
  }

  /** Engines are built over cached ones of an older configuration. */
  predicate Supersedes(s: State, e: Event) {
    e.Build? && s.slot.Some? && !SlotCurrent(s)
  }

  /** A release comes to cached engines that an operation is using. */
  predicate Spares(s: State, e: Event) {
    e.CloseSlot? && e.t in s.teardowns && !s.teardowns[e.t].mark && s.slot.Some? && InUse(s, s.slot.value)
  }

  /** At some point of the history engines were superseded while cached, or spared by a release. */
  ghost predicate Stranded(s: State, es: History)
    requires IsRun(s, es)
    decreases |es|
  {
    es != [] && (Supersedes(s, es[0]) || Spares(s, es[0]) || Stranded(Step(s, es[0]), es[1..]))
  }

  // ----- The account of every engine -----

  lemma BuildStrays(s: State, e: Event)
    requires CacheSound(s) && Enabled(s, e) && e.Build?
    ensures forall c: ConnId :: Stray(Step(s, e), c) <==> Stray(s, c) || (Supersedes(s, e) && s.slot == Some(c))
  {
  }

  lemma CloseSlotStrays(s: State, e: Event)
    requires CacheSound(s) && Enabled(s, e) && e.CloseSlot?
    ensures forall c: ConnId :: Stray(Step(s, e), c) <==> Stray(s, c) || (Spares(s, e) && s.slot == Some(c))
  {
    CloseSlotIs(s, e.t);
    hide Step, Enabled, InUse;
  }

  lemma OthersKeepEngines(s: State, e: Event)
    requires Enabled(s, e) && !e.Build? && !e.CloseSlot?
    ensures Step(s, e).slot == s.slot && Step(s, e).conns == s.conns
  {
    hide Releases, InUse;
    match e {
      case Clone(_, _, _) => case Configure(_) => case Close(_, _) => case Drop(_, _) => case Call(_, _) =>
      case Guard(_) => case ReadVersion(_) => case TryFast(_) => case TrySlow(_) => case BuildFails(_) =>
      case Store(_) => case End(_) => case Mark(_) => case TakeBundle(_) => case Unlock(_) =>
    }
  }

  lemma StrayStep(s: State, e: Event)
    requires CacheSound(s) && Enabled(s, e)
    ensures forall c: ConnId :: Stray(s, c) ==> Stray(Step(s, e), c)
    ensures NoStray(Step(s, e)) <==> NoStray(s) && !Supersedes(s, e) && !Spares(s, e)
  {
    if e.Build? {
      BuildStrays(s, e);
      assert Supersedes(s, e) ==> Stray(Step(s, e), s.slot.value);
    } else if e.CloseSlot? {
      CloseSlotStrays(s, e);
      assert Spares(s, e) ==> Stray(Step(s, e), s.slot.value);
    } else {
      OthersKeepEngines(s, e);
      assert forall c: ConnId :: Stray(Step(s, e), c) <==> Stray(s, c);
    }
    hide Step, Enabled, InUse, CacheSound, SlotCurrent, Stray;
    assert NoStray(Step(s, e)) ==> NoStray(s);
    assert NoStray(Step(s, e)) ==> !Supersedes(s, e);
    assert NoStray(Step(s, e)) ==> !Spares(s, e);
    assert NoStray(s) && !Supersedes(s, e) && !Spares(s, e) ==> NoStray(Step(s, e));
  }

  lemma Cached(s: State)
    requires Inv(s)
    ensures CacheSound(s)
  {
  }

  lemma {:induction false} StraysAfter(s: State, es: History)
    requires Inv(s) && IsRun(s, es)
    ensures NoStray(After(s, es)) <==> NoStray(s) && !Stranded(s, es)
    ensures forall c: ConnId :: Stray(s, c) ==> Stray(After(s, es), c)
    decreases |es|
  {
    if es != [] {
      Cached(s);
      StrayStep(s, es[0]);
      InvStep(s, es[0]);
      hide Inv, Step, Enabled, NoStray, Stray, Supersedes, Spares, CacheSound;
      StraysAfter(Step(s, es[0]), es[1..]);
    }
  }

  /**
   In every history each set of engines ever opened has been closed or is the cached one, unless some
   were superseded while cached or spared by a release; those stay open for good.
   */
  lemma StraysAreTheStranded(h: HandleId, kind: Kind, es: History)
    requires IsRun(Start(h, kind), es)
    ensures NoStray(After(Start(h, kind), es)) <==> !Stranded(Start(h, kind), es)
    ensures AllClosed(After(Start(h, kind), es)) <==>
            !Stranded(Start(h, kind), es) && After(Start(h, kind), es).slot == None
  {
    StraysAfter(Start(h, kind), es);
    InvAlways(h, kind, es);
    hide IsRun, After, Stranded;
    Cached(After(Start(h, kind), es));
    ClosedUnlessCached(After(Start(h, kind), es));
    hide Inv;
  }

  lemma ClosedUnlessCached(s: State)
    requires CacheSound(s)
    ensures AllClosed(s) <==> NoStray(s) && s.slot == None
  {
    if NoStray(s) && s.slot == None {
      forall c | c in s.conns ensures s.conns[c].closed {
        assert !Stray(s, c);
      }
    }
  }

  /** Every set of engines ever opened is closed, in every continuation. */
  ghost predicate ClosedForGood(s: State) {
    forall more :: IsRun(s, more) ==> AllClosed(After(s, more))
  }

  /**
   When a close finishes, every set of engines ever opened is closed exactly when none was stranded
   before; and so it stays, in every continuation, exactly when moreover no operation slipped past.
   */
  lemma CloseClosesAllExactlyWhenNoneStranded(h: HandleId, kind: Kind, es: History, t: TeardownId)
    requires IsRun(Start(h, kind), es) && Enabled(After(Start(h, kind), es), Unlock(t))
    requires After(Start(h, kind), es).teardowns[t].mark
    ensures var s := Step(After(Start(h, kind), es), Unlock(t));
            && (AllClosed(s) <==> !Stranded(Start(h, kind), es))
            && (ClosedForGood(s) <==> !Stranded(Start(h, kind), es) && NoneSlippedPast(s))
  {
    var s0 := After(Start(h, kind), es);
    var s := Step(s0, Unlock(t));
    StraysAreTheStranded(h, kind, es);
    CloseIsFinalExactlyWhenNoneSlippedPast(h, kind, es, t);
    InvAlways(h, kind, es);
    InvStep(s0, Unlock(t));
    OthersKeepEngines(s0, Unlock(t));
    Cached(s);
    hide Inv, Step, Enabled, Stranded, CacheSound, NoneSlippedPast, NoStray, AllClosed, IsRun, After;
    SameStrays(s0, s);
    ClosedUnlessCached(s);
    if AllClosed(s) && NoneSlippedPast(s) {
      StaysClosed(s);
    }
    if ClosedForGood(s) {
      ClosedForGoodMeans(s);
    }
    hide ClosedForGood, CacheEmpty;
  }

  lemma StaysClosed(s: State)
    requires s.closed && CacheEmpty(s) && NoneSlippedPast(s) && AllClosed(s)
    ensures ClosedForGood(s)
  {
    forall more | IsRun(s, more) ensures AllClosed(After(s, more)) {
      QuietForever(s, more);
    }
    hide CacheEmpty, NoneSlippedPast, IsRun, After, AllClosed;
  }

  lemma ClosedForGoodMeans(s: State)
    requires Inv(s) && ClosedForGood(s)
    ensures AllClosed(s) && forall more :: IsRun(s, more) ==> CacheEmpty(After(s, more))
  {
    assert IsRun(s, []) && After(s, []) == s;
    assert AllClosed(After(s, []));
    hide AllClosed, Inv;
    forall more | IsRun(s, more) ensures CacheEmpty(After(s, more)) {
      AllClosedMeansEmpty(s, more);
    }
  }

  lemma SameStrays(s: State, t: State)
    requires t.slot == s.slot && t.conns == s.conns
    ensures NoStray(t) <==> NoStray(s)
  {
    assert forall c: ConnId :: Stray(t, c) <==> Stray(s, c);
  }

  /** Cached engines, and cached services' engines, are open ones. */
  lemma AllClosedMeansEmpty(s: State, more: History)
    requires Inv(s) && IsRun(s, more) && AllClosed(After(s, more))
    ensures CacheEmpty(After(s, more))
  {
    InvAfter(s, more);
    hide IsRun, After;
    Cached(After(s, more));
    hide Inv;
  }

  // ----- Operations in flight -----

  /** Until the handle is closed, what an operation is using is open. */
  ghost predicate RunningOpen(s: State) {
    !s.closed ==> forall op :: op in s.ops && s.ops[op].pc.Running? ==>
      s.ops[op].pc.conn in s.conns && !s.conns[s.ops[op].pc.conn].closed
  }

  lemma RunningOpenUnderOp(s: State, e: Event)
    requires CacheSound(s) && RunningOpen(s) && Enabled(s, e) && OfOp(e) && OpSound(s, e.op, s.ops[e.op])
    ensures RunningOpen(Step(s, e))
  {
    match e {
      case Guard(_) => case ReadVersion(_) => case TryFast(_) => case TrySlow(_) => case Build(_, _) =>
      case BuildFails(_) => case Store(_) => case End(_) =>
    }
  }

  lemma RunningOpenUnderTeardown(s: State, e: Event)
    requires RunningOpen(s) && Enabled(s, e) && OfTeardown(e) && TeardownSound(s, e.t, s.teardowns[e.t])
    ensures RunningOpen(Step(s, e))
  {
    if e.CloseSlot? {
      CloseSlotIs(s, e.t);
      assert s.teardowns[e.t].mark ==> s.closed;
      assert forall op :: op in s.ops && s.ops[op].pc.Running? ==> InUse(s, s.ops[op].pc.conn);
      hide Step, Enabled, InUse;
    } else {
      match e {
        case Mark(_) => case TakeBundle(_) => case Unlock(_) =>
      }
    }
  }

  lemma RunningOpenStep(s: State, e: Event)
    requires Inv(s) && RunningOpen(s) && Enabled(s, e)
    ensures RunningOpen(Step(s, e))
  {
    Cached(s);
    if OfOp(e) {
      SoundOp(s, e.op);
      RunningOpenUnderOp(s, e);
      hide Step, Enabled, RunningOpen;
    } else if OfTeardown(e) {
      assert TeardownSound(s, e.t, s.teardowns[e.t]);
      RunningOpenUnderTeardown(s, e);
      hide Step, Enabled, RunningOpen;
    } else {
      hide Inv, Releases;
      match e {
        case Clone(_, _, _) => case Configure(_) => case Close(_, _) => case Drop(_, _) => case Call(_, _) =>
      }
    }
  }

  lemma {:induction false} RunningOpenAfter(s: State, es: History)
    requires Inv(s) && RunningOpen(s) && IsRun(s, es)
    ensures RunningOpen(After(s, es))
    decreases |es|
  {
    if es != [] {
      RunningOpenStep(s, es[0]);
      InvStep(s, es[0]);
      hide Inv, RunningOpen, Step, Enabled;
      RunningOpenAfter(Step(s, es[0]), es[1..]);
    }
  }

  /** No release, drop, rebuild or configuration change ever closes what an operation in flight is using. */
  lemma RunningStaysOpenUntilClosed(h: HandleId, kind: Kind, es: History, op: OpId)
    requires IsRun(Start(h, kind), es) && !After(Start(h, kind), es).closed
    requires op in After(Start(h, kind), es).ops && After(Start(h, kind), es).ops[op].pc.Running?
    ensures var s := After(Start(h, kind), es);
            s.ops[op].pc.conn in s.conns && !s.conns[s.ops[op].pc.conn].closed
  {
    RunningOpenAfter(Start(h, kind), es);
    hide IsRun, After;
  }
}
